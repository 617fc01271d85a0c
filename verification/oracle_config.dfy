/** The calldata of the oracle configuration contract: a four-byte selector
    followed by 32-byte words, and the decoding of a log's data as one word.
    A receipt is modelled by the data of its logs. */
module OracleConfig {
  import opened Primitives

  const UpdateConfigurationSelector: Bytes := [0x00, 0x00, 0x00, 0x00]
  const GetConfigurationSelector: Bytes := [0x00, 0x00, 0x00, 0x01]

  /** `bytes32`: a 32-byte word */
  type Bytes32 = Hash

  /** the two calls the configuration contract is sent */
  datatype ConfigCall =
    | UpdateConfiguration(key: Bytes32, value: Bytes32)
    | GetConfiguration(key: Bytes32)

  /** the calldata of a call: its selector, then its words in order */
  function Encoding(call: ConfigCall): (data: Bytes)
    ensures call.UpdateConfiguration? ==> |data| == 68
    ensures call.GetConfiguration? ==> |data| == 36
  {
    match call
    case UpdateConfiguration(key, value) => UpdateConfigurationSelector + key + value
    case GetConfiguration(key) => GetConfigurationSelector + key
  }

  /** the reading of calldata the contract side performs */
  function Parse(data: Bytes): (call: Option<ConfigCall>)
    ensures call.Some? ==> |data| == 36 || |data| == 68
  {
    if |data| == 68 && data[..4] == UpdateConfigurationSelector then Some(UpdateConfiguration(data[4..36], data[36..68]))
    else if |data| == 36 && data[..4] == GetConfigurationSelector then Some(GetConfiguration(data[4..36]))
    else None
  }

  /** The key sits at bytes 4..36 of both encodings and the value at bytes
      36..68 of an update, behind a selector that tells the two apart. */
  lemma Layout(key: Bytes32, value: Bytes32)
    ensures Encoding(UpdateConfiguration(key, value))[..4] != Encoding(GetConfiguration(key))[..4]
    ensures Encoding(UpdateConfiguration(key, value))[4..36] == key
    ensures Encoding(UpdateConfiguration(key, value))[36..68] == value
    ensures Encoding(GetConfiguration(key))[4..36] == key
  {
    assert Encoding(UpdateConfiguration(key, value))[..4][3] == 0;
    assert Encoding(GetConfiguration(key))[..4][3] == 1;
  }

  /** Every encoding reads back as the call that produced it. */
  lemma ParseEncoding(call: ConfigCall)
    ensures Parse(Encoding(call)) == Some(call)
  {
    match call
    case UpdateConfiguration(key, value) => Layout(key, value);
    case GetConfiguration(key) => Layout(key, key);
  }

  /** Different calls never share an encoding. */
  lemma EncodingInjective(c1: ConfigCall, c2: ConfigCall)
    requires Encoding(c1) == Encoding(c2)
    ensures c1 == c2
  {
    ParseEncoding(c1);
    ParseEncoding(c2);
  }

  /** `encode_update_configuration` */
  method EncodeUpdateConfiguration(key: Bytes32, value: Bytes32) returns (data: Bytes)
    ensures data == Encoding(UpdateConfiguration(key, value))
  {
    data := [];
    data := data + [0x00, 0x00, 0x00, 0x00];
    data := data + key;
    data := data + value;
  }

  /** `encode_get_configuration` */
  method EncodeGetConfiguration(key: Bytes32) returns (data: Bytes)
    ensures data == Encoding(GetConfiguration(key))
  {
    data := [];
    data := data + [0x00, 0x00, 0x00, 0x01];
    data := data + key;
  }

  /** `decode_get_configuration`: the first log's data as one word. The
      source indexes the first log and converts its data without a length
      check, so a receipt without logs or data of another length panics. */
  function DecodeGetConfiguration(logs: seq<Bytes>): (configuration: Bytes32)
    requires |logs| > 0 && |logs[0]| == 32
    ensures forall i :: 0 <= i < 32 ==> configuration[i] == logs[0][i]
  {
    logs[0]
  }

  /** A log carrying the value field of an update decodes to that value. */
  lemma UpdatedValueDecodes(key: Bytes32, value: Bytes32, logs: seq<Bytes>)
    requires |logs| > 0 && logs[0] == Encoding(UpdateConfiguration(key, value))[36..68]
    ensures DecodeGetConfiguration(logs) == value
  {
    Layout(key, value);
  }
}

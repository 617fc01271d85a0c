/** The deployment helpers: the address check and the file names derived
    from a contract's name, and the two updates they guard, of a contract's
    config file and of its ABI file. The file system is a class whose maps
    hold the parsed config objects and the ABI texts; a caught and logged
    error is recorded as a failure. */
module DeployHelpers {
  import opened Primitives

  /** `[a-fA-F0-9]` */
  predicate IsHexDigit(c: char) {
    ('0' <= c <= '9') || ('a' <= c <= 'f') || ('A' <= c <= 'F')
  }

  /** `/^0x[a-fA-F0-9]{40}$/`: a lower-case `0x` followed by exactly forty
      hex digits of either case */
  predicate IsValidAddress(s: string) {
    |s| == 42 && s[0] == '0' && s[1] == 'x' && forall i :: 2 <= i < 42 ==> IsHexDigit(s[i])
  }

  /** the value of one hex digit */
  function HexValue(c: char): (n: nat)
    requires IsHexDigit(c)
    ensures n < 16
  {
    if '0' <= c <= '9' then c as int - '0' as int
    else if 'a' <= c <= 'f' then c as int - 'a' as int + 10
    else c as int - 'A' as int + 10
  }

  /** the lower-case hex digit of a value below 16 */
  function HexChar(n: nat): (c: char)
    requires n < 16
    ensures IsHexDigit(c) && HexValue(c) == n
  {
    if n < 10 then ('0' as int + n) as char else ('a' as int + n - 10) as char
  }

  /** the 20 bytes an accepted address string denotes */
  function ParseAddress(s: string): (a: Option<Address>)
    ensures a.Some? <==> IsValidAddress(s)
  {
    if IsValidAddress(s) then
      Some(seq(20, k requires 0 <= k < 20 => ByteOf(HexValue(s[2 + 2 * k]), HexValue(s[3 + 2 * k]))))
    else None
  }

  /** the byte with the given high and low nibbles */
  function ByteOf(high: nat, low: nat): (b: Byte)
    requires high < 16 && low < 16
    ensures b / 16 == high && b % 16 == low
  {
    high * 16 + low
  }

  /** an address written the way the regular expression accepts it, in lower
      case */
  function FormatAddress(a: Address): (s: string)
    ensures IsValidAddress(s)
  {
    "0x" + seq(40, i requires 0 <= i < 40 => HexChar(if i % 2 == 0 then a[i / 2] / 16 else a[i / 2] % 16))
  }

  /** Every address has a written form the check accepts, and that form
      denotes the address again. */
  lemma ParseFormatAddress(a: Address)
    ensures ParseAddress(FormatAddress(a)) == Some(a)
  {
    var s := FormatAddress(a);
    var parsed := ParseAddress(s).value;
    forall k | 0 <= k < 20
      ensures parsed[k] == a[k]
    {
      assert s[2 + 2 * k] == HexChar(a[k] / 16);
      assert s[3 + 2 * k] == HexChar(a[k] % 16);
      assert parsed[k] == ByteOf(a[k] / 16, a[k] % 16);
    }
    assert parsed == a;
  }

  /** a hex digit written back from its value is the digit in lower case */
  lemma HexCharOfValue(c: char)
    requires IsHexDigit(c)
    ensures HexChar(HexValue(c)) == LowerChar(c)
  { }

  /** ASCII `toLowerCase` */
  function LowerChar(c: char): (l: char)
    ensures 'A' <= c <= 'Z' ==> l as int == c as int + 32
    ensures !('A' <= c <= 'Z') ==> l == c
  {
    if 'A' <= c <= 'Z' then (c as int + 32) as char else c
  }

  function LowerAscii(s: string): (l: string)
    ensures |l| == |s|
    ensures forall i :: 0 <= i < |s| ==> l[i] == LowerChar(s[i])
  {
    seq(|s|, i requires 0 <= i < |s| => LowerChar(s[i]))
  }

  /** Lowering twice is lowering once. */
  lemma LowerAsciiIdempotent(s: string)
    ensures LowerAscii(LowerAscii(s)) == LowerAscii(s)
  { }

  /** Any accepted address is denoted by its lower-case spelling, so the
      checker accepts each address in every mix of cases and they all mean
      the same 20 bytes. */
  lemma FormatParseAddress(s: string)
    requires IsValidAddress(s)
    ensures FormatAddress(ParseAddress(s).value) == LowerAscii(s)
  {
    var f := FormatAddress(ParseAddress(s).value);
    forall k | 0 <= k < 20
      ensures f[2 + 2 * k] == LowerChar(s[2 + 2 * k]) && f[3 + 2 * k] == LowerChar(s[3 + 2 * k])
    {
      DigitPairLowered(s, k);
    }
    forall i | 2 <= i < 42
      ensures f[i] == LowerChar(s[i])
    {
      var k := (i - 2) / 2;
      if i % 2 == 0 {
        assert i == 2 + 2 * k;
      } else {
        assert i == 3 + 2 * k;
      }
    }
    assert f == LowerAscii(s);
  }

  /** byte `k` of a parsed address is written back as its two digits,
      lowered */
  lemma DigitPairLowered(s: string, k: nat)
    requires IsValidAddress(s) && k < 20
    ensures var f := FormatAddress(ParseAddress(s).value);
            f[2 + 2 * k] == LowerChar(s[2 + 2 * k]) && f[3 + 2 * k] == LowerChar(s[3 + 2 * k])
  {
    var a := ParseAddress(s).value;
    FormattedDigits(a, k);
    assert a[k] == ByteOf(HexValue(s[2 + 2 * k]), HexValue(s[3 + 2 * k]));
    HexCharOfValue(s[2 + 2 * k]);
    HexCharOfValue(s[3 + 2 * k]);
  }

  /** the two digits byte `k` is written as */
  lemma FormattedDigits(a: Address, k: nat)
    requires k < 20
    ensures FormatAddress(a)[2 + 2 * k] == HexChar(a[k] / 16)
    ensures FormatAddress(a)[3 + 2 * k] == HexChar(a[k] % 16)
  {
    var digits := seq(40, i requires 0 <= i < 40 => HexChar(if i % 2 == 0 then a[i / 2] / 16 else a[i / 2] % 16));
    assert FormatAddress(a) == "0x" + digits;
    assert digits[2 * k] == HexChar(a[k] / 16);
    assert digits[2 * k + 1] == HexChar(a[k] % 16);
  }

  /** the config key `updateConfig` writes */
  function ConfigKey(contractName: string): (key: string)
    ensures |key| == |contractName| + 15
    ensures key[..|contractName|] == LowerAscii(contractName)
    ensures key[|contractName|..] == "ContractAddress"
  {
    LowerAscii(contractName) + "ContractAddress"
  }

  /** the config file, relative to the repository root */
  function ConfigPath(contractName: string): string {
    "config/" + LowerAscii(contractName) + "_config.json"
  }

  /** the ABI file, relative to the repository root */
  function AbiPath(contractName: string): string {
    "abi/" + LowerAscii(contractName) + "_abi.json"
  }

  /** Two names share a config file, a config key or an ABI file exactly
      when they agree once lowered. */
  lemma DerivedNamesIdentifyContract(n1: string, n2: string)
    ensures ConfigPath(n1) == ConfigPath(n2) <==> LowerAscii(n1) == LowerAscii(n2)
    ensures ConfigKey(n1) == ConfigKey(n2) <==> LowerAscii(n1) == LowerAscii(n2)
    ensures AbiPath(n1) == AbiPath(n2) <==> LowerAscii(n1) == LowerAscii(n2)
  {
    var l1, l2 := LowerAscii(n1), LowerAscii(n2);
    if ConfigPath(n1) == ConfigPath(n2) {
      assert |l1| == |l2|;
      assert ConfigPath(n1)[7..7 + |l1|] == l1;
      assert ConfigPath(n2)[7..7 + |l2|] == l2;
    }
    if ConfigKey(n1) == ConfigKey(n2) {
      assert ConfigKey(n1)[..|l1|] == l1;
      assert ConfigKey(n2)[..|l2|] == l2;
    }
    if AbiPath(n1) == AbiPath(n2) {
      assert |l1| == |l2|;
      assert AbiPath(n1)[4..4 + |l1|] == l1;
      assert AbiPath(n2)[4..4 + |l2|] == l2;
    }
  }

  /** a value of a parsed config object; only the address the helper writes
      is inspected */
  datatype JsonValue = JsonString(s: string) | JsonOther(text: string)

  /** the object `updateABI` is given: absent, or with an optional
      `interface`, here its JSON-formatted ABI */
  datatype ContractInstance = ContractInstance(interface: Option<string>)

  /** an error caught and logged by one of the helpers */
  datatype Failure = ConfigFailure(contractName: string) | AbiFailure(contractName: string)

  /** The files the helpers read and write: each config file that exists
      and parses, as its object; each ABI file, as its text; whether the ABI
      directory exists; and the errors logged so far. */
  class DeploymentFiles {
    var configs: map<string, map<string, JsonValue>>
    var abis: map<string, string>
    var abiDirExists: bool
    var failures: seq<Failure>

    constructor(configs: map<string, map<string, JsonValue>>, abis: map<string, string>, abiDirExists: bool)
      ensures this.configs == configs && this.abis == abis && this.abiDirExists == abiDirExists
      ensures failures == []
    {
      this.configs := configs;
      this.abis := abis;
      this.abiDirExists := abiDirExists;
      failures := [];
    }

    /** `updateConfig`: an address the check rejects, or a config file that
        is missing or does not parse, is logged and changes no file;
        otherwise the lowered name's key is set to the address and every
        other key and file is left as it was. No error reaches the caller. */
    method UpdateConfig(contractName: string, contractAddress: string)
      modifies this
      ensures abis == old(abis) && abiDirExists == old(abiDirExists)
      ensures !IsValidAddress(contractAddress) || ConfigPath(contractName) !in old(configs) ==>
                configs == old(configs) && failures == old(failures) + [ConfigFailure(contractName)]
      ensures IsValidAddress(contractAddress) && ConfigPath(contractName) in old(configs) ==>
                && failures == old(failures)
                && configs == old(configs)[ConfigPath(contractName) :=
                     old(configs)[ConfigPath(contractName)][ConfigKey(contractName) := JsonString(contractAddress)]]
    {
      var configPath := ConfigPath(contractName);
      if !IsValidAddress(contractAddress) {
        failures := failures + [ConfigFailure(contractName)];
        return;
      }
      if configPath !in configs {
        failures := failures + [ConfigFailure(contractName)];
        return;
      }
      var config := configs[configPath];
      config := config[ConfigKey(contractName) := JsonString(contractAddress)];
      configs := configs[configPath := config];
    }

    /** `updateABI`: a missing instance or one without `interface` is
        logged before any file is touched; otherwise the ABI directory is
        created if needed and the ABI text is written to the lowered name's
        file. No error reaches the caller. */
    method UpdateAbi(contractName: string, contractInstance: Option<ContractInstance>)
      modifies this
      ensures configs == old(configs)
      ensures contractInstance.None? || contractInstance.value.interface.None? ==>
                abis == old(abis) && abiDirExists == old(abiDirExists) && failures == old(failures) + [AbiFailure(contractName)]
      ensures contractInstance.Some? && contractInstance.value.interface.Some? ==>
                && failures == old(failures) && abiDirExists
                && abis == old(abis)[AbiPath(contractName) := contractInstance.value.interface.value]
    {
      var abiFilePath := AbiPath(contractName);
      if contractInstance.None? || contractInstance.value.interface.None? {
        failures := failures + [AbiFailure(contractName)];
        return;
      }
      var abi := contractInstance.value.interface.value;
      if !abiDirExists {
        abiDirExists := true;
      }
      abis := abis[abiFilePath := abi];
    }
  }

  /** The address written by a successful update is the one the check
      accepted, and it denotes an Ethereum address. */
  lemma WrittenAddressIsValid(config: map<string, JsonValue>, contractName: string, contractAddress: string)
    requires IsValidAddress(contractAddress)
    ensures var written := config[ConfigKey(contractName) := JsonString(contractAddress)];
            && written[ConfigKey(contractName)].s == contractAddress
            && ParseAddress(written[ConfigKey(contractName)].s).Some?
            && forall k :: k in config && k != ConfigKey(contractName) ==> k in written && written[k] == config[k]
  { }
}

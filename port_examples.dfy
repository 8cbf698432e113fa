/** Concrete inspect outputs and what the lookup makes of them. */
module PortExamples {
  import opened Wrappers
  import opened PyText
  import opened PortResolver

  /** Outcomes where the first inspect succeeds with `out`. */
  function LocalImage(out: string): Outcomes
  {
    Outcomes(Ok(out), NonZero, NonZero)
  }

  /** "9008/tcp" contains "/tcp" and its prefix parses to 9008. */
  lemma Key9008(key: string)
    requires key == "9008/tcp"
    ensures IsTcpKey(key) && PortOfKey(key) == Some(9008)
  {
    assert NatToDecimal(9008) == "9008";
    TcpKeyOf(key, 9008);
  }

  /** `{"9008/tcp": {}, "9009/udp": {}}` gives 9008. */
  lemma TcpBeforeUdp(keys: seq<string>)
    requires keys == ["9008/tcp", "9009/udp"]
    ensures GetImagePort(LocalImage("{\"9008/tcp\": {}, \"9009/udp\": {}}"), s => Object(keys)) == 9008
  {
    Key9008(keys[0]);
    assert FirstTcpIndex(keys, 0);
    FirstTcpKeyDecides(LocalImage("{\"9008/tcp\": {}, \"9009/udp\": {}}"), s => Object(keys), 0);
  }

  /** `{}` and `null` give the default. */
  lemma NothingExposed()
    ensures GetImagePort(LocalImage("{}"), s => Object([])) == DefaultPort
    ensures GetImagePort(LocalImage("null"), s => Null) == DefaultPort
  {
  }

  /**
   * `sub` does not occur in `s` when the only place its first character
   * occurs in `s` is not an occurrence of `sub`.
   */
  lemma AbsentWhenLeadCharMisplaced(s: string, sub: string, j: int)
    requires |sub| > 0
    requires forall i :: 0 <= i < |s| && s[i] == sub[0] ==> i == j
    requires !OccursAt(s, sub, j)
    ensures !Contains(s, sub)
  {
  }

  /** "9009/udp" does not contain "/tcp". */
  lemma UdpKeyIsNotTcp(key: string)
    requires key == "9009/udp"
    ensures !IsTcpKey(key)
  {
    assert key[4..8][1] == 'u';
    AbsentWhenLeadCharMisplaced(key, "/tcp", 4);
  }

  /** `{"9009/udp": {}}` has no TCP key and gives the default. */
  lemma UdpOnly()
    ensures GetImagePort(LocalImage("{\"9009/udp\": {}}"), s => Object(["9009/udp"])) == DefaultPort
  {
    UdpKeyIsNotTcp("9009/udp");
    NoTcpKeyGivesDefault(LocalImage("{\"9009/udp\": {}}"), s => Object(["9009/udp"]));
  }

  /** A key `<n>/tcp` with `n` within the digit limit is a TCP key with port `n`. */
  lemma TcpKeyOf(key: string, n: int)
    requires key == IntToDecimal(n) + "/" + "tcp" && WithinDigitLimit(n)
    ensures IsTcpKey(key) && PortOfKey(key) == Some(n)
  {
    RenderedTcpKey(n, "tcp");
    RenderedKeyPort(n, "tcp");
  }

  /** A single TCP key with port `n` gives `n`. */
  lemma SingleTcpKey(keys: seq<string>, n: int)
    requires |keys| == 1 && IsTcpKey(keys[0]) && PortOfKey(keys[0]) == Some(n)
    ensures Interpret(Object(keys)) == Detected(n)
  {
    assert FirstTcpIndex(keys, 0);
    ScanKeysFirstMatch(keys, 0);
  }

  /** No range check: "0/tcp" gives 0. */
  lemma PortZero(keys: seq<string>)
    requires keys == ["0/tcp"]
    ensures Interpret(Object(keys)) == Detected(0)
  {
    assert NatToDecimal(0) == "0";
    TcpKeyOf(keys[0], 0);
    SingleTcpKey(keys, 0);
  }

  /** No range check: "99999/tcp" gives 99999. */
  lemma PortAboveRange(keys: seq<string>)
    requires keys == ["99999/tcp"]
    ensures Interpret(Object(keys)) == Detected(99999)
  {
    assert NatToDecimal(99999) == "99999";
    TcpKeyOf(keys[0], 99999);
    SingleTcpKey(keys, 99999);
  }

  /** `int("http")` raises. */
  lemma HttpIsNotANumber(word: string)
    requires word == "http"
    ensures ParseInt(word) == None
  {
    assert forall i :: 0 <= i < |word| ==> !IsDigit(word[i]);
  }

  /** "http/tcp" contains "/tcp". */
  lemma HttpKeyIsTcp(key: string)
    requires key == "http/tcp"
    ensures IsTcpKey(key)
  {
    assert OccursAt(key, "/tcp", 4);
  }

  /** The prefix of "http/tcp" does not parse. */
  lemma HttpKeyHasNoPort(key: string)
    requires key == "http/tcp"
    ensures PortOfKey(key) == None
  {
  }

  /**
   * The first key containing "/tcp" decides even when its prefix is not a
   * number: `int("http")` raises and the later "80/tcp" is never looked at.
   */
  lemma UnparseableFirstTcpKey(keys: seq<string>)
    requires keys == ["http/tcp", "80/tcp"]
    ensures Interpret(Object(keys)) == Defaulted(Unexpected)
  {
    HttpKeyIsTcp(keys[0]);
    HttpKeyHasNoPort(keys[0]);
    assert FirstTcpIndex(keys, 0);
    ScanKeysFirstMatch(keys, 0);
  }

  /**
   * `int()` does not skip the separator U+001C, although `str.isspace()`
   * accepts it: `int("\x1c80")` raises.
   */
  lemma FileSeparatorIsNotSkipped(s: string)
    requires s == "\U{1C}80"
    ensures ParseInt(s) == None
  {
    assert !IsSpace(s[0]) && !IsSpace(s[|s| - 1]);
    assert TrimRight(s) == s && TrimLeft(s) == s;
    assert !IsDigit(s[0]);
  }

  /** A timed-out first inspect is the only command run. */
  lemma InspectTimeout()
    ensures Acquire(Outcomes(Timeout, Ok(""), Ok("{}"))).consulted == [FirstInspect]
    ensures GetImagePort(Outcomes(Timeout, Ok(""), Ok("{}")), s => Object(["80/tcp"])) == DefaultPort
  {
  }
}

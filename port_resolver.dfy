/**
 * The port lookup of the compose generator: `get_image_port` works out the
 * TCP port a container image listens on from `docker inspect`, pulling the
 * image and inspecting it once more when it is not available locally, and
 * falls back to `DefaultPort` whenever anything goes wrong. It never fails.
 *
 * The three docker commands and the JSON decoder are not run here: their
 * outcomes are inputs (`Outcomes`, and `decode` for `json.loads`).
 */
module PortResolver {
  import opened Wrappers
  import opened PyText

  /** The port used whenever no TCP port can be detected. */
  const DefaultPort: int := 9009

  /** What one `subprocess.run` of a docker command gives. */
  datatype CmdOutcome =
    | Ok(stdout: string)   // exit status 0
    | NonZero              // any other exit status
    | Timeout              // `subprocess.TimeoutExpired` was raised
    | LaunchError          // any other exception, e.g. no `docker` executable

  /** The docker commands the lookup may run, in the order it may run them. */
  datatype Step = FirstInspect | Pull | Reinspect

  /** What each command would give for this image if it were run. */
  datatype Outcomes = Outcomes(inspect: CmdOutcome, pull: CmdOutcome, reinspect: CmdOutcome)
  {
    function Of(step: Step): CmdOutcome
    {
      match step
      case FirstInspect => inspect
      case Pull => pull
      case Reinspect => reinspect
    }
  }

  /**
   * What `json.loads` makes of the inspect output: an error, `null`, an
   * object (its keys in the decoder's insertion order), or any other JSON
   * value (list, string, number, boolean), of which only Python's
   * truthiness matters.
   */
  datatype Decoded =
    | Malformed
    | Null
    | Object(keys: seq<string>)
    | NonObject(truthy: bool)

  /** Why the lookup fell back to the default: one reason per exit branch. */
  datatype Reason =
    | TimedOut          // `except subprocess.TimeoutExpired`
    | PullFailed        // `docker pull` exited non-zero
    | ReinspectFailed   // the inspect after the pull exited non-zero
    | Undecodable       // `except json.JSONDecodeError`
    | NoExposedPorts    // the decoded value is falsy
    | NoTcpPort         // no key contains "/tcp"
    | Unexpected        // `except Exception`: a command could not be launched,
                        // or `.keys()` or `int()` raised

  /** A detected port, or the reason for falling back to the default. */
  datatype Resolution = Detected(port: int) | Defaulted(reason: Reason)

  /** The inspect output to decode, or the reason the commands gave up. */
  datatype Fetched = Output(stdout: string) | GaveUp(reason: Reason)

  /** The commands actually run, in order, and what they yielded. */
  datatype Acquisition = Acquisition(consulted: seq<Step>, fetched: Fetched)

  // -----------------------------------------------------------------------
  // Layer 1: the command recovery tree
  // -----------------------------------------------------------------------

  /**
   * Runs inspect; on a non-zero exit pulls, and after a successful pull
   * inspects once more. The commands run always start with the first
   * inspect; a pull happens exactly when that inspect exited non-zero, a
   * second inspect exactly when the pull then succeeded. The output handed
   * on is that of the last command run, which is then an inspect that
   * succeeded; otherwise the lookup gives up for a reason that comes from
   * the commands: a timeout exactly when a command run timed out, the broad
   * handler exactly when a command run could not be launched.
   */
  function Acquire(o: Outcomes): (a: Acquisition)
    ensures 1 <= |a.consulted| <= 3
    ensures a.consulted == [FirstInspect, Pull, Reinspect][..|a.consulted|]
    ensures Pull in a.consulted <==> o.inspect.NonZero?
    ensures Reinspect in a.consulted <==> o.inspect.NonZero? && o.pull.Ok?
    ensures a.fetched.Output? <==> o.Of(a.consulted[|a.consulted| - 1]).Ok?
    ensures a.fetched.Output? ==>
              a.consulted[|a.consulted| - 1] != Pull &&
              a.fetched.stdout == o.Of(a.consulted[|a.consulted| - 1]).stdout
    ensures a.fetched.GaveUp? ==> a.fetched.reason in {TimedOut, PullFailed, ReinspectFailed, Unexpected}
    ensures a.fetched == GaveUp(TimedOut) <==> exists s :: s in a.consulted && o.Of(s).Timeout?
    ensures a.fetched == GaveUp(Unexpected) <==> exists s :: s in a.consulted && o.Of(s).LaunchError?
    ensures a.fetched == GaveUp(PullFailed) <==> o.inspect.NonZero? && o.pull.NonZero?
    ensures a.fetched == GaveUp(ReinspectFailed) <==>
              o.inspect.NonZero? && o.pull.Ok? && o.reinspect.NonZero?
  {
    match o.inspect
    case Ok(out) => Acquisition([FirstInspect], Output(out))
    case Timeout => Acquisition([FirstInspect], GaveUp(TimedOut))
    case LaunchError => Acquisition([FirstInspect], GaveUp(Unexpected))
    case NonZero =>
      match o.pull
      case Timeout => Acquisition([FirstInspect, Pull], GaveUp(TimedOut))
      case LaunchError => Acquisition([FirstInspect, Pull], GaveUp(Unexpected))
      case NonZero => Acquisition([FirstInspect, Pull], GaveUp(PullFailed))
      case Ok(_) =>
        var run := [FirstInspect, Pull, Reinspect];
        match o.reinspect
        case Ok(out) => Acquisition(run, Output(out))
        case Timeout => Acquisition(run, GaveUp(TimedOut))
        case LaunchError => Acquisition(run, GaveUp(Unexpected))
        case NonZero => Acquisition(run, GaveUp(ReinspectFailed))
  }

  // -----------------------------------------------------------------------
  // Layer 2: the port from the decoded exposed-ports mapping
  // -----------------------------------------------------------------------

  /** `"/tcp" in port_str`: the key holds "/tcp" at some index. */
  predicate IsTcpKey(key: string)
    ensures IsTcpKey(key) <==> exists i :: OccursAt(key, "/tcp", i)
  {
    Contains(key, "/tcp")
  }

  /** A digit of `split("/")[0]` is a digit of the key before its first "/". */
  lemma HeadDigitIsKeyDigit(key: string, i: int)
    requires 0 <= i < |Split(key, '/')[0]| && IsDigit(Split(key, '/')[0][i])
    ensures IsDigit(key[i]) && '/' !in key[..i]
  {
    var head := Split(key, '/')[0];
    SplitHeadIsPrefixBeforeSeparator(key, '/');
    assert key[..i] == head[..i];
  }

  /**
   * `int(port_str.split("/")[0])`, with `None` for the `ValueError`: a port
   * is only ever read from digits that come before the key's first "/".
   */
  function PortOfKey(key: string): (r: Option<int>)
    ensures r.Some? ==> exists i :: 0 <= i < |key| && IsDigit(key[i]) && '/' !in key[..i]
  {
    var head := Split(key, '/')[0];
    var r := ParseInt(head);
    assert r.Some? ==> exists i :: 0 <= i < |key| && IsDigit(key[i]) && '/' !in key[..i] by {
      if r.Some? {
        var i :| 0 <= i < |head| && IsDigit(head[i]);
        HeadDigitIsKeyDigit(key, i);
      }
    }
    r
  }

  /** The text `int()` sees is everything before the key's first "/". */
  lemma PortOfKeyParsesHead(head: string, rest: string)
    requires '/' !in head
    ensures PortOfKey(head + "/" + rest) == ParseInt(head)
  {
    var key := head + "/" + rest;
    SplitHeadIsPrefixBeforeSeparator(key, '/');
    var first := Split(key, '/')[0];
    assert key[..|head|] == head;
    assert key[|head|] == '/';
    assert |first| == |head|;
    assert first == key[..|first|];
  }

  /**
   * Docker's exposed-port keys read `<port>/<protocol>`: the prefix of such
   * a key parses back to the port, as long as `int()` accepts its length.
   */
  lemma RenderedKeyPort(n: int, protocol: string)
    ensures PortOfKey(IntToDecimal(n) + "/" + protocol) ==
              if WithinDigitLimit(n) then Some(n) else None
  {
    DecimalHasNoSlash(n);
    PortOfKeyParsesHead(IntToDecimal(n), protocol);
    ParseIntDecimal(n);
  }

  lemma DecimalHasNoSlash(n: int)
    ensures '/' !in IntToDecimal(n)
  {
    var digits := IntToDecimal(n);
    var m := if n < 0 then -n else n;
    NatToDecimalDigits(m);
    if n < 0 {
      assert digits == "-" + NatToDecimal(m);
      assert forall i :: 1 <= i < |digits| ==> digits[i] == NatToDecimal(m)[i - 1];
    }
  }

  /** A key `<port>/<protocol>` whose protocol starts with "tcp" contains "/tcp". */
  lemma RenderedTcpKey(n: int, protocol: string)
    requires |protocol| >= 3 && protocol[..3] == "tcp"
    ensures IsTcpKey(IntToDecimal(n) + "/" + protocol)
  {
    var digits := IntToDecimal(n);
    var key := digits + "/" + protocol;
    assert key[|digits|..|digits| + 4] == "/tcp";
    assert OccursAt(key, "/tcp", |digits|);
  }

  /** `i` is the first index of `keys` holding a key that contains "/tcp". */
  ghost predicate FirstTcpIndex(keys: seq<string>, i: int)
  {
    && 0 <= i < |keys|
    && IsTcpKey(keys[i])
    && forall j :: 0 <= j < i ==> !IsTcpKey(keys[j])
  }

  /**
   * The `for port_str in exposed_ports.keys()` loop and the return after
   * it: a find-first over the keys in order.
   */
  function ScanKeys(keys: seq<string>): (r: Resolution)
    ensures r.Defaulted? ==> r.reason == NoTcpPort || r.reason == Unexpected
  {
    if keys == [] then
      Defaulted(NoTcpPort)
    else if IsTcpKey(keys[0]) then
      match PortOfKey(keys[0])
      case Some(p) => Detected(p)
      case None => Defaulted(Unexpected)   // `int()` raised
    else
      ScanKeys(keys[1..])
  }

  /**
   * The scan decides on the first key containing "/tcp" and on no other:
   * its prefix parses to the port, or `int()` raises and the broad handler
   * gives the default.
   */
  lemma {:induction false} ScanKeysFirstMatch(keys: seq<string>, i: int)
    requires FirstTcpIndex(keys, i)
    ensures ScanKeys(keys) ==
              if PortOfKey(keys[i]).Some? then Detected(PortOfKey(keys[i]).value)
              else Defaulted(Unexpected)
  {
    if i > 0 {
      assert !IsTcpKey(keys[0]);
      assert FirstTcpIndex(keys[1..], i - 1);
      ScanKeysFirstMatch(keys[1..], i - 1);
    }
  }

  /** The scan finds no TCP port exactly when no key contains "/tcp". */
  lemma {:induction false} ScanKeysNoTcpKey(keys: seq<string>)
    ensures ScanKeys(keys) == Defaulted(NoTcpPort) <==> forall k :: k in keys ==> !IsTcpKey(k)
  {
    if keys != [] {
      ScanKeysNoTcpKey(keys[1..]);
      assert forall k :: k in keys <==> k == keys[0] || k in keys[1..];
    }
  }

  /** When some key contains "/tcp", one of them comes first. */
  lemma {:induction false} FirstTcpIndexExists(keys: seq<string>, k: int)
    requires 0 <= k < |keys| && IsTcpKey(keys[k])
    ensures exists i :: FirstTcpIndex(keys, i)
  {
    if forall j :: 0 <= j < k ==> !IsTcpKey(keys[j]) {
      assert FirstTcpIndex(keys, k);
    } else {
      var j :| 0 <= j < k && IsTcpKey(keys[j]);
      FirstTcpIndexExists(keys, j);
    }
  }

  /**
   * A port the scan detects is the parsed prefix of the first key that
   * contains "/tcp"; conversely, when that key's prefix parses, the scan
   * detects it.
   */
  lemma ScanKeysDetected(keys: seq<string>, p: int)
    ensures ScanKeys(keys) == Detected(p) <==>
              exists i :: FirstTcpIndex(keys, i) && PortOfKey(keys[i]) == Some(p)
  {
    if ScanKeys(keys) == Detected(p) {
      ScanKeysNoTcpKey(keys);
      var k :| k in keys && IsTcpKey(k);
      var kk :| 0 <= kk < |keys| && keys[kk] == k;
      FirstTcpIndexExists(keys, kk);
      var i :| FirstTcpIndex(keys, i);
      ScanKeysFirstMatch(keys, i);
    }
    if exists i :: FirstTcpIndex(keys, i) && PortOfKey(keys[i]) == Some(p) {
      var i :| FirstTcpIndex(keys, i) && PortOfKey(keys[i]) == Some(p);
      ScanKeysFirstMatch(keys, i);
    }
  }

  /**
   * `exposed_ports = json.loads(...)` up to the end of the `try`: a decode
   * error, a falsy value, a truthy non-object (whose `.keys()` raises) and
   * an object whose keys fail the scan give the default; only a non-empty
   * object can give a port, and then it is the scan's port.
   */
  function Interpret(v: Decoded): (r: Resolution)
    ensures r == Defaulted(Undecodable) <==> v.Malformed?
    ensures r == Defaulted(NoExposedPorts) <==>
              v.Null? || v == Object([]) || v == NonObject(false)
    ensures r.Detected? ==> v.Object? && v.keys != [] && r == ScanKeys(v.keys)
  {
    match v
    case Malformed => Defaulted(Undecodable)
    case Null => Defaulted(NoExposedPorts)
    case NonObject(truthy) => if truthy then Defaulted(Unexpected) else Defaulted(NoExposedPorts)
    case Object(keys) => if keys == [] then Defaulted(NoExposedPorts) else ScanKeys(keys)
  }

  // -----------------------------------------------------------------------
  // The whole lookup
  // -----------------------------------------------------------------------

  /** The resolution the lookup reaches: the recovery tree, then the mapping. */
  function Resolve(o: Outcomes, decode: string -> Decoded): (r: Resolution)
    ensures r.Detected? ==> Acquire(o).fetched.Output?
    ensures r.Detected? ==> r == Interpret(decode(Acquire(o).fetched.stdout))
  {
    match Acquire(o).fetched
    case GaveUp(reason) => Defaulted(reason)
    case Output(out) => Interpret(decode(out))
  }

  lemma DetectedComesFromTcpKey(o: Outcomes, decode: string -> Decoded)
    requires Resolve(o, decode).Detected?
    ensures Acquire(o).fetched.Output?
    ensures decode(Acquire(o).fetched.stdout).Object?
    ensures exists k :: k in decode(Acquire(o).fetched.stdout).keys &&
                        IsTcpKey(k) && PortOfKey(k) == Some(Resolve(o, decode).port)
  {
    var keys := decode(Acquire(o).fetched.stdout).keys;
    var p := Resolve(o, decode).port;
    ScanKeysDetected(keys, p);
    var i :| FirstTcpIndex(keys, i) && PortOfKey(keys[i]) == Some(p);
    assert keys[i] in keys;
  }

  /**
   * `get_image_port`: total, and its result is either `DefaultPort` or the
   * parsed prefix of a key containing "/tcp" in the decoded inspect output.
   */
  function GetImagePort(o: Outcomes, decode: string -> Decoded): (port: int)
    ensures port == DefaultPort ||
            (Acquire(o).fetched.Output? &&
             decode(Acquire(o).fetched.stdout).Object? &&
             exists k :: k in decode(Acquire(o).fetched.stdout).keys &&
                         IsTcpKey(k) && PortOfKey(k) == Some(port))
  {
    var r := Resolve(o, decode);
    if r.Detected? then
      DetectedComesFromTcpKey(o, decode);
      r.port
    else
      DefaultPort
  }

  // -----------------------------------------------------------------------
  // Properties of the lookup
  // -----------------------------------------------------------------------

  /**
   * A successful first inspect is the only command run, and the port then
   * depends on nothing but its output.
   */
  lemma InspectHitSkipsPull(o: Outcomes, o': Outcomes, decode: string -> Decoded)
    requires o.inspect.Ok? && o'.inspect == o.inspect
    ensures Acquire(o).consulted == [FirstInspect]
    ensures Resolve(o, decode) == Interpret(decode(o.inspect.stdout))
    ensures GetImagePort(o, decode) == GetImagePort(o', decode)
  {
  }

  /** A command that cannot be launched ends the lookup with the default. */
  lemma LaunchErrorGivesDefault(o: Outcomes, decode: string -> Decoded, s: Step)
    requires s in Acquire(o).consulted && o.Of(s).LaunchError?
    ensures Resolve(o, decode) == Defaulted(Unexpected)
    ensures GetImagePort(o, decode) == DefaultPort
  {
  }

  /** A failed inspect and a failed pull give the default without a second inspect. */
  lemma PullFailureGivesDefault(o: Outcomes, decode: string -> Decoded)
    requires o.inspect.NonZero? && !o.pull.Ok?
    ensures Acquire(o).consulted == [FirstInspect, Pull]
    ensures GetImagePort(o, decode) == DefaultPort
  {
  }

  /** A failed inspect, a good pull and a failed second inspect give the default. */
  lemma ReinspectFailureGivesDefault(o: Outcomes, decode: string -> Decoded)
    requires o.inspect.NonZero? && o.pull.Ok? && !o.reinspect.Ok?
    ensures Acquire(o).consulted == [FirstInspect, Pull, Reinspect]
    ensures GetImagePort(o, decode) == DefaultPort
  {
  }

  /** A failed inspect, a good pull and a good second inspect use the second output. */
  lemma ReinspectHitUsesItsOutput(o: Outcomes, decode: string -> Decoded)
    requires o.inspect.NonZero? && o.pull.Ok? && o.reinspect.Ok?
    ensures Resolve(o, decode) == Interpret(decode(o.reinspect.stdout))
  {
  }

  /** A timeout in any command that is run gives the default. */
  lemma TimeoutGivesDefault(o: Outcomes, decode: string -> Decoded, s: Step)
    requires s in Acquire(o).consulted && o.Of(s).Timeout?
    ensures Resolve(o, decode) == Defaulted(TimedOut)
    ensures GetImagePort(o, decode) == DefaultPort
  {
  }

  /** Undecodable output, or a falsy decoded value, gives the default. */
  lemma UndecodableOrFalsyGivesDefault(o: Outcomes, decode: string -> Decoded)
    requires Acquire(o).fetched.Output?
    requires var v := decode(Acquire(o).fetched.stdout);
             v.Malformed? || v.Null? || v == Object([]) || v == NonObject(false)
    ensures GetImagePort(o, decode) == DefaultPort
  {
  }

  /**
   * With an object decoded, the port is the parsed prefix of the first key
   * containing "/tcp"; an unparseable prefix of that key gives the default,
   * whatever the later keys hold.
   */
  lemma FirstTcpKeyDecides(o: Outcomes, decode: string -> Decoded, i: int)
    requires Acquire(o).fetched.Output?
    requires decode(Acquire(o).fetched.stdout).Object?
    requires FirstTcpIndex(decode(Acquire(o).fetched.stdout).keys, i)
    ensures var key := decode(Acquire(o).fetched.stdout).keys[i];
            GetImagePort(o, decode) == if PortOfKey(key).Some? then PortOfKey(key).value else DefaultPort
  {
    ScanKeysFirstMatch(decode(Acquire(o).fetched.stdout).keys, i);
  }

  /** With an object decoded but no key containing "/tcp", the port is the default. */
  lemma NoTcpKeyGivesDefault(o: Outcomes, decode: string -> Decoded)
    requires Acquire(o).fetched.Output?
    requires decode(Acquire(o).fetched.stdout).Object?
    requires forall k :: k in decode(Acquire(o).fetched.stdout).keys ==> !IsTcpKey(k)
    ensures GetImagePort(o, decode) == DefaultPort
  {
    ScanKeysNoTcpKey(decode(Acquire(o).fetched.stdout).keys);
  }

  /**
   * A port is detected exactly when an inspect succeeded, its output decodes
   * to an object, and the first key of that object containing "/tcp" has a
   * prefix `int()` accepts; the port is that prefix's value.
   */
  lemma DetectedIff(o: Outcomes, decode: string -> Decoded, p: int)
    ensures Resolve(o, decode) == Detected(p) <==>
              && Acquire(o).fetched.Output?
              && decode(Acquire(o).fetched.stdout).Object?
              && exists i :: FirstTcpIndex(decode(Acquire(o).fetched.stdout).keys, i) &&
                             PortOfKey(decode(Acquire(o).fetched.stdout).keys[i]) == Some(p)
  {
    if Acquire(o).fetched.Output? && decode(Acquire(o).fetched.stdout).Object? {
      ScanKeysDetected(decode(Acquire(o).fetched.stdout).keys, p);
    }
  }
}

/**
 * The parsing half of `OSPDnetstat.exec_scan`: every line of `netstat -tlpn`
 * output is split into whitespace-separated fields; a line whose first
 * field is `tcp` names its local address `address:port` in field 3, and the
 * port is kept when the address is `0.0.0.0`.  A `tcp` line without a field
 * 3, or whose field 3 has no colon, makes the source raise `IndexError`.
 */
module NetstatParser {
  import opened Wrappers
  import opened PyStr

  /** The IPv4 wildcard address: the only bind address whose ports are reported. */
  const AllInterfaces: string := "0.0.0.0"

  /** The `IndexError` raised while parsing, with the index of the offending line. */
  datatype ParseError = IndexError(lineIndex: nat)

  /** What one line of output contributes. */
  datatype LineVerdict = Skipped | Listening(port: string) | Malformed

  /**
   * One iteration of the parsing loop: normalise the whitespace, split, and
   * extract the port BEFORE comparing the address, as the source does.
   */
  function ClassifyLine(line: string): LineVerdict
  {
    var words := Words(JoinWith(" ", Words(line)));
    if |words| > 2 && words[0] == "tcp" then
      if |words| < 4 then Malformed
      else
        var parts := SplitOn(words[3], ':');
        if |parts| < 2 then Malformed
        else if parts[0] == AllInterfaces then Listening(parts[1])
        else Skipped
    else Skipped
  }

  // ---- Reference definitions, stated on the fields of the line ----

  /** More than two fields, the first one exactly `tcp` (so `tcp6` lines are not). */
  predicate IsTcpLine(line: string) {
    var w := Words(line);
    |w| > 2 && w[0] == "tcp"
  }

  /** A `tcp` line with no field 3, or with a field 3 that holds no colon. */
  predicate LacksPortField(line: string) {
    IsTcpLine(line) && (|Words(line)| == 3 || ':' !in Words(line)[3])
  }

  /**
   * An address field that reads `0.0.0.0:` followed by `port`, where `port`
   * runs up to the next colon or to the end of the field.
   */
  predicate AddressBindsAll(a: string, port: string) {
    var start := |AllInterfaces| + 1;
    var end := start + |port|;
    end <= |a| && a[..|AllInterfaces|] == AllInterfaces && a[|AllInterfaces|] == ':'
    && a[start..end] == port && ':' !in port && (end == |a| || a[end] == ':')
  }

  /** A `tcp` line whose field 3 binds `port` on `0.0.0.0`. */
  predicate BindsAllInterfaces(line: string, port: string) {
    IsTcpLine(line) && |Words(line)| > 3 && AddressBindsAll(Words(line)[3], port)
  }

  /** What the loop makes of field 3 by `split(":")` agrees with `AddressBindsAll`. */
  lemma AddressParts(a: string, port: string)
    ensures (var parts := SplitOn(a, ':');
             |parts| >= 2 && parts[0] == AllInterfaces && parts[1] == port)
      <==> AddressBindsAll(a, port)
  {
    var parts := SplitOn(a, ':');
    var i := IndexOf(a, ':');
    SplitOnHead(a, ':');
    SplitOnHasSecond(a, ':');
    if AddressBindsAll(a, port) {
      AddressBindsAllSplit(a, port);
    }
    if i < |a| {
      var b := a[i + 1..];
      SplitOnTail(a, ':');
      SplitOnHead(b, ':');
      var j := IndexOf(b, ':');
      assert parts[1] == b[..j];
      if parts[0] == AllInterfaces && parts[1] == port {
        assert i == |AllInterfaces| && j == |port|;
        assert a[i + 1..i + 1 + j] == b[..j];
      }
    }
  }

  /** The direction from the slices to the `split(":")` parts. */
  lemma AddressBindsAllSplit(a: string, port: string)
    requires AddressBindsAll(a, port)
    ensures IndexOf(a, ':') == |AllInterfaces|
    ensures IndexOf(a[|AllInterfaces| + 1..], ':') == |port|
  {
    var n := |AllInterfaces|;
    assert forall k :: 0 <= k < n ==> a[k] == a[..n][k];
    var b := a[n + 1..];
    assert b[..|port|] == port;
    assert forall k :: 0 <= k < |port| ==> b[k] == port[k];
    assert |port| < |b| ==> b[|port|] == ':';
  }

  /** A line is malformed exactly when it is a `tcp` line without a usable field 3. */
  lemma ClassifyMalformed(line: string)
    ensures ClassifyLine(line) == Malformed <==> LacksPortField(line)
  {
    NormalizeWhitespace(line);
    var w := Words(line);
    if |w| > 3 {
      SplitOnHasSecond(w[3], ':');
    }
  }

  /**
   * A line contributes `port` exactly when it is a `tcp` line bound to
   * `0.0.0.0` with that port; anything else (`tcp6`, `127.0.0.1`, ...) never does.
   */
  lemma ClassifyListening(line: string, port: string)
    ensures ClassifyLine(line) == Listening(port) <==> BindsAllInterfaces(line, port)
  {
    NormalizeWhitespace(line);
    var w := Words(line);
    if |w| > 3 {
      AddressParts(w[3], port);
    }
  }

  /** Only `tcp` lines ever contribute or fail. */
  lemma NonTcpLineSkipped(line: string)
    requires !IsTcpLine(line)
    ensures ClassifyLine(line) == Skipped
  {
    NormalizeWhitespace(line);
  }

  /** A reported port holds neither whitespace nor a colon. */
  lemma ListeningPortIsPlain(line: string)
    requires ClassifyLine(line).Listening?
    ensures var p := ClassifyLine(line).port;
      ':' !in p && forall k :: 0 <= k < |p| ==> !IsSpace(p[k])
  {
    var words := Words(JoinWith(" ", Words(line)));
    SplitOnHasSecond(words[3], ':');
    SplitOnHead(words[3], ':');
    SplitOnTail(words[3], ':');
    var i := IndexOf(words[3], ':');
    SplitOnHead(words[3][i + 1..], ':');
    assert IsWord(words[3]);
  }

  // ---- The whole output ----

  /** The verdict of every line, in line order. */
  function Verdicts(lines: seq<string>): seq<LineVerdict> {
    seq(|lines|, i requires 0 <= i < |lines| => ClassifyLine(lines[i]))
  }

  /**
   * Ports collected from the verdicts in order, or the `IndexError` of the
   * first malformed line.
   */
  function Collect(vs: seq<LineVerdict>): Result<seq<string>, ParseError>
    decreases |vs|
  {
    if vs == [] then Success([])
    else
      match Collect(vs[..|vs| - 1])
      case Failure(e) => Failure(e)
      case Success(ports) =>
        match vs[|vs| - 1]
        case Malformed => Failure(IndexError(|vs| - 1))
        case Listening(p) => Success(ports + [p])
        case Skipped => Success(ports)
  }

  /** The parsing loop over all lines. */
  function ParsePorts(lines: seq<string>): Result<seq<string>, ParseError> {
    Collect(Verdicts(lines))
  }

  /** Reference: the ports of the contributing verdicts, malformed ones ignored. */
  function PortsOf(vs: seq<LineVerdict>): seq<string> {
    if vs == [] then []
    else (match vs[0] case Listening(p) => [p] case _ => []) + PortsOf(vs[1..])
  }

  /** Reference: the ports contributed line by line. */
  function ListeningPorts(lines: seq<string>): seq<string> {
    PortsOf(Verdicts(lines))
  }

  predicate NoMalformed(vs: seq<LineVerdict>) {
    forall i :: 0 <= i < |vs| ==> vs[i] != Malformed
  }

  predicate NoMalformedLine(lines: seq<string>) {
    forall i :: 0 <= i < |lines| ==> ClassifyLine(lines[i]) != Malformed
  }

  lemma VerdictsIndex(lines: seq<string>)
    ensures |Verdicts(lines)| == |lines|
    ensures forall i :: 0 <= i < |lines| ==> Verdicts(lines)[i] == ClassifyLine(lines[i])
  {
  }

  lemma NoMalformedVerdicts(lines: seq<string>)
    ensures NoMalformed(Verdicts(lines)) <==> NoMalformedLine(lines)
  {
    VerdictsIndex(lines);
  }

  lemma VerdictsAppend(a: seq<string>, b: seq<string>)
    ensures Verdicts(a + b) == Verdicts(a) + Verdicts(b)
  {
  }

  lemma VerdictsPrefix(lines: seq<string>, k: nat)
    requires k <= |lines|
    ensures Verdicts(lines[..k]) == Verdicts(lines)[..k]
  {
  }

  lemma {:induction false} PortsOfAppend(a: seq<LineVerdict>, b: seq<LineVerdict>)
    ensures PortsOf(a + b) == PortsOf(a) + PortsOf(b)
    decreases |a|
  {
    if a == [] {
      assert a + b == b;
    } else {
      assert (a + b)[0] == a[0] && (a + b)[1..] == a[1..] + b;
      PortsOfAppend(a[1..], b);
    }
  }

  /** The contribution of two blocks of lines is the contribution of the first, then of the second. */
  lemma ListeningPortsAppend(a: seq<string>, b: seq<string>)
    ensures ListeningPorts(a + b) == ListeningPorts(a) + ListeningPorts(b)
  {
    VerdictsAppend(a, b);
    PortsOfAppend(Verdicts(a), Verdicts(b));
  }

  lemma {:induction false} PortsOfLength(vs: seq<LineVerdict>)
    ensures |PortsOf(vs)| <= |vs|
    decreases |vs|
  {
    if vs != [] {
      PortsOfLength(vs[1..]);
    }
  }

  /** At most one port per line. */
  lemma ListeningPortsLength(lines: seq<string>)
    ensures |ListeningPorts(lines)| <= |lines|
  {
    PortsOfLength(Verdicts(lines));
  }

  lemma {:induction false} CollectSuccess(vs: seq<LineVerdict>)
    ensures Collect(vs).Success? <==> NoMalformed(vs)
    ensures Collect(vs).Success? ==> Collect(vs).value == PortsOf(vs)
    decreases |vs|
  {
    if vs != [] {
      var init := vs[..|vs| - 1];
      var last := vs[|vs| - 1];
      CollectSuccess(init);
      assert vs == init + [last];
      PortsOfAppend(init, [last]);
    }
  }

  /** Parsing succeeds exactly when no line is malformed, and then yields the reference ports. */
  lemma ParsePortsSuccess(lines: seq<string>)
    ensures ParsePorts(lines).Success? <==> NoMalformedLine(lines)
    ensures ParsePorts(lines).Success? ==> ParsePorts(lines).value == ListeningPorts(lines)
  {
    CollectSuccess(Verdicts(lines));
    NoMalformedVerdicts(lines);
  }

  lemma {:induction false} CollectFirstError(vs: seq<LineVerdict>, i: nat)
    ensures Collect(vs) == Failure(IndexError(i)) <==>
      (i < |vs| && vs[i] == Malformed && NoMalformed(vs[..i]))
    decreases |vs|
  {
    if vs != [] {
      var init := vs[..|vs| - 1];
      var n := |init|;
      CollectFirstError(init, i);
      CollectSuccess(init);
      assert vs[..n] == init;
      if i < n {
        assert vs[..i] == init[..i];
      }
    }
  }

  /** A failure names the FIRST malformed line. */
  lemma ParsePortsFirstError(lines: seq<string>, i: nat)
    ensures ParsePorts(lines) == Failure(IndexError(i)) <==>
      (i < |lines| && ClassifyLine(lines[i]) == Malformed && NoMalformedLine(lines[..i]))
  {
    var vs := Verdicts(lines);
    CollectFirstError(vs, i);
    VerdictsIndex(lines);
    if i < |lines| {
      VerdictsPrefix(lines, i);
      NoMalformedVerdicts(lines[..i]);
    }
  }

  /**
   * Order and multiplicity: a line that contributes `p` puts it right after
   * the ports of the lines before it.
   */
  lemma PortPosition(lines: seq<string>, i: nat)
    requires i < |lines| && ClassifyLine(lines[i]).Listening?
    ensures var k := |ListeningPorts(lines[..i])|;
      k < |ListeningPorts(lines)| && ListeningPorts(lines)[k] == ClassifyLine(lines[i]).port
  {
    var rest := [lines[i]] + lines[i + 1..];
    assert lines == lines[..i] + rest;
    ListeningPortsAppend(lines[..i], rest);
    var vr := Verdicts(rest);
    assert vr[0] == ClassifyLine(lines[i]);
    assert ListeningPorts(rest) == [ClassifyLine(lines[i]).port] + PortsOf(vr[1..]);
  }

  lemma {:induction false} CollectFailureSticks(vs: seq<LineVerdict>, k: nat)
    requires k <= |vs| && Collect(vs[..k]).Failure?
    ensures Collect(vs) == Collect(vs[..k])
    decreases |vs| - k
  {
    if k < |vs| {
      var n := |vs|;
      assert vs[..n - 1][..k] == vs[..k];
      CollectFailureSticks(vs[..n - 1], k);
    } else {
      assert vs[..k] == vs;
    }
  }

  /** Once the lines read so far raise, the whole output raises the same error. */
  lemma ParsePortsFailureSticks(lines: seq<string>, k: nat)
    requires k <= |lines| && ParsePorts(lines[..k]).Failure?
    ensures ParsePorts(lines) == ParsePorts(lines[..k])
  {
    VerdictsPrefix(lines, k);
    CollectFailureSticks(Verdicts(lines), k);
  }

  /** One more line: the parsing loop's step. */
  lemma ParsePortsStep(lines: seq<string>, k: nat)
    requires k < |lines|
    ensures ParsePorts(lines[..k + 1]) ==
      match ParsePorts(lines[..k])
      case Failure(e) => Failure(e)
      case Success(ports) =>
        match ClassifyLine(lines[k])
        case Malformed => Failure(IndexError(k))
        case Listening(p) => Success(ports + [p])
        case Skipped => Success(ports)
  {
    var vs := Verdicts(lines[..k + 1]);
    VerdictsPrefix(lines[..k + 1], k);
    assert lines[..k + 1][..k] == lines[..k];
    VerdictsIndex(lines[..k + 1]);
  }

  /**
   * The loop of `exec_scan` that builds `tcp_ports` by appending, one line at
   * a time; it stops at the first line that raises `IndexError`.
   */
  method ParseNetstatOutput(result: seq<string>) returns (r: Result<seq<string>, ParseError>)
    ensures r == ParsePorts(result)
  {
    var tcpPorts: seq<string> := [];
    for i := 0 to |result|
      invariant ParsePorts(result[..i]) == Success(tcpPorts)
    {
      ParsePortsStep(result, i);
      match ClassifyLine(result[i])
      case Malformed =>
        ParsePortsFailureSticks(result, i + 1);
        return Failure(IndexError(i));
      case Listening(p) =>
        tcpPorts := tcpPorts + [p];
      case Skipped =>
    }
    assert result[..|result|] == result;
    return Success(tcpPorts);
  }
}

/**
 * The reporting half of `OSPDnetstat.exec_scan` and the `check` probe.
 * The daemon object is also the result sink of the scan framework: every
 * `add_scan_error`, `add_scan_log` and `add_scan_host_detail` call appends
 * one finding to its `results`.
 */
module NetstatScanner {
  import opened Wrappers
  import opened PyStr
  import opened NetstatParser

  /** A value in the per-scan options map, as the framework hands it over. */
  datatype OptionValue = IntValue(i: int) | BoolValue(b: bool) | TextValue(s: string)

  /** The payload of one call into the result sink. */
  datatype Entry =
    | ErrorEntry(value: string)
    | LogEntry(name: string, value: string, port: string)
    | HostDetailEntry(name: string, value: string)

  /** One result recorded for a scan and a target host. */
  datatype Finding = Finding(scanId: string, host: string, entry: Entry)

  const ExecutionFailedMessage: string := "A problem occurred trying to execute 'netstat'."
  const EmptyResultMessage: string := "The result of 'netstat' was empty."
  const SummaryName: string := "Netstat summary"
  const PortName: string := "Netstat port"
  const DumpName: string := "Netstat dump"

  /** `options.get('dumptable') is 1`: only the integer 1 asks for the dump, not `True`. */
  predicate DumpRequested(options: map<string, OptionValue>) {
    "dumptable" in options && options["dumptable"] == IntValue(1)
  }

  function SummaryMessage(count: nat): string {
    "Via Netstat " + FormatDecimal(count)
    + " open tcp ports were found that are bound to local address 0.0.0.0."
  }

  function DumpMessage(lines: seq<string>): string {
    "Raw netstat output:\n\n" + JoinWith("", lines)
  }

  function SummaryLog(scanId: string, host: string, count: nat): Finding {
    Finding(scanId, host, LogEntry(SummaryName, SummaryMessage(count), ""))
  }

  function PortLog(scanId: string, host: string, port: string): Finding {
    Finding(scanId, host, LogEntry(PortName, "", port + "/tcp"))
  }

  /** One port log per port, in the order of the ports. */
  function PortLogs(scanId: string, host: string, ports: seq<string>): seq<Finding> {
    seq(|ports|, i requires 0 <= i < |ports| => PortLog(scanId, host, ports[i]))
  }

  function DumpLog(scanId: string, host: string, lines: seq<string>): Finding {
    Finding(scanId, host, LogEntry(DumpName, DumpMessage(lines), ""))
  }

  function DumpLogs(scanId: string, host: string, dump: bool, lines: seq<string>): seq<Finding> {
    if dump then [DumpLog(scanId, host, lines)] else []
  }

  /** A host detail holding the ports joined by `", "`. */
  function PortsDetail(scanId: string, host: string, name: string, ports: seq<string>): Finding {
    Finding(scanId, host, HostDetailEntry(name, JoinWith(", ", ports)))
  }

  function HostDetails(scanId: string, host: string, ports: seq<string>): seq<Finding> {
    if |ports| > 0 then
      [PortsDetail(scanId, host, "ports", ports), PortsDetail(scanId, host, "tcp_ports", ports)]
    else []
  }

  /** Everything a scan with output `lines` and parsed `ports` records, in order. */
  function ScanReport(scanId: string, host: string, dump: bool, lines: seq<string>, ports: seq<string>): seq<Finding> {
    [SummaryLog(scanId, host, |ports|)] + PortLogs(scanId, host, ports)
    + DumpLogs(scanId, host, dump, lines) + HostDetails(scanId, host, ports)
  }

  /** The return value (or raised error) of one scan and the findings it records. */
  datatype ScanRun = ScanRun(status: Result<int, ParseError>, emitted: seq<Finding>)

  /**
   * One run of `exec_scan` for `scanId` and `target`, where `result` is what
   * `run_command` gave back (`None` when `netstat` could not be run).
   */
  function ExecScanRun(scanId: string, target: string, options: map<string, OptionValue>,
                       result: Option<seq<string>>): ScanRun
  {
    match result
    case None =>
      ScanRun(Success(2), [Finding(scanId, target, ErrorEntry(ExecutionFailedMessage)),
                           Finding(scanId, target, ErrorEntry(EmptyResultMessage))])
    case Some(lines) =>
      match ParsePorts(lines)
      case Failure(e) => ScanRun(Failure(e), [])
      case Success(ports) =>
        ScanRun(Success(1), ScanReport(scanId, target, DumpRequested(options), lines, ports))
  }

  // ---- Selecting findings by kind ----

  datatype EntryKind = ErrorKind | LogKind(name: string) | HostDetailKind

  predicate IsOfKind(e: Entry, k: EntryKind) {
    match k
    case ErrorKind => e.ErrorEntry?
    case LogKind(n) => e.LogEntry? && e.name == n
    case HostDetailKind => e.HostDetailEntry?
  }

  /** The findings of kind `k`, in the order they were recorded. */
  function OfKind(fs: seq<Finding>, k: EntryKind): seq<Finding> {
    if fs == [] then []
    else (if IsOfKind(fs[0].entry, k) then [fs[0]] else []) + OfKind(fs[1..], k)
  }

  lemma {:induction false} OfKindAppend(a: seq<Finding>, b: seq<Finding>, k: EntryKind)
    ensures OfKind(a + b, k) == OfKind(a, k) + OfKind(b, k)
    decreases |a|
  {
    if a == [] {
      assert a + b == b;
    } else {
      assert (a + b)[0] == a[0] && (a + b)[1..] == a[1..] + b;
      OfKindAppend(a[1..], b, k);
    }
  }

  lemma {:induction false} OfKindAll(fs: seq<Finding>, k: EntryKind)
    requires forall i :: 0 <= i < |fs| ==> IsOfKind(fs[i].entry, k)
    ensures OfKind(fs, k) == fs
    decreases |fs|
  {
    if fs != [] {
      OfKindAll(fs[1..], k);
    }
  }

  lemma {:induction false} OfKindNone(fs: seq<Finding>, k: EntryKind)
    requires forall i :: 0 <= i < |fs| ==> !IsOfKind(fs[i].entry, k)
    ensures OfKind(fs, k) == []
    decreases |fs|
  {
    if fs != [] {
      OfKindNone(fs[1..], k);
    }
  }

  lemma OfKindSingle(f: Finding, k: EntryKind)
    ensures OfKind([f], k) == if IsOfKind(f.entry, k) then [f] else []
  {
    assert [f][1..] == [];
  }

  lemma OfKindFourParts(s: seq<Finding>, p: seq<Finding>, d: seq<Finding>, h: seq<Finding>, k: EntryKind)
    ensures OfKind(s + p + d + h, k) == OfKind(s, k) + OfKind(p, k) + OfKind(d, k) + OfKind(h, k)
  {
    OfKindAppend(s + p + d, h, k);
    OfKindAppend(s + p, d, k);
    OfKindAppend(s, p, k);
  }

  lemma PortLogsOfKind(scanId: string, host: string, ports: seq<string>, k: EntryKind)
    ensures OfKind(PortLogs(scanId, host, ports), k)
         == if k == LogKind(PortName) then PortLogs(scanId, host, ports) else []
  {
    var p := PortLogs(scanId, host, ports);
    if k == LogKind(PortName) {
      OfKindAll(p, k);
    } else {
      OfKindNone(p, k);
    }
  }

  lemma DumpLogsOfKind(scanId: string, host: string, dump: bool, lines: seq<string>, k: EntryKind)
    ensures OfKind(DumpLogs(scanId, host, dump, lines), k)
         == if k == LogKind(DumpName) then DumpLogs(scanId, host, dump, lines) else []
  {
    var d := DumpLogs(scanId, host, dump, lines);
    if dump {
      OfKindSingle(d[0], k);
    }
  }

  lemma HostDetailsOfKind(scanId: string, host: string, ports: seq<string>, k: EntryKind)
    ensures OfKind(HostDetails(scanId, host, ports), k)
         == if k == HostDetailKind then HostDetails(scanId, host, ports) else []
  {
    var h := HostDetails(scanId, host, ports);
    if h != [] {
      assert h == [h[0]] + [h[1]];
      OfKindAppend([h[0]], [h[1]], k);
      OfKindSingle(h[0], k);
      OfKindSingle(h[1], k);
    }
  }

  /** The findings of one kind in a report: each of its four parts holds a single kind. */
  lemma ReportOfKind(scanId: string, host: string, dump: bool, lines: seq<string>, ports: seq<string>, k: EntryKind)
    ensures OfKind(ScanReport(scanId, host, dump, lines, ports), k)
         == (if k == LogKind(SummaryName) then [SummaryLog(scanId, host, |ports|)] else [])
          + (if k == LogKind(PortName) then PortLogs(scanId, host, ports) else [])
          + (if k == LogKind(DumpName) then DumpLogs(scanId, host, dump, lines) else [])
          + (if k == HostDetailKind then HostDetails(scanId, host, ports) else [])
  {
    var s := [SummaryLog(scanId, host, |ports|)];
    OfKindFourParts(s, PortLogs(scanId, host, ports), DumpLogs(scanId, host, dump, lines),
                    HostDetails(scanId, host, ports), k);
    OfKindSingle(s[0], k);
    PortLogsOfKind(scanId, host, ports, k);
    DumpLogsOfKind(scanId, host, dump, lines, k);
    HostDetailsOfKind(scanId, host, ports, k);
  }

  /** Where each part of `s + p + d + h` sits. */
  lemma FourPartsIndex(s: seq<Finding>, p: seq<Finding>, d: seq<Finding>, h: seq<Finding>)
    ensures var fs := s + p + d + h;
      && |fs| == |s| + |p| + |d| + |h|
      && (forall i :: 0 <= i < |s| ==> fs[i] == s[i])
      && (forall i :: 0 <= i < |p| ==> fs[|s| + i] == p[i])
      && (forall i :: 0 <= i < |d| ==> fs[|s| + |p| + i] == d[i])
      && (forall i :: 0 <= i < |h| ==> fs[|s| + |p| + |d| + i] == h[i])
  {
  }

  /**
   * Layout of a report: the summary first, carrying the number of ports; one
   * port log per port, in order, right after it; then the dump when asked
   * for; then `ports` and `tcp_ports`, both the comma-joined list, when a
   * port was found.
   */
  lemma ReportLayout(scanId: string, host: string, dump: bool, lines: seq<string>, ports: seq<string>)
    ensures var fs := ScanReport(scanId, host, dump, lines, ports);
      && |fs| == 1 + |ports| + (if dump then 1 else 0) + (if ports == [] then 0 else 2)
      && fs[0] == SummaryLog(scanId, host, |ports|)
      && (forall i :: 0 <= i < |ports| ==> fs[1 + i] == PortLog(scanId, host, ports[i]))
      && (dump ==> fs[1 + |ports|] == DumpLog(scanId, host, lines))
      && (ports != [] ==>
            fs[|fs| - 2] == PortsDetail(scanId, host, "ports", ports)
            && fs[|fs| - 1] == PortsDetail(scanId, host, "tcp_ports", ports))
  {
    var s := [SummaryLog(scanId, host, |ports|)];
    var p := PortLogs(scanId, host, ports);
    var d := DumpLogs(scanId, host, dump, lines);
    var h := HostDetails(scanId, host, ports);
    var fs := ScanReport(scanId, host, dump, lines, ports);
    assert fs == s + p + d + h;
    assert |fs| == 1 + |ports| + (if dump then 1 else 0) + (if ports == [] then 0 else 2) by {
      FourPartsIndex(s, p, d, h);
    }
    assert fs[0] == SummaryLog(scanId, host, |ports|) by {
      FourPartsIndex(s, p, d, h);
    }
    assert forall i :: 0 <= i < |ports| ==> fs[1 + i] == PortLog(scanId, host, ports[i]) by {
      FourPartsIndex(s, p, d, h);
    }
    assert dump ==> fs[1 + |ports|] == DumpLog(scanId, host, lines) by {
      FourPartsIndex(s, p, d, h);
    }
    assert ports != [] ==>
      fs[|fs| - 2] == PortsDetail(scanId, host, "ports", ports)
      && fs[|fs| - 1] == PortsDetail(scanId, host, "tcp_ports", ports) by {
      FourPartsIndex(s, p, d, h);
    }
  }

  /** Every finding of a report is recorded for the scan and the host that ran it. */
  lemma ReportTagged(scanId: string, host: string, dump: bool, lines: seq<string>, ports: seq<string>)
    ensures var fs := ScanReport(scanId, host, dump, lines, ports);
      forall i :: 0 <= i < |fs| ==> fs[i].scanId == scanId && fs[i].host == host
  {
    var s := [SummaryLog(scanId, host, |ports|)];
    var p := PortLogs(scanId, host, ports);
    var d := DumpLogs(scanId, host, dump, lines);
    var h := HostDetails(scanId, host, ports);
    FourPartsIndex(s, p, d, h);
  }

  /** Exactly one summary log per report. */
  lemma ReportSummaryOnce(scanId: string, host: string, dump: bool, lines: seq<string>, ports: seq<string>)
    ensures OfKind(ScanReport(scanId, host, dump, lines, ports), LogKind(SummaryName))
         == [SummaryLog(scanId, host, |ports|)]
  {
    var k := LogKind(SummaryName);
    ReportOfKind(scanId, host, dump, lines, ports, k);
    assert SummaryName[8] != DumpName[8];
  }

  /** The port logs of a report are exactly one per port, in port order. */
  lemma ReportPortLogs(scanId: string, host: string, dump: bool, lines: seq<string>, ports: seq<string>)
    ensures var fs := OfKind(ScanReport(scanId, host, dump, lines, ports), LogKind(PortName));
      |fs| == |ports| && forall i :: 0 <= i < |ports| ==> fs[i] == PortLog(scanId, host, ports[i])
  {
    var k := LogKind(PortName);
    ReportOfKind(scanId, host, dump, lines, ports, k);
    assert PortName[8] != DumpName[8];
  }

  /** A dump log appears once when asked for, and never otherwise; it holds every line. */
  lemma ReportDumpOnlyWhenAsked(scanId: string, host: string, dump: bool, lines: seq<string>, ports: seq<string>)
    ensures OfKind(ScanReport(scanId, host, dump, lines, ports), LogKind(DumpName))
         == if dump then [Finding(scanId, host, LogEntry(DumpName, "Raw netstat output:\n\n" + JoinWith("", lines), ""))]
            else []
  {
    var k := LogKind(DumpName);
    ReportOfKind(scanId, host, dump, lines, ports, k);
    assert PortName[8] != DumpName[8];
  }

  /** Host details appear exactly when a port was found: `ports` then `tcp_ports`, same value. */
  lemma ReportHostDetails(scanId: string, host: string, dump: bool, lines: seq<string>, ports: seq<string>)
    ensures var hs := OfKind(ScanReport(scanId, host, dump, lines, ports), HostDetailKind);
      && (hs == [] <==> ports == [])
      && (ports != [] ==>
            hs == [Finding(scanId, host, HostDetailEntry("ports", JoinWith(", ", ports))),
                   Finding(scanId, host, HostDetailEntry("tcp_ports", JoinWith(", ", ports)))])
  {
    ReportOfKind(scanId, host, dump, lines, ports, HostDetailKind);
  }

  /** A report never holds an error. */
  lemma ReportHasNoError(scanId: string, host: string, dump: bool, lines: seq<string>, ports: seq<string>)
    ensures OfKind(ScanReport(scanId, host, dump, lines, ports), ErrorKind) == []
  {
    ReportOfKind(scanId, host, dump, lines, ports, ErrorKind);
  }

  /**
   * With output that parses, the scan returns 1, records no error, and its
   * first finding is the one summary log, whatever the number of ports.
   */
  lemma PresentResultReturnsOne(scanId: string, target: string, options: map<string, OptionValue>,
                                lines: seq<string>)
    requires ParsePorts(lines).Success?
    ensures var run := ExecScanRun(scanId, target, options, Some(lines));
      && run.status == Success(1)
      && OfKind(run.emitted, ErrorKind) == []
      && run.emitted != []
      && OfKind(run.emitted, LogKind(SummaryName)) == [run.emitted[0]]
      && run.emitted[0].entry == LogEntry(SummaryName, SummaryMessage(|ParsePorts(lines).value|), "")
  {
    var ports := ParsePorts(lines).value;
    var dump := DumpRequested(options);
    ReportHasNoError(scanId, target, dump, lines, ports);
    ReportSummaryOnce(scanId, target, dump, lines, ports);
  }

  /** The default value of `dumptable` (0), `True`, or no value at all never ask for the dump. */
  lemma DumpNeedsIntegerOne(options: map<string, OptionValue>)
    ensures !DumpRequested(options["dumptable" := IntValue(0)])
    ensures !DumpRequested(options["dumptable" := BoolValue(true)])
    ensures !DumpRequested(options - {"dumptable"})
    ensures DumpRequested(options["dumptable" := IntValue(1)])
  {
  }

  /**
   * When `netstat` could not be run: exactly the two error messages, in
   * this order, no log and no host detail, and the return value 2.
   */
  lemma AbsentResultReport(scanId: string, target: string, options: map<string, OptionValue>, name: string)
    ensures var run := ExecScanRun(scanId, target, options, None);
      && run.status == Success(2)
      && OfKind(run.emitted, ErrorKind) == run.emitted
      && |run.emitted| == 2
      && run.emitted[0].entry == ErrorEntry(ExecutionFailedMessage)
      && run.emitted[1].entry == ErrorEntry(EmptyResultMessage)
      && OfKind(run.emitted, LogKind(name)) == []
      && OfKind(run.emitted, HostDetailKind) == []
  {
    var run := ExecScanRun(scanId, target, options, None);
    OfKindAll(run.emitted, ErrorKind);
    OfKindNone(run.emitted, LogKind(name));
    OfKindNone(run.emitted, HostDetailKind);
  }

  /**
   * A malformed `tcp` line aborts the scan with `IndexError` before anything
   * is recorded, whatever its address.
   */
  lemma MalformedLineAborts(scanId: string, target: string, options: map<string, OptionValue>,
                            lines: seq<string>, i: nat)
    requires i < |lines| && LacksPortField(lines[i])
    ensures var run := ExecScanRun(scanId, target, options, Some(lines));
      run.status.Failure? && run.status.error.lineIndex <= i && run.emitted == []
  {
    ClassifyMalformed(lines[i]);
    ParsePortsSuccess(lines);
    var j := ParsePorts(lines).error.lineIndex;
    ParsePortsFirstError(lines, j);
    assert forall k :: 0 <= k < j ==> lines[..j][k] == lines[k];
  }

  /**
   * The OSP daemon for netstat, seen as the result sink it writes to: the
   * findings recorded so far, across scans and hosts.
   */
  class NetstatDaemon {
    var results: seq<Finding>

    constructor ()
      ensures results == []
    {
      results := [];
    }

    /** The framework's `add_scan_error`. */
    method AddScanError(scanId: string, host: string, value: string)
      modifies this
      ensures results == old(results) + [Finding(scanId, host, ErrorEntry(value))]
    {
      results := results + [Finding(scanId, host, ErrorEntry(value))];
    }

    /** The framework's `add_scan_log`. */
    method AddScanLog(scanId: string, host: string, name: string, value: string, port: string)
      modifies this
      ensures results == old(results) + [Finding(scanId, host, LogEntry(name, value, port))]
    {
      results := results + [Finding(scanId, host, LogEntry(name, value, port))];
    }

    /** The framework's `add_scan_host_detail`. */
    method AddScanHostDetail(scanId: string, host: string, name: string, value: string)
      modifies this
      ensures results == old(results) + [Finding(scanId, host, HostDetailEntry(name, value))]
    {
      results := results + [Finding(scanId, host, HostDetailEntry(name, value))];
    }

    /** Availability probe: `netstat` runs on the targets, so nothing can be checked up front. */
    method Check() returns (ok: bool)
      ensures ok
    {
      ok := true;
    }

    /**
     * `exec_scan`: `result` stands for what `run_command` returned for
     * `netstat -tlpn` on `target`.  Returns 1 or 2, or the `IndexError`
     * that escapes from parsing; appends exactly the findings of the run.
     */
    method ExecScan(scanId: string, target: string, options: map<string, OptionValue>,
                    result: Option<seq<string>>) returns (status: Result<int, ParseError>)
      modifies this
      ensures status == ExecScanRun(scanId, target, options, result).status
      ensures results == old(results) + ExecScanRun(scanId, target, options, result).emitted
    {
      var dump := DumpRequested(options);
      if result.None? {
        AddScanError(scanId, target, ExecutionFailedMessage);
        AddScanError(scanId, target, EmptyResultMessage);
        return Success(2);
      }
      var lines := result.value;
      var parsed := ParseNetstatOutput(lines);
      if parsed.Failure? {
        return Failure(parsed.error);
      }
      ReportPorts(scanId, target, dump, lines, parsed.value);
      return Success(1);
    }

    /** The reporting steps of `exec_scan` once the output has been parsed into `tcpPorts`. */
    method ReportPorts(scanId: string, target: string, dump: bool, lines: seq<string>, tcpPorts: seq<string>)
      modifies this
      ensures results == old(results) + ScanReport(scanId, target, dump, lines, tcpPorts)
    {
      LogPorts(scanId, target, tcpPorts);
      ghost var logged := results;
      if dump {
        AddScanLog(scanId, target, DumpName, DumpMessage(lines), "");
      }
      ghost var dumped := results;
      if |tcpPorts| > 0 {
        AddScanHostDetail(scanId, target, "ports", JoinWith(", ", tcpPorts));
        AddScanHostDetail(scanId, target, "tcp_ports", JoinWith(", ", tcpPorts));
      }
      assert dumped == logged + DumpLogs(scanId, target, dump, lines);
      assert results == dumped + HostDetails(scanId, target, tcpPorts);
    }

    /** The summary log, then the loop that logs each port in list order. */
    method LogPorts(scanId: string, target: string, tcpPorts: seq<string>)
      modifies this
      ensures results == old(results) + [SummaryLog(scanId, target, |tcpPorts|)]
                         + PortLogs(scanId, target, tcpPorts)
    {
      // At least one result is always recorded, so that the host details are kept.
      AddScanLog(scanId, target, SummaryName, SummaryMessage(|tcpPorts|), "");
      for i := 0 to |tcpPorts|
        invariant results == old(results) + [SummaryLog(scanId, target, |tcpPorts|)]
                             + PortLogs(scanId, target, tcpPorts[..i])
      {
        AddScanLog(scanId, target, PortName, "", tcpPorts[i] + "/tcp");
        assert PortLogs(scanId, target, tcpPorts[..i + 1])
            == PortLogs(scanId, target, tcpPorts[..i]) + [PortLog(scanId, target, tcpPorts[i])];
      }
      assert tcpPorts[..|tcpPorts|] == tcpPorts;
    }
  }
}

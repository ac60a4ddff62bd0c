# ospd-netstat: a verified model of the netstat scan

ospd-netstat is a plugin for an Open Scanner Protocol (OSP) daemon. For each
target host it runs `netstat -tlpn` over SSH. It keeps the IPv4 TCP ports bound
to `0.0.0.0` and records them as scan results. This project models
`OSPDnetstat.exec_scan` and `OSPDnetstat.check` from `ospd_netstat/wrapper.py`.

The model has four modules.

- `Wrappers` (`wrappers.dfy`): `Option` (Python's `None` or a value) and
  `Result` (a normal result or a raised exception).
- `PyStr` (`pystr.dfy`): the Python string operations the parser is built
  from.
  - `Words` is `str.split()` with Python's full `str.isspace()` set.
  - `SplitOn` is `str.split(sep)` for a one-character separator.
  - `JoinWith` is `sep.join(...)`.
  - `FormatDecimal` is `%d`.
  - Each has lemmas that pin it down: round trips, what the first part is,
    and when a second part exists.
- `NetstatParser` (`netstat_parser.dfy`): the parsing loop of `exec_scan`.
  - `ClassifyLine` follows one loop iteration literally. It normalises the
    whitespace, splits, and extracts the port before it tests the address.
  - `ParsePorts` is the loop over all lines, stated on the sequence of
    per-line verdicts (`Verdicts`). It fails with `IndexError(lineIndex)` at
    the first malformed `tcp` line.
  - `ParseNetstatOutput` is the same loop written imperatively. It appends
    to `tcpPorts` and is proved equal to `ParsePorts`.
  - The lemmas relate both to definitions stated directly on the fields of
    a line (`IsTcpLine`, `LacksPortField`, `BindsAllInterfaces`) and to a
    line-by-line reference port list (`ListeningPorts`).
- `NetstatScanner` (`netstat_scanner.dfy`): the reporting half.
  - The daemon is the framework's result sink. It is a class
    `NetstatDaemon` whose field `results` holds the recorded findings. Each
    finding is an error, a log or a host detail, tagged with the scan id
    and the host.
  - `ExecScan` is `exec_scan`. Its contract gives the returned status, or
    the raised `IndexError`, and the exact findings it appends. Both are
    given by the function `ExecScanRun`.
  - Lemmas about `ScanReport` and `ExecScanRun` state the order,
    multiplicity and payload of each kind of finding.

Three behaviours of the code are easy to misread, and the model keeps them as
written.

- Not every line of unexpected shape is skipped. A `tcp` line with only
  three fields, or whose fourth field has no colon, raises `IndexError` at
  `wrapper.py:102`. This happens before the address test, and nothing has
  been recorded at that point. The model returns `Failure(IndexError(i))`
  and leaves the results unchanged.
- `dumptable` is declared as a boolean parameter (`wrapper.py:48`), but the
  code tests `dump is 1`. Only the integer 1 asks for the dump. `True`, 0
  (the declared default) and an absent option do not.
- Ports are kept as the text between the first and the second colon. They
  are not checked to be numbers between 1 and 65535.

## Model

| member | source | states |
|---|---|---|
| `PyStr.Words` | ospd_netstat/wrapper.py:100 | every field that `line.split()` returns is non-empty and holds no whitespace |
| `PyStr.WordsKeepContent` | ospd_netstat/wrapper.py:100 | the fields, concatenated, are the line with its whitespace removed: no other character is lost or added |
| `PyStr.WordsOfJoin` | ospd_netstat/wrapper.py:100 | splitting the `" "`-join of whitespace-free fields gives those fields back |
| `PyStr.NormalizeWhitespace` | ospd_netstat/wrapper.py:100 | `' '.join(line.split()).split()` equals `line.split()` |
| `PyStr.SplitOnHead` | ospd_netstat/wrapper.py:102-103 | part 0 of `s.split(":")` is the text before the first colon |
| `PyStr.SplitOnTail` | ospd_netstat/wrapper.py:102 | after the first colon, the parts are those of the text after that colon, so part 1 runs to the next colon or to the end |
| `PyStr.SplitOnHasSecond` | ospd_netstat/wrapper.py:102 | `s.split(":")[1]` exists exactly when `s` contains a colon |
| `PyStr.SplitOnJoin` | ospd_netstat/wrapper.py:102-103 | joining the parts of `s.split(":")` with `":"` gives `s` back |
| `PyStr.FormatDecimal` | ospd_netstat/wrapper.py:110 | `%d` of a count is a non-empty string of decimal digits with no leading zero |
| `PyStr.FormatDecimalValue` | ospd_netstat/wrapper.py:110 | the digits in the summary read back as the number of ports |
| `NetstatParser.AddressParts` | ospd_netstat/wrapper.py:102-103 | `split(":")` of field 3 gives `0.0.0.0` and then `port` exactly when the field is `0.0.0.0:` followed by `port`, and `port` ends at the next colon or at the end of the field |
| `NetstatParser.ClassifyMalformed` | ospd_netstat/wrapper.py:101-102 | a line raises `IndexError` exactly when it has more than two fields, its first field is `tcp`, and field 3 is missing or has no colon |
| `NetstatParser.ClassifyListening` | ospd_netstat/wrapper.py:101-104 | a line contributes `port` exactly when it is a `tcp` line whose field 3 is `0.0.0.0:` followed by `port`, and `port` ends at the next colon or at the end of the field |
| `NetstatParser.NonTcpLineSkipped` | ospd_netstat/wrapper.py:101 | a line with at most two fields, or whose first field is not exactly `tcp` (such as `tcp6`), neither contributes nor fails |
| `NetstatParser.ListeningPortIsPlain` | ospd_netstat/wrapper.py:100-102 | a contributed port contains neither whitespace nor a colon |
| `NetstatParser.ListeningPortsAppend` | ospd_netstat/wrapper.py:99-104 | the ports of two blocks of lines are the ports of the first block followed by the ports of the second, which gives order and multiplicity |
| `NetstatParser.ListeningPortsLength` | ospd_netstat/wrapper.py:96-104 | there are at most as many ports as lines |
| `NetstatParser.ParsePortsSuccess` | ospd_netstat/wrapper.py:96-104 | parsing succeeds exactly when no line is malformed, and then it yields the reference port list |
| `NetstatParser.ParsePortsFirstError` | ospd_netstat/wrapper.py:99-102 | parsing fails with line index `i` exactly when line `i` is malformed and no earlier line is |
| `NetstatParser.PortPosition` | ospd_netstat/wrapper.py:99-104 | the port of line `i` comes right after the ports of the lines before it, so duplicate lines give duplicate ports |
| `NetstatParser.ParsePortsFailureSticks` | ospd_netstat/wrapper.py:99-102 | once the lines read so far raise, the whole output raises the same error |
| `NetstatParser.ParseNetstatOutput` | ospd_netstat/wrapper.py:95-104 | the `tcp_ports` loop returns exactly `ParsePorts(result)`: the ports, or the first `IndexError` |
| `NetstatScanner.ReportLayout` | ospd_netstat/wrapper.py:106-127 | the summary comes first. Then one `port/tcp` log per port, in order. Then the dump, if asked for. Then `ports` and `tcp_ports`, both the ports joined by `", "`. The total length follows from these parts |
| `NetstatScanner.ReportTagged` | ospd_netstat/wrapper.py:109-127 | every finding is recorded under the scan id and the target of the run |
| `NetstatScanner.ReportSummaryOnce` | ospd_netstat/wrapper.py:106-110 | exactly one summary log, carrying the count of ports, even when that count is 0 |
| `NetstatScanner.ReportPortLogs` | ospd_netstat/wrapper.py:112-115 | the port logs are exactly one per port, in list order, each `port + "/tcp"` |
| `NetstatScanner.ReportDumpOnlyWhenAsked` | ospd_netstat/wrapper.py:117-120 | when asked for, one dump log holding `"Raw netstat output:\n\n"` followed by all lines concatenated; otherwise none |
| `NetstatScanner.ReportHostDetails` | ospd_netstat/wrapper.py:122-127 | host details exist exactly when a port was found: `ports`, then `tcp_ports`, with the same joined value |
| `NetstatScanner.ReportHasNoError` | ospd_netstat/wrapper.py:106-128 | a scan whose output parses records no error |
| `NetstatScanner.PresentResultReturnsOne` | ospd_netstat/wrapper.py:106-128 | output that parses gives return value 1, no error, and the summary as the one first finding |
| `NetstatScanner.AbsentResultReport` | ospd_netstat/wrapper.py:88-93 | without output there are exactly two errors, "A problem occurred trying to execute 'netstat'." and then "The result of 'netstat' was empty.", no log and no host detail, and return value 2 |
| `NetstatScanner.MalformedLineAborts` | ospd_netstat/wrapper.py:99-103 | a malformed `tcp` line makes the scan raise `IndexError`, at that line or an earlier one, whatever its address, and nothing is recorded |
| `NetstatScanner.DumpNeedsIntegerOne` | ospd_netstat/wrapper.py:117-118 | `dump is 1` holds for the integer 1 only: not for the default 0, not for `True`, not for an absent option |
| `NetstatScanner.NetstatDaemon.Check` | ospd_netstat/wrapper.py:72-78 | the availability probe always answers true |
| `NetstatScanner.NetstatDaemon.ExecScan` | ospd_netstat/wrapper.py:80-128 | returns what `ExecScanRun` gives (1, 2, or the escaping `IndexError`) and appends exactly its findings to `results` |
| `NetstatScanner.NetstatDaemon.LogPorts` | ospd_netstat/wrapper.py:106-115 | the summary log and then the loop over `tcp_ports` append exactly the summary followed by one `port/tcp` log per port, in order |
| `NetstatScanner.NetstatDaemon.ReportPorts` | ospd_netstat/wrapper.py:106-127 | the reporting steps, including the loop over `tcp_ports`, append exactly `ScanReport` to `results` |

## Left out

- `run_command` and the SSH transport are external framework code doing network I/O. Their output is the input `result: Option<seq<string>>`.
- `get_scan_options` is framework code. The options map is an input.
- `__init__`, the scanner metadata, `add_scanner_param`, `OSPD_DESC` and `OSPD_PARAMS` only configure the framework. The one fact used from them is that `dumptable` defaults to 0. `DumpNeedsIntegerOne` shows that this default does not ask for the dump.
- `main` and `daemon_main` are daemon startup and I/O.
- The framework's `add_scan_error`, `add_scan_log` and `add_scan_host_detail` are modelled as appends to `results`. Their parameters that this code never passes (hostname, test id, QoD) are not modelled.
- What the framework does with an `IndexError` that escapes `exec_scan` is outside this code. The model stops at returning it.
- Concurrency across scans and hosts belongs to the framework.
- Lines are modelled as text (`seq<char>`). How the transport decodes bytes is not part of this model.

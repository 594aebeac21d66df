# Network tools: port scanner, ping and `ipconfig` reader

This project models in Dafny the three engines behind a small Windows network toolbox.

- **The port scanner** (`PortScanner`). It validates a port range or a port list, then probes the ports with a pool of worker threads. A manager thread collects the results in completion order and writes one line per probe plus a progress line. It stops on request and finally writes a summary with the open ports sorted.
- **The ping tool** (`PingFun`). A continuous `ping -t` echoes every output line and counts requests, replies and round-trip times, and statistics are shown when it is stopped. A batch ping pings `prefix + i` for every `i` of a range with at most 50 workers, and writes one verdict line per address until it is stopped.
- **The `ipconfig /all` reader** (`NetworkManager.get_network_info`). It cuts the output into blocks, keeps the adapter blocks, and reads name, description, MAC address, DHCP flag, IPv4 address, subnet mask, gateway and two DNS servers from each block.

The model is laid out as follows:

| file | module | what it holds |
|---|---|---|
| `text.dfy` | `Text` | `Option`/`Result`, and the parts of Python's `str` the tools use: `in`, `upper`, `strip`, `str(int)` |
| `port_scan.dfy` | `PortScan` | the scanner as a state machine on a value `Scan`, and the class `PortScanner` holding that state in fields |
| `port_scan_proofs.dfy` | `PortScanProofs` | the scanner's validation outcomes; an invariant kept by every interleaving of events; the completed and stopped summaries |
| `ping.dfy` | `PingTool` | commands, reply-time parsing, accounting, verdicts, the batch, and the class `PingFun` |
| `ping_proofs.dfy` | `PingProofs` | what the reading loop and the batch loop write and count, with and without stop requests |
| `network_info.dfy` | `NetworkInfo` | every regular expression of the parser as a function following Python's `re` matching, and the parse itself |
| `network_info_proofs.dfy` | `NetworkInfoProofs` | split/rejoin, block filtering, the field captures, the dotted-quad recogniser, gateway and DNS selection |
| `network_block_proofs.dfy` | `NetworkBlockProofs` | a block as a header line, blank lines and field lines, each line ended by `\n` or `\r\n`: where the labels can and cannot occur in it, the value each line gives, and the DNS line with its indented continuation |
| `network_listing.dfy` | `NetworkListingProofs` | an adapter block of the shape Windows prints (other lines among the seven read, the NetBIOS line after the DNS servers), the whole record read from it, and the NetBIOS line read as a DNS server |

Threads are replaced by explicit events. For the scanner:

- An *event* is a worker taking the next queued probe, a connect attempt ending (its outcome is an input), one iteration of the `as_completed` loop, the final report, or a stop request.
- `PortScanProofs.RunPreservesInv` covers every sequence of events.

For the pings:

- The GUI's stop requests arrive at given points of the loops.
- The completion order of the batch's futures is an input permutation.

The class methods are proved to perform exactly the transition functions. The properties are proved about those functions.

The model keeps these behaviours of the scanner's code:

- A second `stop_scan` during a scan writes its stopping line again (`core/Function/telnet_fun.py`:237-238 has no guard on the flag).
- `stop_scan` with no scan running shows a dialog (`core/Function/telnet_fun.py`:233-235).
- A scanner object can start a new scan once the previous one has ended (`core/Function/telnet_fun.py`:141-143 only rejects a start while the manager thread is alive).
- A probe has two outcomes, open or closed/unreachable: `_scan_single_port` catches every exception of the connect alike, so timeouts and errors are not told apart.

and these of the ping tool's and the reader's:

- Every `stop_batch_ping` while the batch thread is alive writes another stopping line, also after the collecting loop has ended and before the closing line; a request in that window makes the closing line "stopped" although every address was pinged (`core/Function/ping_fun.py`:136-150).
- A `readline` that raises after some lines leaves those lines echoed and counted, and adds the failure line (`core/Function/ping_fun.py`:48-63).
- The DNS text runs on over every following line that starts with whitespace (`core/Function/network_fun.py`:83), so within a block the field lines after the DNS line belong to it as well.
- With a single IPv6 DNS server, the NetBIOS line `TCPIP 上的 NetBIOS . . . : 已启用` that follows it joins the DNS text. That text holds no dotted quad, so the IPv6 tokens are read, and the `C` of `TCPIP` becomes the second DNS server (`core/Function/network_fun.py`:83-99).

## Model

| member | source | states |
|---|---|---|
| PortScan.PortRange | core/Function/telnet_fun.py:130 | `range(start, end + 1)` has `end - start + 1` elements (none when `start > end`), the `i`-th being `start + i` |
| PortScan.ToInts | core/Function/telnet_fun.py:147-151 | the conversion succeeds exactly when every value is an integer, and then yields those integers in order |
| PortScan.FirstOutOfRange | core/Function/telnet_fun.py:155-158 | none exactly when all ports are in 1-65535; otherwise a port outside that range with every port before it valid |
| PortScan.FindOutOfRange | core/Function/telnet_fun.py:155-158 | the validating loop returns the first port outside 1-65535, as `FirstOutOfRange` characterises it |
| PortScan.EffectiveWorkers | core/Function/telnet_fun.py:172 | the pool size is `max(1, min(max_workers, total))`: at least 1, at most each of `max_workers` and the port count unless it is 1, and at least the smaller of them when both are positive |
| PortScan.Insert | core/Function/telnet_fun.py:216 | inserting into an ascending list keeps it ascending and adds exactly that element to its multiset |
| PortScan.SortPorts | core/Function/telnet_fun.py:216 | `sorted` yields an ascending permutation of the open ports |
| PortScan.Ran | core/Function/telnet_fun.py:108 | the number of probes that ran their connect is at most the number finished |
| PortScan.OpenOf | core/Function/telnet_fun.py:103-104 | the open ports recorded are no more than the probes that ran |
| PortScan.PortScanner.constructor | core/Function/telnet_fun.py:35-46 | a new scanner has the flag clear, zero counters, no open ports and no scan |
| PortScan.PortScanner.TestConnect | core/Function/telnet_fun.py:65-84 | returns the connect outcome and writes its one status line, nothing else changes |
| PortScan.PortScanner.StartRangeScan | core/Function/telnet_fun.py:115-131 | performs exactly the range-start transition (non-integer or invalid range: one dialog, no other change) |
| PortScan.PortScanner.StartListScan | core/Function/telnet_fun.py:133-176 | performs exactly the list-start transition: running, non-integer, empty, out of range rejected in that order; otherwise reset and submit |
| PortScan.PortScanner.BeginProbe | core/Function/telnet_fun.py:89-97 | a free worker takes the next queued probe; with the stop flag set it finishes at once with no line |
| PortScan.PortScanner.FinishProbe | core/Function/telnet_fun.py:98-110 | a connect ends: `_done` grows by one, the port is recorded open only on success, its status line becomes available |
| PortScan.PortScanner.CollectNext | core/Function/telnet_fun.py:180-196 | one `as_completed` iteration: break on the stop flag, else the result line (if any) and the progress line |
| PortScan.PortScanner.Summarise | core/Function/telnet_fun.py:203-218 | the summary: completed or stopped, then the sorted open ports or "none found", and the manager thread ends |
| PortScan.PortScanner.StopScan | core/Function/telnet_fun.py:227-238 | no scan: one dialog; otherwise the stopping line and the flag set |
| PortScan.PortScanner.IsScanning | core/Function/telnet_fun.py:250-251 | true exactly while the manager thread is alive |
| PortScanProofs.RangeAscending | core/Function/telnet_fun.py:126-131 | the expanded range is strictly ascending and holds exactly the ports `start..end` |
| PortScanProofs.StartRangeOutcome | core/Function/telnet_fun.py:121-131 | a non-integer bound or a range outside `1 <= start <= end <= 65535` gives its dialog and changes nothing else; a valid range is the list scan of its ports |
| PortScanProofs.StartListOutcome | core/Function/telnet_fun.py:141-167 | a start is accepted exactly when no scan runs, all values are integers, the list is non-empty and all ports valid; a rejection changes only the dialogs; acceptance resets flag, open ports, `_total`, `_done` |
| PortScanProofs.InitialInv | core/Function/telnet_fun.py:35-46 | the new scanner satisfies the invariant |
| PortScanProofs.StartPreservesInv | core/Function/telnet_fun.py:133-176 | a start request, accepted or not, keeps the invariant |
| PortScanProofs.StartRangePreservesInv | core/Function/telnet_fun.py:115-131 | a range start request keeps the invariant |
| PortScanProofs.WorkerTakesPreservesInv | core/Function/telnet_fun.py:89-91 | a worker taking a probe keeps the invariant |
| PortScanProofs.ConnectEndsPreservesInv | core/Function/telnet_fun.py:96-110 | a connect ending keeps the invariant: `_done` counts the probes that ran, `_open_ports` those that connected |
| PortScanProofs.StepPreservesInv | core/Function/telnet_fun.py:89-238 | every event keeps the invariant |
| PortScanProofs.RunPreservesInv | core/Function/telnet_fun.py:89-238 | every interleaving of workers, manager and stop requests keeps the invariant |
| PortScanProofs.InvBounds | core/Function/telnet_fun.py:103-108 | under the invariant `_done <= _total`, there are no more open ports than finished probes, and every open port was submitted |
| PortScanProofs.OpenOfSubmitted | core/Function/telnet_fun.py:103-104 | every port recorded open is one of the submitted ports |
| PortScanProofs.CompletedScanProbedEveryPort | core/Function/telnet_fun.py:180-196 | without a stop, once the loop ends every submitted port was probed exactly once and `_done == _total` |
| PortScanProofs.CompletedScanReport | core/Function/telnet_fun.py:210-218 | an unstopped scan reports completion, then the sorted open ports or that none were found |
| PortScanProofs.StoppedScanReport | core/Function/telnet_fun.py:203-218 | a stopped scan reports that it stopped, then the sorted open ports or that none were found |
| PortScanProofs.StepAfterStop | core/Function/telnet_fun.py:94-95 | after a stop request the flag stays set, no probe starts connecting, and `_done` grows only as a connect already in flight ends |
| PortScanProofs.DrainAfterStop | core/Function/telnet_fun.py:94-95 | over any run after a stop request, `_done` grows by at most the number of connects that were in flight |
| PortScanProofs.StopWhenIdle | core/Function/telnet_fun.py:233-235 | `stop_scan` with no scan leaves the flag alone and only shows the dialog |
| PortScanProofs.StopTwice | core/Function/telnet_fun.py:237-238 | a second stop request only adds another stopping line |
| PingTool.ContinuousCommand | core/Function/ping_fun.py:30-32 | `['ping', host, '-t']`, followed by `['-S', local_ip]` exactly when a local address is given |
| PingTool.SingleShotCommand | core/Function/ping_fun.py:103-105 | `['ping', ip, '-n', '1', '-w', '1000']`, followed by `['-S', local_ip]` exactly when a local address is given |
| PingTool.CommandsShareSource | core/Function/ping_fun.py:31-32 | both commands append the source option in the same way |
| PingTool.RttAtIsMatch | core/Function/ping_fun.py:47 | the check without backtracking decides `时间[=<](\d+)ms` (case-insensitive), and a match takes the whole digit run |
| PingTool.RttMeaning | core/Function/ping_fun.py:58-61 | a line has no time exactly when the pattern matches nowhere; otherwise the time is the digits' value at the leftmost match |
| PingTool.RttSearchLeftmost | core/Function/ping_fun.py:58 | `search` finds the leftmost match, or none when there is none |
| PingTool.ReplyTime | core/Function/ping_fun.py:58-61 | a reply line with `时间=<n>ms` or `时间<<n>ms` yields the time `n` |
| PingTool.NoFieldNoRtt | core/Function/ping_fun.py:58-61 | a line without `时间` carries no time |
| PingTool.Account | core/Function/ping_fun.py:53-61 | one line: `sent` + 1; `received` + 1 and its time appended exactly when the line matches |
| PingTool.AccountKeepsTallyInv | core/Function/ping_fun.py:53-61 | counting a line keeps `received <= sent` and `len(rtts) == received` |
| PingTool.UntilEof | core/Function/ping_fun.py:50 | the lines read are the prefix before the first empty `readline` result |
| PingTool.TalliedCounts | core/Function/ping_fun.py:50-61 | counting lines adds one request per line and one reply with its time per matching line, and keeps the invariant |
| PingTool.Min | core/Function/ping_fun.py:78 | `min(rtts)` is a member not above any other |
| PingTool.Max | core/Function/ping_fun.py:78 | `max(rtts)` is a member not below any other |
| PingTool.StatisticsEntry | core/Function/ping_fun.py:70-80 | nothing when `sent == 0`; otherwise the counts, with the latency exactly when there are times, its min and max bounding every time |
| PingTool.BatchIps | core/Function/ping_fun.py:120 | `end - start + 1` addresses (none when `end < start`), the `k`-th being `prefix + str(start + k)` |
| PingTool.BatchWorkers | core/Function/ping_fun.py:123 | `min(50, n)`: at most 50 and at most `n`, equal to one of them, positive when `n` is |
| PingTool.VerdictOf | core/Function/ping_fun.py:107-116 | reachable exactly when the upper-cased stdout holds `TTL=`; unreachable otherwise; timed out exactly on the timeout; an error exactly on another exception |
| PingTool.PingOne | core/Function/ping_fun.py:98-116 | nothing exactly when the stop flag is set; otherwise the address's line with the verdict on its single-shot command |
| PingTool.Replies | core/Function/ping_fun.py:128-134 | the reply lines of the addresses in the given order, none skipped |
| PingTool.PingFun.constructor | core/Function/ping_fun.py:8-17 | no process, the flag clear, zero counters |
| PingTool.PingFun.StartPing | core/Function/ping_fun.py:19-34 | the box cleared, counters and flag reset, and the continuous command returned |
| PingTool.PingFun.ShowStatistics | core/Function/ping_fun.py:70-80 | writes exactly the statistics entry, if any |
| PingTool.PingFun.StopPing | core/Function/ping_fun.py:36-43 | no process: no change; otherwise the stop line, the process dropped, the statistics |
| PingTool.PingFun.StopBatchPing | core/Function/ping_fun.py:144-150 | raises exactly when no batch thread exists; an ended thread gives a dialog; a live one gets the flag and the stopping line |
| PingTool.PingFun.Ping | core/Function/ping_fun.py:45-68 | performs the whole of `ping`: the failure line when the process cannot start; otherwise the reading loop, with the failure line after the lines read when reading raises; then the process dropped and the callback called |
| PingTool.PingFun.ReadOutput | core/Function/ping_fun.py:48-63 | the reading loop, as the function `Reading` states it, including the `readline` that raises |
| PingTool.PingFun.Echo | core/Function/ping_fun.py:53-61 | one line echoed and counted |
| PingTool.PingFun.StartBatchPing | core/Function/ping_fun.py:83-96 | the flag reset, the box holding only the header, the batch thread alive |
| PingTool.PingFun.ConcurrentBatchPing | core/Function/ping_fun.py:118-142 | performs the whole batch thread, as `BatchRun` states it, with any number of stop requests before each look at the flag and after the loop |
| PingTool.PingFun.StopRequests | core/Function/ping_fun.py:144-150 | any number of `stop_batch_ping` calls in a row, as `Requested` states them |
| PingTool.PingFun.Collect | core/Function/ping_fun.py:128-134 | the `as_completed` loop: the stop requests before each result, then its reply line unless the flag is seen |
| PingTool.PingFun.EndBatch | core/Function/ping_fun.py:136-142 | the closing line chosen by the flag, and the callback called |
| PingProofs.ReadingEchoes | core/Function/ping_fun.py:48-63 | without requests, the loop echoes exactly the lines before the end of the output, then the failure line when reading raised before the end marker |
| PingProofs.ReadingCounts | core/Function/ping_fun.py:50-61 | without requests, the counters are those of the lines before the end of the output |
| PingProofs.ReadingFrame | core/Function/ping_fun.py:50-61 | without requests, the loop changes nothing but the log and the counters |
| PingProofs.ReadingUninterrupted | core/Function/ping_fun.py:48-63 | without requests, the loop's whole result: the echoed lines, the failure line if reading raised, and their tally |
| PingProofs.PingAfterStart | core/Function/ping_fun.py:19-68 | after `strat_ping`, an unstopped ping counts one request per output line and only its replies in `received`, writes exactly those lines and the failure line when reading raised, drops the process and calls the callback once if given |
| PingProofs.InterruptedKeepsTally | core/Function/ping_fun.py:36-43 | the GUI's stop requests, any number of them, never change the counters and never clear the flag |
| PingProofs.FlagEndsReading | core/Function/ping_fun.py:50-52 | once the flag is set no further line is echoed and no counter changes; a `readline` raising before the check still writes its failure |
| PingProofs.ReadingKeepsTallyInv | core/Function/ping_fun.py:48-63 | whatever the requests, and whether or not reading raises, the loop keeps `received <= sent` and `len(rtts) == received` |
| PingProofs.PingKeepsTallyInv | core/Function/ping_fun.py:45-68 | the whole of `ping` keeps that invariant |
| PingProofs.PingFailsToStart | core/Function/ping_fun.py:62-68 | a process that cannot start leads to the failure line only, with the counters unchanged |
| PingProofs.StopPingOutcome | core/Function/ping_fun.py:36-43 | `stop_ping` without a process does nothing; with one, the stop line, the process dropped, then statistics unless nothing was sent |
| PingProofs.BatchIpsDistinct | core/Function/ping_fun.py:120 | the batch addresses are pairwise different |
| PingProofs.BatchIpsMembers | core/Function/ping_fun.py:120 | every `prefix + str(i)` with `start <= i <= end` is a batch address |
| PingProofs.CollectingUnstopped | core/Function/ping_fun.py:128-134 | with no stop, every result's line is written, in completion order |
| PingProofs.CollectingStopped | core/Function/ping_fun.py:128-150 | stop requests first arriving before the `k`-th result: the lines of the earlier results, then one stopping line per request, and no more |
| PingProofs.CollectingFlagged | core/Function/ping_fun.py:129-130 | with the flag already set no result is written; only stop requests before the first look at it add their lines |
| PingProofs.RequestedAlive | core/Function/ping_fun.py:144-150 | while the batch thread is alive, `n` stop requests set the flag and add exactly `n` stopping lines |
| PingProofs.RequestedKeeps | core/Function/ping_fun.py:144-150 | stop requests never touch the counters and never clear the flag |
| PingProofs.EmptyBatch | core/Function/ping_fun.py:120-126 | with `end < start` the pool cannot be created and nothing is written |
| PingProofs.BatchClosingLine | core/Function/ping_fun.py:136-139 | the closing line is "stopped" exactly when the flag is set, and "completed" otherwise |
| PingProofs.BatchCompletes | core/Function/ping_fun.py:118-150 | a batch not stopped while it collects writes each address's line in completion order, then one stopping line per request during the pool's shutdown, and the completion line, or the stopped line when such a request came |
| PingProofs.BatchStops | core/Function/ping_fun.py:118-150 | a batch first asked to stop before its `k`-th result writes the first `k` lines, one stopping line for every request, later ones included, and the stopped line |
| PingProofs.EachAddressOnce | core/Function/ping_fun.py:120-134 | in an unstopped batch every address of the range gets exactly one line |
| NetworkInfo.LineColon | core/Function/network_fun.py:43 | a colon found by `.*?:` is on the line it starts from |
| NetworkInfoProofs.LineColonFirst | core/Function/network_fun.py:43 | the colon found is the first of the line, and a line without one gives none |
| NetworkInfo.Split | core/Function/network_fun.py:35 | `re.split` gives at least one block |
| NetworkInfo.NextBreak | core/Function/network_fun.py:35 | the split point found is a line feed followed by a line that starts flush left and holds a colon |
| NetworkInfoProofs.NextBreakLeftmost | core/Function/network_fun.py:35 | it is the first split point, and none is found only when there is none |
| NetworkInfo.Breaks | core/Function/network_fun.py:35 | one separator between each two blocks |
| NetworkInfoProofs.SplitRejoins | core/Function/network_fun.py:35 | the blocks joined with the separators removed give back the output |
| NetworkInfoProofs.BreaksAreLineBreaks | core/Function/network_fun.py:35 | each separator is `\n` or `\r\n` |
| NetworkInfoProofs.FirstBlockUncut | core/Function/network_fun.py:35 | the first block holds no split point of its own |
| NetworkInfoProofs.BlocksUncut | core/Function/network_fun.py:35 | splitting a block again gives it unchanged |
| NetworkInfo.AdapterBlocks | core/Function/network_fun.py:38-40 | the filter keeps no more blocks than it is given; which ones is stated by `AdapterBlocksIndexed` |
| NetworkInfo.AdapterBlocksIndexed | core/Function/network_fun.py:38-40 | the kept blocks are the blocks at strictly increasing positions, and those positions are exactly the ones of the blocks that mention `适配器`: each such block is kept once, in order, and no other |
| NetworkInfoProofs.AdapterBlocksMembers | core/Function/network_fun.py:38-40 | a block is kept exactly when it is one of the blocks and mentions `适配器` |
| NetworkInfo.NameOf | core/Function/network_fun.py:43-45 | a name exists exactly when the first line has a colon after its first character |
| NetworkInfoProofs.NameOfMeaning | core/Function/network_fun.py:43-45 | the name is the stripped text before the first colon of the first line |
| NetworkInfoProofs.NameOfHeader | core/Function/network_fun.py:43-45 | a header line `<name>:` gives the stripped name |
| NetworkInfo.TextAfter | core/Function/network_fun.py:47 | `\s*(.+)` captures a non-empty text without line feeds |
| NetworkInfoProofs.TextAfterMeaning | core/Function/network_fun.py:47-53 | the capture is a line's text reached over blanks only, and is absent exactly when only line feeds follow the colon |
| NetworkInfo.DottedAfter | core/Function/network_fun.py:60 | `\s*([0-9.]+)` captures a non-empty run of digits and dots |
| NetworkInfoProofs.DottedAfterMeaning | core/Function/network_fun.py:60-66 | the capture is the maximal run of digits and dots at the first non-blank character, and is absent exactly when that character is neither |
| NetworkInfo.FieldSearch | core/Function/network_fun.py:47-66 | `re.search` of a field gives a non-empty value, with no line feed for text and only digits and dots for addresses, and none exactly when the pattern matches at no occurrence of the label; the occurrence it reads is stated by `FieldSearchLeftmost` |
| NetworkInfoProofs.FieldSearchLeftmost | core/Function/network_fun.py:47-66 | a value found is the one matched at an occurrence of the label where the pattern matches, with no such occurrence before it |
| NetworkInfoProofs.FieldSearchAt | core/Function/network_fun.py:47-66 | conversely, an occurrence where the pattern matches, with no such occurrence before it, is the one read |
| NetworkInfoProofs.FieldAtFirst | core/Function/network_fun.py:47-66 | the first occurrence of the label, whose line has a colon followed by a value, gives that value |
| NetworkInfoProofs.DottedLine | core/Function/network_fun.py:60-66 | a block holding `<label> . . . : <digits and dots>` with no occurrence of the label before it yields those digits and dots, as IPv4 address or mask |
| NetworkInfoProofs.TextLine | core/Function/network_fun.py:47-57 | a block holding `<label> . . . : <text>` ended by `\n` or `\r\n`, with no occurrence of the label before it, yields the text; the carriage return that `.+` takes of a Windows line end is removed by `strip` |
| NetworkInfoProofs.StripCarriageReturn | core/Function/network_fun.py:49 | `strip` of a text without surrounding blanks, followed by the carriage return of a Windows line end or by nothing, gives the text back |
| NetworkInfo.DhcpFlag | core/Function/network_fun.py:58 | `是` exactly when the value is `是`, `否` otherwise |
| NetworkInfoProofs.DhcpFlagOfBlock | core/Function/network_fun.py:55-58 | the flag is missing exactly when there is no DHCP value, `是` exactly when the value is `是`, `否` exactly for any other value |
| NetworkInfo.GroupsFrom | core/Function/network_fun.py:75 | reading dotted groups moves forward within the text |
| NetworkInfoProofs.GroupsFromShape | core/Function/network_fun.py:75 | what is read is groups of one to three digits joined by dots |
| NetworkInfoProofs.DottedGroupsRead | core/Function/network_fun.py:75 | groups of that shape ending where the digits end are read back |
| NetworkInfoProofs.QuadsAreDotted | core/Function/network_fun.py:75-88 | every match of `\b\d{1,3}(?:\.\d{1,3}){3}\b` is four groups of one to three digits joined by dots |
| NetworkInfoProofs.LoneQuad | core/Function/network_fun.py:75-88 | a dotted quad on its own is found as the only match, with no check against 255 |
| NetworkInfoProofs.QuadFirst | core/Function/network_fun.py:75-88 | a dotted quad followed by a space at the start of a text is its first match |
| NetworkInfoProofs.QuadsFromNone | core/Function/network_fun.py:88-89 | `findall` of the quad pattern is empty exactly when a quad matches at no position |
| NetworkInfoProofs.QuadsFromFirst | core/Function/network_fun.py:88-92 | its first element is the quad at the leftmost position where one matches, the rest found after it |
| NetworkInfoProofs.DottedGroupsChars | core/Function/network_fun.py:75 | dotted groups consist of digits and dots, starting with a digit |
| NetworkInfo.GatewaySearch | core/Function/network_fun.py:70 | `re.search` of the gateway pattern is none exactly when it matches at no occurrence of the label; the occurrence it reads is stated by `GatewaySearchLeftmost` |
| NetworkInfoProofs.GatewaySearchLeftmost | core/Function/network_fun.py:70 | groups found are the ones matched at an occurrence of the label where the pattern matches, with no such occurrence before it |
| NetworkInfoProofs.GatewaySearchAt | core/Function/network_fun.py:70 | conversely, a matching occurrence with none before it is the one read |
| NetworkInfo.NextLineText | core/Function/network_fun.py:70 | the optional second group holds no line break |
| NetworkInfoProofs.GatewayIsQuadOrEmpty | core/Function/network_fun.py:68-78 | the gateway is always a dotted quad or `""` |
| NetworkInfoProofs.GatewayOfLine | core/Function/network_fun.py:68-78 | a block holding `默认网关 . . . : <quad>` ended by `\n` or `\r\n`, with no occurrence of the label before it, has that quad as its gateway |
| NetworkInfoProofs.GatewayAtLine | core/Function/network_fun.py:68-78 | the same for the first gateway label followed by any `[.\s:]` filler up to the quad |
| NetworkInfo.DnsText | core/Function/network_fun.py:83-86 | the DNS text exists exactly when the block mentions `DNS 服务器` |
| NetworkInfo.ContinuedTextFound | core/Function/network_fun.py:83-84 | the text after a label is found exactly when the label occurs |
| NetworkInfo.TokensFrom | core/Function/network_fun.py:95 | every IPv6 token found is non-empty and starts with a hex digit or colon |
| NetworkInfoProofs.TokensFromFirst | core/Function/network_fun.py:95-99 | `findall` of the IPv6 pattern is empty exactly when no hex digit or colon occurs; otherwise its first token starts at the first such character, the rest found after it |
| NetworkInfo.FirstTwo | core/Function/network_fun.py:89-99 | the first and second element, `""` for each missing one |
| NetworkInfoProofs.DnsPrefersIpv4 | core/Function/network_fun.py:81-102 | no DNS line: both `""`; when the DNS text holds a dotted quad, `dns1` and `dns2` are its first and second quads, `""` for a missing second; otherwise its first and second IPv6 tokens, `""` for each missing one |
| NetworkInfo.ParseBlock | core/Function/network_fun.py:42-104 | the record of a block: its name, a DHCP flag that is `是` or `否`, the IPv4 capture, the gateway and DNS selections; `ListingParse` gives every field of a complete block |
| NetworkInfo.GetNetworkInfo | core/Function/network_fun.py:29-105 | an error exactly when the output is empty; otherwise one record per block of the split output that mentions `适配器`, the `j`-th read by `ParseBlock` from the `j`-th such block |
| NetworkInfoProofs.RecordsFromAdapterBlocks | core/Function/network_fun.py:35-104 | each record is read from a block of the split output that mentions `适配器` |
| NetworkBlockProofs.LinesAbsent | core/Function/network_fun.py:47-83 | a label that the header does not hold, and that each of the first `m` field lines keeps clear of (absent from its value and unable to start in its caption and pad, or absent from the whole line), occurs nowhere in the header line, the blank lines after it and those `m` lines |
| NetworkBlockProofs.BeforeAbsent | core/Function/network_fun.py:47-83 | so the first occurrence of a line's caption in such a block is on that line |
| NetworkBlockProofs.LineFirst | core/Function/network_fun.py:47-83 | a block of lines told apart by their captions is its text before line `m`, that line, and the rest, with no occurrence of line `m`'s caption before it |
| NetworkBlockProofs.TextOfLine | core/Function/network_fun.py:47-58 | the description, MAC address or DHCP field of such a block is the value of its own line |
| NetworkBlockProofs.DottedOfLine | core/Function/network_fun.py:60-66 | the IPv4 address or mask of such a block is the digits and dots of its own line, without a note such as `(首选)` after them |
| NetworkBlockProofs.GatewayOfBlockLine | core/Function/network_fun.py:68-78 | the gateway of such a block is the quad of its gateway line |
| NetworkBlockProofs.ContinuedLines | core/Function/network_fun.py:83-86 | the text after a label on the last field line of a block spans the rest of that line and every indented line after it, with the line ends between them |
| NetworkBlockProofs.TwoQuads | core/Function/network_fun.py:88 | the quads found in a quad, an indented second quad on the next line and further lines without digits are those two, in order |
| NetworkBlockProofs.DnsOfLines | core/Function/network_fun.py:81-102 | a DNS line with a quad, followed by an indented line with a quad and indented lines without digits, gives those two quads as `dns1` and `dns2`, with either line end |
| NetworkBlockProofs.DnsOfLastLine | core/Function/network_fun.py:81-102 | the same for a block whose last field line is the DNS line, the indented lines following it |
| NetworkBlockProofs.NameOfBlock | core/Function/network_fun.py:43-45 | the name of a block is its stripped header |
| NetworkListingProofs.CaptionsApart | core/Function/network_fun.py:47-83 | no caption of the block can hold the start of a later caption |
| NetworkListingProofs.DottedLabelFree | core/Function/network_fun.py:60-88 | no caption occurs in a value of digits and dots |
| NetworkListingProofs.ListingClean | core/Function/network_fun.py:47-83 | each of the seven lines read in a well-formed block is the first to hold its caption: neither the header nor any earlier line, read or not, holds it |
| NetworkListingProofs.ListingParse | core/Function/network_fun.py:42-104 | a well-formed block gives the record of all nine values: the stripped header, the three texts, the DHCP flag, the address without its note, the mask, the gateway and both servers. Such a block has a header line, blank lines, and the description, MAC, DHCP, IPv4 (with an optional note), mask, gateway and DNS lines in this order, with any lines holding no caption among them. The second DNS server is indented under the first, followed by indented lines without digits such as the NetBIOS line, and every line ends in `\n` or `\r\n` |
| NetworkListingProofs.NetBiosSecondServer | core/Function/network_fun.py:81-99 | a DNS line holding the one IPv6 server `fe80::1` and followed by the NetBIOS line `   TCPIP…` gives `fe80::1` as `dns1` and `C` as `dns2`, with either line end |

## Left out

- Networking and processes are inputs, not modelled: the outcome of `socket.connect`, the lines of `subprocess.Popen`, the outcome of `subprocess.run`, and the text that `ipconfig /all` prints. The locale decoding of that text is not part of this model.
- Timeouts are not modelled (`timeout` of the probes, the two seconds of `subprocess.run`); only their outcome is an input.
- Threads are not modelled as such. Races between them are not covered, such as the unsynchronised `_done += 1` and `_open_ports.append`, or workers of an earlier scan still writing after a new one has started. The model is an interleaving of atomic events.
- `executor.shutdown` and `future.cancel` are modelled by their effect (no queued probe starts once the manager has finished). The exception branch of the manager loop (`fut.result()` raising) is not modelled, because `_scan_single_port` catches every exception.
- The result box's scheduling through `after`, its `see` calls, and the exact text of each message are not modelled. Each message is an entry of a log; each message box is an entry of a dialog list.
- Floating point is not modelled: the loss percentage and the average latency of `show_statistics`. Round-trip times are the `nat` of the digits `float()` reads.
- `process.terminate()` is not modelled (the process is an oracle); `stop_ping` only drops it.
- Python's Unicode character classes are restricted: `\s`, `str.isspace` and `strip` use the ten ASCII whitespace characters (space, `\t`, `\n`, `\r`, `\x0b`, `\x0c` and `\x1c`-`\x1f`) and not the other Unicode spaces such as `\u3000`; `\d` and `str.upper` use ASCII; `\w` uses ASCII and the CJK Unified Ideographs.
- `set_network_info`, the tracert tool and the tkinter tabs are outside the modelled core.
- PingTool.Rtt: carries no contract of its own; what it yields is stated by `PingTool.RttMeaning`.
- NetworkListingProofs.ListingParse: covers blocks with two IPv4 DNS servers and a gateway line holding a quad; a block with one DNS server, IPv6 servers, or an IPv6 gateway printed before the IPv4 one is covered only by the general lemmas `GatewaySearchLeftmost` and `DnsPrefersIpv4`, and a single IPv6 server by `NetBiosSecondServer`. The lines among the seven must hold none of the seven captions.
- NetworkInfo.NameOf: its contract says only when a name exists; what the name is is stated by `NetworkInfoProofs.NameOfMeaning`.
- NetworkInfo.TextAfter: its contract gives only the shape of the capture; where it starts and ends is stated by `NetworkInfoProofs.TextAfterMeaning`.
- NetworkInfo.DottedAfter: its contract gives only the shape of the capture; where it starts and ends is stated by `NetworkInfoProofs.DottedAfterMeaning`.
- NetworkInfo.LineColon: its contract does not say that the colon is the first one; `NetworkInfoProofs.LineColonFirst` does.
- NetworkInfo.NextBreak: its contract does not say that the split point is the first one; `NetworkInfoProofs.NextBreakLeftmost` does.
- NetworkInfo.QuadsFrom: carries no contract of its own; `NetworkInfoProofs.QuadsAreDotted`, `LoneQuad` and `QuadFirst` state what it finds.
- PingTool.PingFun.Ping: the continuous ping's stop requests are given by the `readline` before which they arrive: any number of `stop_batch_ping` calls, and one `stop_ping`, since a second one finds no process and does nothing. A failing `result_box.insert` is not modelled: calls into the Tk widget are taken to succeed, so the `except` is reached only from `Popen` or `readline`.
- PingTool.PingFun.ConcurrentBatchPing: each single-shot ping is modelled as run when its result is collected. This gives the same lines, because the flag is only ever set, never cleared, during a batch.

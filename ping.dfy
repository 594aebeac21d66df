/** The ping tool (`PingFun`): a continuous ping whose output lines are echoed and counted,
    the statistics shown when it ends, and a batch ping of a range of addresses run by a
    pool of at most 50 workers. The `ping` process is an oracle: a continuous ping is given
    as the lines its output yields (or the failure to start it), a single-shot ping as a
    function from the command line to what `subprocess.run` returned. The result box is the
    log of entries written to it; a message box is an entry of `dialogs`. */
module PingTool {
  import opened Text

  // ---------------------------------------------------------------------------------
  // Values
  // ---------------------------------------------------------------------------------

  datatype Latency = Latency(min: nat, max: nat)

  /** What one single-shot ping says about an address. */
  datatype Verdict = Reachable | Unreachable | TimedOut | Failed(reason: string)

  /** What is written to the result box. */
  datatype Entry =
    | Output(line: string)                                         // a line of `ping -t`, as read
    | Failure(reason: string)                                      // "Ping 失败: …"
    | ManualStop                                                   // "Ping 已手动停止。"
    | Statistics(sent: nat, received: nat, latency: Option<Latency>) // "==== Ping 统计 ===="
    | BatchHeader(prefix: string, start: int, end: int)            // "开始并发 Ping：…"
    | Reply(ip: string, verdict: Verdict)                          // "<ip> ✅ 通" and the others
    | BatchStopping                                                // "正在尝试停止批量 Ping..."
    | BatchCompleted                                               // "并发批量 Ping 完成。"
    | BatchStopped                                                 // "批量 Ping 已停止。"

  datatype Dialog = NoBatchRunning

  /** What `subprocess.run` of one single-shot ping gives: its standard output, the
      two-second timeout expiring, or another exception. */
  datatype RunOutcome = Exited(stdout: string) | Expired | Raised(reason: string)

  /** What `subprocess.Popen` of the continuous ping gives: the successive results of
      `readline` on its output and, when `error` is present, the exception the next
      `readline` raises (a line that cannot be decoded, say), or else the end of the
      output after the last one; or the exception raised when it cannot be started. */
  datatype Spawn = Spawned(lines: seq<string>, error: Option<string>) | SpawnFailed(reason: string)

  /** `batch_thread`: not yet created (the attribute does not exist), running, ended. */
  datatype BatchThread = NotCreated | Alive | Ended

  /** `sent`, `received` and `rtts`. */
  datatype Tally = Tally(sent: nat, received: nat, rtts: seq<nat>)

  /** The state of a `PingFun`; `callback` is whether the callback given is not `None`,
      `callbacks` how often it has been called. */
  datatype Session = Session(process: bool, stopFlag: bool, tally: Tally, log: seq<Entry>,
                             callback: bool, callbacks: nat, batch: BatchThread, dialogs: seq<Dialog>)

  function Fresh(): Session {
    Session(false, false, Tally(0, 0, []), [], false, 0, NotCreated, [])
  }

  // ---------------------------------------------------------------------------------
  // Commands
  // ---------------------------------------------------------------------------------

  /** `if local_ip:` — an address is given and it is not empty. */
  predicate Truthy(localIp: Option<string>) {
    localIp.Some? && localIp.value != ""
  }

  function SourceOption(localIp: Option<string>): seq<string> {
    if Truthy(localIp) then ["-S", localIp.value] else []
  }

  /** The command of `strat_ping`: ping `host` until stopped, from `local_ip` if one is given. */
  function ContinuousCommand(host: string, localIp: Option<string>): (c: seq<string>)
    ensures |c| == (if Truthy(localIp) then 5 else 3)
    ensures c[..3] == ["ping", host, "-t"]
    ensures Truthy(localIp) ==> c[3..] == ["-S", localIp.value]
  {
    ["ping", host, "-t"] + SourceOption(localIp)
  }

  /** The command of `_ping_one_ip`: one echo request, waiting at most 1000 ms for the reply. */
  function SingleShotCommand(ip: string, localIp: Option<string>): (c: seq<string>)
    ensures |c| == (if Truthy(localIp) then 8 else 6)
    ensures c[..6] == ["ping", ip, "-n", "1", "-w", "1000"]
    ensures Truthy(localIp) ==> c[6..] == ["-S", localIp.value]
  {
    ["ping", ip, "-n", "1", "-w", "1000"] + SourceOption(localIp)
  }

  /** Both commands name the source address in the same way, after their own options. */
  lemma CommandsShareSource(host: string, ip: string, localIp: Option<string>)
    ensures ContinuousCommand(host, localIp)[3..] == SingleShotCommand(ip, localIp)[6..]
    ensures ContinuousCommand(host, localIp)[1] == host && SingleShotCommand(ip, localIp)[1] == ip
  {
  }

  // ---------------------------------------------------------------------------------
  // The round-trip time of a reply line: `时间[=<](\d+)ms`, case-insensitive
  // ---------------------------------------------------------------------------------

  /** The pattern's `m` under `re.IGNORECASE`. */
  predicate IsLetterM(c: char) {
    c == 'm' || c == 'M'
  }

  /** The pattern's `s` under `re.IGNORECASE`, which also matches the long s U+017F. */
  predicate IsLetterS(c: char) {
    c == 's' || c == 'S' || c == 'ſ'
  }

  /** The pattern matches at `i` with `\d+` taking the `n` digits after `时间=` or `时间<`:
      the regex's own reading, with any length the backtracking of `\d+` may try. */
  predicate MatchesWithRun(s: string, i: nat, n: nat) {
    && OccursAt(s, "时间", i) && i + 2 < |s| && (s[i + 2] == '=' || s[i + 2] == '<')
    && 1 <= n && i + 3 + n + 2 <= |s|
    && (forall k :: i + 3 <= k < i + 3 + n ==> IsDigit(s[k]))
    && IsLetterM(s[i + 3 + n]) && IsLetterS(s[i + 4 + n])
  }

  /** The pattern matches at `i`, decided without backtracking: the whole run of digits
      must be followed by `ms`. */
  predicate RttAt(s: string, i: nat) {
    && OccursAt(s, "时间", i) && i + 2 < |s| && (s[i + 2] == '=' || s[i + 2] == '<')
    && var n := DigitRun(s, i + 3);
       1 <= n && i + 3 + n + 2 <= |s| && IsLetterM(s[i + 3 + n]) && IsLetterS(s[i + 4 + n])
  }

  /** A match can only take the whole run of digits: a shorter one is followed by a digit,
      not by `m`. So the check without backtracking decides the regex. */
  lemma RttAtIsMatch(s: string, i: nat)
    ensures RttAt(s, i) <==> exists n :: MatchesWithRun(s, i, n)
    ensures forall n: nat :: MatchesWithRun(s, i, n) ==> n == DigitRun(s, i + 3)
  {
    forall n: nat | MatchesWithRun(s, i, n) ensures n == DigitRun(s, i + 3) {
      var d := DigitRun(s, i + 3);
      if n < d {
        assert false;
      } else if n > d {
        assert false;
      }
    }
    if RttAt(s, i) {
      assert MatchesWithRun(s, i, DigitRun(s, i + 3));
    }
  }

  /** `re.search`: the leftmost position from `from` on where the pattern matches. */
  function RttSearch(s: string, from: nat): (r: Option<nat>)
    decreases |s| - from
    ensures r.Some? ==> from <= r.value && RttAt(s, r.value)
  {
    if from + 2 >= |s| then None
    else if RttAt(s, from) then Some(from)
    else RttSearch(s, from + 1)
  }

  /** The value of the run of digits of `s` that starts at `i`. */
  function RunValue(s: string, i: nat): nat
    requires i <= |s|
  {
    var run := s[i..i + DigitRun(s, i)];
    assert AllDigits(run);
    DigitsValue(run)
  }

  /** The pattern matches at `i` and nowhere before. */
  ghost predicate FirstRttAt(s: string, i: nat) {
    RttAt(s, i) && forall j: nat :: j < i ==> !RttAt(s, j)
  }

  /** `float(match.group(1))` for the first match in `line`, or `None` for no match. */
  function Rtt(line: string): Option<nat> {
    match RttSearch(line, 0)
    case None => None
    case Some(i) => Some(RunValue(line, i + 3))
  }

  /** The search finds the leftmost match from `from`, and none when there is none. */
  lemma {:induction false} RttSearchLeftmost(s: string, from: nat)
    ensures RttSearch(s, from).Some? ==> forall i :: from <= i < RttSearch(s, from).value ==> !RttAt(s, i)
    ensures RttSearch(s, from).None? ==> forall i :: from <= i ==> !RttAt(s, i)
    decreases |s| - from
  {
    if from + 2 < |s| && !RttAt(s, from) {
      RttSearchLeftmost(s, from + 1);
    }
  }

  /** A line carries a time exactly when the pattern matches somewhere in it, and the time
      is the value of the digits of the leftmost match. */
  lemma RttMeaning(line: string)
    ensures Rtt(line).None? <==> forall i: nat :: !RttAt(line, i)
    ensures Rtt(line).Some? ==>
              exists i: nat :: FirstRttAt(line, i) && i + 3 <= |line| && Rtt(line).value == RunValue(line, i + 3)
  {
    RttSearchLeftmost(line, 0);
    match RttSearch(line, 0)
    case None =>
    case Some(i) =>
      assert FirstRttAt(line, i);
  }

  /** The time of a reply line is read from its `时间=` or `时间<` field: whatever follows
      the field, the number written there is the time counted. */
  lemma ReplyTime(v: nat, sep: char, rest: string)
    requires sep == '=' || sep == '<'
    ensures Rtt("时间" + [sep] + NatToString(v) + "ms" + rest) == Some(v)
  {
    var d := NatToString(v);
    var s := "时间" + [sep] + d + "ms" + rest;
    FieldAtStart(d, sep, rest);
    FirstAtStart(s);
    RunValueIs(s, 3, d);
    DigitsValueOfNatToString(v);
  }

  lemma RunValueIs(s: string, i: nat, d: string)
    requires i + |d| <= |s| && s[i..i + |d|] == d && DigitRun(s, i) == |d|
    ensures AllDigits(d) && RunValue(s, i) == DigitsValue(d)
  {
  }

  lemma FieldAtStart(d: string, sep: char, rest: string)
    requires sep == '=' || sep == '<'
    requires |d| >= 1 && AllDigits(d)
    ensures var s := "时间" + [sep] + d + "ms" + rest;
            RttAt(s, 0) && DigitRun(s, 3) == |d| && 3 + |d| <= |s| && s[3..3 + |d|] == d
  {
    var s := "时间" + [sep] + d + "ms" + rest;
    assert s[..2] == "时间" && s[2] == sep;
    assert forall k :: 3 <= k < 3 + |d| ==> s[k] == d[k - 3];
    assert s[3 + |d|] == 'm' && s[4 + |d|] == 's';
    DigitRunOfDigits(s, 3, |d|);
  }

  lemma FirstAtStart(s: string)
    requires RttAt(s, 0)
    ensures Rtt(s) == Some(RunValue(s, 3))
  {
    assert RttSearch(s, 0) == Some(0);
  }

  /** A line without the `时间` field (a timeout, an unreachable host) carries no time. */
  lemma NoFieldNoRtt(line: string)
    requires !Find(line, "时间")
    ensures Rtt(line) == None
  {
    RttMeaning(line);
    assert forall i: nat :: !RttAt(line, i);
  }

  // ---------------------------------------------------------------------------------
  // Accounting
  // ---------------------------------------------------------------------------------

  /** One line of output is counted as sent; it is counted as received, with its time,
      exactly when it carries a round-trip time. */
  function Account(t: Tally, line: string): (u: Tally)
    ensures u.sent == t.sent + 1
    ensures u.received == t.received + (if Rtt(line).Some? then 1 else 0)
    ensures u.rtts == t.rtts + (if Rtt(line).Some? then [Rtt(line).value] else [])
  {
    match Rtt(line)
    case Some(v) => Tally(t.sent + 1, t.received + 1, t.rtts + [v])
    case None => t.(sent := t.sent + 1)
  }

  /** No more replies than requests, and one time per reply. */
  ghost predicate TallyInv(t: Tally) {
    t.received <= t.sent && |t.rtts| == t.received
  }

  lemma AccountKeepsTallyInv(t: Tally, line: string)
    requires TallyInv(t)
    ensures TallyInv(Account(t, line))
  {
  }

  /** The lines up to the end of the output (the first empty `readline` result). */
  function UntilEof(lines: seq<string>): (r: seq<string>)
    ensures |r| <= |lines| && r == lines[..|r|]
    ensures forall k :: 0 <= k < |r| ==> r[k] != ""
    ensures |r| < |lines| ==> lines[|r|] == ""
  {
    if lines == [] || lines[0] == "" then [] else [lines[0]] + UntilEof(lines[1..])
  }

  /** The tally after counting `lines` one by one. */
  function Tallied(t: Tally, lines: seq<string>): Tally
    decreases |lines|
  {
    if lines == [] then t else Tallied(Account(t, lines[0]), lines[1..])
  }

  /** The round-trip times carried by `lines`, in order. */
  function RttsOf(lines: seq<string>): (r: seq<nat>)
    ensures |r| <= |lines|
  {
    if lines == [] then []
    else (if Rtt(lines[0]).Some? then [Rtt(lines[0]).value] else []) + RttsOf(lines[1..])
  }

  /** Counting lines adds one request per line, and one reply with its time per line that
      carries a time; so the invariant holds after any number of lines. */
  lemma {:induction false} TalliedCounts(t: Tally, lines: seq<string>)
    ensures Tallied(t, lines).sent == t.sent + |lines|
    ensures Tallied(t, lines).rtts == t.rtts + RttsOf(lines)
    ensures Tallied(t, lines).received == t.received + |RttsOf(lines)|
    ensures TallyInv(t) ==> TallyInv(Tallied(t, lines))
    decreases |lines|
  {
    if lines != [] {
      TalliedCounts(Account(t, lines[0]), lines[1..]);
    }
  }

  /** The smallest of the times. */
  function Min(s: seq<nat>): (m: nat)
    requires s != []
    ensures m in s && forall x :: x in s ==> m <= x
  {
    if |s| == 1 then s[0]
    else
      var rest := Min(s[1..]);
      assert forall x :: x in s ==> x == s[0] || x in s[1..];
      if s[0] <= rest then s[0] else rest
  }

  /** The largest of the times. */
  function Max(s: seq<nat>): (m: nat)
    requires s != []
    ensures m in s && forall x :: x in s ==> x <= m
  {
    if |s| == 1 then s[0]
    else
      var rest := Max(s[1..]);
      assert forall x :: x in s ==> x == s[0] || x in s[1..];
      if s[0] >= rest then s[0] else rest
  }

  /** What `show_statistics` writes: nothing when nothing was sent; otherwise the counts,
      and the smallest and largest time only when a time was recorded. */
  function StatisticsEntry(t: Tally): (e: Option<Entry>)
    ensures e.None? <==> t.sent == 0
    ensures e.Some? ==> e.value.Statistics? && e.value.sent == t.sent && e.value.received == t.received
    ensures e.Some? ==> (e.value.latency.Some? <==> t.rtts != [])
    ensures e.Some? && e.value.latency.Some? ==>
              var l := e.value.latency.value;
              l.min in t.rtts && l.max in t.rtts && forall x :: x in t.rtts ==> l.min <= x <= l.max
  {
    if t.sent == 0 then None
    else Some(Statistics(t.sent, t.received, if t.rtts != [] then Some(Latency(Min(t.rtts), Max(t.rtts))) else None))
  }

  // ---------------------------------------------------------------------------------
  // Transitions
  // ---------------------------------------------------------------------------------

  /** `strat_ping`: the box is cleared, the counters and the stop flag reset. */
  function StartContinuous(st: Session, callback: bool): Session {
    st.(callback := callback, log := [], tally := Tally(0, 0, []), stopFlag := false)
  }

  function ShowStats(st: Session): Session {
    match StatisticsEntry(st.tally)
    case None => st
    case Some(e) => st.(log := st.log + [e])
  }

  /** `stop_ping`: nothing without a process; otherwise the manual-stop line, the process
      dropped, and the statistics. */
  function ManualStopped(st: Session): Session {
    if !st.process then st else ShowStats(st.(log := st.log + [ManualStop], process := false))
  }

  /** `stop_batch_ping`: without a batch thread the attribute lookup raises and nothing
      changes; with one that has ended, a dialog; otherwise the stop flag and a line. */
  function BatchStopRequested(st: Session): Session {
    match st.batch
    case NotCreated => st
    case Ended => st.(dialogs := st.dialogs + [NoBatchRunning])
    case Alive => st.(stopFlag := true, log := st.log + [BatchStopping])
  }

  /** The GUI's requests that reach the session before the `i`-th `readline`: `stop_ping`
      when `manualStopAt` says so (once it has dropped the process, a second one does
      nothing), then `StopsAt(batchStops, i)` calls of `stop_batch_ping`, which shares the
      stop flag. */
  function Interrupted(st: Session, manualStopAt: Option<nat>, batchStops: seq<nat>, i: nat): Session {
    var s1 := if manualStopAt == Some(i) then ManualStopped(st) else st;
    Requested(s1, StopsAt(batchStops, i))
  }

  /** One line echoed and counted. */
  function Consume(st: Session, line: string): Session {
    st.(log := st.log + [Output(line)], tally := Account(st.tally, line))
  }

  /** The `except` of `ping`: the failure line when the last `readline` raised. */
  function Broken(st: Session, error: Option<string>): Session {
    if error.Some? then st.(log := st.log + [Failure(error.value)]) else st
  }

  /** The reading loop of `ping` from the `i`-th `readline` on. Past the last line,
      `readline` gives the end of the output or raises `error`, before the stop flag
      is looked at. */
  function Reading(st: Session, lines: seq<string>, error: Option<string>,
                   manualStopAt: Option<nat>, batchStops: seq<nat>, i: nat): Session
    requires i <= |lines|
    decreases |lines| - i
  {
    var s1 := Interrupted(st, manualStopAt, batchStops, i);
    if i == |lines| then Broken(s1, error)
    else if lines[i] == "" || s1.stopFlag then s1
    else Reading(Consume(s1, lines[i]), lines, error, manualStopAt, batchStops, i + 1)
  }

  lemma ReadingEnds(st: Session, lines: seq<string>, error: Option<string>,
                    manualStopAt: Option<nat>, batchStops: seq<nat>, i: nat)
    requires i == |lines|
    ensures Reading(st, lines, error, manualStopAt, batchStops, i) == Broken(Interrupted(st, manualStopAt, batchStops, i), error)
  {
  }

  lemma ReadingStops(st: Session, lines: seq<string>, error: Option<string>,
                     manualStopAt: Option<nat>, batchStops: seq<nat>, i: nat)
    requires i < |lines|
    requires lines[i] == "" || Interrupted(st, manualStopAt, batchStops, i).stopFlag
    ensures Reading(st, lines, error, manualStopAt, batchStops, i) == Interrupted(st, manualStopAt, batchStops, i)
  {
  }

  lemma ReadingGoesOn(st: Session, lines: seq<string>, error: Option<string>,
                      manualStopAt: Option<nat>, batchStops: seq<nat>, i: nat)
    requires i < |lines| && lines[i] != "" && !Interrupted(st, manualStopAt, batchStops, i).stopFlag
    ensures Reading(st, lines, error, manualStopAt, batchStops, i)
            == Reading(Consume(Interrupted(st, manualStopAt, batchStops, i), lines[i]), lines, error, manualStopAt, batchStops, i + 1)
  {
  }

  /** The `finally` of `ping` and of the batch thread: the callback is called if given. */
  function Called(st: Session): Session {
    st.(callbacks := if st.callback then st.callbacks + 1 else st.callbacks)
  }

  /** The whole of `ping`. */
  function PingRun(st: Session, spawn: Spawn, manualStopAt: Option<nat>, batchStops: seq<nat>): Session {
    match spawn
    case SpawnFailed(reason) => Called(st.(log := st.log + [Failure(reason)], process := false))
    case Spawned(lines, error) =>
      Called(Reading(st.(process := true), lines, error, manualStopAt, batchStops, 0).(process := false))
  }

  // ---------------------------------------------------------------------------------
  // Batch ping
  // ---------------------------------------------------------------------------------

  /** `[f"{net_prefix}{i}" for i in range(start, end + 1)]`. */
  function BatchIps(prefix: string, start: int, end: int): (ips: seq<string>)
    ensures |ips| == if end < start then 0 else end - start + 1
    ensures forall k :: 0 <= k < |ips| ==> ips[k] == prefix + IntToString(start + k)
  {
    if end < start then [] else seq(end - start + 1, k => prefix + IntToString(start + k))
  }

  /** `min(50, len(ip_list))`. */
  function BatchWorkers(n: nat): (w: nat)
    ensures w <= 50 && w <= n
    ensures w == 50 || w == n
    ensures 1 <= n ==> 1 <= w
  {
    if n < 50 then n else 50
  }

  /** The verdict on the outcome of one single-shot ping. */
  function VerdictOf(o: RunOutcome): (v: Verdict)
    ensures v == Reachable <==> o.Exited? && Find(Upper(o.stdout), "TTL=")
    ensures v == Unreachable <==> o.Exited? && !Find(Upper(o.stdout), "TTL=")
    ensures v == TimedOut <==> o.Expired?
    ensures v.Failed? <==> o.Raised?
  {
    match o
    case Exited(out) => if Find(Upper(out), "TTL=") then Reachable else Unreachable
    case Expired => TimedOut
    case Raised(reason) => Failed(reason)
  }

  /** `_ping_one_ip`: nothing once the stop flag is set; otherwise the line for the verdict
      on running the single-shot command (`run` is the oracle for `subprocess.run`). */
  function PingOne(ip: string, localIp: Option<string>, stopFlag: bool, run: seq<string> -> RunOutcome): (r: Option<Entry>)
    ensures r.None? <==> stopFlag
    ensures r.Some? ==> r.value.Reply? && r.value.ip == ip
    ensures r.Some? ==> r.value.verdict == VerdictOf(run(SingleShotCommand(ip, localIp)))
  {
    if stopFlag then None else Some(Reply(ip, VerdictOf(run(SingleShotCommand(ip, localIp)))))
  }

  /** `as_completed` yields every submitted future exactly once: `order[j]` is the index in
      the address list of the `j`-th ping to finish. */
  predicate CompletionOrder(order: seq<nat>, n: nat) {
    && |order| == n
    && (forall j :: 0 <= j < n ==> order[j] < n)
    && (forall i, j :: 0 <= i < j < n ==> order[i] != order[j])
    && (forall k :: 0 <= k < n ==> k in order)
  }

  /** `start_batch_ping`: the stop flag reset, the box cleared but for its header, and the
      batch thread started. */
  function StartBatch(st: Session, prefix: string, start: int, end: int, callback: bool): Session {
    st.(callback := callback, stopFlag := false, log := [BatchHeader(prefix, start, end)], batch := Alive)
  }

  /** `n` calls of `stop_batch_ping` in a row. */
  function Requested(st: Session, n: nat): Session
    decreases n
  {
    if n == 0 then st else Requested(BatchStopRequested(st), n - 1)
  }

  /** How many `stop_batch_ping` calls come before the `j`-th look at the stop flag:
      `stops[j]`, none past the end of `stops`. */
  function StopsAt(stops: seq<nat>, j: nat): nat {
    if j < |stops| then stops[j] else 0
  }

  /** The collecting loop of `_concurrent_batch_ping` from the `j`-th completed ping on;
      any number of stop requests may come before the stop flag is looked at for each. */
  function Collecting(st: Session, ips: seq<string>, localIp: Option<string>, run: seq<string> -> RunOutcome,
                      order: seq<nat>, stops: seq<nat>, j: nat): Session
    requires j <= |order|
    requires forall i :: 0 <= i < |order| ==> order[i] < |ips|
    decreases |order| - j
  {
    if j == |order| then st
    else
      var s1 := Requested(st, StopsAt(stops, j));
      if s1.stopFlag then s1
      else
        var r := PingOne(ips[order[j]], localIp, s1.stopFlag, run);
        Collecting(if r.Some? then s1.(log := s1.log + [r.value]) else s1, ips, localIp, run, order, stops, j + 1)
  }

  /** The whole of `_concurrent_batch_ping`; `late` stop requests come after the loop,
      while the pool shuts down, before the closing line. With no address the pool
      cannot be created (`max_workers` must be positive), the thread dies and nothing
      is written. */
  function BatchRun(st: Session, prefix: string, start: int, end: int, localIp: Option<string>,
                    run: seq<string> -> RunOutcome, order: seq<nat>, stops: seq<nat>, late: nat): Session
    requires CompletionOrder(order, |BatchIps(prefix, start, end)|)
  {
    var ips := BatchIps(prefix, start, end);
    if BatchWorkers(|ips|) == 0 then st.(batch := Ended)
    else
      BatchEnds(Requested(Collecting(st, ips, localIp, run, order, stops, 0), late))
  }

  /** The end of the batch thread: the closing line, which says whether the batch was
      stopped, the callback if given, and the thread gone. */
  function BatchEnds(st: Session): Session {
    Called(st.(log := st.log + [if st.stopFlag then BatchStopped else BatchCompleted])).(batch := Ended)
  }

  /** The reply lines of the pings of the addresses `ips[ord[0]]`, `ips[ord[1]]`, … in that
      order, none of them skipped. */
  function Replies(ips: seq<string>, localIp: Option<string>, run: seq<string> -> RunOutcome, ord: seq<nat>): (r: seq<Entry>)
    requires forall i :: 0 <= i < |ord| ==> ord[i] < |ips|
    ensures |r| == |ord|
    ensures forall j :: 0 <= j < |ord| ==> r[j] == Reply(ips[ord[j]], VerdictOf(run(SingleShotCommand(ips[ord[j]], localIp))))
  {
    seq(|ord|, j requires 0 <= j < |ord| => Reply(ips[ord[j]], VerdictOf(run(SingleShotCommand(ips[ord[j]], localIp)))))
  }

  // ---------------------------------------------------------------------------------
  // The object
  // ---------------------------------------------------------------------------------

  /** `PingFun`, its state in fields updated in place. `Ping` and `ConcurrentBatchPing` are
      the bodies of the worker threads; the GUI's requests while they run are given to them
      as the points at which they arrive. */
  class PingFun {
    var process: bool
    var stopFlag: bool
    var tally: Tally
    var log: seq<Entry>
    var callback: bool
    var callbacks: nat
    var batch: BatchThread
    var dialogs: seq<Dialog>

    function State(): Session
      reads this
    {
      Session(process, stopFlag, tally, log, callback, callbacks, batch, dialogs)
    }

    constructor()
      ensures State() == Fresh()
    {
      process := false;
      stopFlag := false;
      tally := Tally(0, 0, []);
      log := [];
      callback := false;
      callbacks := 0;
      batch := NotCreated;
      dialogs := [];
    }

    /** `strat_ping`: resets the session and returns the command the thread runs. */
    method StartPing(host: string, localIp: Option<string>, hasCallback: bool) returns (command: seq<string>)
      modifies this
      ensures State() == StartContinuous(old(State()), hasCallback)
      ensures command == ContinuousCommand(host, localIp)
    {
      callback := hasCallback;
      log := [];
      tally := Tally(0, 0, []);
      stopFlag := false;
      command := ["ping", host, "-t"];
      if Truthy(localIp) {
        command := command + ["-S", localIp.value];
      }
    }

    method ShowStatistics()
      modifies this
      ensures State() == ShowStats(old(State()))
    {
      if tally.sent != 0 {
        var latency := None;
        if tally.rtts != [] {
          latency := Some(Latency(Min(tally.rtts), Max(tally.rtts)));
        }
        log := log + [Statistics(tally.sent, tally.received, latency)];
      }
    }

    method StopPing()
      modifies this
      ensures State() == ManualStopped(old(State()))
    {
      if process {
        log := log + [ManualStop];
        process := false;
        ShowStatistics();
      }
    }

    /** `stop_batch_ping`; `raised` is whether it raises `AttributeError`. */
    method StopBatchPing() returns (raised: bool)
      modifies this
      ensures State() == BatchStopRequested(old(State()))
      ensures raised <==> old(batch) == NotCreated
    {
      raised := batch == NotCreated;
      if batch == Ended {
        dialogs := dialogs + [NoBatchRunning];
      } else if batch == Alive {
        stopFlag := true;
        log := log + [BatchStopping];
      }
    }

    /** `ping`: the process started, then its lines read until the end of its output,
      until the stop flag is seen or until reading raises. */
    method Ping(command: seq<string>, spawn: Spawn, manualStopAt: Option<nat>, batchStops: seq<nat>)
      modifies this
      ensures State() == PingRun(old(State()), spawn, manualStopAt, batchStops)
    {
      match spawn {
        case SpawnFailed(reason) =>
          log := log + [Failure(reason)];
        case Spawned(lines, error) =>
          process := true;
          ReadOutput(lines, error, manualStopAt, batchStops);
      }
      process := false;
      if callback {
        callbacks := callbacks + 1;
      }
    }

    /** The reading loop of `ping`: `readline` until the end of the output, until the
      stop flag is seen or until it raises, each line echoed and counted. */
    method ReadOutput(lines: seq<string>, error: Option<string>, manualStopAt: Option<nat>, batchStops: seq<nat>)
      modifies this
      ensures State() == Reading(old(State()), lines, error, manualStopAt, batchStops, 0)
    {
      ghost var begun := State();
      var i := 0;
      while true
        invariant i <= |lines|
        invariant Reading(State(), lines, error, manualStopAt, batchStops, i) == Reading(begun, lines, error, manualStopAt, batchStops, 0)
        decreases |lines| - i
      {
        ghost var before := State();
        Interrupt(manualStopAt, batchStops, i);
        if i == |lines| {
          ReadingEnds(before, lines, error, manualStopAt, batchStops, i);
          if error.Some? {
            log := log + [Failure(error.value)];
          }
          break;
        }
        if lines[i] == "" || stopFlag {
          ReadingStops(before, lines, error, manualStopAt, batchStops, i);
          break;
        }
        ReadingGoesOn(before, lines, error, manualStopAt, batchStops, i);
        Echo(lines[i]);
        i := i + 1;
      }
    }

    /** The GUI's requests that arrive before the `i`-th `readline`. */
    method Interrupt(manualStopAt: Option<nat>, batchStops: seq<nat>, i: nat)
      modifies this
      ensures State() == Interrupted(old(State()), manualStopAt, batchStops, i)
    {
      if manualStopAt == Some(i) {
        StopPing();
      }
      StopRequests(StopsAt(batchStops, i));
    }

    method Echo(line: string)
      modifies this
      ensures State() == Consume(old(State()), line)
    {
      log := log + [Output(line)];
      tally := Account(tally, line);
    }

    /** The reply line of one finished ping, if it has one. */
    method Write(r: Option<Entry>)
      modifies this
      ensures State() == if r.Some? then old(State()).(log := old(log) + [r.value]) else old(State())
    {
      if r.Some? {
        log := log + [r.value];
      }
    }

    method StartBatchPing(prefix: string, start: int, end: int, hasCallback: bool)
      modifies this
      ensures State() == StartBatch(old(State()), prefix, start, end, hasCallback)
    {
      callback := hasCallback;
      stopFlag := false;
      log := [BatchHeader(prefix, start, end)];
      batch := Alive;
    }

    /** `_concurrent_batch_ping`: the addresses pinged by up to 50 workers, each reply line
      written as its ping finishes until the stop flag is seen, then the closing line. */
    method ConcurrentBatchPing(prefix: string, start: int, end: int, localIp: Option<string>,
                               run: seq<string> -> RunOutcome, order: seq<nat>, stops: seq<nat>, late: nat)
      requires CompletionOrder(order, |BatchIps(prefix, start, end)|)
      modifies this
      ensures State() == BatchRun(old(State()), prefix, start, end, localIp, run, order, stops, late)
    {
      var ips := BatchIps(prefix, start, end);
      var workers := BatchWorkers(|ips|);
      if workers == 0 {
        batch := Ended;
        return;
      }
      Collect(ips, localIp, run, order, stops);
      StopRequests(late);
      EndBatch();
    }

    /** `n` calls of `stop_batch_ping` from the GUI. */
    method StopRequests(n: nat)
      modifies this
      ensures State() == Requested(old(State()), n)
    {
      ghost var begun := State();
      var c := 0;
      while c < n
        invariant c <= n
        invariant Requested(State(), n - c) == Requested(begun, n)
      {
        var raised := StopBatchPing();
        c := c + 1;
      }
    }

    method EndBatch()
      modifies this
      ensures State() == BatchEnds(old(State()))
    {
      var closing := if stopFlag then BatchStopped else BatchCompleted;
      log := log + [closing];
      if callback {
        callbacks := callbacks + 1;
      }
      batch := Ended;
    }

    /** The `as_completed` loop: the reply lines written in completion order until the stop
      flag is seen. */
    method Collect(ips: seq<string>, localIp: Option<string>, run: seq<string> -> RunOutcome,
                   order: seq<nat>, stops: seq<nat>)
      requires forall i :: 0 <= i < |order| ==> order[i] < |ips|
      modifies this
      ensures State() == Collecting(old(State()), ips, localIp, run, order, stops, 0)
    {
      ghost var begun := State();
      var j := 0;
      while j < |order|
        invariant j <= |order|
        invariant Collecting(State(), ips, localIp, run, order, stops, j) == Collecting(begun, ips, localIp, run, order, stops, 0)
      {
        ghost var before := State();
        StopRequests(StopsAt(stops, j));
        if stopFlag {
          assert Collecting(before, ips, localIp, run, order, stops, j) == State();
          break;
        }
        Write(PingOne(ips[order[j]], localIp, stopFlag, run));
        j := j + 1;
      }
    }
  }
}

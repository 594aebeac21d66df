/** What the ping tool guarantees, proved about the functions of module `PingTool`. */
module PingProofs {
  import opened Text
  import opened PingTool

  // ---------------------------------------------------------------------------------
  // The continuous ping
  // ---------------------------------------------------------------------------------

  /** The entries `ping` echoes for `lines`. */
  function Outputs(lines: seq<string>): (r: seq<Entry>)
    ensures |r| == |lines|
    ensures forall k :: 0 <= k < |lines| ==> r[k] == Output(lines[k])
  {
    seq(|lines|, k requires 0 <= k < |lines| => Output(lines[k]))
  }

  lemma OutputsCons(line: string, lines: seq<string>)
    ensures Outputs([line] + lines) == [Output(line)] + Outputs(lines)
  {
  }

  lemma TalliedCons(t: Tally, line: string, lines: seq<string>)
    ensures Tallied(t, [line] + lines) == Tallied(Account(t, line), lines)
  {
    assert ([line] + lines)[1..] == lines;
  }

  lemma UntilEofCons(lines: seq<string>, i: nat)
    requires i < |lines| && lines[i] != ""
    ensures UntilEof(lines[i..]) == [lines[i]] + UntilEof(lines[i + 1..])
  {
    assert lines[i..][1..] == lines[i + 1..];
  }

  /** The failure line of a ping whose reading raised: present when the output holds no
      end marker before the failing `readline`. */
  function BreakOf(lines: seq<string>, error: Option<string>): (r: seq<Entry>)
    ensures r != [] <==> error.Some? && "" !in lines
    ensures r != [] ==> r == [Failure(error.value)]
  {
    if error.Some? && "" !in lines then [Failure(error.value)] else []
  }

  lemma BreakOfCons(lines: seq<string>, error: Option<string>, i: nat)
    requires i < |lines| && lines[i] != ""
    ensures BreakOf(lines[i..], error) == BreakOf(lines[i + 1..], error)
  {
    assert lines[i..] == [lines[i]] + lines[i + 1..];
  }

  lemma NoRequests(st: Session, i: nat)
    ensures Interrupted(st, None, [], i) == st
  {
  }

  lemma ReadingStep(st: Session, lines: seq<string>, error: Option<string>, i: nat)
    requires i < |lines| && lines[i] != "" && !st.stopFlag
    ensures Reading(st, lines, error, None, [], i) == Reading(Consume(st, lines[i]), lines, error, None, [], i + 1)
  {
    NoRequests(st, i);
  }

  /** Where the reading stops: at the end marker, or past the last line, where the
      failure line is written if reading raised. */
  lemma ReadingEnd(st: Session, lines: seq<string>, error: Option<string>, i: nat)
    requires i <= |lines| && (i == |lines| || lines[i] == "")
    ensures Reading(st, lines, error, None, [], i) == st.(log := st.log + BreakOf(lines[i..], error))
  {
    NoRequests(st, i);
    if i < |lines| {
      assert lines[i..][0] == "";
    } else {
      assert lines[i..] == [];
    }
  }

  lemma {:induction false} ReadingEchoes(st: Session, lines: seq<string>, error: Option<string>, i: nat)
    requires i <= |lines| && !st.stopFlag
    ensures Reading(st, lines, error, None, [], i).log
            == st.log + Outputs(UntilEof(lines[i..])) + BreakOf(lines[i..], error)
    decreases |lines| - i
  {
    if i == |lines| || lines[i] == "" {
      ReadingEnd(st, lines, error, i);
      assert UntilEof(lines[i..]) == [];
      assert st.log + Outputs([]) == st.log;
    } else {
      ReadingStep(st, lines, error, i);
      ReadingEchoes(Consume(st, lines[i]), lines, error, i + 1);
      EchoesFrom(st.log, lines, i);
      BreakOfCons(lines, error, i);
    }
  }

  /** The entries echoed from the `i`-th line on are its entry and those after it. */
  lemma EchoesFrom(log: seq<Entry>, lines: seq<string>, i: nat)
    requires i < |lines| && lines[i] != ""
    ensures log + [Output(lines[i])] + Outputs(UntilEof(lines[i + 1..])) == log + Outputs(UntilEof(lines[i..]))
  {
    UntilEofCons(lines, i);
    OutputsCons(lines[i], UntilEof(lines[i + 1..]));
  }

  lemma {:induction false} ReadingCounts(st: Session, lines: seq<string>, error: Option<string>, i: nat)
    requires i <= |lines| && !st.stopFlag
    ensures Reading(st, lines, error, None, [], i).tally == Tallied(st.tally, UntilEof(lines[i..]))
    decreases |lines| - i
  {
    if i == |lines| || lines[i] == "" {
      ReadingEnd(st, lines, error, i);
      assert UntilEof(lines[i..]) == [];
    } else {
      ReadingStep(st, lines, error, i);
      ReadingCounts(Consume(st, lines[i]), lines, error, i + 1);
      UntilEofCons(lines, i);
      TalliedCons(st.tally, lines[i], UntilEof(lines[i + 1..]));
    }
  }

  lemma {:induction false} ReadingFrame(st: Session, lines: seq<string>, error: Option<string>, i: nat)
    requires i <= |lines| && !st.stopFlag
    ensures var t := Reading(st, lines, error, None, [], i);
            t == st.(log := t.log, tally := t.tally)
    decreases |lines| - i
  {
    if i == |lines| || lines[i] == "" {
      ReadingEnd(st, lines, error, i);
    } else {
      ReadingStep(st, lines, error, i);
      ReadingFrame(Consume(st, lines[i]), lines, error, i + 1);
    }
  }

  /** Without requests from the GUI and with the stop flag clear, the loop echoes and
      counts every line up to the end of the output, then writes the failure if reading
      raised, and nothing else. */
  lemma ReadingUninterrupted(st: Session, lines: seq<string>, error: Option<string>, i: nat)
    requires i <= |lines| && !st.stopFlag
    ensures Reading(st, lines, error, None, [], i)
            == st.(log := st.log + Outputs(UntilEof(lines[i..])) + BreakOf(lines[i..], error),
                   tally := Tallied(st.tally, UntilEof(lines[i..])))
  {
    ReadingEchoes(st, lines, error, i);
    ReadingCounts(st, lines, error, i);
    ReadingFrame(st, lines, error, i);
  }

  /** After `strat_ping`, a ping that nobody stops counts one request per line of its output
      and one reply, with its time, per line that carries a time; the box holds exactly those
      lines, followed by the failure line when reading raised before the end marker; the
      process is gone and the callback has been called once if given. */
  lemma PingAfterStart(st: Session, callback: bool, lines: seq<string>, error: Option<string>)
    ensures var t := PingRun(StartContinuous(st, callback), Spawned(lines, error), None, []);
            var out := UntilEof(lines);
            && t.tally.sent == |out|
            && t.tally.rtts == RttsOf(out)
            && t.tally.received == |RttsOf(out)|
            && t.log == Outputs(out) + BreakOf(lines, error)
            && !t.process && !t.stopFlag
            && t.callbacks == st.callbacks + (if callback then 1 else 0)
  {
    var s0 := StartContinuous(st, callback).(process := true);
    ReadingUninterrupted(s0, lines, error, 0);
    assert lines[0..] == lines;
    TalliedCounts(Tally(0, 0, []), UntilEof(lines));
  }

  /** The GUI's requests never touch the counters, and never clear the stop flag. */
  lemma InterruptedKeepsTally(st: Session, manualStopAt: Option<nat>, batchStops: seq<nat>, i: nat)
    ensures Interrupted(st, manualStopAt, batchStops, i).tally == st.tally
    ensures st.stopFlag ==> Interrupted(st, manualStopAt, batchStops, i).stopFlag
  {
    var s1 := if manualStopAt == Some(i) then ManualStopped(st) else st;
    RequestedKeeps(s1, StopsAt(batchStops, i));
  }

  /** Once the stop flag is set the loop reads no further line: it ends at the next check,
      and no counter changes any more; a `readline` that raises before that check still
      writes the failure line. */
  lemma FlagEndsReading(st: Session, lines: seq<string>, error: Option<string>,
                        manualStopAt: Option<nat>, batchStops: seq<nat>, i: nat)
    requires i <= |lines| && st.stopFlag
    ensures Reading(st, lines, error, manualStopAt, batchStops, i)
            == if i == |lines| then Broken(Interrupted(st, manualStopAt, batchStops, i), error)
               else Interrupted(st, manualStopAt, batchStops, i)
    ensures Reading(st, lines, error, manualStopAt, batchStops, i).tally == st.tally
  {
    InterruptedKeepsTally(st, manualStopAt, batchStops, i);
  }

  /** Whatever the GUI requests and whenever, and whether or not reading raises, the loop
      keeps `received <= sent` and one time per reply. */
  lemma {:induction false} ReadingKeepsTallyInv(st: Session, lines: seq<string>, error: Option<string>,
                                                manualStopAt: Option<nat>, batchStops: seq<nat>, i: nat)
    requires i <= |lines| && TallyInv(st.tally)
    ensures TallyInv(Reading(st, lines, error, manualStopAt, batchStops, i).tally)
    decreases |lines| - i
  {
    var s1 := Interrupted(st, manualStopAt, batchStops, i);
    InterruptedKeepsTally(st, manualStopAt, batchStops, i);
    if !(i == |lines| || lines[i] == "" || s1.stopFlag) {
      AccountKeepsTallyInv(s1.tally, lines[i]);
      ReadingKeepsTallyInv(Consume(s1, lines[i]), lines, error, manualStopAt, batchStops, i + 1);
    }
  }

  lemma PingKeepsTallyInv(st: Session, spawn: Spawn, manualStopAt: Option<nat>, batchStops: seq<nat>)
    requires TallyInv(st.tally)
    ensures TallyInv(PingRun(st, spawn, manualStopAt, batchStops).tally)
  {
    if spawn.Spawned? {
      ReadingKeepsTallyInv(st.(process := true), spawn.lines, spawn.error, manualStopAt, batchStops, 0);
    }
  }

  /** A ping whose process cannot be started writes only the failure, and the counters stay. */
  lemma PingFailsToStart(st: Session, reason: string, manualStopAt: Option<nat>, batchStops: seq<nat>)
    ensures var t := PingRun(st, SpawnFailed(reason), manualStopAt, batchStops);
            t.log == st.log + [Failure(reason)] && t.tally == st.tally && !t.process
  {
  }

  /** `stop_ping` with no process does nothing; with one, it writes the stop line, drops
      the process and then shows the statistics, which are omitted when nothing was sent. */
  lemma StopPingOutcome(st: Session)
    ensures !st.process ==> ManualStopped(st) == st
    ensures st.process ==>
              var t := ManualStopped(st);
              && !t.process && t.tally == st.tally
              && t.log == st.log + [ManualStop] + (if st.tally.sent == 0 then [] else [StatisticsEntry(st.tally).value])
  {
  }

  // ---------------------------------------------------------------------------------
  // The batch ping
  // ---------------------------------------------------------------------------------

  lemma PrefixCancels(p: string, a: string, b: string)
    requires p + a == p + b
    ensures a == b
  {
    assert a == (p + a)[|p|..];
    assert b == (p + b)[|p|..];
  }

  /** The batch addresses are those of `start..end`, each once. */
  lemma BatchIpsDistinct(prefix: string, start: int, end: int)
    ensures var ips := BatchIps(prefix, start, end);
            forall i, j :: 0 <= i < j < |ips| ==> ips[i] != ips[j]
  {
    var ips := BatchIps(prefix, start, end);
    forall i, j | 0 <= i < j < |ips| ensures ips[i] != ips[j] {
      if ips[i] == ips[j] {
        PrefixCancels(prefix, IntToString(start + i), IntToString(start + j));
        IntToStringInjective(start + i, start + j);
      }
    }
  }

  lemma BatchIpsMembers(prefix: string, start: int, end: int)
    ensures forall n :: start <= n <= end ==> prefix + IntToString(n) in BatchIps(prefix, start, end)
  {
    var ips := BatchIps(prefix, start, end);
    forall n | start <= n <= end ensures prefix + IntToString(n) in ips {
      assert ips[n - start] == prefix + IntToString(n);
    }
  }

  /** The line of a ping that finishes before any stop. */
  lemma RepliesCons(ips: seq<string>, localIp: Option<string>, run: seq<string> -> RunOutcome, ord: seq<nat>)
    requires ord != [] && forall i :: 0 <= i < |ord| ==> ord[i] < |ips|
    ensures Replies(ips, localIp, run, ord) == [PingOne(ips[ord[0]], localIp, false, run).value] + Replies(ips, localIp, run, ord[1..])
  {
  }

  /** The lines of `n` stop requests while the batch thread is alive. */
  function Stoppings(n: nat): (r: seq<Entry>)
    ensures |r| == n && forall k :: 0 <= k < n ==> r[k] == BatchStopping
  {
    seq(n, k => BatchStopping)
  }

  lemma StoppingsAdd(a: nat, b: nat)
    ensures Stoppings(a) + Stoppings(b) == Stoppings(a + b)
  {
  }

  /** While the batch thread is alive every stop request sets the flag and writes one
      more stopping line. */
  lemma {:induction false} RequestedAlive(st: Session, n: nat)
    requires st.batch == Alive
    ensures Requested(st, n) == if n == 0 then st else st.(stopFlag := true, log := st.log + Stoppings(n))
    decreases n
  {
    if n > 0 {
      var s1 := BatchStopRequested(st);
      RequestedAlive(s1, n - 1);
      assert [BatchStopping] + Stoppings(n - 1) == Stoppings(n);
      assert st.log + [BatchStopping] + Stoppings(n - 1) == st.log + Stoppings(n);
    }
  }

  /** No stop request before any of the first `k` looks at the flag. */
  predicate NoStopsBefore(stops: seq<nat>, k: nat) {
    forall i :: 0 <= i < k ==> StopsAt(stops, i) == 0
  }

  lemma CollectingStep(st: Session, ips: seq<string>, localIp: Option<string>,
                       run: seq<string> -> RunOutcome, order: seq<nat>, stops: seq<nat>, j: nat)
    requires j < |order| && forall i :: 0 <= i < |order| ==> order[i] < |ips|
    requires !st.stopFlag && StopsAt(stops, j) == 0
    ensures Collecting(st, ips, localIp, run, order, stops, j)
            == Collecting(st.(log := st.log + [PingOne(ips[order[j]], localIp, false, run).value]), ips, localIp, run, order, stops, j + 1)
  {
  }

  /** With no stop request and the flag clear, every ping that finishes has its line
      written, in completion order. */
  lemma {:induction false} CollectingUnstopped(st: Session, ips: seq<string>, localIp: Option<string>,
                                               run: seq<string> -> RunOutcome, order: seq<nat>, stops: seq<nat>, j: nat)
    requires j <= |order| && forall i :: 0 <= i < |order| ==> order[i] < |ips|
    requires !st.stopFlag && NoStopsBefore(stops, |order|)
    ensures Collecting(st, ips, localIp, run, order, stops, j)
            == st.(log := st.log + Replies(ips, localIp, run, order[j..]))
    decreases |order| - j
  {
    if j == |order| {
      assert Replies(ips, localIp, run, order[j..]) == [];
      assert st.log + [] == st.log;
    } else {
      var e := PingOne(ips[order[j]], localIp, false, run).value;
      CollectingStep(st, ips, localIp, run, order, stops, j);
      CollectingUnstopped(st.(log := st.log + [e]), ips, localIp, run, order, stops, j + 1);
      assert order[j + 1..] == order[j + 1..|order|] && order[j..] == order[j..|order|];
      RepliesFrom(st.log, ips, localIp, run, order, j, |order|);
    }
  }

  /** Stop requests first come before the `k`-th result: the lines of the results before
      it are written, then one stopping line per request, and no line after. */
  lemma {:induction false} CollectingStopped(st: Session, ips: seq<string>, localIp: Option<string>,
                                             run: seq<string> -> RunOutcome, order: seq<nat>, stops: seq<nat>, k: nat, j: nat)
    requires j <= k < |order| && forall i :: 0 <= i < |order| ==> order[i] < |ips|
    requires NoStopsBefore(stops, k) && StopsAt(stops, k) >= 1
    requires !st.stopFlag && st.batch == Alive
    ensures Collecting(st, ips, localIp, run, order, stops, j)
            == st.(stopFlag := true, log := st.log + Replies(ips, localIp, run, order[j..k]) + Stoppings(StopsAt(stops, k)))
    decreases |order| - j
  {
    if j == k {
      RequestedAlive(st, StopsAt(stops, k));
      assert Replies(ips, localIp, run, order[j..k]) == [];
      assert st.log + [] == st.log;
    } else {
      var e := PingOne(ips[order[j]], localIp, false, run).value;
      CollectingStep(st, ips, localIp, run, order, stops, j);
      CollectingStopped(st.(log := st.log + [e]), ips, localIp, run, order, stops, k, j + 1);
      RepliesFrom(st.log, ips, localIp, run, order, j, k);
    }
  }

  /** The lines of the results from the `j`-th on, before the `k`-th, are the `j`-th
      result's line and those after it. */
  lemma RepliesFrom(log: seq<Entry>, ips: seq<string>, localIp: Option<string>,
                    run: seq<string> -> RunOutcome, order: seq<nat>, j: nat, k: nat)
    requires j < k <= |order| && forall i :: 0 <= i < |order| ==> order[i] < |ips|
    ensures log + [PingOne(ips[order[j]], localIp, false, run).value] + Replies(ips, localIp, run, order[j + 1..k])
            == log + Replies(ips, localIp, run, order[j..k])
  {
    assert order[j..k][1..] == order[j + 1..k];
    RepliesCons(ips, localIp, run, order[j..k]);
  }

  /** A batch thread that finds the stop flag already set writes no result. */
  lemma CollectingFlagged(st: Session, ips: seq<string>, localIp: Option<string>,
                          run: seq<string> -> RunOutcome, order: seq<nat>, stops: seq<nat>)
    requires forall i :: 0 <= i < |order| ==> order[i] < |ips|
    requires st.stopFlag
    ensures Collecting(st, ips, localIp, run, order, stops, 0)
            == if order == [] then st else Requested(st, StopsAt(stops, 0))
  {
    if order != [] {
      RequestedKeeps(st, StopsAt(stops, 0));
    }
  }

  /** Stop requests never touch the counters, and never clear the stop flag. */
  lemma {:induction false} RequestedKeeps(st: Session, n: nat)
    ensures Requested(st, n).tally == st.tally
    ensures st.stopFlag ==> Requested(st, n).stopFlag
    decreases n
  {
    if n > 0 {
      RequestedKeeps(BatchStopRequested(st), n - 1);
    }
  }

  /** A batch of no address (`end < start`): the pool cannot be created, the thread ends and
      nothing is written, not even the closing line, and the callback is not called. */
  lemma EmptyBatch(st: Session, prefix: string, start: int, end: int, localIp: Option<string>,
                   run: seq<string> -> RunOutcome, stops: seq<nat>, late: nat)
    requires end < start
    ensures BatchRun(st, prefix, start, end, localIp, run, [], stops, late) == st.(batch := Ended)
  {
  }

  /** The closing line depends only on the stop flag. */
  lemma BatchClosingLine(st: Session, prefix: string, start: int, end: int, localIp: Option<string>,
                         run: seq<string> -> RunOutcome, order: seq<nat>, stops: seq<nat>, late: nat)
    requires CompletionOrder(order, |BatchIps(prefix, start, end)|)
    requires start <= end
    ensures var t := BatchRun(st, prefix, start, end, localIp, run, order, stops, late);
            t.log != [] && t.log[|t.log| - 1] == (if t.stopFlag then BatchStopped else BatchCompleted)
            && t.batch == Ended
  {
  }

  /** A batch nobody stops while it collects: every address gets its line, in completion
      order; then the stopping lines of the requests that come while the pool shuts down,
      and the completion line, or the stopped line when such a request came. */
  lemma BatchCompletes(st: Session, prefix: string, start: int, end: int, localIp: Option<string>,
                       run: seq<string> -> RunOutcome, order: seq<nat>, stops: seq<nat>, late: nat)
    requires CompletionOrder(order, |BatchIps(prefix, start, end)|)
    requires start <= end && !st.stopFlag && st.batch == Alive && NoStopsBefore(stops, |order|)
    ensures var t := BatchRun(st, prefix, start, end, localIp, run, order, stops, late);
            t.log == st.log + Replies(BatchIps(prefix, start, end), localIp, run, order) + Stoppings(late)
                     + [if late == 0 then BatchCompleted else BatchStopped]
            && t.stopFlag == (late > 0) && t.batch == Ended
  {
    var ips := BatchIps(prefix, start, end);
    CollectingUnstopped(st, ips, localIp, run, order, stops, 0);
    assert order[0..] == order;
    var c := Collecting(st, ips, localIp, run, order, stops, 0);
    RequestedAlive(c, late);
    if late == 0 {
      assert c.log + Stoppings(0) == c.log;
    }
  }

  /** A batch first asked to stop before its `k`-th result: the lines of the first `k`
      results, one stopping line for every request, those while the pool shuts down
      included, and the stopped line; nothing else. */
  lemma BatchStops(st: Session, prefix: string, start: int, end: int, localIp: Option<string>,
                   run: seq<string> -> RunOutcome, order: seq<nat>, stops: seq<nat>, late: nat, k: nat)
    requires CompletionOrder(order, |BatchIps(prefix, start, end)|)
    requires start <= end && !st.stopFlag && st.batch == Alive && k < |order|
    requires NoStopsBefore(stops, k) && StopsAt(stops, k) >= 1
    ensures var t := BatchRun(st, prefix, start, end, localIp, run, order, stops, late);
            t.log == st.log + Replies(BatchIps(prefix, start, end), localIp, run, order[..k])
                     + Stoppings(StopsAt(stops, k) + late) + [BatchStopped]
            && t.stopFlag && t.batch == Ended
  {
    var ips := BatchIps(prefix, start, end);
    StoppedThenLate(st, ips, localIp, run, order, stops, late, k);
    assert BatchWorkers(|ips|) != 0;
  }

  /** The collecting loop stopped before its `k`-th result, followed by `late` more
      requests while the pool shuts down. */
  lemma StoppedThenLate(st: Session, ips: seq<string>, localIp: Option<string>,
                        run: seq<string> -> RunOutcome, order: seq<nat>, stops: seq<nat>, late: nat, k: nat)
    requires k < |order| && forall i :: 0 <= i < |order| ==> order[i] < |ips|
    requires NoStopsBefore(stops, k) && StopsAt(stops, k) >= 1
    requires !st.stopFlag && st.batch == Alive
    ensures Requested(Collecting(st, ips, localIp, run, order, stops, 0), late)
            == st.(stopFlag := true, log := st.log + Replies(ips, localIp, run, order[..k]) + Stoppings(StopsAt(stops, k) + late))
  {
    var n := StopsAt(stops, k);
    var r := Replies(ips, localIp, run, order[..k]);
    CollectingStopped(st, ips, localIp, run, order, stops, k, 0);
    assert order[0..k] == order[..k];
    var c := Collecting(st, ips, localIp, run, order, stops, 0);
    RequestedAlive(c, late);
    StoppingsAdd(n, late);
    assert st.log + r + Stoppings(n) + Stoppings(late) == st.log + r + Stoppings(n + late);
  }

  /** In a batch nobody stops, each address of the range gets exactly one line. */
  lemma EachAddressOnce(prefix: string, start: int, end: int, localIp: Option<string>,
                        run: seq<string> -> RunOutcome, order: seq<nat>)
    requires CompletionOrder(order, |BatchIps(prefix, start, end)|)
    ensures var ips := BatchIps(prefix, start, end);
            var r := Replies(ips, localIp, run, order);
            forall i :: 0 <= i < |ips| ==> exists j :: 0 <= j < |r| && r[j].ip == ips[i]
    ensures var r := Replies(BatchIps(prefix, start, end), localIp, run, order);
            forall j1, j2 :: 0 <= j1 < j2 < |r| ==> r[j1].ip != r[j2].ip
  {
    var ips := BatchIps(prefix, start, end);
    var r := Replies(ips, localIp, run, order);
    BatchIpsDistinct(prefix, start, end);
    forall i | 0 <= i < |ips| ensures exists j :: 0 <= j < |r| && r[j].ip == ips[i] {
      assert i in order;
      var j :| 0 <= j < |order| && order[j] == i;
      assert r[j].ip == ips[order[j]];
    }
    assert forall i :: 0 <= i < |ips| ==> exists j :: 0 <= j < |r| && r[j].ip == ips[i];
    forall j1, j2 | 0 <= j1 < j2 < |r| ensures r[j1].ip != r[j2].ip {
      assert r[j1].ip == ips[order[j1]] && r[j2].ip == ips[order[j2]];
      assert order[j1] != order[j2];
      if order[j1] < order[j2] {
        assert ips[order[j1]] != ips[order[j2]];
      } else {
        assert ips[order[j2]] != ips[order[j1]];
      }
    }
  }
}

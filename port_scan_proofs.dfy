/** What the port scanner guarantees, proved about the state machine of module `PortScan`. */
module PortScanProofs {
  import opened Text
  import opened PortScan

  // ---------------------------------------------------------------------------------
  // Validation and range expansion
  // ---------------------------------------------------------------------------------

  /** A range expands to its ports in strictly ascending order, each exactly once. */
  lemma RangeAscending(start: int, end: int)
    ensures forall i, j :: 0 <= i < j < |PortRange(start, end)| ==> PortRange(start, end)[i] < PortRange(start, end)[j]
    ensures forall p :: p in PortRange(start, end) <==> start <= p <= end
  {
    var r := PortRange(start, end);
    forall p | start <= p <= end ensures p in r {
      assert r[p - start] == p;
    }
  }

  /** The outcome of `start_range_scan`: a value that is not an integer, or a range outside
      1-65535 or reversed, only raises its dialog; a valid range is handed to the list
      scan as the ports `start..end`, which then is accepted unless a scan is running. */
  lemma StartRangeOutcome(s: Scan, ip: string, start: Value, end: Value, maxWorkers: int)
    ensures start.NonInteger? || end.NonInteger? ==>
              StartRange(s, ip, start, end, maxWorkers) == s.(dialogs := s.dialogs + [RangeNotInteger])
    ensures start.IntValue? && end.IntValue? && !(MinPort <= start.n <= end.n <= MaxPort) ==>
              StartRange(s, ip, start, end, maxWorkers) == s.(dialogs := s.dialogs + [RangeInvalid])
    ensures start.IntValue? && end.IntValue? && MinPort <= start.n <= end.n <= MaxPort ==>
              StartRange(s, ip, start, end, maxWorkers)
              == StartList(s, ip, Ints(PortRange(start.n, end.n)), maxWorkers)
    ensures start.IntValue? && end.IntValue? && MinPort <= start.n <= end.n <= MaxPort && s.phase == Idle ==>
              var t := StartRange(s, ip, start, end, maxWorkers);
              t.phase == Collecting && t.pool.ports == PortRange(start.n, end.n)
              && t.total == end.n - start.n + 1
  {
    if start.IntValue? && end.IntValue? && MinPort <= start.n <= end.n <= MaxPort && s.phase == Idle {
      var ps := PortRange(start.n, end.n);
      var vs := Ints(ps);
      assert forall i :: 0 <= i < |vs| ==> vs[i].IntValue?;
      assert ToInts(vs).value == ps;
      assert FirstOutOfRange(ps) == None;
    }
  }

  /** The outcome of `start_list_scan`: it is accepted exactly when no scan is running, every
      value is an integer, the list is not empty and every port lies in 1-65535. A rejected
      call adds one dialog and changes nothing else; an accepted one resets the stop flag,
      the open ports and both counters and submits the ports in the given order. */
  lemma StartListOutcome(s: Scan, ip: string, vs: seq<Value>, maxWorkers: int)
    ensures var t := StartList(s, ip, vs, maxWorkers);
            (t.phase != Idle && s.phase == Idle)
            <==> (s.phase == Idle && (forall i :: 0 <= i < |vs| ==> vs[i].IntValue?) && vs != []
                  && forall i :: 0 <= i < |vs| ==> ValidPort(vs[i].n))
    ensures var t := StartList(s, ip, vs, maxWorkers);
            s.phase != Idle || t.phase == Idle ==>
              exists d :: t == s.(dialogs := s.dialogs + [d])
    ensures var t := StartList(s, ip, vs, maxWorkers);
            s.phase != Idle ==> t == s.(dialogs := s.dialogs + [AlreadyRunning])
    ensures var t := StartList(s, ip, vs, maxWorkers);
            s.phase == Idle && t.phase != Idle ==>
              && !t.stopFlag && t.openPorts == [] && t.done == 0 && t.total == |vs|
              && |t.pool.ports| == |vs| && (forall i :: 0 <= i < |vs| ==> t.pool.ports[i] == vs[i].n)
              && t.log == s.log + [ScanStarted(ip, |vs|)] && t.dialogs == s.dialogs
  {
    var t := StartList(s, ip, vs, maxWorkers);
    if s.phase == Idle {
      match ToInts(vs)
      case None =>
        assert t == s.(dialogs := s.dialogs + [ListNotInteger]);
      case Some(ps) =>
        if ps == [] {
          assert t == s.(dialogs := s.dialogs + [ListEmpty]);
        } else if FirstOutOfRange(ps).Some? {
          var p := FirstOutOfRange(ps).value;
          var k :| 0 <= k < |ps| && ps[k] == p && !ValidPort(ps[k]);
          assert !ValidPort(vs[k].n);
          assert t == s.(dialogs := s.dialogs + [PortOutOfRange(p)]);
        }
    }
  }

  // ---------------------------------------------------------------------------------
  // The invariant is established and kept
  // ---------------------------------------------------------------------------------

  lemma InitialInv()
    ensures Inv(Initial())
  {
  }

  lemma RanAppend(rs: seq<Completion>, c: Completion)
    ensures Ran(rs + [c]) == Ran(rs) + (if c.line.Some? then 1 else 0)
  {
    assert (rs + [c])[..|rs|] == rs;
  }

  lemma OpenOfAppend(rs: seq<Completion>, c: Completion)
    ensures OpenOf(rs + [c]) == OpenOf(rs)
      + (if c.line.Some? && c.line.value.PortStatus? && c.line.value.open then [c.line.value.port] else [])
  {
    assert (rs + [c])[..|rs|] == rs;
  }

  /** A start request, accepted or not, keeps the invariant. */
  lemma StartPreservesInv(s: Scan, ip: string, vs: seq<Value>, maxWorkers: int)
    requires Inv(s)
    ensures Inv(StartList(s, ip, vs, maxWorkers))
  {
    StartListOutcome(s, ip, vs, maxWorkers);
    var t := StartList(s, ip, vs, maxWorkers);
    if s.phase != Idle || t.phase == Idle {
      var d :| t == s.(dialogs := s.dialogs + [d]);
      DialogsKeepInv(s, s.dialogs + [d]);
    }
  }

  /** The dialogs shown play no part in the invariant. */
  lemma DialogsKeepInv(s: Scan, ds: seq<Dialog>)
    requires Inv(s)
    ensures Inv(s.(dialogs := ds))
  {
  }

  lemma StartRangePreservesInv(s: Scan, ip: string, start: Value, end: Value, maxWorkers: int)
    requires Inv(s)
    ensures Inv(StartRange(s, ip, start, end, maxWorkers))
  {
    StartRangeOutcome(s, ip, start, end, maxWorkers);
    if start.IntValue? && end.IntValue? && MinPort <= start.n <= end.n <= MaxPort {
      StartPreservesInv(s, ip, Ints(PortRange(start.n, end.n)), maxWorkers);
    } else {
      DialogsKeepInv(s, s.dialogs + [if start.NonInteger? || end.NonInteger? then RangeNotInteger else RangeInvalid]);
    }
  }

  /** A worker takes the next probe and starts connecting. */
  lemma TakeKeepsPoolInv(p: Pool)
    requires PoolInv(p) && p.next < |p.ports| && |p.inFlight| < p.workers
    ensures PoolInv(p.(next := p.next + 1, inFlight := p.inFlight + {p.next}))
  {
    assert p.next !in p.inFlight;
    assert |p.inFlight + {p.next}| == |p.inFlight| + 1;
  }

  /** A worker takes the next probe after a stop request and returns at once. */
  lemma SkipKeepsPoolInv(p: Pool)
    requires PoolInv(p) && p.next < |p.ports| && |p.inFlight| < p.workers
    ensures PoolInv(p.(next := p.next + 1, results := p.results + [Completion(p.next, None)]))
  {
  }

  /** The connect attempt of a probe that is connecting ends. */
  lemma EndKeepsPoolInv(p: Pool, k: nat, connected: bool)
    requires PoolInv(p) && k in p.inFlight && k < |p.ports|
    ensures PoolInv(p.(inFlight := p.inFlight - {k},
                       results := p.results + [Completion(k, Some(PortStatus(p.ip, p.ports[k], connected)))]))
  {
    assert |p.inFlight - {k}| == |p.inFlight| - 1;
  }

  /** A scan whose pool has one more result, counted in `_done` and `_open_ports`, and
      which is otherwise the same scan, keeps the invariant. */
  lemma ResultKeepsInv(s: Scan, t: Scan, c: Completion)
    requires Inv(s) && PoolInv(t.pool)
    requires t.pool.ports == s.pool.ports && t.pool.workers == s.pool.workers
    requires t.pool.collected == s.pool.collected && t.pool.results == s.pool.results + [c]
    requires t.total == s.total && t.stopFlag == s.stopFlag && t.phase == s.phase
    requires c.line.None? ==> s.stopFlag
    requires t.done == Ran(t.pool.results) && t.openPorts == OpenOf(t.pool.results)
    ensures Inv(t)
  {
    var rs := t.pool.results;
    forall i | 0 <= i < |rs| && rs[i].line.None?
      ensures t.stopFlag
    {
      if i < |s.pool.results| {
        assert rs[i] == s.pool.results[i];
      }
    }
  }

  lemma WorkerTakesPreservesInv(s: Scan)
    requires Inv(s)
    ensures Inv(WorkerTakes(s))
  {
    var p := s.pool;
    if s.phase == Idle || p.next >= |p.ports| || |p.inFlight| >= p.workers {
      assert WorkerTakes(s) == s;
    } else if s.stopFlag {
      SkipPreservesInv(s);
    } else {
      TakePreservesInv(s);
    }
  }

  /** A worker that finds the stop flag set records an empty result. */
  lemma SkipPreservesInv(s: Scan)
    requires Inv(s) && s.phase != Idle && s.pool.next < |s.pool.ports| && |s.pool.inFlight| < s.pool.workers
    requires s.stopFlag
    ensures Inv(WorkerTakes(s))
  {
    var p := s.pool;
    var c := Completion(p.next, None);
    var t := WorkerTakes(s);
    assert t == s.(pool := p.(next := p.next + 1, results := p.results + [c]));
    SkipKeepsPoolInv(p);
    RanAppend(p.results, c);
    OpenOfAppend(p.results, c);
    ResultKeepsInv(s, t, c);
  }

  /** A worker that finds the stop flag clear starts connecting. */
  lemma TakePreservesInv(s: Scan)
    requires Inv(s) && s.phase != Idle && s.pool.next < |s.pool.ports| && |s.pool.inFlight| < s.pool.workers
    requires !s.stopFlag
    ensures Inv(WorkerTakes(s))
  {
    var p := s.pool;
    var t := WorkerTakes(s);
    assert t == s.(pool := p.(next := p.next + 1, inFlight := p.inFlight + {p.next}));
    TakeKeepsPoolInv(p);
    PoolStepKeepsInv(s, t);
  }

  /** A scan whose pool changes without a new result, and which is otherwise the same
      scan, keeps the invariant. */
  lemma PoolStepKeepsInv(s: Scan, t: Scan)
    requires Inv(s) && PoolInv(t.pool)
    requires t.pool.ports == s.pool.ports && t.pool.workers == s.pool.workers
    requires t.pool.collected == s.pool.collected && t.pool.results == s.pool.results
    requires t.total == s.total && t.stopFlag == s.stopFlag && t.phase == s.phase
    requires t.done == s.done && t.openPorts == s.openPorts
    ensures Inv(t)
  {
  }

  lemma ConnectEndsPreservesInv(s: Scan, k: nat, connected: bool)
    requires Inv(s)
    ensures Inv(ConnectEnds(s, k, connected))
  {
    var p := s.pool;
    if k in p.inFlight && k < |p.ports| {
      var c := Completion(k, Some(PortStatus(p.ip, p.ports[k], connected)));
      EndKeepsPoolInv(p, k, connected);
      RanAppend(p.results, c);
      OpenOfAppend(p.results, c);
      ResultKeepsInv(s, ConnectEnds(s, k, connected), c);
    }
  }

  lemma StepPreservesInv(s: Scan, e: Event)
    requires Inv(s)
    ensures Inv(Step(s, e))
  {
    match e
    case Begin => WorkerTakesPreservesInv(s);
    case Finish(k, connected) => ConnectEndsPreservesInv(s, k, connected);
    case Next =>
    case Summary =>
    case StopRequest =>
  }

  /** Every run of the machine keeps the invariant: whatever the interleaving of workers,
      connect outcomes, collection and stop requests, `_done` never exceeds `_total` and
      `_open_ports` holds only submitted ports (see `InvBounds`). */
  lemma {:induction false} RunPreservesInv(s: Scan, es: seq<Event>)
    requires Inv(s)
    ensures Inv(Run(s, es))
    decreases |es|
  {
    if es != [] {
      StepPreservesInv(s, es[0]);
      RunPreservesInv(Step(s, es[0]), es[1..]);
    }
  }

  lemma {:induction false} OpenOfSubmitted(rs: seq<Completion>, ports: seq<int>)
    requires forall i :: 0 <= i < |rs| ==> rs[i].index < |ports|
    requires forall i :: 0 <= i < |rs| && rs[i].line.Some? ==>
               rs[i].line.value.PortStatus? && rs[i].line.value.port == ports[rs[i].index]
    ensures forall q :: q in OpenOf(rs) ==> q in ports
  {
    if rs != [] {
      OpenOfSubmitted(rs[..|rs| - 1], ports);
      var c := rs[|rs| - 1];
      if c.line.Some? && c.line.value.PortStatus? && c.line.value.open {
        assert ports[c.index] == c.line.value.port;
      }
    }
  }

  /** The invariant's consequences: `0 <= _done <= _total`, every open port is a
      submitted port, and no more ports are open than probes have finished. */
  lemma InvBounds(s: Scan)
    requires Inv(s)
    ensures s.done <= s.total
    ensures |s.openPorts| <= s.done
    ensures forall q :: q in s.openPorts ==> q in s.pool.ports
  {
    OpenOfSubmitted(s.pool.results, s.pool.ports);
  }

  // ---------------------------------------------------------------------------------
  // A scan that is not stopped probes every port once
  // ---------------------------------------------------------------------------------

  function Indices(rs: seq<Completion>): set<nat> {
    set i | 0 <= i < |rs| :: rs[i].index
  }

  lemma {:induction false} IndicesCard(rs: seq<Completion>)
    requires forall i, j :: 0 <= i < j < |rs| ==> rs[i].index != rs[j].index
    ensures |Indices(rs)| == |rs|
  {
    if rs != [] {
      var front := rs[..|rs| - 1];
      IndicesCard(front);
      assert Indices(rs) == Indices(front) + {rs[|rs| - 1].index};
      assert rs[|rs| - 1].index !in Indices(front);
    }
  }

  /** The indices `0..n-1` of a list of `n` ports. */
  function Below(n: nat): (r: set<nat>)
    ensures forall k: nat :: k in r <==> k < n
    ensures |r| == n
  {
    if n == 0 then {}
    else
      var front := Below(n - 1);
      assert n - 1 !in front;
      front + {n - 1}
  }

  /** With no stop request, once the manager leaves its loop every submitted probe has
      finished, each exactly once, and `_done == _total`. */
  lemma CompletedScanProbedEveryPort(s: Scan)
    requires Inv(s)
    requires s.phase == Summarising && !s.stopFlag
    ensures s.done == s.total
    ensures s.pool.inFlight == {}
    ensures Indices(s.pool.results) == Below(|s.pool.ports|)
  {
    var p := s.pool;
    assert |p.results| == |p.ports|;
    AllRan(p.results);
    IndicesCard(p.results);
    SameSizeSubset(Indices(p.results), Below(|p.ports|));
  }

  lemma SameSizeSubset(a: set<nat>, b: set<nat>)
    requires a <= b && |a| == |b|
    ensures a == b
  {
    assert |b - a| == |b| - |a|;
  }

  /** The summary of a scan that was not stopped says it completed, then lists the open
      ports in ascending order, or says none was found. */
  lemma CompletedScanReport(s: Scan)
    requires s.phase == Summarising && !s.stopFlag
    ensures var t := Report(s);
            t.phase == Idle && |t.log| == |s.log| + 2 && t.log[..|s.log|] == s.log
            && t.log[|s.log|] == ScanCompleted
            && (s.openPorts == [] <==> t.log[|s.log| + 1] == NoOpenPorts)
            && (s.openPorts != [] ==> t.log[|s.log| + 1].OpenPortList?
                                      && Ascending(t.log[|s.log| + 1].ports)
                                      && multiset(t.log[|s.log| + 1].ports) == multiset(s.openPorts))
  {
  }

  lemma {:induction false} AllRan(rs: seq<Completion>)
    requires forall i :: 0 <= i < |rs| ==> rs[i].line.Some?
    ensures Ran(rs) == |rs|
  {
    if rs != [] {
      AllRan(rs[..|rs| - 1]);
    }
  }

  // ---------------------------------------------------------------------------------
  // Stop requests
  // ---------------------------------------------------------------------------------

  /** After a stop request no connect attempt begins any more: the probes already
      connecting may still finish (drain), and nothing else adds to `_done`. */
  lemma StepAfterStop(s: Scan, e: Event)
    requires s.stopFlag
    ensures var t := Step(s, e);
            t.stopFlag && t.pool.inFlight <= s.pool.inFlight
            && t.done + |t.pool.inFlight| == s.done + |s.pool.inFlight|
            && t.pool.ports == s.pool.ports
  {
    match e
    case Finish(k, connected) =>
      if k in s.pool.inFlight && k < |s.pool.ports| {
        assert |s.pool.inFlight - {k}| == |s.pool.inFlight| - 1;
      }
    case _ =>
  }

  lemma {:induction false} DrainAfterStop(s: Scan, es: seq<Event>)
    requires s.stopFlag
    ensures var t := Run(s, es);
            t.stopFlag && t.pool.inFlight <= s.pool.inFlight
            && t.done + |t.pool.inFlight| == s.done + |s.pool.inFlight|
            && t.done <= s.done + |s.pool.inFlight|
    decreases |es|
  {
    if es != [] {
      StepAfterStop(s, es[0]);
      DrainAfterStop(Step(s, es[0]), es[1..]);
    }
  }

  /** A stopped scan reports that it stopped, then its open ports sorted, or that none
      was found. */
  lemma StoppedScanReport(s: Scan)
    requires s.phase == Summarising && s.stopFlag
    ensures var t := Report(s);
            t.phase == Idle && |t.log| == |s.log| + 2 && t.log[..|s.log|] == s.log
            && t.log[|s.log|] == ScanStopped
            && (s.openPorts == [] <==> t.log[|s.log| + 1] == NoOpenPorts)
            && (s.openPorts != [] ==> t.log[|s.log| + 1].OpenPortList?
                                      && Ascending(t.log[|s.log| + 1].ports)
                                      && multiset(t.log[|s.log| + 1].ports) == multiset(s.openPorts))
  {
  }

  /** `stop_scan` with no scan running leaves the flag alone and only shows its dialog. */
  lemma StopWhenIdle(s: Scan)
    requires s.phase == Idle
    ensures Stop(s) == s.(dialogs := s.dialogs + [NoScanRunning])
    ensures Stop(s).stopFlag == s.stopFlag
  {
  }

  /** A second stop request changes nothing but adds one more stopping line to the
      result box (the source writes it on every accepted call). */
  lemma StopTwice(s: Scan)
    ensures var once := Stop(s);
            var twice := Stop(once);
            twice.stopFlag == once.stopFlag && twice.done == once.done
            && twice.openPorts == once.openPorts && twice.phase == once.phase
            && twice.pool == once.pool && twice.total == once.total
            && (s.phase != Idle ==> twice.log == once.log + [Stopping])
  {
  }
}

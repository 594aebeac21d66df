/** The TCP port scanner of the telnet tab (`PortScanner` in core/Function/telnet_fun.py).

    The scanner's threads are replaced by a sequential state machine. Its state is the
    value `Scan`; each thing that can happen is a function from one `Scan` to the next:
    a start request by the user, a worker taking the next queued probe, a connect attempt
    finishing (its outcome is given: the network is an oracle), one iteration of the
    manager's `as_completed` loop, the manager's final report, and a stop request. Any
    interleaving of these events is a possible run. The class `PortScanner` at the end
    holds the same state in fields and updates it in place, each method proved to
    perform exactly the corresponding transition. */
module PortScan {
  import opened Text

  const MinPort: int := 1
  const MaxPort: int := 65535

  predicate ValidPort(p: int) {
    MinPort <= p <= MaxPort
  }

  /** An argument as the caller hands it over: a value Python's `int()` accepts,
      with the integer it yields, or one that `int()` rejects. */
  datatype Value = IntValue(n: int) | NonInteger

  /** The `messagebox` dialogs the scanner shows. */
  datatype Dialog =
    | RangeNotInteger        // start or end port is not an integer
    | RangeInvalid           // the range is not within 1-65535 with start <= end
    | AlreadyRunning         // a scan is already running
    | ListNotInteger         // the port list holds a value that is not an integer
    | ListEmpty              // the port list is empty
    | PortOutOfRange(port: int)  // the first port of the list outside 1-65535
    | NoScanRunning          // stop requested while no scan runs

  /** The lines appended to the result box, in the order they are scheduled. */
  datatype Line =
    | ScanStarted(ip: string, total: nat)            // start of a scan of `total` ports
    | PortStatus(ip: string, port: int, open: bool)  // one probe: open, or closed/unreachable
    | Progress(done: nat, total: nat)                // "done/total" after each collected result
    | ScanCompleted                                  // the scan ran to its end
    | ScanStopped                                    // the scan ended after a stop request
    | OpenPortList(ports: seq<int>)                  // the open ports, sorted
    | NoOpenPorts                                    // no open port was found
    | Stopping                                       // a stop request was accepted

  /** Where the manager thread is: not alive, inside its `as_completed` loop, or past
      the loop (in its `finally` block, about to write the summary). */
  datatype Phase = Idle | Collecting | Summarising

  /** A finished probe future: the index of its port in the submitted list and the line it
      returned (`None` for the empty string a probe returns when it sees the stop flag). */
  datatype Completion = Completion(index: nat, line: Option<Line>)

  /** The manager thread's local state and its thread pool: the target, the submitted
      ports, the pool size, how many queued probes workers have taken (in submission
      order), which probes are connecting, the finished ones in completion order, and how
      many of those `as_completed` has yielded. */
  datatype Pool = Pool(
    ip: string, ports: seq<int>, workers: nat,
    next: nat, inFlight: set<nat>, results: seq<Completion>, collected: nat)

  /** The scanner's state: the source's `_stop_flag`, `_total`, `_done`, `_open_ports`,
      whether `_scan_thread` is alive (`phase != Idle`), the current scan's pool, the
      result box (`log`) and the message boxes shown (`dialogs`). */
  datatype Scan = Scan(
    stopFlag: bool, total: nat, done: nat, openPorts: seq<int>, phase: Phase,
    pool: Pool, log: seq<Line>, dialogs: seq<Dialog>)

  /** The state right after `PortScanner(result_box)`. */
  function Initial(): Scan {
    Scan(false, 0, 0, [], Idle, Pool("", [], 0, 0, {}, [], 0), [], [])
  }

  // ---------------------------------------------------------------------------------
  // Input validation and range expansion
  // ---------------------------------------------------------------------------------

  /** `list(range(start, end + 1))`. */
  function PortRange(start: int, end: int): (r: seq<int>)
    decreases end - start
    ensures |r| == if start <= end then end - start + 1 else 0
    ensures forall i :: 0 <= i < |r| ==> r[i] == start + i
  {
    if start > end then [] else [start] + PortRange(start + 1, end)
  }

  /** `[int(p) for p in ports]`: the integers, or `None` when some value is rejected. */
  function ToInts(vs: seq<Value>): (r: Option<seq<int>>)
    ensures r.Some? <==> forall i :: 0 <= i < |vs| ==> vs[i].IntValue?
    ensures r.Some? ==> |r.value| == |vs| && forall i :: 0 <= i < |vs| ==> r.value[i] == vs[i].n
  {
    if vs == [] then Some([])
    else if vs[0].NonInteger? then None
    else match ToInts(vs[1..])
      case None => None
      case Some(rest) => Some([vs[0].n] + rest)
  }

  /** The port list the source passes on after a range was accepted: plain integers. */
  function Ints(ps: seq<int>): (vs: seq<Value>)
    ensures |vs| == |ps| && forall i :: 0 <= i < |ps| ==> vs[i] == IntValue(ps[i])
  {
    seq(|ps|, i requires 0 <= i < |ps| => IntValue(ps[i]))
  }

  /** The port the validating `for` loop stops at: the first one outside 1-65535. */
  function FirstOutOfRange(ps: seq<int>): (r: Option<int>)
    ensures r.None? <==> forall i :: 0 <= i < |ps| ==> ValidPort(ps[i])
    ensures r.Some? ==> exists k :: 0 <= k < |ps| && ps[k] == r.value && !ValidPort(ps[k])
                                    && forall i :: 0 <= i < k ==> ValidPort(ps[i])
  {
    if ps == [] then None
    else if !ValidPort(ps[0]) then Some(ps[0])
    else match FirstOutOfRange(ps[1..])
      case None => None
      case Some(p) =>
        assert forall i :: 1 <= i < |ps| ==> ps[i] == ps[1..][i - 1];
        Some(p)
  }

  /** The pool size the manager uses: `max(1, min(max_workers, total))`. */
  function EffectiveWorkers(maxWorkers: int, total: nat): (w: nat)
    ensures 1 <= w
    ensures w <= total || w == 1
    ensures w <= maxWorkers || w == 1
    ensures 1 <= maxWorkers <= total ==> w >= maxWorkers
    ensures 1 <= total <= maxWorkers ==> w >= total
  {
    if maxWorkers < total then (if maxWorkers < 1 then 1 else maxWorkers)
    else if total < 1 then 1 else total
  }

  // ---------------------------------------------------------------------------------
  // Sorting the open ports for the summary (`sorted(self._open_ports)`)
  // ---------------------------------------------------------------------------------

  predicate Ascending(s: seq<int>) {
    forall i, j :: 0 <= i < j < |s| ==> s[i] <= s[j]
  }

  /** `s` with `x` placed before the first element not below it. */
  function Insert(x: int, s: seq<int>): (r: seq<int>)
    requires Ascending(s)
    ensures |r| == |s| + 1
    ensures forall y :: y in r ==> y == x || y in s
    ensures Ascending(r)
    ensures multiset(r) == multiset(s) + multiset{x}
  {
    if s == [] then [x]
    else if x <= s[0] then
      AscendingCons(x, s);
      [x] + s
    else
      assert s == [s[0]] + s[1..];
      var t := Insert(x, s[1..]);
      BelowAll(s[0], x, s[1..], t);
      AscendingCons(s[0], t);
      [s[0]] + t
  }

  /** An element no larger than the first of an ascending sequence keeps it ascending. */
  lemma AscendingCons(x: int, s: seq<int>)
    requires Ascending(s) && (s != [] ==> x <= s[0])
    ensures Ascending([x] + s)
  {
  }

  /** What lies below a sequence whose elements are `x` or those of `s` lies below its
      first element. */
  lemma BelowAll(a: int, x: int, s: seq<int>, t: seq<int>)
    requires a < x && (forall i :: 0 <= i < |s| ==> a <= s[i])
    requires Ascending(t) && forall y :: y in t ==> y == x || y in s
    ensures t != [] ==> a <= t[0]
  {
    if t != [] {
      assert t[0] in t;
    }
  }

  function SortPorts(s: seq<int>): (r: seq<int>)
    ensures Ascending(r)
    ensures multiset(r) == multiset(s)
  {
    if s == [] then []
    else
      assert s == [s[0]] + s[1..];
      Insert(s[0], SortPorts(s[1..]))
  }

  // ---------------------------------------------------------------------------------
  // Transitions
  // ---------------------------------------------------------------------------------

  /** `start_list_scan(ip, ports, max_workers=maxWorkers)`: rejects a second start, then a
      value that is not an integer, an empty list and a port outside 1-65535, each with its
      dialog and no other change; otherwise resets the counters, writes the start line and
      submits every port (the manager thread starts its loop). */
  function StartList(s: Scan, ip: string, vs: seq<Value>, maxWorkers: int): Scan {
    if s.phase != Idle then s.(dialogs := s.dialogs + [AlreadyRunning])
    else match ToInts(vs)
      case None => s.(dialogs := s.dialogs + [ListNotInteger])
      case Some(ps) =>
        if ps == [] then s.(dialogs := s.dialogs + [ListEmpty])
        else match FirstOutOfRange(ps)
          case Some(p) => s.(dialogs := s.dialogs + [PortOutOfRange(p)])
          case None =>
            s.(stopFlag := false, openPorts := [], total := |ps|, done := 0,
               log := s.log + [ScanStarted(ip, |ps|)], phase := Collecting,
               pool := Submitted(ip, ps, maxWorkers))
  }

  /** The pool right after the manager submitted every port: nothing taken yet. */
  function Submitted(ip: string, ps: seq<int>, maxWorkers: int): Pool {
    Pool(ip, ps, EffectiveWorkers(maxWorkers, |ps|), 0, {}, [], 0)
  }

  /** `start_range_scan(ip, start, end, max_workers=maxWorkers)`. */
  function StartRange(s: Scan, ip: string, start: Value, end: Value, maxWorkers: int): Scan {
    if start.NonInteger? || end.NonInteger? then s.(dialogs := s.dialogs + [RangeNotInteger])
    else if start.n < MinPort || end.n > MaxPort || start.n > end.n then
      s.(dialogs := s.dialogs + [RangeInvalid])
    else StartList(s, ip, Ints(PortRange(start.n, end.n)), maxWorkers)
  }

  /** A free worker takes the next queued probe (the pool starts them in submission order).
      `_scan_single_port` first looks at the stop flag: when it is set the probe returns
      the empty string at once; otherwise the connect attempt begins. */
  function WorkerTakes(s: Scan): Scan {
    var p := s.pool;
    if s.phase == Idle || p.next >= |p.ports| || |p.inFlight| >= p.workers then s
    else if s.stopFlag then
      s.(pool := p.(next := p.next + 1, results := p.results + [Completion(p.next, None)]))
    else s.(pool := p.(next := p.next + 1, inFlight := p.inFlight + {p.next}))
  }

  /** The connect attempt of probe `k` ends, successfully or not (`connected`): the port is
      recorded as open only on success, `_done` grows by one and the probe's line becomes
      available to `as_completed`. A probe still connecting when the manager has finished
      completes in the same way. */
  function ConnectEnds(s: Scan, k: nat, connected: bool): Scan {
    var p := s.pool;
    if k !in p.inFlight || k >= |p.ports| then s
    else
      s.(done := s.done + 1,
         openPorts := if connected then s.openPorts + [p.ports[k]] else s.openPorts,
         pool := p.(inFlight := p.inFlight - {k},
                    results := p.results + [Completion(k, Some(PortStatus(p.ip, p.ports[k], connected)))]))
  }

  /** The lines the manager writes for one yielded result: its line when not empty. */
  function ResultLines(c: Completion): seq<Line> {
    if c.line.Some? then [c.line.value] else []
  }

  /** One iteration of the manager's `for fut in as_completed(futures)` loop, once a result
      is available (while none is, the manager waits and nothing changes). When the stop
      flag is set it breaks out of the loop; otherwise it writes the result's line and the
      progress line, and leaves the loop after the last submitted port. */
  function Collect(s: Scan): Scan {
    var p := s.pool;
    if s.phase != Collecting || p.collected >= |p.results| then s
    else if s.stopFlag then s.(phase := Summarising)
    else
      s.(log := s.log + ResultLines(p.results[p.collected]) + [Progress(s.done, s.total)],
         phase := if p.collected + 1 >= |p.ports| then Summarising else Collecting,
         pool := p.(collected := p.collected + 1))
  }

  /** The summary written by the manager's `finally` block. */
  function SummaryLines(stopFlag: bool, openPorts: seq<int>): seq<Line> {
    [if stopFlag then ScanStopped else ScanCompleted,
     if openPorts != [] then OpenPortList(SortPorts(openPorts)) else NoOpenPorts]
  }

  /** The manager's `finally` block: probes not yet started are cancelled (no worker takes
      them any more), the summary is written and the manager thread ends. */
  function Report(s: Scan): Scan {
    if s.phase != Summarising then s
    else s.(phase := Idle, log := s.log + SummaryLines(s.stopFlag, s.openPorts))
  }

  /** `stop_scan()`: with no scan running only a dialog; otherwise the stopping line and the
      stop flag. */
  function Stop(s: Scan): Scan {
    if s.phase == Idle then s.(dialogs := s.dialogs + [NoScanRunning])
    else s.(log := s.log + [Stopping], stopFlag := true)
  }

  /** `is_scanning()`. */
  function Running(s: Scan): bool {
    s.phase != Idle
  }

  /** What can happen while a scan is under way. */
  datatype Event = Begin | Finish(k: nat, connected: bool) | Next | Summary | StopRequest

  function Step(s: Scan, e: Event): Scan {
    match e
    case Begin => WorkerTakes(s)
    case Finish(k, connected) => ConnectEnds(s, k, connected)
    case Next => Collect(s)
    case Summary => Report(s)
    case StopRequest => Stop(s)
  }

  function Run(s: Scan, es: seq<Event>): Scan
    decreases |es|
  {
    if es == [] then s else Run(Step(s, es[0]), es[1..])
  }

  // ---------------------------------------------------------------------------------
  // The invariant
  // ---------------------------------------------------------------------------------

  /** Number of finished probes that ran their connect attempt. */
  function Ran(rs: seq<Completion>): (n: nat)
    ensures n <= |rs|
  {
    if rs == [] then 0 else Ran(rs[..|rs| - 1]) + (if rs[|rs| - 1].line.Some? then 1 else 0)
  }

  /** The ports of the finished probes whose connect succeeded, in completion order. */
  function OpenOf(rs: seq<Completion>): (ps: seq<int>)
    ensures |ps| <= Ran(rs)
  {
    if rs == [] then []
    else
      var c := rs[|rs| - 1];
      OpenOf(rs[..|rs| - 1])
      + (if c.line.Some? && c.line.value.PortStatus? && c.line.value.open then [c.line.value.port] else [])
  }

  /** The bookkeeping of the executor: probes `0..next-1` have been taken by a worker;
      each of them is either connecting (`inFlight`) or finished and in `results`, exactly
      once; a finished probe's line names the port it was submitted for; no more probes
      connect at once than there are workers. */
  ghost predicate PoolInv(p: Pool) {
    && p.next <= |p.ports|
    && (forall k :: k in p.inFlight ==> k < p.next)
    && |p.results| + |p.inFlight| == p.next
    && (forall i :: 0 <= i < |p.results| ==> p.results[i].index < p.next && p.results[i].index !in p.inFlight)
    && (forall i, j :: 0 <= i < j < |p.results| ==> p.results[i].index != p.results[j].index)
    && (forall i :: 0 <= i < |p.results| && p.results[i].line.Some? ==>
          p.results[i].line.value.PortStatus? && p.results[i].line.value.port == p.ports[p.results[i].index])
    && p.collected <= |p.results|
    && |p.inFlight| <= p.workers
  }

  /** The scanner's invariant: the pool's bookkeeping holds, `_total` is the number of
      submitted ports, `_done` counts the finished probes and `_open_ports` lists the
      ports of those that connected; a probe skipped without connecting exists only after a
      stop request; and the manager's phase agrees with what it has collected. */
  ghost predicate Inv(s: Scan) {
    var p := s.pool;
    && PoolInv(p)
    && s.total == |p.ports|
    && (forall i :: 0 <= i < |p.results| && p.results[i].line.None? ==> s.stopFlag)
    && s.done == Ran(p.results)
    && s.openPorts == OpenOf(p.results)
    && (s.phase != Idle ==> 1 <= p.workers && 1 <= |p.ports|)
    && (s.phase == Collecting ==> p.collected < |p.ports|)
    && (s.phase == Summarising && !s.stopFlag ==> p.collected == |p.ports|)
  }

  // ---------------------------------------------------------------------------------
  // The scanner object
  // ---------------------------------------------------------------------------------

  /** `PortScanner`: the state above in fields, updated in place. Each method performs
      one transition of the machine; which thread calls it is left to the caller (the GUI
      thread calls the start and stop methods, the pool's workers `BeginProbe` and
      `FinishProbe`, the manager thread `CollectNext` and `Summarise`). */
  class PortScanner {
    var stopFlag: bool
    var total: nat
    var done: nat
    var openPorts: seq<int>
    var phase: Phase
    var pool: Pool
    var log: seq<Line>
    var dialogs: seq<Dialog>

    function State(): Scan
      reads this
    {
      Scan(stopFlag, total, done, openPorts, phase, pool, log, dialogs)
    }

    constructor ()
      ensures State() == Initial()
    {
      stopFlag, total, done, openPorts, phase := false, 0, 0, [], Idle;
      pool := Pool("", [], 0, 0, {}, [], 0);
      log, dialogs := [], [];
    }

    /** `test_connect(ip, port)`: one connect attempt whose outcome is `connected`; the
        result is returned and written to the result box. */
    method TestConnect(target: string, port: int, connected: bool) returns (status: bool)
      modifies this
      ensures status == connected
      ensures State() == old(State()).(log := old(log) + [PortStatus(target, port, connected)])
    {
      status := connected;
      log := log + [PortStatus(target, port, status)];
    }

    method StartRangeScan(target: string, start: Value, end: Value, maxWorkers: int)
      modifies this
      ensures State() == StartRange(old(State()), target, start, end, maxWorkers)
    {
      if start.NonInteger? || end.NonInteger? {
        dialogs := dialogs + [RangeNotInteger];
        return;
      }
      if start.n < MinPort || end.n > MaxPort || start.n > end.n {
        dialogs := dialogs + [RangeInvalid];
        return;
      }
      var range := PortRange(start.n, end.n);
      StartListScan(target, Ints(range), maxWorkers);
    }

    method StartListScan(target: string, values: seq<Value>, maxWorkers: int)
      modifies this
      ensures State() == StartList(old(State()), target, values, maxWorkers)
    {
      if phase != Idle {
        dialogs := dialogs + [AlreadyRunning];
        return;
      }
      var converted := ToInts(values);
      if converted.None? {
        dialogs := dialogs + [ListNotInteger];
        return;
      }
      var portsList := converted.value;
      if portsList == [] {
        dialogs := dialogs + [ListEmpty];
        return;
      }
      var bad := FindOutOfRange(portsList);
      if bad.Some? {
        dialogs := dialogs + [PortOutOfRange(bad.value)];
        return;
      }
      stopFlag := false;
      openPorts := [];
      total := |portsList|;
      done := 0;
      log := log + [ScanStarted(target, total)];
      pool := Submitted(target, portsList, maxWorkers);
      phase := Collecting;
    }

    method BeginProbe()
      modifies this
      ensures State() == WorkerTakes(old(State()))
    {
      if phase == Idle || pool.next >= |pool.ports| || |pool.inFlight| >= pool.workers {
        return;
      }
      if stopFlag {
        pool := pool.(results := pool.results + [Completion(pool.next, None)]);
      } else {
        pool := pool.(inFlight := pool.inFlight + {pool.next});
      }
      pool := pool.(next := pool.next + 1);
    }

    method FinishProbe(k: nat, connected: bool)
      modifies this
      ensures State() == ConnectEnds(old(State()), k, connected)
    {
      if k !in pool.inFlight || k >= |pool.ports| {
        return;
      }
      var port := pool.ports[k];
      if connected {
        openPorts := openPorts + [port];
      }
      done := done + 1;
      pool := pool.(inFlight := pool.inFlight - {k},
                    results := pool.results + [Completion(k, Some(PortStatus(pool.ip, port, connected)))]);
    }

    method CollectNext()
      modifies this
      ensures State() == Collect(old(State()))
    {
      if phase != Collecting || pool.collected >= |pool.results| {
        return;
      }
      if stopFlag {
        phase := Summarising;
        return;
      }
      var c := pool.results[pool.collected];
      if c.line.Some? {
        log := log + [c.line.value];
      }
      log := log + [Progress(done, total)];
      pool := pool.(collected := pool.collected + 1);
      if pool.collected >= |pool.ports| {
        phase := Summarising;
      }
    }

    method Summarise()
      modifies this
      ensures State() == Report(old(State()))
    {
      if phase != Summarising {
        return;
      }
      var verdict, listing;
      if !stopFlag {
        verdict := ScanCompleted;
      } else {
        verdict := ScanStopped;
      }
      if openPorts != [] {
        listing := OpenPortList(SortPorts(openPorts));
      } else {
        listing := NoOpenPorts;
      }
      log := log + [verdict, listing];
      phase := Idle;
    }

    method StopScan()
      modifies this
      ensures State() == Stop(old(State()))
    {
      if phase == Idle {
        dialogs := dialogs + [NoScanRunning];
        return;
      }
      log := log + [Stopping];
      stopFlag := true;
    }

    function IsScanning(): (r: bool)
      reads this
      ensures r == Running(State())
    {
      phase != Idle
    }
  }

  /** The validating `for p in ports_list` loop of `start_list_scan`: the first port
      outside 1-65535, if any. */
  method FindOutOfRange(ps: seq<int>) returns (bad: Option<int>)
    ensures bad == FirstOutOfRange(ps)
  {
    var i := 0;
    assert ps[0..] == ps;
    while i < |ps|
      invariant 0 <= i <= |ps|
      invariant FirstOutOfRange(ps) == FirstOutOfRange(ps[i..])
    {
      if !ValidPort(ps[i]) {
        return Some(ps[i]);
      }
      assert ps[i..][1..] == ps[i + 1..];
      i := i + 1;
    }
    return None;
  }
}

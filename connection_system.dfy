/**
 * The connection system of the new engine: a generator feeds an input
 * queue; each tick at most one process is promoted into transit, arrivals
 * are handed to the single computer or appended to the CPU queue, and an
 * idle computer takes the head of the CPU queue.
 *
 * The floating-point movement along the connection line is abstracted: the
 * caller of `Update` names, as `arriving`, the processes whose step this
 * tick brings them within one step of the computer.  The wall clock is the
 * argument `now`.
 */
module ConnectionSystems {
  import opened Wrappers
  import opened Config
  import opened ProcessStates
  import opened Processes
  import opened Computers
  import opened Generators
  import opened Lists

  /** At most this many processes travel at once. */
  const MaxInTransit := 5

  // ---------------------------------------------------------------------
  // The lists of the connection system, as references

  /** The computer's slot as a list of zero or one process. */
  function Slot(c: Process?): (s: seq<Process>)
    ensures |s| == if c == null then 0 else 1
    ensures c != null ==> s == [c]
  {
    if c == null then [] else var p: Process := c; [p]
  }

  /**
   * The input queue, the transit list, the CPU queue and the computer's
   * current process.  The computer is idle exactly when it has no current
   * process.
   */
  datatype Lanes = Lanes(input: seq<Process>, transit: seq<Process>, cpuQueue: seq<Process>, current: Process?)
  {
    predicate Idle() { current == null }

    /** `total_processes`: the three lists, not the process being served. */
    function Total(): nat { |input| + |transit| + |cpuQueue| }

    /** Every process the system holds, the current one last. */
    function All(): seq<Process> { input + transit + cpuQueue + Slot(current) }
  }

  /** No process is in two places at once: each list is repetition-free and the places are disjoint. */
  lemma DistinctLanes(l: Lanes)
    requires Distinct(l.All())
    ensures Distinct(l.input) && Distinct(l.transit) && Distinct(l.cpuQueue)
    ensures forall p | p in l.input :: p !in l.transit && p !in l.cpuQueue && p != l.current
    ensures forall p | p in l.transit :: p !in l.cpuQueue && p != l.current
    ensures forall p | p in l.cpuQueue :: p != l.current
  {
    var c := Slot(l.current);
    assert l.All() == l.input + (l.transit + (l.cpuQueue + c));
    DistinctSplit(l.input, l.transit + (l.cpuQueue + c));
    DistinctSplit(l.transit, l.cpuQueue + c);
    DistinctSplit(l.cpuQueue, c);
  }

  /** The converse of `DistinctLanes`. */
  lemma LanesDistinct(l: Lanes)
    requires Distinct(l.input) && Distinct(l.transit) && Distinct(l.cpuQueue)
    requires forall p | p in l.input :: p !in l.transit && p !in l.cpuQueue && p != l.current
    requires forall p | p in l.transit :: p !in l.cpuQueue && p != l.current
    requires forall p | p in l.cpuQueue :: p != l.current
    ensures Distinct(l.All())
  {
    var c := Slot(l.current);
    DistinctJoin(l.cpuQueue, c);
    DistinctJoin(l.transit, l.cpuQueue + c);
    DistinctJoin(l.input, l.transit + (l.cpuQueue + c));
    assert l.All() == l.input + (l.transit + (l.cpuQueue + c));
  }

  /** The transit processes that arrive this tick, in transit-list order. */
  function Arrivals(s: seq<Process>, arriving: set<Process>): seq<Process>
  {
    if s == [] then []
    else Arrivals(s[..|s| - 1], arriving) + (if s[|s| - 1] in arriving then [s[|s| - 1]] else [])
  }

  /** The transit processes that keep travelling, in transit-list order. */
  function Staying(s: seq<Process>, arriving: set<Process>): seq<Process>
  {
    if s == [] then []
    else Staying(s[..|s| - 1], arriving) + (if s[|s| - 1] !in arriving then [s[|s| - 1]] else [])
  }

  lemma FiltersSnoc(s: seq<Process>, x: Process, arriving: set<Process>)
    ensures Arrivals(s + [x], arriving) == Arrivals(s, arriving) + (if x in arriving then [x] else [])
    ensures Staying(s + [x], arriving) == Staying(s, arriving) + (if x !in arriving then [x] else [])
  {
    assert (s + [x])[..|s|] == s;
  }

  /** The arrivals among the first `i` transit processes. */
  function ArrivedBefore(s: seq<Process>, i: int, arriving: set<Process>): seq<Process>
    requires 0 <= i <= |s|
  {
    if i == 0 then [] else ArrivedBefore(s, i - 1, arriving) + (if s[i - 1] in arriving then [s[i - 1]] else [])
  }

  /** The stayers among the first `i` transit processes. */
  function StayedBefore(s: seq<Process>, i: int, arriving: set<Process>): seq<Process>
    requires 0 <= i <= |s|
  {
    if i == 0 then [] else StayedBefore(s, i - 1, arriving) + (if s[i - 1] !in arriving then [s[i - 1]] else [])
  }

  /** The counted prefixes are the filters of the prefix. */
  lemma {:induction false} BeforeIsPrefix(s: seq<Process>, i: int, arriving: set<Process>)
    requires 0 <= i <= |s|
    ensures ArrivedBefore(s, i, arriving) == Arrivals(s[..i], arriving)
    ensures StayedBefore(s, i, arriving) == Staying(s[..i], arriving)
  {
    if i > 0 {
      BeforeIsPrefix(s, i - 1, arriving);
      assert s[..i] == s[..i - 1] + [s[i - 1]];
      FiltersSnoc(s[..i - 1], s[i - 1], arriving);
    }
  }

  /** One step of the first loop of phase two, over a repetition-free transit list. */
  lemma RemoveStep(s: seq<Process>, i: int, arriving: set<Process>)
    requires NoRepeats(s) && 0 <= i < |s|
    ensures StayedBefore(s, i, arriving) + s[i..] == StayedBefore(s, i, arriving) + [s[i]] + s[i + 1..]
    ensures s[i] !in StayedBefore(s, i, arriving)
    ensures s[i] in arriving ==>
              ArrivedBefore(s, i + 1, arriving) == ArrivedBefore(s, i, arriving) + [s[i]] &&
              StayedBefore(s, i + 1, arriving) + s[i + 1..] == StayedBefore(s, i, arriving) + s[i + 1..]
    ensures s[i] !in arriving ==>
              ArrivedBefore(s, i + 1, arriving) == ArrivedBefore(s, i, arriving) &&
              StayedBefore(s, i + 1, arriving) + s[i + 1..] == StayedBefore(s, i, arriving) + s[i..]
  {
    assert s[i..] == [s[i]] + s[i + 1..];
    BeforeIsPrefix(s, i, arriving);
    NoRepeatsAt(s, i);
    FilterMembers(s[..i], arriving);
  }

  /** Arrivals are exactly the arriving transit processes, stayers exactly the others. */
  lemma {:induction false} FilterMembers(s: seq<Process>, arriving: set<Process>)
    ensures forall p | p in Arrivals(s, arriving) :: p in s && p in arriving
    ensures forall p | p in s && p in arriving :: p in Arrivals(s, arriving)
    ensures forall p | p in Staying(s, arriving) :: p in s && p !in arriving
    ensures forall p | p in s && p !in arriving :: p in Staying(s, arriving)
  {
    if s != [] {
      FilterMembers(s[..|s| - 1], arriving);
      assert s == s[..|s| - 1] + [s[|s| - 1]];
    }
  }

  /** Arrivals and stayers split the transit list. */
  lemma {:induction false} SplitTransit(s: seq<Process>, arriving: set<Process>)
    ensures |Arrivals(s, arriving)| + |Staying(s, arriving)| == |s|
  {
    if s != [] {
      SplitTransit(s[..|s| - 1], arriving);
    }
  }

  /** Filtering a repetition-free list gives repetition-free lists. */
  lemma {:induction false} FilterDistinct(s: seq<Process>, arriving: set<Process>)
    requires Distinct(s)
    ensures Distinct(Arrivals(s, arriving)) && Distinct(Staying(s, arriving))
  {
    if s != [] {
      var init, last := s[..|s| - 1], s[|s| - 1];
      assert s == init + [last];
      DistinctSplit(init, [last]);
      FilterDistinct(init, arriving);
      FilterMembers(init, arriving);
      if last in arriving {
        DistinctJoin(Arrivals(init, arriving), [last]);
      } else {
        DistinctJoin(Staying(init, arriving), [last]);
      }
    }
  }

  // ---------------------------------------------------------------------
  // One tick, phase by phase

  /** Admission: `add_process` appends to the input queue only below the capacity. */
  function Admit(l: Lanes, capacity: int, p: Process): (r: Lanes)
    ensures r.Total() == if l.Total() < capacity then l.Total() + 1 else l.Total()
    ensures l.Total() <= capacity ==> r.Total() <= capacity
  {
    if l.Total() < capacity then l.(input := l.input + [p]) else l
  }

  /** Admitting a process the system does not hold keeps every process in one place. */
  lemma AdmitKeepsDistinct(l: Lanes, capacity: int, p: Process)
    requires Distinct(l.All()) && p !in l.All()
    ensures Distinct(Admit(l, capacity, p).All())
  {
    if l.Total() < capacity {
      var rest := l.transit + l.cpuQueue + Slot(l.current);
      assert l.All() == l.input + rest;
      assert Admit(l, capacity, p).All() == (l.input + [p]) + rest;
      DistinctSplit(l.input, rest);
      DistinctJoin(l.input, [p]);
      DistinctJoin(l.input + [p], rest);
    }
  }

  /**
   * Phase one: the head of the input queue moves to the end of the transit
   * list when fewer than five are in transit.  The concatenation
   * transit + input is unchanged, so no process overtakes another.
   */
  function Promote(l: Lanes): (r: Lanes)
    ensures r.transit + r.input == l.transit + l.input
    ensures r.cpuQueue == l.cpuQueue && r.current == l.current
    ensures r.Total() == l.Total()
    ensures |l.transit| <= MaxInTransit ==> |r.transit| <= MaxInTransit
    ensures r != l <==> l.input != [] && |l.transit| < MaxInTransit
    ensures r != l ==> r.transit == l.transit + [l.input[0]] && r.input == l.input[1..]
  {
    if |l.input| > 0 && |l.transit| < MaxInTransit then
      var r := l.(input := l.input[1..], transit := l.transit + [l.input[0]]);
      assert r.transit + r.input == l.transit + l.input by {
        assert l.input == [l.input[0]] + l.input[1..];
      }
      assert |r.transit| != |l.transit|;
      r
    else l
  }

  /** Promotion only moves a process between lists, and keeps every process in one place. */
  lemma PromoteKeepsDistinct(l: Lanes)
    ensures forall p :: p in Promote(l).All() <==> p in l.All()
    ensures Distinct(l.All()) ==> Distinct(Promote(l).All())
  {
    var r := Promote(l);
    if r != l {
      var h := l.input[0];
      assert l.input == [h] + l.input[1..];
      if Distinct(l.All()) {
        DistinctLanes(l);
        DistinctTail(l.input);
        DistinctJoin(l.transit, [h]);
        LanesDistinct(r);
      }
    }
  }

  /** One arrival: started when the computer is idle (a no-op if it is stopped), otherwise queued. */
  function DeliverOne(l: Lanes, stopped: bool, p: Process): (r: Lanes)
    ensures r.input == l.input && r.transit == l.transit && l.cpuQueue <= r.cpuQueue
    ensures r.current != l.current ==> l.Idle() && !stopped && r.current == p
    ensures r.cpuQueue != l.cpuQueue ==> !l.Idle() && r.cpuQueue == l.cpuQueue + [p]
    ensures r == l <==> l.Idle() && stopped
  {
    if l.Idle() then (if stopped then l else l.(current := p))
    else l.(cpuQueue := l.cpuQueue + [p])
  }

  /** The arrivals of one tick, handled in order. */
  function Deliver(l: Lanes, stopped: bool, a: seq<Process>): (r: Lanes)
    ensures r.input == l.input && r.transit == l.transit && l.cpuQueue <= r.cpuQueue
    ensures |r.cpuQueue| <= |l.cpuQueue| + |a|
    ensures r.current != l.current ==> l.Idle() && !stopped && r.current in a
    decreases |a|
  {
    if a == [] then l
    else DeliverOne(Deliver(l, stopped, a[..|a| - 1]), stopped, a[|a| - 1])
  }

  /**
   * What a tick's arrivals amount to: a busy computer queues them all in
   * order; an idle running computer starts the first and queues the rest;
   * an idle stopped computer loses every one of them.
   */
  lemma {:induction false} DeliverClosedForm(l: Lanes, stopped: bool, a: seq<Process>)
    ensures Deliver(l, stopped, a) ==
              if a == [] then l
              else if !l.Idle() then l.(cpuQueue := l.cpuQueue + a)
              else if stopped then l
              else l.(current := a[0], cpuQueue := l.cpuQueue + a[1..])
  {
    if a != [] {
      var b := a[..|a| - 1];
      var last := a[|a| - 1];
      DeliverClosedForm(l, stopped, b);
      assert a == b + [last];
      if b != [] {
        assert a[0] == b[0];
        assert a[1..] == b[1..] + [last];
      }
    }
  }

  /** Delivering arrivals adds only those arrivals, only to the CPU queue or the computer. */
  lemma DeliverShrinks(l: Lanes, stopped: bool, a: seq<Process>)
    ensures var m := Deliver(l, stopped, a);
            (forall p | p in m.All() :: p in l.All() || p in a) &&
            m.Total() <= l.Total() + |a| &&
            m.input == l.input && m.transit == l.transit &&
            l.cpuQueue <= m.cpuQueue
  {
    DeliverClosedForm(l, stopped, a);
    if a != [] && l.Idle() && !stopped {
      assert a == [a[0]] + a[1..];
    }
  }

  /** The lanes after the first `j` arrivals of `a` are handled. */
  function DeliveredBefore(l: Lanes, stopped: bool, a: seq<Process>, j: int): Lanes
    requires 0 <= j <= |a|
  {
    if j == 0 then l else DeliverOne(DeliveredBefore(l, stopped, a, j - 1), stopped, a[j - 1])
  }

  lemma {:induction false} DeliveredBeforeIsPrefix(l: Lanes, stopped: bool, a: seq<Process>, j: int)
    requires 0 <= j <= |a|
    ensures DeliveredBefore(l, stopped, a, j) == Deliver(l, stopped, a[..j])
  {
    if j > 0 {
      DeliveredBeforeIsPrefix(l, stopped, a, j - 1);
      assert a[..j][..j - 1] == a[..j - 1];
    }
  }

  /** The next arrival of a repetition-free batch is not yet anywhere in the lanes. */
  lemma DeliverStep(l: Lanes, stopped: bool, a: seq<Process>, j: int)
    requires Distinct(a) && 0 <= j < |a|
    requires forall p | p in a :: p !in l.All()
    ensures var m := DeliveredBefore(l, stopped, a, j);
            a[j] !in m.input && a[j] !in m.transit && a[j] !in m.cpuQueue && a[j] != m.current
  {
    DeliveredBeforeIsPrefix(l, stopped, a, j);
    DeliverShrinks(l, stopped, a[..j]);
    DistinctAt(a, j);
    assert a[j] !in DeliveredBefore(l, stopped, a, j).All();
  }

  /** Phase two: arrivals leave the transit list and are delivered in transit-list order. */
  function MoveAndArrive(l: Lanes, stopped: bool, arriving: set<Process>): (r: Lanes)
    ensures r.input == l.input && r.transit == Staying(l.transit, arriving) && l.cpuQueue <= r.cpuQueue
  {
    Deliver(l.(transit := Staying(l.transit, arriving)), stopped, Arrivals(l.transit, arriving))
  }

  /** Phase two never adds a process, never grows the transit list, and keeps the old CPU queue as a prefix. */
  lemma MoveAndArriveShrinks(l: Lanes, stopped: bool, arriving: set<Process>)
    ensures var m := MoveAndArrive(l, stopped, arriving);
            (forall p | p in m.All() :: p in l.All()) &&
            m.Total() <= l.Total() &&
            m.transit == Staying(l.transit, arriving) &&
            m.input == l.input &&
            l.cpuQueue <= m.cpuQueue
  {
    var a := Arrivals(l.transit, arriving);
    var m0 := l.(transit := Staying(l.transit, arriving));
    FilterMembers(l.transit, arriving);
    SplitTransit(l.transit, arriving);
    DeliverShrinks(m0, stopped, a);
    assert forall p | p in m0.All() :: p in l.All();
  }

  /** Delivering repetition-free arrivals that the lanes do not hold keeps every process in one place. */
  lemma DeliverKeepsDistinct(l: Lanes, stopped: bool, a: seq<Process>)
    requires Distinct(l.All()) && Distinct(a)
    requires forall p | p in a :: p !in l.All()
    ensures Distinct(Deliver(l, stopped, a).All())
  {
    DeliverClosedForm(l, stopped, a);
    if a != [] && (!l.Idle() || !stopped) {
      DistinctLanes(l);
      assert forall p | p in a :: p !in l.input && p !in l.transit && p !in l.cpuQueue && p != l.current by {
        forall p | p in a
          ensures p !in l.input && p !in l.transit && p !in l.cpuQueue && p != l.current
        {
          assert p !in l.All();
        }
      }
      if !l.Idle() {
        DistinctJoin(l.cpuQueue, a);
        LanesDistinct(l.(cpuQueue := l.cpuQueue + a));
      } else {
        DistinctTail(a);
        assert forall p | p in a[1..] :: p in a;
        DistinctJoin(l.cpuQueue, a[1..]);
        LanesDistinct(l.(current := a[0], cpuQueue := l.cpuQueue + a[1..]));
      }
    }
  }

  /** Phase two keeps every process in one place. */
  lemma MoveAndArriveKeepsDistinct(l: Lanes, stopped: bool, arriving: set<Process>)
    requires Distinct(l.All())
    ensures Distinct(MoveAndArrive(l, stopped, arriving).All())
  {
    var a := Arrivals(l.transit, arriving);
    var m0 := l.(transit := Staying(l.transit, arriving));
    DistinctLanes(l);
    FilterMembers(l.transit, arriving);
    FilterDistinct(l.transit, arriving);
    LanesDistinct(m0);
    DeliverKeepsDistinct(m0, stopped, a);
  }

  /**
   * Phase three: an idle computer takes the head of the CPU queue; the head
   * leaves the queue even when the computer is stopped and does not start it.
   */
  function ServeCpuQueue(l: Lanes, stopped: bool): (r: Lanes)
    ensures r.input == l.input && r.transit == l.transit
    ensures r != l <==> l.Idle() && l.cpuQueue != []
    ensures r != l ==> r.cpuQueue == l.cpuQueue[1..]
    ensures r.current != l.current ==> l.Idle() && !stopped && l.cpuQueue != [] && r.current == l.cpuQueue[0]
  {
    if l.Idle() && l.cpuQueue != [] then
      var r := if stopped then l.(cpuQueue := l.cpuQueue[1..])
               else l.(cpuQueue := l.cpuQueue[1..], current := l.cpuQueue[0]);
      assert |r.cpuQueue| != |l.cpuQueue|;
      r
    else l
  }

  /** Phase three never adds a process and keeps every process in one place. */
  lemma ServeShrinks(l: Lanes, stopped: bool)
    ensures forall p | p in ServeCpuQueue(l, stopped).All() :: p in l.All()
    ensures ServeCpuQueue(l, stopped).Total() <= l.Total()
    ensures Distinct(l.All()) ==> Distinct(ServeCpuQueue(l, stopped).All())
  {
    var r := ServeCpuQueue(l, stopped);
    if r != l {
      assert l.cpuQueue == [l.cpuQueue[0]] + l.cpuQueue[1..];
      if Distinct(l.All()) {
        DistinctLanes(l);
        DistinctTail(l.cpuQueue);
        LanesDistinct(r);
      }
    }
  }

  /** `update`: the three phases in the fixed order of the source. */
  function Step(l: Lanes, stopped: bool, arriving: set<Process>): (r: Lanes)
    ensures r.input == Promote(l).input
    ensures r.transit == Staying(Promote(l).transit, arriving)
  {
    ServeCpuQueue(MoveAndArrive(Promote(l), stopped, arriving), stopped)
  }

  // ---------------------------------------------------------------------
  // Properties of a tick

  /** No phase of `update` increases `total_processes`, adds a process, or lets more than five travel. */
  lemma StepNeverGrows(l: Lanes, stopped: bool, arriving: set<Process>)
    requires |l.transit| <= MaxInTransit
    ensures Step(l, stopped, arriving).Total() <= l.Total()
    ensures |Step(l, stopped, arriving).transit| <= MaxInTransit
    ensures forall p | p in Step(l, stopped, arriving).All() :: p in l.All()
  {
    var p := Promote(l);
    var m := MoveAndArrive(p, stopped, arriving);
    PromoteKeepsDistinct(l);
    MoveAndArriveShrinks(p, stopped, arriving);
    SplitTransit(p.transit, arriving);
    ServeShrinks(m, stopped);
  }

  /** A tick never makes the system hold the same process twice. */
  lemma StepKeepsDistinct(l: Lanes, stopped: bool, arriving: set<Process>)
    requires Distinct(l.All())
    ensures Distinct(Step(l, stopped, arriving).All())
  {
    PromoteKeepsDistinct(l);
    MoveAndArriveKeepsDistinct(Promote(l), stopped, arriving);
    ServeShrinks(MoveAndArrive(Promote(l), stopped, arriving), stopped);
  }

  /**
   * FIFO on the CPU queue: after the arrivals the old CPU queue is still a
   * prefix, and the service phase removes only its head.
   */
  lemma CpuQueueIsFifo(l: Lanes, stopped: bool, arriving: set<Process>)
    ensures var m := MoveAndArrive(Promote(l), stopped, arriving);
            var r := Step(l, stopped, arriving);
            l.cpuQueue <= m.cpuQueue &&
            (r.cpuQueue == m.cpuQueue || (m.cpuQueue != [] && r.cpuQueue == m.cpuQueue[1..]))
  {
    MoveAndArriveShrinks(Promote(l), stopped, arriving);
  }

  /** A process that leaves the CPU queue to be served is the head, and only an idle running computer takes one. */
  lemma ServedFromHead(l: Lanes, stopped: bool, arriving: set<Process>)
    ensures var m := MoveAndArrive(Promote(l), stopped, arriving);
            var r := Step(l, stopped, arriving);
            r.current != m.current ==> m.Idle() && !stopped && r.current == m.cpuQueue[0]
  {
  }

  /** A tick of an idle, stopped computer: arrivals vanish, and so does the head of the CPU queue. */
  lemma IdleStoppedStep(l: Lanes, arriving: set<Process>)
    requires l.Idle()
    ensures var q := Promote(l);
            Step(l, true, arriving) ==
              Lanes(q.input, Staying(q.transit, arriving),
                    if q.cpuQueue == [] then [] else q.cpuQueue[1..], null)
  {
    var q := Promote(l);
    DeliverClosedForm(q.(transit := Staying(q.transit, arriving)), true, Arrivals(q.transit, arriving));
  }

  /**
   * An idle but stopped computer loses work: every arrival of the tick, and
   * the head of the CPU queue, end up in no list and not in the computer.
   */
  lemma IdleStoppedComputerLosesWork(l: Lanes, arriving: set<Process>, p: Process)
    requires Distinct(l.All())
    requires l.Idle()
    requires p in Arrivals(Promote(l).transit, arriving) || (l.cpuQueue != [] && p == l.cpuQueue[0])
    ensures p !in Step(l, true, arriving).All()
  {
    var q := Promote(l);
    PromoteKeepsDistinct(l);
    DistinctLanes(q);
    IdleStoppedStep(l, arriving);
    FilterMembers(q.transit, arriving);
    var rest := if q.cpuQueue == [] then [] else q.cpuQueue[1..];
    assert Step(l, true, arriving).All() == q.input + Staying(q.transit, arriving) + rest;
    if q.cpuQueue != [] {
      DistinctTail(q.cpuQueue);
    }
  }

  // ---------------------------------------------------------------------
  // Any sequence of operations

  /** What can happen to the lists between two observations: an admission, a tick, or the computer finishing its process. */
  datatype Event = AddProcess(p: Process) | Tick(stopped: bool, arriving: set<Process>) | Finish

  function Apply(l: Lanes, capacity: int, e: Event): Lanes
  {
    match e
    case AddProcess(p) => Admit(l, capacity, p)
    case Tick(stopped, arriving) => Step(l, stopped, arriving)
    case Finish => l.(current := null)
  }

  function Run(l: Lanes, capacity: int, es: seq<Event>): Lanes
    decreases |es|
  {
    if es == [] then l else Run(Apply(l, capacity, es[0]), capacity, es[1..])
  }

  /** The capacity bound and the transit bound hold after any sequence of admissions, ticks and completions. */
  lemma {:induction false} RunKeepsBounds(l: Lanes, capacity: int, es: seq<Event>)
    requires l.Total() <= capacity && |l.transit| <= MaxInTransit
    ensures Run(l, capacity, es).Total() <= capacity
    ensures |Run(l, capacity, es).transit| <= MaxInTransit
    decreases |es|
  {
    if es != [] {
      if es[0].Tick? {
        StepNeverGrows(l, es[0].stopped, es[0].arriving);
      }
      RunKeepsBounds(Apply(l, capacity, es[0]), capacity, es[1..]);
    }
  }

  // ---------------------------------------------------------------------
  // The connection system object

  class ConnectionSystem {
    const generator: ProcessGenerator
    const computer: Computer
    var inputQueue: seq<Process>
    var transitProcesses: seq<Process>
    var cpuQueue: seq<Process>
    const maxCapacity: int
    /** The generator's and the computer's centres: the ends of the connection line. */
    const startPoint: (int, int)
    const endPoint: (int, int)

    ghost function View(): Lanes
      reads this, computer
    {
      Lanes(inputQueue, transitProcesses, cpuQueue, computer.currentProcess)
    }

    ghost function Members(): set<Process>
      reads this, computer
    {
      set p | p in View().All()
    }

    /**
     * The invariant: the computer is consistent, the capacity and transit
     * bounds hold, no process is held twice, and each list's processes are
     * in that list's state.
     */
    ghost predicate Valid()
      reads this, computer, Members()
    {
      computer.Valid() &&
      View().Total() <= maxCapacity &&
      |transitProcesses| <= MaxInTransit &&
      Distinct(View().All()) &&
      (forall p | p in inputQueue :: p.state == InQueue) &&
      (forall p | p in transitProcesses :: p.state == InTransit) &&
      (forall p | p in cpuQueue :: p.state == WaitingCpu)
    }

    constructor (g: ProcessGenerator, c: Computer)
      requires c.Valid()
      ensures Valid()
      ensures generator == g && computer == c
      ensures inputQueue == [] && transitProcesses == [] && cpuQueue == []
      ensures maxCapacity == MaxConnectionCapacity
      ensures startPoint == g.GetCenter() && endPoint == c.Center()
    {
      generator, computer := g, c;
      inputQueue, transitProcesses, cpuQueue := [], [], [];
      maxCapacity := MaxConnectionCapacity;
      startPoint := g.GetCenter();
      endPoint := c.Center();
    }

    /** `total_processes`: every held process except the one the computer is serving. */
    function TotalProcesses(): (n: nat)
      reads this, computer
      ensures n + |Slot(computer.currentProcess)| == |View().All()|
    {
      |inputQueue| + |transitProcesses| + |cpuQueue|
    }

    /** `has_capacity`: room for one more admission; under the invariant it is false exactly at the limit. */
    function HasCapacity(): (b: bool)
      reads this, computer, Members()
      ensures b <==> TotalProcesses() + 1 <= maxCapacity
      ensures Valid() ==> (!b <==> TotalProcesses() == maxCapacity)
    {
      TotalProcesses() < maxCapacity
    }

    /**
     * Admits a process that the system does not already hold: below the
     * capacity it goes to the end of the input queue, at the start point,
     * in state IN_QUEUE; otherwise it is rejected and nothing changes.
     */
    method AddProcess(p: Process) returns (ok: bool)
      requires Valid()
      requires p !in Members()
      modifies this, p
      ensures Valid()
      ensures ok == (old(TotalProcesses()) < maxCapacity)
      ensures View() == Admit(old(View()), maxCapacity, p)
      ensures ok ==> p.state == InQueue && p.x == startPoint.0 && p.y == startPoint.1
      ensures p.isActive == old(p.isActive) && p.processingTimeMs == old(p.processingTimeMs)
      ensures p.processingStartTime == old(p.processingStartTime) && p.queueEntryTime == old(p.queueEntryTime)
      ensures !ok ==> unchanged(this) && unchanged(p)
    {
      if TotalProcesses() < maxCapacity {
        ghost var l0 := View();
        assert p !in l0.All();
        AdmitKeepsDistinct(l0, maxCapacity, p);
        DistinctLanes(l0);
        p.x, p.y := startPoint.0, startPoint.1;
        p.state := InQueue;
        inputQueue := inputQueue + [p];
        return true;
      }
      return false;
    }

    /** `update`: promotion, arrivals, service; the presentation pass is not modelled. */
    method Update(arriving: set<Process>, now: int)
      requires Valid()
      modifies this, computer
      modifies Members()`x, Members()`y, Members()`state, Members()`queueEntryTime, Members()`processingStartTime, Members()`processingTimeMs
      ensures Valid()
      ensures View() == Step(old(View()), old(computer.isStopped), arriving)
      ensures TotalProcesses() <= old(TotalProcesses())
      ensures Members() <= old(Members())
      ensures forall q | q in Promote(old(View())).transit && q in arriving :: q.x == endPoint.0 && q.y == endPoint.1
      ensures forall q | q in cpuQueue && q !in old(cpuQueue) :: q.state == WaitingCpu && q.queueEntryTime == Some(now)
      ensures forall q | q in old(cpuQueue) && q in cpuQueue :: q.queueEntryTime == old(q.queueEntryTime)
      ensures computer.currentProcess != old(computer.currentProcess) ==>
                computer.currentProcess != null &&
                computer.currentProcess.state == Processing &&
                computer.currentProcess.processingStartTime == Some(now) &&
                computer.currentProcess.processingTimeMs == computer.processingTimeMs
      ensures var c := old(computer.currentProcess);
              c != null ==> computer.currentProcess == c && c.state == old(c.state) &&
                            c.processingStartTime == old(c.processingStartTime) &&
                            c.processingTimeMs == old(c.processingTimeMs)
      ensures computer.isStopped == old(computer.isStopped)
      ensures computer.processingTimeMs == old(computer.processingTimeMs)
      ensures computer.queue == old(computer.queue) && computer.preStopState == old(computer.preStopState)
    {
      ghost var l0 := View();
      MoveFromInputToTransit();
      ArriveAndDispatch(arriving, now);
      StepNeverGrows(l0, old(computer.isStopped), arriving);
    }

    /** Phases two and three of `update`: arrivals are delivered, then an idle computer is served from the CPU queue. */
    method ArriveAndDispatch(arriving: set<Process>, now: int)
      requires Valid()
      modifies this, computer
      modifies Members()`x, Members()`y, Members()`state, Members()`queueEntryTime, Members()`processingStartTime, Members()`processingTimeMs
      ensures Valid()
      ensures View() == ServeCpuQueue(MoveAndArrive(old(View()), old(computer.isStopped), arriving), old(computer.isStopped))
      ensures Members() <= old(Members())
      ensures forall q | q in old(transitProcesses) && q in arriving :: q.x == endPoint.0 && q.y == endPoint.1
      ensures forall q | q in cpuQueue && q !in old(cpuQueue) :: q.state == WaitingCpu && q.queueEntryTime == Some(now)
      ensures forall q | q in old(cpuQueue) && q in cpuQueue :: q.queueEntryTime == old(q.queueEntryTime)
      ensures computer.currentProcess != old(computer.currentProcess) ==>
                computer.currentProcess != null &&
                computer.currentProcess.state == Processing &&
                computer.currentProcess.processingStartTime == Some(now) &&
                computer.currentProcess.processingTimeMs == computer.processingTimeMs
      ensures var c := old(computer.currentProcess);
              c != null ==> computer.currentProcess == c && c.state == old(c.state) &&
                            c.processingStartTime == old(c.processingStartTime) &&
                            c.processingTimeMs == old(c.processingTimeMs)
      ensures computer.isStopped == old(computer.isStopped)
      ensures computer.processingTimeMs == old(computer.processingTimeMs)
      ensures computer.queue == old(computer.queue) && computer.preStopState == old(computer.preStopState)
    {
      UpdateTransitProcesses(arriving, now);
      ProcessCpuQueue(now);
    }

    /** Phase one: the head of the input queue enters transit, as IN_TRANSIT, when fewer than five travel. */
    method MoveFromInputToTransit()
      requires Valid()
      modifies this`inputQueue, this`transitProcesses, inputQueue`state
      ensures Valid()
      ensures View() == Promote(old(View()))
      ensures Members() == old(Members())
      ensures old(View()) != View() ==> old(inputQueue[0]).state == InTransit
      ensures var c := computer.currentProcess; c != null ==> c.state == old(c.state)
      ensures forall q | q in cpuQueue :: q.state == old(q.state)
    {
      ghost var l0 := View();
      PromoteKeepsDistinct(l0);
      DistinctLanes(l0);
      if inputQueue != [] && |transitProcesses| < MaxInTransit {
        var p := inputQueue[0];
        DistinctTail(inputQueue);
        assert inputQueue == [p] + inputQueue[1..];
        p.state := InTransit;
        inputQueue := inputQueue[1..];
        transitProcesses := transitProcesses + [p];
        assert View() == Promote(l0);
      }
    }

    /**
     * Phase two: every transit process that arrives is snapped onto the end
     * point and removed from transit; the arrivals, in transit-list order,
     * are started by an idle computer or marked WAITING_CPU and queued.
     */
    method UpdateTransitProcesses(arriving: set<Process>, now: int)
      requires Valid()
      modifies this, computer
      modifies Members()`x, Members()`y, Members()`state, Members()`queueEntryTime, Members()`processingStartTime, Members()`processingTimeMs
      ensures Valid()
      ensures View() == MoveAndArrive(old(View()), old(computer.isStopped), arriving)
      ensures Members() <= old(Members())
      ensures forall q | q in old(transitProcesses) && q in arriving :: q.x == endPoint.0 && q.y == endPoint.1
      ensures forall q | q in cpuQueue && q !in old(cpuQueue) :: q.queueEntryTime == Some(now)
      ensures forall q | q in old(cpuQueue) :: q.queueEntryTime == old(q.queueEntryTime)
      ensures computer.currentProcess != old(computer.currentProcess) ==>
                computer.currentProcess != null &&
                computer.currentProcess.state == Processing &&
                computer.currentProcess.processingStartTime == Some(now) &&
                computer.currentProcess.processingTimeMs == computer.processingTimeMs
      ensures var c := old(computer.currentProcess);
              c != null ==> computer.currentProcess == c && c.state == old(c.state) &&
                            c.processingStartTime == old(c.processingStartTime) &&
                            c.processingTimeMs == old(c.processingTimeMs)
      ensures computer.isStopped == old(computer.isStopped)
      ensures computer.processingTimeMs == old(computer.processingTimeMs)
      ensures computer.queue == old(computer.queue) && computer.preStopState == old(computer.preStopState)
    {
      ghost var l0 := View();
      var arrived := LeaveTransit(arriving);
      assert forall q | q in arrived :: q !in cpuQueue && q != computer.currentProcess;
      DeliverArrivals(arrived, now);
      MoveAndArriveShrinks(l0, old(computer.isStopped), arriving);
      MoveAndArriveKeepsDistinct(l0, old(computer.isStopped), arriving);
    }

    /**
     * The first loop of phase two, with what the second loop relies on: the
     * arrivals, in transit-list order, have left the transit list, snapped
     * onto the end point, and no process is held twice.
     */
    method LeaveTransit(arriving: set<Process>) returns (arrived: seq<Process>)
      requires Valid()
      modifies this`transitProcesses, transitProcesses`x, transitProcesses`y
      ensures View() == old(View()).(transit := Staying(old(transitProcesses), arriving))
      ensures arrived == Arrivals(old(transitProcesses), arriving)
      ensures forall q :: q in arrived <==> q in old(transitProcesses) && q in arriving
      ensures Distinct(View().All()) && Distinct(arrived)
      ensures forall q | q in arrived :: q !in View().All()
      ensures forall q | q in transitProcesses :: q.state == InTransit
      ensures forall q | q in arrived :: q.x == endPoint.0 && q.y == endPoint.1
    {
      ghost var l0 := View();
      DistinctLanes(l0);
      FilterMembers(transitProcesses, arriving);
      FilterDistinct(transitProcesses, arriving);
      SplitTransit(transitProcesses, arriving);
      DistinctNoRepeats(transitProcesses);
      arrived := RemoveArrivals(arriving);
      LanesDistinct(View());
    }

    /** The first loop of phase two: arrivals are snapped to the end point and leave the transit list. */
    method RemoveArrivals(arriving: set<Process>) returns (arrived: seq<Process>)
      requires NoRepeats(transitProcesses)
      requires forall q | q in transitProcesses :: q.state == InTransit
      modifies this`transitProcesses, transitProcesses`x, transitProcesses`y
      ensures arrived == Arrivals(old(transitProcesses), arriving)
      ensures transitProcesses == Staying(old(transitProcesses), arriving)
      ensures forall k | 0 <= k < |old(transitProcesses)| && old(transitProcesses)[k] in arriving ::
                old(transitProcesses)[k].x == endPoint.0 && old(transitProcesses)[k].y == endPoint.1
    {
      var snapshot := transitProcesses;
      arrived := [];
      var i := 0;
      while i < |snapshot|
        invariant 0 <= i <= |snapshot|
        invariant arrived == ArrivedBefore(snapshot, i, arriving)
        invariant transitProcesses == StayedBefore(snapshot, i, arriving) + snapshot[i..]
        invariant forall k | 0 <= k < i && snapshot[k] in arriving :: snapshot[k].x == endPoint.0 && snapshot[k].y == endPoint.1
      {
        var p := snapshot[i];
        RemoveStep(snapshot, i, arriving);
        assert p in old(transitProcesses);
        var arrives := p.state != Processing && p in arriving;
        assert arrives == (p in arriving);
        if arrives {
          Arrive(p, StayedBefore(snapshot, i, arriving), snapshot[i + 1..]);
          arrived := arrived + [p];
        }
        i := i + 1;
      }
      BeforeIsPrefix(snapshot, i, arriving);
      assert snapshot[..i] == snapshot;
    }

    /**
     * An arriving process is snapped to the end point and removed from the
     * transit list (`list.remove`); it occurs there once, after the prefix `a`.
     */
    method Arrive(p: Process, ghost a: seq<Process>, ghost b: seq<Process>)
      requires transitProcesses == a + [p] + b && p !in a
      modifies this`transitProcesses, p`x, p`y
      ensures transitProcesses == a + b
      ensures p.x == endPoint.0 && p.y == endPoint.1
    {
      p.x, p.y := endPoint.0, endPoint.1;
      RemoveFirstAfter(a, p, b);
      transitProcesses := RemoveFirst(transitProcesses, p);
    }

    /** The second loop of phase two: each arrival is started by an idle computer or queued. */
    method DeliverArrivals(arrived: seq<Process>, now: int)
      requires computer.Valid()
      requires Distinct(View().All()) && Distinct(arrived)
      requires forall q | q in arrived :: q !in View().All()
      requires forall q | q in inputQueue :: q.state == InQueue
      requires forall q | q in transitProcesses :: q.state == InTransit
      requires forall q | q in cpuQueue :: q.state == WaitingCpu
      modifies this, computer, arrived`state, arrived`queueEntryTime, arrived`processingStartTime, arrived`processingTimeMs
      ensures View() == Deliver(old(View()), old(computer.isStopped), arrived)
      ensures computer.Valid()
      ensures forall q | q in inputQueue :: q.state == InQueue
      ensures forall q | q in transitProcesses :: q.state == InTransit
      ensures forall q | q in cpuQueue :: q.state == WaitingCpu
      ensures forall q | q in cpuQueue && q !in old(cpuQueue) :: q.queueEntryTime == Some(now)
      ensures computer.currentProcess != old(computer.currentProcess) ==>
                computer.currentProcess != null &&
                computer.currentProcess.state == Processing &&
                computer.currentProcess.processingStartTime == Some(now) &&
                computer.currentProcess.processingTimeMs == computer.processingTimeMs
      ensures forall q | q in arrived && q != computer.currentProcess ::
                q.processingTimeMs == old(q.processingTimeMs) && q.processingStartTime == old(q.processingStartTime)
      ensures computer.isStopped == old(computer.isStopped)
      ensures computer.processingTimeMs == old(computer.processingTimeMs)
      ensures computer.queue == old(computer.queue) && computer.preStopState == old(computer.preStopState)
    {
      ghost var m0 := View();
      ghost var stopped := computer.isStopped;
      var j := 0;
      while j < |arrived|
        invariant 0 <= j <= |arrived|
        invariant View() == DeliveredBefore(m0, stopped, arrived, j)
        invariant computer.Valid()
        invariant computer.isStopped == stopped
        invariant computer.processingTimeMs == old(computer.processingTimeMs)
        invariant computer.queue == old(computer.queue) && computer.preStopState == old(computer.preStopState)
        invariant forall q | q in inputQueue :: q.state == InQueue
        invariant forall q | q in transitProcesses :: q.state == InTransit
        invariant forall q | q in cpuQueue :: q.state == WaitingCpu
        invariant forall q | q in cpuQueue && q !in m0.cpuQueue :: q.queueEntryTime == Some(now)
        invariant computer.currentProcess != m0.current ==>
                    computer.currentProcess != null &&
                    computer.currentProcess.state == Processing &&
                    computer.currentProcess.processingStartTime == Some(now) &&
                    computer.currentProcess.processingTimeMs == computer.processingTimeMs
        invariant forall q | q in arrived && q != computer.currentProcess ::
                    q.processingTimeMs == old(q.processingTimeMs) && q.processingStartTime == old(q.processingStartTime)
      {
        var p := arrived[j];
        DeliverStep(m0, stopped, arrived, j);
        DeliverArrival(p, now);
        j := j + 1;
      }
      DeliveredBeforeIsPrefix(m0, stopped, arrived, j);
      assert arrived[..j] == arrived;
    }

    /** The body of the second loop: an idle computer starts the arrival, a busy one has it queued. */
    method DeliverArrival(p: Process, now: int)
      requires computer.Valid()
      requires p !in inputQueue && p !in transitProcesses && p !in cpuQueue && p != computer.currentProcess
      requires forall q | q in inputQueue :: q.state == InQueue
      requires forall q | q in transitProcesses :: q.state == InTransit
      requires forall q | q in cpuQueue :: q.state == WaitingCpu
      modifies this`cpuQueue, computer, p`state, p`queueEntryTime, p`processingStartTime, p`processingTimeMs
      ensures View() == DeliverOne(old(View()), computer.isStopped, p)
      ensures computer.Valid()
      ensures forall q | q in inputQueue :: q.state == InQueue
      ensures forall q | q in transitProcesses :: q.state == InTransit
      ensures forall q | q in cpuQueue :: q.state == WaitingCpu
      ensures cpuQueue != old(cpuQueue) ==> p.queueEntryTime == Some(now)
      ensures computer.currentProcess != p ==>
                p.processingTimeMs == old(p.processingTimeMs) && p.processingStartTime == old(p.processingStartTime)
      ensures computer.currentProcess == old(computer.currentProcess) || computer.currentProcess == p
      ensures old(computer.currentProcess) == null && computer.isStopped ==> unchanged(p)
      ensures computer.currentProcess != old(computer.currentProcess) ==>
                computer.currentProcess != null &&
                computer.currentProcess.state == Processing &&
                computer.currentProcess.processingStartTime == Some(now) &&
                computer.currentProcess.processingTimeMs == computer.processingTimeMs
      ensures computer.isStopped == old(computer.isStopped)
      ensures computer.processingTimeMs == old(computer.processingTimeMs)
      ensures computer.queue == old(computer.queue) && computer.preStopState == old(computer.preStopState)
    {
      if computer.isIdle {
        computer.StartProcessing(p, now);
      } else {
        p.EnterCpuQueue(now);
        cpuQueue := cpuQueue + [p];
      }
    }

    /** Phase three: an idle computer is handed the head of the CPU queue, which leaves the queue. */
    method ProcessCpuQueue(now: int)
      requires Valid()
      modifies this, computer
      modifies Members()`state, Members()`queueEntryTime, Members()`processingStartTime, Members()`processingTimeMs
      ensures Valid()
      ensures View() == ServeCpuQueue(old(View()), old(computer.isStopped))
      ensures Members() <= old(Members())
      ensures var c := old(computer.currentProcess);
              c != null ==> computer.currentProcess == c && c.state == old(c.state) &&
                            c.processingStartTime == old(c.processingStartTime) &&
                            c.processingTimeMs == old(c.processingTimeMs)
      ensures forall q | q in old(Members()) :: q.x == old(q.x) && q.y == old(q.y)
      ensures forall q | q in cpuQueue :: q.queueEntryTime == old(q.queueEntryTime)
      ensures computer.currentProcess != old(computer.currentProcess) ==>
                computer.currentProcess != null &&
                computer.currentProcess.state == Processing &&
                computer.currentProcess.processingStartTime == Some(now) &&
                computer.currentProcess.processingTimeMs == computer.processingTimeMs
      ensures forall q | q in cpuQueue && old(allocated(q)) ::
                q.processingTimeMs == old(q.processingTimeMs) && q.processingStartTime == old(q.processingStartTime)
      ensures computer.isStopped == old(computer.isStopped)
      ensures computer.processingTimeMs == old(computer.processingTimeMs)
      ensures computer.queue == old(computer.queue) && computer.preStopState == old(computer.preStopState)
    {
      ghost var l0 := View();
      ServeShrinks(l0, computer.isStopped);
      if computer.isIdle && cpuQueue != [] {
        var next := cpuQueue[0];
        DistinctLanes(l0);
        DistinctTail(cpuQueue);
        cpuQueue := cpuQueue[1..];
        computer.StartProcessing(next, now);
      }
    }
  }
}

/**
 The membership of the pool over whole runs: connections added and removed from outside while
 the monitor grows and shrinks the pool, one lock section at a time, and the pool is closed.
 */
module PoolRuns {
  import opened Wire
  import opened Pool

  /**
   The goroutine of the monitor: not started, waiting for its ticker, decided to grow or to shrink,
   with the size found to leave room, with a connection made, or ended. Growing takes three steps:
   the size is checked, a connection is made, and it is added.
   */
  datatype Monitor = Absent | Idle | WantsUp | WantsDown | Approved | Holding(c: nat) | Exited

  /**
   Connections are numbered. `closing` says that a close holds the lock and waits for the monitor,
   `cancelled` that the monitor has been told to end. The histories: `removed`, those taken out of
   the pool; `made`, those the monitor has made. What happens to `pool` in each step is what the
   methods of `Pool.Pool` do to their value.
   */
  datatype System = System(pool: Members<nat>, closed: set<nat>, removed: set<nat>, monitor: Monitor, made: set<nat>,
                           closing: bool, cancelled: bool)

  datatype Limits = Limits(min: nat, max: nat)

  const INIT := System(Members([], 0), {}, {}, Absent, {}, false, false)

  datatype Action =
    | Add(c: nat)
    | Remove(i: nat)
    | Start
    | Tick(up: bool)
    | Approve
    | Decline
    | Make(c: nat)
    | MakeFails
    | AddMade
    | Shrink(i: nat)
    | Exit
    | CloseBegins
    | CloseEnds

  /** These take the pool's lock, which a close does not give back before it is over. */
  predicate TakesLock(a: Action) {
    !a.Tick? && !a.Make? && !a.MakeFails? && !a.Exit? && !a.CloseEnds?
  }

  predicate Unused(y: System, c: nat) {
    c !in y.pool.conns && c !in y.made && c !in y.removed && c !in y.closed
  }

  predicate Possible(l: Limits, a: Action, y: System) {
    match a
    case Add(_) => true
    case Remove(i) => i < |y.pool.conns|
    case Start => y.monitor.Absent?
    case Tick(_) => y.monitor.Idle?
    case Approve => y.monitor.WantsUp? && |y.pool.conns| < l.max
    case Decline =>
      if y.monitor.WantsUp? then |y.pool.conns| >= l.max else y.monitor.WantsDown? && |y.pool.conns| <= l.min
    case Make(c) => y.monitor.Approved? && Unused(y, c)
    case MakeFails => y.monitor.Approved?
    case AddMade => y.monitor.Holding?
    case Shrink(i) => y.monitor.WantsDown? && i < |y.pool.conns| && |y.pool.conns| > l.min
    case Exit => y.monitor.Idle? && y.cancelled
    case CloseBegins => true
    case CloseEnds => y.closing && (y.monitor.Absent? || y.monitor.Exited?)
  }

  predicate Enabled(l: Limits, a: Action, y: System) {
    Possible(l, a, y) && (TakesLock(a) ==> !y.closing)
  }

  function Taken(y: System, i: nat): System
    requires i < |y.pool.conns|
  {
    var c := y.pool.conns[i];
    y.(pool := Dropped(y.pool, i), closed := y.closed + {c}, removed := y.removed + {c})
  }

  function Emptied(y: System): System {
    var all := set c | c in y.pool.conns;
    y.(pool := Members([], 0), closed := y.closed + all, removed := y.removed + all)
  }

  /** `Close` cancels the monitor's context if it was started, and waits for it. */
  function Next(l: Limits, a: Action, y: System): System
    requires Enabled(l, a, y)
  {
    match a
    case Add(c) => y.(pool := Joined(l.max, y.pool, c))
    case Remove(i) => Taken(y, i)
    case Start => y.(monitor := Idle)
    case Tick(up) => y.(monitor := if up then WantsUp else WantsDown)
    case Approve => y.(monitor := Approved)
    case Decline => y.(monitor := Idle)
    case Make(c) => y.(monitor := Holding(c), made := y.made + {c})
    case MakeFails => y.(monitor := Idle)
    case AddMade => y.(pool := Joined(l.max, y.pool, y.monitor.c), monitor := Idle)
    case Shrink(i) => Taken(y, i).(monitor := Idle)
    case Exit => y.(monitor := Exited)
    case CloseBegins => y.(closing := true, cancelled := y.cancelled || !y.monitor.Absent?)
    case CloseEnds => Emptied(y).(closing := false)
  }

  ghost predicate Inv(l: Limits, y: System) {
    && |y.pool.conns| <= l.max && y.pool.count == |y.pool.conns| && y.removed <= y.closed
    && (y.closing && !y.monitor.Absent? ==> y.cancelled)
  }

  ghost function Play(l: Limits, y: System, run: seq<Action>): Option<System>
    decreases |run|
  {
    if run == [] then Some(y)
    else if Enabled(l, run[0], y) then Play(l, Next(l, run[0], y), run[1..])
    else None
  }

  lemma {:induction false} PlayKeepsInv(l: Limits, y: System, run: seq<Action>)
    requires Inv(l, y) && Play(l, y, run).Some?
    ensures Inv(l, Play(l, y, run).value)
    decreases |run|
  {
    if run != [] {
      PlayKeepsInv(l, Next(l, run[0], y), run[1..]);
    }
  }

  /**
   In every run the size stays within the maximum although growing checks it and adds in separate
   lock sections, the metric is the size, and whatever was taken out was closed.
   */
  lemma PoolBounds(l: Limits, run: seq<Action>)
    requires Play(l, INIT, run).Some?
    ensures var y := Play(l, INIT, run).value;
            |y.pool.conns| <= l.max && y.pool.count == |y.pool.conns| && y.removed <= y.closed
  {
    PlayKeepsInv(l, INIT, run);
  }

  /** Whatever takes a connection out and is not the monitor. */
  predicate TakesOut(a: Action) {
    a.Remove? || a.CloseEnds?
  }

  /** Scaling never takes a pool below its minimum, and never shrinks one that has not reached it. */
  lemma {:induction false} ScalingKeepsMinimum(l: Limits, y: System, run: seq<Action>)
    requires Play(l, y, run).Some? && forall a :: a in run ==> !TakesOut(a)
    ensures var z := Play(l, y, run).value;
            if |y.pool.conns| >= l.min then |z.pool.conns| >= l.min else |z.pool.conns| >= |y.pool.conns|
    decreases |run|
  {
    if run != [] {
      assert run[0] in run;
      ScalingKeepsMinimum(l, Next(l, run[0], y), run[1..]);
    }
  }

  // ---------- growing ----------

  /** What others can do while the monitor holds a connection that nobody else has. */
  predicate Outside(a: Action, c: nat) {
    a.Remove? || a.CloseBegins? || (a.Add? && a.c != c)
  }

  /**
   Whatever others do meanwhile, a connection the monitor made is in the pool after its turn to
   be added exactly when the pool was not full by then; otherwise it is in the pool's hands no
   more and still open. Its turn does not come when a close holds the lock by then.
   */
  lemma MadeIsKeptUnlessFull(l: Limits, y: System, c: nat, others: seq<Action>)
    requires Enabled(l, Make(c), y) && (forall a :: a in others ==> Outside(a, c))
    requires Play(l, Next(l, Make(c), y), others).Some?
    ensures var z := Play(l, Next(l, Make(c), y), others).value;
            && (Enabled(l, AddMade, z) <==> !z.closing)
            && (!z.closing ==>
                  && (c in Next(l, AddMade, z).pool.conns <==> |z.pool.conns| < l.max)
                  && c !in Next(l, AddMade, z).closed)
  {
    OthersLeaveOut(l, Next(l, Make(c), y), others, c);
  }

  lemma {:induction false} OthersLeaveOut(l: Limits, y: System, others: seq<Action>, c: nat)
    requires c !in y.pool.conns && c !in y.closed
    requires (forall a :: a in others ==> Outside(a, c)) && Play(l, y, others).Some?
    ensures var z := Play(l, y, others).value; c !in z.pool.conns && c !in z.closed && z.monitor == y.monitor
    decreases |others|
  {
    if others != [] {
      assert Outside(others[0], c);
      OthersLeaveOut(l, Next(l, others[0], y), others[1..], c);
    }
  }

  lemma PlayCons(l: Limits, a: Action, y: System, rest: seq<Action>)
    requires Enabled(l, a, y)
    ensures Play(l, y, [a] + rest) == Play(l, Next(l, a, y), rest)
  {
    assert ([a] + rest)[1..] == rest;
  }

  /** The monitor has made connection 7 while the pool was empty. */
  function MadeState(): System {
    System(Members([], 0), {}, {}, Holding(7), {7}, false, false)
  }

  lemma ReachesMade(l: Limits, rest: seq<Action>)
    requires l.max > 0
    ensures Play(l, INIT, [Start] + ([Tick(true)] + ([Approve] + ([Make(7)] + rest)))) == Play(l, MadeState(), rest)
  {
    var y1 := Next(l, Start, INIT);
    var y2 := Next(l, Tick(true), y1);
    var y3 := Next(l, Approve, y2);
    PlayCons(l, Start, INIT, [Tick(true)] + ([Approve] + ([Make(7)] + rest)));
    PlayCons(l, Tick(true), y1, [Approve] + ([Make(7)] + rest));
    PlayCons(l, Approve, y2, [Make(7)] + rest);
    PlayCons(l, Make(7), y3, rest);
    assert {} + {7} == {7};
    assert Next(l, Make(7), y3) == MadeState();
  }

  /** Such a connection is lost: with room for one, an addition in between leaves it open outside the pool. */
  lemma MadeCanBeLost() returns (run: seq<Action>)
    ensures Play(Limits(1, 1), INIT, run).Some?
    ensures var y := Play(Limits(1, 1), INIT, run).value;
            y.monitor == Idle && 7 in y.made && 7 !in y.pool.conns && 7 !in y.closed
  {
    var l := Limits(1, 1);
    var y5 := Next(l, Add(8), MadeState());
    var rest := [Add(8)] + ([AddMade] + []);
    PlayCons(l, Add(8), MadeState(), [AddMade] + []);
    PlayCons(l, AddMade, y5, []);
    ReachesMade(l, rest);
    run := [Start] + ([Tick(true)] + ([Approve] + ([Make(7)] + rest)));
  }

  // ---------- closing ----------

  /** The next step of the monitor is a lock section. */
  predicate NeedsLock(m: Monitor) {
    m.WantsUp? || m.WantsDown? || m.Holding?
  }

  /** There is a way for the close to end. */
  ghost predicate CanEnd(l: Limits, y: System) {
    exists run :: Play(l, y, run).Some? && !Play(l, y, run).value.closing
  }

  /** The close waits for the monitor and the monitor for the lock: nothing at all can happen any more. */
  lemma {:induction false} BlockedForGood(l: Limits, y: System, run: seq<Action>)
    requires y.closing && NeedsLock(y.monitor) && Play(l, y, run).Some?
    ensures run == [] && Play(l, y, run) == Some(y)
  {
  }

  /** While the monitor is not about to take the lock, a close can still end. */
  lemma WayToEnd(l: Limits, y: System) returns (run: seq<Action>)
    requires Inv(l, y) && y.closing && !NeedsLock(y.monitor)
    ensures Play(l, y, run).Some? && !Play(l, y, run).value.closing
  {
    if y.monitor.Absent? || y.monitor.Exited? {
      run := [CloseEnds] + [];
      PlayCons(l, CloseEnds, y, []);
    } else if y.monitor.Idle? {
      var y1 := Next(l, Exit, y);
      run := [Exit] + ([CloseEnds] + []);
      PlayCons(l, Exit, y, [CloseEnds] + []);
      PlayCons(l, CloseEnds, y1, []);
    } else {
      var y1 := Next(l, MakeFails, y);
      var y2 := Next(l, Exit, y1);
      run := [MakeFails] + ([Exit] + ([CloseEnds] + []));
      PlayCons(l, MakeFails, y, [Exit] + ([CloseEnds] + []));
      PlayCons(l, Exit, y1, [CloseEnds] + []);
      PlayCons(l, CloseEnds, y2, []);
    }
  }

  /**
   A close that holds the lock is blocked for good exactly when the monitor's next step is a lock
   section: it has decided to scale and not yet done so, or it has made a connection and not yet
   added it.
   */
  lemma CloseBlockedIff(l: Limits, run: seq<Action>)
    requires Play(l, INIT, run).Some? && Play(l, INIT, run).value.closing
    ensures var y := Play(l, INIT, run).value; CanEnd(l, y) <==> !NeedsLock(y.monitor)
  {
    PlayKeepsInv(l, INIT, run);
    var y := Play(l, INIT, run).value;
    if NeedsLock(y.monitor) {
      forall more | Play(l, y, more).Some?
        ensures Play(l, y, more).value.closing
      {
        BlockedForGood(l, y, more);
      }
    } else {
      var more := WayToEnd(l, y);
    }
  }

  /** It does happen: a connection is being made when the pool is closed, and the making succeeds. */
  lemma CloseCanBlock(l: Limits) returns (run: seq<Action>, y: System)
    requires l.max > 0
    ensures Play(l, INIT, run) == Some(y) && y.closing && !CanEnd(l, y)
  {
    var rest := [CloseBegins] + [];
    y := Next(l, CloseBegins, MadeState());
    PlayCons(l, CloseBegins, MadeState(), []);
    ReachesMade(l, rest);
    run := [Start] + ([Tick(true)] + ([Approve] + ([Make(7)] + rest)));
    CloseBlockedIff(l, run);
  }

  /** A pool without a monitor is closed in one go. */
  lemma CloseWithoutMonitor(l: Limits, y: System)
    requires Enabled(l, CloseBegins, y) && y.monitor.Absent?
    ensures var y1 := Next(l, CloseBegins, y);
            && Enabled(l, CloseEnds, y1)
            && var y2 := Next(l, CloseEnds, y1);
            && y2.pool == Members([], 0) && !y2.closing
            && forall c :: c in y.pool.conns ==> c in y2.closed
  {
  }
}

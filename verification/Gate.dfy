/** The registry's shared/exclusive gate as a state machine over its await points: every step is
    the code that one call runs between two awaits, and steps of different calls interleave freely. */
module Gate {

  import opened Common

  /** Where a call stands. A `Waiting` call has put its resolver in `waiters`; a `Woken` one has been
      resolved and has not run yet; a `Queued` one awaits the tail it found. */
  datatype Pc =
    | SharedStart | SharedWaiting | SharedWoken | SharedRunning
    | ExclusiveStart | ExclusiveQueued(previous: Option<nat>)
    | ExclusiveWaiting | ExclusiveWoken | ExclusiveRunning
    | Done

  /** `calls[t]` is the state of call `t`. `order` lists the exclusive calls in the order they took
      the tail and `served` counts those that have finished; both are history. */
  datatype State = State(active: int, exclusive: bool, waiters: seq<nat>, tail: Option<nat>,
                         calls: seq<Pc>, order: seq<nat>, served: nat)

  predicate Waiting(pc: Pc) { pc.SharedWaiting? || pc.ExclusiveWaiting? }

  function Wake(pc: Pc): Pc {
    match pc
    case SharedWaiting => SharedWoken
    case ExclusiveWaiting => ExclusiveWoken
    case _ => pc
  }

  function WakeAll(calls: seq<Pc>): seq<Pc> {
    seq(|calls|, t requires 0 <= t < |calls| => Wake(calls[t]))
  }

  predicate Resolved(s: State, previous: Option<nat>) {
    previous.None? || (previous.value < |s.calls| && s.calls[previous.value].Done?)
  }

  predicate Enabled(s: State, t: nat) {
    t < |s.calls| &&
    match s.calls[t]
    case SharedWaiting | ExclusiveWaiting | Done => false
    case ExclusiveQueued(previous) => Resolved(s, previous)
    case _ => true
  }

  /** A shared call, from its start or after a wake: wait while the gate is exclusive. */
  function EnterShared(s: State, t: nat): State
    requires t < |s.calls|
  {
    if s.exclusive then s.(waiters := s.waiters + [t], calls := s.calls[t := SharedWaiting])
    else s.(active := s.active + 1, calls := s.calls[t := SharedRunning])
  }

  function FinishShared(s: State, t: nat): State
    requires t < |s.calls|
  {
    s.(active := s.active - 1, waiters := [], calls := WakeAll(s.calls[t := Done]))
  }

  function TakeTail(s: State, t: nat): State
    requires t < |s.calls|
  {
    s.(tail := Some(t), calls := s.calls[t := ExclusiveQueued(s.tail)], order := s.order + [t])
  }

  /** An exclusive call that holds the gate: wait while shared operations run. */
  function HoldGate(s: State, t: nat): State
    requires t < |s.calls|
  {
    if s.active > 0 then s.(exclusive := true, waiters := s.waiters + [t], calls := s.calls[t := ExclusiveWaiting])
    else s.(exclusive := true, calls := s.calls[t := ExclusiveRunning])
  }

  function FinishExclusive(s: State, t: nat): State
    requires t < |s.calls|
  {
    s.(exclusive := false, waiters := [], calls := WakeAll(s.calls[t := Done]), served := s.served + 1)
  }

  /** What call `t` does when it is scheduled. */
  function Next(s: State, t: nat): State
    requires Enabled(s, t)
  {
    match s.calls[t]
    case SharedStart | SharedWoken => EnterShared(s, t)
    case SharedRunning => FinishShared(s, t)
    case ExclusiveStart => TakeTail(s, t)
    case ExclusiveQueued(_) | ExclusiveWoken => HoldGate(s, t)
    case ExclusiveRunning => FinishExclusive(s, t)
    case _ => s
  }

  // ---------------------------------------------------------------- the gate object

  class RegistryOperationGate {
    var active: int
    var exclusive: bool
    var waiters: seq<nat>
    var tail: Option<nat>
    var calls: seq<Pc>
    ghost var order: seq<nat>
    ghost var served: nat

    constructor (operations: seq<Pc>)
      ensures View() == Initial(operations)
    {
      active, exclusive, waiters, tail := 0, false, [], None;
      calls, order, served := operations, [], 0;
    }

    ghost function View(): State
      reads this
    {
      State(active, exclusive, waiters, tail, calls, order, served)
    }

    method Wake()
      modifies this`waiters, this`calls
      ensures waiters == [] && calls == WakeAll(old(calls))
    {
      calls := WakeAll(calls);
      waiters := [];
    }

    method EnterShared(t: nat)
      requires Enabled(View(), t) && (calls[t].SharedStart? || calls[t].SharedWoken?)
      modifies this
      ensures View() == Next(old(View()), t)
    {
      if exclusive {
        waiters := waiters + [t];
        calls := calls[t := SharedWaiting];
      } else {
        active := active + 1;
        calls := calls[t := SharedRunning];
      }
    }

    method FinishShared(t: nat)
      requires Enabled(View(), t) && calls[t].SharedRunning?
      modifies this
      ensures View() == Next(old(View()), t)
    {
      active := active - 1;
      calls := calls[t := Done];
      Wake();
    }

    method TakeTail(t: nat)
      requires Enabled(View(), t) && calls[t].ExclusiveStart?
      modifies this
      ensures View() == Next(old(View()), t)
    {
      var previous := tail;
      tail := Some(t);
      calls := calls[t := ExclusiveQueued(previous)];
      order := order + [t];
    }

    method HoldGate(t: nat)
      requires Enabled(View(), t) && (calls[t].ExclusiveQueued? || calls[t].ExclusiveWoken?)
      requires calls[t].ExclusiveWoken? ==> exclusive
      modifies this
      ensures View() == Next(old(View()), t)
    {
      if calls[t].ExclusiveQueued? { exclusive := true; }
      if active > 0 {
        waiters := waiters + [t];
        calls := calls[t := ExclusiveWaiting];
      } else {
        calls := calls[t := ExclusiveRunning];
      }
    }

    method FinishExclusive(t: nat)
      requires Enabled(View(), t) && calls[t].ExclusiveRunning?
      modifies this
      ensures View() == Next(old(View()), t)
    {
      exclusive := false;
      calls := calls[t := Done];
      served := served + 1;
      Wake();
    }

    /** Any interleaving: every call runs when it is scheduled, if it can then, and the gate stays sound. */
    method Run(schedule: seq<nat>)
      requires Sound(View())
      modifies this
      ensures Sound(View()) && |calls| == |old(calls)| && View() == Played(old(View()), schedule)
      ensures CanFollow(old(View()), schedule) ==> View() == After(old(View()), schedule)
    {
      PlayedFollows(View(), schedule);
      assert schedule[..|schedule|] == schedule;
      for k := 0 to |schedule|
        invariant Sound(View()) && |calls| == |old(calls)| && View() == Played(old(View()), schedule[..k])
      {
        var t := schedule[k];
        assert schedule[..k + 1] == schedule[..k] + [t];
        if t < |calls| && CanRun(t) {
          StepKeepsSound(View(), t);
          match calls[t]
          case SharedStart | SharedWoken => EnterShared(t);
          case SharedRunning => FinishShared(t);
          case ExclusiveStart => TakeTail(t);
          case ExclusiveQueued(_) | ExclusiveWoken => HoldGate(t);
          case ExclusiveRunning => FinishExclusive(t);
          case _ =>
        }
      }
    }

    predicate CanRun(t: nat)
      reads this`calls
      ensures CanRun(t) == Enabled(View(), t)
    {
      t < |calls| &&
      match calls[t]
      case SharedWaiting | ExclusiveWaiting | Done => false
      case ExclusiveQueued(p) => p.None? || (p.value < |calls| && calls[p.value].Done?)
      case _ => true
    }
  }

  predicate Fresh(operations: seq<Pc>) {
    forall t | 0 <= t < |operations| :: operations[t].SharedStart? || operations[t].ExclusiveStart?
  }

  function Initial(operations: seq<Pc>): State {
    State(0, false, [], None, operations, [], 0)
  }

  // ---------------------------------------------------------------- the invariant

  function Running(calls: seq<Pc>): nat {
    if calls == [] then 0
    else Running(calls[..|calls| - 1]) + if calls[|calls| - 1].SharedRunning? then 1 else 0
  }

  /** The turn a queued call waits for is the one just before its own. */
  function Before(order: seq<nat>, k: nat): Option<nat>
    requires k <= |order|
  {
    if k == 0 then None else Some(order[k - 1])
  }

  /** Exclusive calls are served in the order they took the tail, one at a time. */
  ghost predicate TurnOk(s: State, k: nat)
    requires k < |s.order|
  {
    && s.order[k] < |s.calls|
    && var pc := s.calls[s.order[k]];
      if k < s.served then pc.Done?
      else if k == s.served then
        pc == ExclusiveQueued(Before(s.order, k)) || Holds(pc)
      else pc == ExclusiveQueued(Before(s.order, k))
  }

  predicate Holds(pc: Pc) { pc.ExclusiveWaiting? || pc.ExclusiveWoken? || pc.ExclusiveRunning? }

  ghost predicate CallOk(s: State, t: nat)
    requires t < |s.calls|
  {
    var pc := s.calls[t];
    && (Waiting(pc) <==> t in s.waiters)
    && (pc.ExclusiveQueued? || Holds(pc) ==> t in s.order)
    && (pc.SharedStart? || pc.SharedWaiting? || pc.SharedWoken? || pc.SharedRunning? || pc.ExclusiveStart?
        ==> t !in s.order)
    && (Holds(pc) ==> s.exclusive && s.served < |s.order| && s.order[s.served] == t)
    && (pc.ExclusiveRunning? ==> s.active == 0)
    && (pc.ExclusiveWaiting? ==> s.active > 0)
  }

  predicate HolderExists(s: State) {
    s.served < |s.order| && s.order[s.served] < |s.calls| && Holds(s.calls[s.order[s.served]])
  }

  ghost predicate Distinct(xs: seq<nat>) { forall i, j | 0 <= i < j < |xs| :: xs[i] != xs[j] }

  ghost predicate Sound(s: State) {
    && s.active == Running(s.calls)
    && (forall t | 0 <= t < |s.calls| :: CallOk(s, t))
    && (forall k | 0 <= k < |s.order| :: TurnOk(s, k))
    && Distinct(s.order) && s.served <= |s.order|
    && s.tail == Before(s.order, |s.order|)
    && (s.exclusive <==> HolderExists(s))
    && (s.waiters != [] ==> s.exclusive)
    && (forall t | t in s.waiters :: t < |s.calls|)
  }

  // ---------------------------------------------------------------- every step keeps it

  lemma {:induction false} RunningAfter(calls: seq<Pc>, t: nat, pc: Pc)
    requires t < |calls|
    ensures Running(calls[t := pc]) == Running(calls)
      - (if calls[t].SharedRunning? then 1 else 0) + (if pc.SharedRunning? then 1 else 0)
  {
    var n := |calls| - 1;
    if t == n {
      assert calls[t := pc][..n] == calls[..n];
    } else {
      RunningAfter(calls[..n], t, pc);
      assert calls[t := pc][..n] == calls[..n][t := pc];
    }
  }

  lemma {:induction false} RunningWoken(calls: seq<Pc>)
    ensures Running(WakeAll(calls)) == Running(calls)
  {
    if calls != [] {
      var n := |calls| - 1;
      RunningWoken(calls[..n]);
      assert WakeAll(calls)[..n] == WakeAll(calls[..n]);
    }
  }

  lemma {:induction false} NoneRunning(calls: seq<Pc>, t: nat)
    requires t < |calls| && calls[t].SharedRunning?
    ensures Running(calls) > 0
  {
    RunningAfter(calls, t, Done);
  }

  lemma {:induction false} SomeRunning(calls: seq<Pc>) returns (t: nat)
    requires Running(calls) > 0
    ensures t < |calls| && calls[t].SharedRunning?
  {
    t := |calls| - 1;
    if !calls[t].SharedRunning? { t := SomeRunning(calls[..t]); }
  }

  lemma {:induction false} EnterSharedSound(s: State, t: nat)
    requires Sound(s) && t < |s.calls| && (s.calls[t].SharedStart? || s.calls[t].SharedWoken?)
    ensures Sound(EnterShared(s, t))
  {
    var n := EnterShared(s, t);
    RunningAfter(s.calls, t, n.calls[t]);
    assert CallOk(s, t);
    assert s.exclusive ==> TurnOk(s, s.served);
    forall c | 0 <= c < |n.calls| ensures CallOk(n, c) { assert CallOk(s, c); }
    forall k | 0 <= k < |n.order| ensures TurnOk(n, k) { assert TurnOk(s, k); }
  }

  lemma {:induction false} TakeTailSound(s: State, t: nat)
    requires Sound(s) && t < |s.calls| && s.calls[t].ExclusiveStart?
    ensures Sound(TakeTail(s, t))
  {
    var n := TakeTail(s, t);
    RunningAfter(s.calls, t, n.calls[t]);
    assert CallOk(s, t);
    forall c | 0 <= c < |n.calls| ensures CallOk(n, c) { assert CallOk(s, c); }
    forall k | 0 <= k < |n.order| ensures TurnOk(n, k) {
      if k < |s.order| { assert TurnOk(s, k); }
    }
  }

  lemma {:induction false} HoldGateSound(s: State, t: nat)
    requires Sound(s) && Enabled(s, t) && (s.calls[t].ExclusiveQueued? || s.calls[t].ExclusiveWoken?)
    ensures Sound(HoldGate(s, t))
    ensures s.served < |s.order| && s.order[s.served] == t
  {
    var n := HoldGate(s, t);
    RunningAfter(s.calls, t, n.calls[t]);
    assert CallOk(s, t);
    TurnIsNext(s, t);
    assert TurnOk(s, s.served);
    forall c | 0 <= c < |n.calls| ensures CallOk(n, c) { assert CallOk(s, c); }
    forall k | 0 <= k < |n.order| ensures TurnOk(n, k) { assert TurnOk(s, k); }
  }

  /** A queued call whose predecessor is done is the next in order. */
  lemma {:induction false} TurnIsNext(s: State, t: nat)
    requires Sound(s) && Enabled(s, t) && (s.calls[t].ExclusiveQueued? || s.calls[t].ExclusiveWoken?)
    ensures s.served < |s.order| && s.order[s.served] == t
  {
    assert CallOk(s, t);
    if s.calls[t].ExclusiveQueued? {
      var k :| 0 <= k < |s.order| && s.order[k] == t;
      assert TurnOk(s, k);
      if k > 0 { assert TurnOk(s, k - 1); }
    }
  }

  lemma {:induction false} FinishSharedSound(s: State, t: nat)
    requires Sound(s) && t < |s.calls| && s.calls[t].SharedRunning?
    ensures Sound(FinishShared(s, t))
  {
    var n := FinishShared(s, t);
    RunningAfter(s.calls, t, Done);
    RunningWoken(s.calls[t := Done]);
    assert CallOk(s, t);
    forall c | 0 <= c < |n.calls| ensures CallOk(n, c) { assert CallOk(s, c); }
    forall k | 0 <= k < |n.order| ensures TurnOk(n, k) { assert TurnOk(s, k); }
    if s.served < |s.order| { assert TurnOk(s, s.served); }
  }

  lemma {:induction false} FinishExclusiveSound(s: State, t: nat)
    requires Sound(s) && t < |s.calls| && s.calls[t].ExclusiveRunning?
    ensures Sound(FinishExclusive(s, t))
  {
    var n := FinishExclusive(s, t);
    RunningAfter(s.calls, t, Done);
    RunningWoken(s.calls[t := Done]);
    assert CallOk(s, t);
    forall c | 0 <= c < |n.calls| ensures CallOk(n, c) { assert CallOk(s, c); }
    forall k | 0 <= k < |n.order| ensures TurnOk(n, k) { assert TurnOk(s, k); }
    if n.served < |n.order| { assert TurnOk(s, n.served); }
  }

  lemma {:induction false} StepKeepsSound(s: State, t: nat)
    requires Sound(s) && Enabled(s, t)
    ensures Sound(Next(s, t)) && |Next(s, t).calls| == |s.calls|
  {
    match s.calls[t]
    case SharedStart | SharedWoken => EnterSharedSound(s, t);
    case SharedRunning => FinishSharedSound(s, t);
    case ExclusiveStart => TakeTailSound(s, t);
    case ExclusiveQueued(_) | ExclusiveWoken => HoldGateSound(s, t);
    case ExclusiveRunning => FinishExclusiveSound(s, t);
    case _ =>
  }

  lemma {:induction false} InitialIsSound(operations: seq<Pc>)
    requires Fresh(operations)
    ensures Sound(Initial(operations))
  {
    NobodyRuns(operations);
    var s := Initial(operations);
    forall t | 0 <= t < |s.calls| ensures CallOk(s, t) {
      assert s.calls[t].SharedStart? || s.calls[t].ExclusiveStart?;
    }
  }

  lemma {:induction false} NobodyRuns(calls: seq<Pc>)
    requires Fresh(calls)
    ensures Running(calls) == 0
  {
    if Running(calls) > 0 {
      var t := SomeRunning(calls);
    }
  }

  // ---------------------------------------------------------------- what it means

  /** While an exclusive operation runs nothing else does, and whoever is parked in `waiters` is
      owed a wake: by the exclusive holder, or by a running shared operation the holder waits for. */
  lemma {:induction false} ExclusionAndOwedWake(s: State, t: nat, u: nat)
    requires Sound(s) && t < |s.calls| && u < |s.calls| && t != u
    ensures s.calls[t].ExclusiveRunning? ==> !s.calls[u].SharedRunning? && !s.calls[u].ExclusiveRunning?
    ensures Waiting(s.calls[t]) ==>
      && HolderExists(s)
      && (s.calls[s.order[s.served]].ExclusiveWaiting? ==> Running(s.calls) > 0)
  {
    assert CallOk(s, t) && CallOk(s, u);
    if s.calls[u].SharedRunning? { NoneRunning(s.calls, u); }
    if HolderExists(s) { assert CallOk(s, s.order[s.served]); }
  }

  /** No reachable state is stuck: while some call is not done, some call can run. */
  lemma {:induction false} NeverStuck(s: State) returns (t: nat)
    requires Sound(s) && exists c | 0 <= c < |s.calls| :: !s.calls[c].Done?
    ensures Enabled(s, t)
  {
    var c :| 0 <= c < |s.calls| && !s.calls[c].Done?;
    assert CallOk(s, c);
    if s.served < |s.order| {
      t := s.order[s.served];
      assert TurnOk(s, s.served) && CallOk(s, t);
      if s.served > 0 { assert TurnOk(s, s.served - 1); }
      if s.calls[t].ExclusiveWaiting? { t := SomeRunning(s.calls); }
    } else {
      forall k | 0 <= k < |s.order| ensures s.order[k] < |s.calls| && s.calls[s.order[k]].Done? {
        assert TurnOk(s, k);
      }
      t := c;
    }
  }

  // ---------------------------------------------------------------- every run ends with every call done

  function Rank(pc: Pc): nat {
    match pc
    case ExclusiveStart => 2
    case SharedStart | SharedWoken | ExclusiveQueued(_) | ExclusiveWoken => 1
    case _ => 0
  }

  function Ranks(calls: seq<Pc>): (r: nat)
    ensures r <= 2 * |calls|
  {
    if calls == [] then 0 else Ranks(calls[..|calls| - 1]) + Rank(calls[|calls| - 1])
  }

  function Pending(calls: seq<Pc>): (n: nat)
    ensures n <= |calls|
  {
    if calls == [] then 0
    else Pending(calls[..|calls| - 1]) + if calls[|calls| - 1].Done? then 0 else 1
  }

  /** Steps that can still be taken: finishing a call weighs more than all waking it may cause. */
  function Work(s: State): nat { Pending(s.calls) * (2 * |s.calls| + 1) + Ranks(s.calls) }

  lemma {:induction false} SumsAfter(calls: seq<Pc>, t: nat, pc: Pc)
    requires t < |calls|
    ensures Ranks(calls[t := pc]) == Ranks(calls) - Rank(calls[t]) + Rank(pc)
    ensures Pending(calls[t := pc]) == Pending(calls)
      - (if calls[t].Done? then 0 else 1) + (if pc.Done? then 0 else 1)
  {
    var n := |calls| - 1;
    if t == n {
      assert calls[t := pc][..n] == calls[..n];
    } else {
      SumsAfter(calls[..n], t, pc);
      assert calls[t := pc][..n] == calls[..n][t := pc];
    }
  }

  lemma {:induction false} PendingWoken(calls: seq<Pc>)
    ensures Pending(WakeAll(calls)) == Pending(calls)
  {
    if calls != [] {
      var n := |calls| - 1;
      PendingWoken(calls[..n]);
      assert WakeAll(calls)[..n] == WakeAll(calls[..n]);
    }
  }

  lemma {:induction false} LessWork(pending: nat, size: nat, before: nat, after: nat)
    requires pending > 0 && after < size
    ensures (pending - 1) * size + after < pending * size + before
  {
    assert pending * size == (pending - 1) * size + size;
  }

  lemma {:induction false} FinishUsesWork(calls: seq<Pc>, t: nat)
    requires t < |calls| && !calls[t].Done?
    ensures var after := WakeAll(calls[t := Done]);
      Pending(after) * (2 * |calls| + 1) + Ranks(after) < Pending(calls) * (2 * |calls| + 1) + Ranks(calls)
  {
    var after := WakeAll(calls[t := Done]);
    SumsAfter(calls, t, Done);
    PendingWoken(calls[t := Done]);
    LessWork(Pending(calls), 2 * |calls| + 1, Ranks(calls), Ranks(after));
  }

  lemma {:induction false} StepUsesWork(s: State, t: nat)
    requires Enabled(s, t)
    ensures Work(Next(s, t)) < Work(s)
  {
    var n := Next(s, t);
    if s.calls[t].SharedRunning? || s.calls[t].ExclusiveRunning? {
      FinishUsesWork(s.calls, t);
    } else {
      SumsAfter(s.calls, t, n.calls[t]);
    }
  }

  ghost predicate CanFollow(s: State, schedule: seq<nat>)
    decreases |schedule|
  {
    schedule == [] || (Enabled(s, schedule[0]) && CanFollow(Next(s, schedule[0]), schedule[1..]))
  }

  ghost function After(s: State, schedule: seq<nat>): State
    requires CanFollow(s, schedule)
    decreases |schedule|
  {
    if schedule == [] then s else After(Next(s, schedule[0]), schedule[1..])
  }

  /** A schedule of calls of which some cannot run when their turn comes. */
  ghost function Played(s: State, schedule: seq<nat>): State {
    if schedule == [] then s
    else
      var (before, t) := (Played(s, schedule[..|schedule| - 1]), schedule[|schedule| - 1]);
      if Enabled(before, t) then Next(before, t) else before
  }

  lemma {:induction false} AfterOneMore(s: State, schedule: seq<nat>)
    requires schedule != [] && CanFollow(s, schedule)
    ensures var (init, t) := (schedule[..|schedule| - 1], schedule[|schedule| - 1]);
      && CanFollow(s, init) && Enabled(After(s, init), t) && After(s, schedule) == Next(After(s, init), t)
    decreases |schedule|
  {
    hide Next, Enabled;
    if |schedule| > 1 {
      var rest := schedule[1..];
      AfterOneMore(Next(s, schedule[0]), rest);
      assert rest[..|rest| - 1] == schedule[..|schedule| - 1][1..];
    }
  }

  lemma {:induction false} PlayedFollows(s: State, schedule: seq<nat>)
    ensures CanFollow(s, schedule) ==> Played(s, schedule) == After(s, schedule)
  {
    hide Next, Enabled;
    if schedule != [] && CanFollow(s, schedule) {
      AfterOneMore(s, schedule);
      PlayedFollows(s, schedule[..|schedule| - 1]);
    }
  }

  lemma {:induction false} RunIsBounded(s: State, schedule: seq<nat>)
    requires Sound(s) && CanFollow(s, schedule)
    ensures Sound(After(s, schedule))
    ensures |schedule| + Work(After(s, schedule)) <= Work(s)
    decreases |schedule|
  {
    if schedule != [] {
      StepKeepsSound(s, schedule[0]);
      StepUsesWork(s, schedule[0]);
      RunIsBounded(Next(s, schedule[0]), schedule[1..]);
    }
  }

  /** For any number of operations in any interleaving: no run is longer than the bound, and a run
      that cannot go on has completed every operation. */
  lemma {:induction false} EveryRunCompletes(operations: seq<Pc>, schedule: seq<nat>)
    requires Fresh(operations) && CanFollow(Initial(operations), schedule)
    ensures var n := |operations|; |schedule| <= n * (2 * n + 1) + 2 * n
    ensures var end := After(Initial(operations), schedule);
      (forall t: nat :: !Enabled(end, t)) ==> forall c | 0 <= c < |end.calls| :: end.calls[c].Done?
  {
    var s := Initial(operations);
    InitialIsSound(operations);
    RunIsBounded(s, schedule);
    var end := After(s, schedule);
    PendingBound(Pending(operations), |operations|);
    if exists c | 0 <= c < |end.calls| :: !end.calls[c].Done? {
      var t := NeverStuck(end);
    }
  }

  lemma {:induction false} PendingBound(p: nat, n: nat)
    requires p <= n
    ensures p * (2 * n + 1) <= n * (2 * n + 1)
  {
  }
}

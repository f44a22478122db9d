/** Cache leases: move-only handles, guarded by the generation of the slot they name. A state is the
    executor's slots together with every variable that ever held a lease. */
module Leases {

  import opened Common
  import opened CacheExecutors

  datatype Lease = Lease(slot: nat, generation: nat)

  /** `holders[h]` is what variable `h` holds; `None` is a lease without an owner. */
  datatype State = State(slots: seq<Slot>, holders: seq<Option<Lease>>)

  /** `Recycle` is what admissions and anchors do to idle slots, whether they succeed or not. */
  datatype Action =
    | Recycle(idle: set<nat>)
    | Admit(target: nat)
    | MoveConstruct(from: nat)
    | MoveAssign(to: nat, from: nat)
    | Release(h: nat)
    | Advance(h: nat)
    | AdvanceFails(h: nat)
    | Invalidate(h: nat, keepBusy: bool)
    | ResetForRetry(h: nat)

  function Renewed(s: Slot, busy: bool): Slot { Slot(s.generation + 1, busy, s.isAnchor, s.tokens) }

  predicate Holds(s: State, h: nat) { h < |s.holders| && s.holders[h].Some? }

  /** The lease names the generation that its slot has now. */
  predicate IsCurrent(slots: seq<Slot>, l: Lease) { l.slot < |slots| && slots[l.slot].generation == l.generation }

  predicate Enabled(s: State, a: Action) {
    match a
    case Recycle(idle) => forall i | i in idle :: i < |s.slots| && !s.slots[i].busy
    case Admit(t) => t < |s.slots| && !s.slots[t].busy
    case MoveConstruct(from) => from < |s.holders|
    case MoveAssign(to, from) => to < |s.holders| && from < |s.holders|
    case Release(h) => h < |s.holders|
    case Advance(h) => Holds(s, h) && IsCurrent(s.slots, s.holders[h].value)
    case AdvanceFails(h) => Holds(s, h) && IsCurrent(s.slots, s.holders[h].value)
    case Invalidate(h, _) => Holds(s, h)
    case ResetForRetry(h) => Holds(s, h) && s.holders[h].value.slot < |s.slots|
  }

  /** What letting go of a lease does to the slots. */
  function LetGo(slots: seq<Slot>, held: Option<Lease>): seq<Slot> {
    if held.None? then slots
    else
      var l := held.value;
      if IsCurrent(slots, l) && slots[l.slot].busy then slots[l.slot := slots[l.slot].(busy := false)] else slots
  }

  function Renew(s: State, h: nat, busy: bool): seq<Slot>
    requires Holds(s, h) && s.holders[h].value.slot < |s.slots|
  {
    var i := s.holders[h].value.slot;
    s.slots[i := Renewed(s.slots[i], busy)]
  }

  function Relabel(s: State, h: nat, slots: seq<Slot>): State
    requires Holds(s, h) && s.holders[h].value.slot < |slots|
  {
    var i := s.holders[h].value.slot;
    State(slots, s.holders[h := Some(Lease(i, slots[i].generation))])
  }

  function Apply(s: State, a: Action): State
    requires Enabled(s, a)
  {
    match a
    case Recycle(idle) =>
      s.(slots := seq(|s.slots|, i requires 0 <= i < |s.slots| =>
        if i in idle then Renewed(s.slots[i], false) else s.slots[i]))
    case Admit(t) =>
      State(s.slots[t := Renewed(s.slots[t], true)], s.holders + [Some(Lease(t, s.slots[t].generation + 1))])
    case MoveConstruct(from) => s.(holders := s.holders[from := None] + [s.holders[from]])
    case MoveAssign(to, from) =>
      if to == from then s
      else State(LetGo(s.slots, s.holders[to]), s.holders[to := s.holders[from]][from := None])
    case Release(h) => State(LetGo(s.slots, s.holders[h]), s.holders[h := None])
    case Advance(h) => Relabel(s, h, Renew(s, h, true))
    case AdvanceFails(h) => s.(slots := Renew(s, h, false))
    case Invalidate(h, keepBusy) =>
      if IsCurrent(s.slots, s.holders[h].value) then Relabel(s, h, Renew(s, h, keepBusy)) else s
    case ResetForRetry(h) =>
      var i := s.holders[h].value.slot;
      Relabel(s, h, seq(|s.slots|, j requires 0 <= j < |s.slots| => Renewed(s.slots[j], j == i)))
  }

  /** Holder `h` names slot `i` in generation `g`. */
  predicate Names(s: State, h: nat, i: nat, g: nat) {
    h < |s.holders| && s.holders[h] == Some(Lease(i, g))
  }

  /** No lease is ahead of its slot. */
  predicate NotAhead(s: State, h: nat) {
    Holds(s, h) ==>
      s.holders[h].value.slot < |s.slots| && s.holders[h].value.generation <= s.slots[s.holders[h].value.slot].generation
  }

  predicate Alone(s: State, h: nat, k: nat) {
    Holds(s, h) && Holds(s, k) && s.holders[h] == s.holders[k] ==> h == k
  }

  ghost predicate Owned(s: State, i: nat) {
    i < |s.slots| && s.slots[i].busy ==> exists h: nat :: Names(s, h, i, s.slots[i].generation)
  }

  /** Every busy slot is named, in its current generation, by exactly one holder. */
  ghost predicate Safe(s: State) {
    && (forall h: nat | h < |s.holders| :: NotAhead(s, h))
    && (forall h: nat, k: nat | h < |s.holders| && k < |s.holders| :: Alone(s, h, k))
    && (forall i: nat | i < |s.slots| :: Owned(s, i))
  }

  /** Where the lease that `h` holds after a step was before it; the step itself may have renewed it. */
  function Origin(s: State, a: Action, h: nat): nat {
    match a
    case MoveConstruct(from) => if h == |s.holders| then from else h
    case MoveAssign(to, from) => if h == to then from else h
    case _ => h
  }

  lemma {:induction false} NotAheadKept(s: State, a: Action, h: nat)
    requires Safe(s) && Enabled(s, a) && h < |Apply(s, a).holders|
    ensures NotAhead(Apply(s, a), h)
  {
    var o := Origin(s, a, h);
    if o < |s.holders| { assert NotAhead(s, o); }
  }

  lemma {:induction false} AloneKept(s: State, a: Action, h: nat, k: nat)
    requires Safe(s) && Enabled(s, a) && h < |Apply(s, a).holders| && k < |Apply(s, a).holders|
    ensures Alone(Apply(s, a), h, k)
  {
    var (o, q) := (Origin(s, a, h), Origin(s, a, k));
    if o < |s.holders| { assert NotAhead(s, o); }
    if q < |s.holders| { assert NotAhead(s, q); }
    if o < |s.holders| && q < |s.holders| { assert Alone(s, o, q); }
  }

  /** Where a lease that `h` held before a step is after it. */
  function Destination(s: State, a: Action, h: nat): nat {
    match a
    case MoveConstruct(from) => if h == from then |s.holders| else h
    case MoveAssign(to, from) => if h == from then to else h
    case _ => h
  }

  lemma {:induction false} OwnedKept(s: State, a: Action, i: nat)
    requires Safe(s) && Enabled(s, a) && i < |s.slots|
    ensures Owned(Apply(s, a), i)
  {
    var s' := Apply(s, a);
    if s'.slots[i].busy {
      assert Owned(s, i);
      if a.Admit? && i == a.target {
        assert Names(s', |s.holders|, i, s'.slots[i].generation);
      } else if (a.Advance? || a.Invalidate? || a.ResetForRetry?) && s.holders[a.h].value.slot == i {
        assert NotAhead(s, a.h);
        if a.Invalidate? && !IsCurrent(s.slots, s.holders[a.h].value) {
          var o: nat :| Names(s, o, i, s.slots[i].generation);
          assert Names(s', o, i, s'.slots[i].generation);
        } else {
          assert Names(s', a.h, i, s'.slots[i].generation);
        }
      } else {
        var o: nat :| Names(s, o, i, s.slots[i].generation);
        assert Names(s', Destination(s, a, o), i, s'.slots[i].generation);
      }
    }
  }

  /** Every step keeps it: each busy slot is named by exactly one lease of its current generation. */
  lemma {:induction false} StepKeepsSafe(s: State, a: Action)
    requires Safe(s) && Enabled(s, a)
    ensures Safe(Apply(s, a))
  {
    var s' := Apply(s, a);
    forall h: nat | h < |s'.holders| ensures NotAhead(s', h) { NotAheadKept(s, a, h); }
    forall h: nat, k: nat | h < |s'.holders| && k < |s'.holders| ensures Alone(s', h, k) { AloneKept(s, a, h, k); }
    forall i: nat | i < |s'.slots| ensures Owned(s', i) { OwnedKept(s, a, i); }
  }

  predicate Runnable(s: State, run: seq<Action>)
    decreases |run|
  {
    run == [] || (Enabled(s, run[0]) && Runnable(Apply(s, run[0]), run[1..]))
  }

  function After(s: State, run: seq<Action>): State
    requires Runnable(s, run)
    decreases |run|
  {
    if run == [] then s else After(Apply(s, run[0]), run[1..])
  }

  /** Over every run from idle slots without leases. */
  lemma {:induction false} EveryRunIsSafe(s: State, run: seq<Action>)
    requires Safe(s) && Runnable(s, run)
    ensures Safe(After(s, run))
    decreases |run|
  {
    if run != [] {
      StepKeepsSafe(s, run[0]);
      EveryRunIsSafe(Apply(s, run[0]), run[1..]);
    }
  }

  lemma {:induction false} IdleIsSafe(s: State)
    requires s.holders == [] && forall i | 0 <= i < |s.slots| :: !s.slots[i].busy
    ensures Safe(s)
  {
  }

  /** Letting go of one lease, current or stale, never takes a busy slot from another holder; a stale
      lease frees nothing, and letting go twice is letting go once. */
  lemma {:induction false} ReleaseTakesOnlyItsOwn(s: State, h: nat, k: nat, i: nat)
    requires Safe(s) && h < |s.holders| && k != h
    requires i < |s.slots| && s.slots[i].busy && Names(s, k, i, s.slots[i].generation)
    ensures var s' := Apply(s, Release(h));
      && s'.slots[i] == s.slots[i] && Names(s', k, i, s'.slots[i].generation)
      && Apply(s', Release(h)) == s'
      && (Holds(s, h) && !IsCurrent(s.slots, s.holders[h].value) ==> s'.slots == s.slots)
  {
    assert Alone(s, h, k);
  }

  /** Operations that are about holder `h`, or about everybody; assigning a lease to itself is about nobody. */
  predicate Concerns(a: Action, h: nat) {
    match a
    case Recycle(_) => false
    case Admit(_) => false
    case MoveConstruct(from) => from == h
    case MoveAssign(to, from) => to != from && (to == h || from == h)
    case Release(k) => k == h
    case Advance(k) => k == h
    case AdvanceFails(k) => k == h
    case Invalidate(k, _) => k == h
    case ResetForRetry(_) => true
  }

  /** No operation of others takes a slot from its holder, or changes it. */
  lemma {:induction false} HeldStaysHeld(s: State, a: Action, h: nat)
    requires Safe(s) && Enabled(s, a) && !Concerns(a, h)
    requires Holds(s, h) && IsCurrent(s.slots, s.holders[h].value) && s.slots[s.holders[h].value.slot].busy
    ensures var (t, i) := (Apply(s, a), s.holders[h].value.slot);
      h < |t.holders| && t.holders[h] == s.holders[h] && i < |t.slots| && t.slots[i] == s.slots[i]
  {
    match a {
      case MoveAssign(to, _) => assert Alone(s, h, to);
      case Release(k) => assert Alone(s, h, k);
      case Advance(k) => assert Alone(s, h, k);
      case AdvanceFails(k) => assert Alone(s, h, k);
      case Invalidate(k, _) => assert Alone(s, h, k);
      case _ =>
    }
  }

  /** A lease that was moved from frees nothing; the one it was moved to frees the slot. */
  lemma {:induction false} MovedFromFreesNothing(s: State, h: nat)
    requires Safe(s) && Holds(s, h) && IsCurrent(s.slots, s.holders[h].value)
    ensures var moved := Apply(s, MoveConstruct(h));
      && Apply(moved, Release(h)).slots == s.slots
      && !Apply(moved, Release(|s.holders|)).slots[s.holders[h].value.slot].busy
  {
  }

  /** How a failing request gives its slot back: invalidate, then release. */
  lemma {:induction false} FailureGivesTheSlotBack(s: State, h: nat)
    requires Safe(s) && Holds(s, h) && IsCurrent(s.slots, s.holders[h].value)
    ensures var i := s.holders[h].value.slot; var s' := Apply(Apply(s, Invalidate(h, false)), Release(h));
      && s'.holders[h].None? && s'.slots == s.slots[i := Renewed(s.slots[i], false)]
  {
  }

  /** The executor's own release, whenever it agrees with the coordinator on the slot. */
  lemma {:induction false} ExecutorLetsGo(slots: seq<Slot>, c: seq<Entry>, l: Lease)
    requires |slots| == |c| && (l.slot < |c| ==> slots[l.slot].generation == c[l.slot].generation)
    ensures Released(slots, c, l.slot, l.generation) == LetGo(slots, Some(l))
  {
  }

  // ---------------------------------------------------------------- the lease object

  class CacheLease {
    var owner: CacheExecutor?
    var slot: nat
    var generation: nat

    constructor (owner: CacheExecutor, slot: nat, generation: nat)
      ensures this.owner == owner && Held() == Some(Lease(slot, generation))
    {
      this.owner, this.slot, this.generation := owner, slot, generation;
    }

    /** Takes over what another lease holds. */
    constructor Move(other: CacheLease)
      modifies other
      ensures Held() == old(other.Held()) && owner == old(other.owner) && other.Held() == None
    {
      owner, slot, generation := other.owner, other.slot, other.generation;
      new;
      other.owner := null;
    }

    function Held(): Option<Lease>
      reads this
    {
      if owner == null then None else Some(Lease(slot, generation))
    }

    /** Executor and coordinator know the slot in the same generation, as the mirror says. */
    predicate Sided()
      reads this, owner
    {
      owner != null ==> owner.Shaped() && (slot < |owner.slots| ==> owner.slots[slot].generation == owner.coordinator[slot].generation)
    }

    method Assign(other: CacheLease)
      requires Sided()
      modifies this, other, owner
      ensures this == other ==> Held() == old(Held()) && owner == old(owner)
      ensures this != other ==> Held() == old(other.Held()) && owner == old(other.owner) && other.Held() == None
      ensures old(owner) != null ==>
        old(owner).slots == if this == other then old(owner.slots) else LetGo(old(owner.slots), old(Held()))
    {
      if this != other {
        Release();
        owner, slot, generation := other.owner, other.slot, other.generation;
        other.owner := null;
      }
    }

    /** Lets go, once. */
    method Release()
      requires Sided()
      modifies this`owner, owner
      ensures Held() == None
      ensures old(owner) != null ==>
        && old(owner).slots == LetGo(old(owner.slots), old(Held()))
        && old(owner).physical == old(owner.physical) && (old(owner.Mirror()) ==> old(owner).Mirror())
    {
      if owner == null { return; }
      var executor := owner;
      owner := null;
      ExecutorLetsGo(executor.slots, executor.coordinator, Lease(slot, generation));
      executor.Release(slot, generation);
    }

    /** A lease that succeeds stays current; one that fails keeps the generation that the slot had. */
    method Advance(tokens: seq<Token>, refused: bool) returns (ok: bool)
      requires owner != null && owner.Shaped() && slot < |owner.slots|
      modifies this`generation, owner
      ensures owner.Shaped() && |owner.slots| == old(|owner.slots|) && KeptBut(old(owner.Snapshot()), owner.Snapshot(), slot)
      ensures generation == if ok then old(generation) + 1 else old(generation)
      ensures ok ==> IsCurrent(owner.slots, Lease(slot, generation)) && owner.slots[slot].tokens == old(owner.slots[slot].tokens) + tokens
      ensures !ok && old(owner.coordinator[slot]).generation == generation ==> !IsCurrent(owner.slots, Lease(slot, generation))
    {
      var next := owner.Advance(slot, generation, tokens, refused);
      if next.Some? { generation := next.value; }
      return next.Some?;
    }

    method InvalidateAndClear(keepBusy: bool) returns (ok: bool)
      requires owner != null ==> owner.Shaped() && slot < |owner.slots|
      modifies this`generation, owner
      ensures owner == null ==> ok && Held() == old(Held())
      ensures owner != null ==>
        && owner.Shaped() && |owner.slots| == old(|owner.slots|) && KeptBut(old(owner.Snapshot()), owner.Snapshot(), slot)
        && generation == (if ok then old(generation) + 1 else old(generation)) && owner.physical[slot] == []
        && (ok ==> owner.slots[slot] == Slot(generation, keepBusy, false, []))
    {
      if owner == null { return true; }
      var next := owner.InvalidateAndClear(slot, generation, keepBusy);
      if next.Some? { generation := next.value; }
      return next.Some?;
    }

    method ResetForRetry()
      requires owner != null && owner.Shaped() && slot < |owner.slots|
      modifies this`generation, owner
      ensures owner.Mirror() && |owner.slots| == old(|owner.slots|) && IsCurrent(owner.slots, Lease(slot, generation))
      ensures forall i | 0 <= i < |owner.slots| :: owner.slots[i].busy <==> i == slot
    {
      generation := owner.ResetForRetry(slot);
    }
  }
}

/** The cache executor: its own copy of every slot must agree both with the physical sequences of the
    model and with the coordinator, on success and on failure. The coordinator's planning is left
    open: `Planned` and `AnchorPlanned` say what a plan promises. */
module CacheExecutors {

  import opened Common

  type Token = int

  datatype Holding = Empty | Session | Anchor

  /** A slot as the executor sees it. */
  datatype Slot = Slot(generation: nat, busy: bool, isAnchor: bool, tokens: seq<Token>)

  /** The same slot as the coordinator sees it. */
  datatype Entry = Entry(generation: nat, busy: bool, state: Holding, tokens: seq<Token>)

  datatype Operation = Fresh | Continue | Branch | Restore | Noop

  datatype Plan = Plan(operation: Operation, target: nat, targetGeneration: nat,
                       donor: Option<nat>, donorGeneration: nat, reuse: nat, victims: seq<nat>)

  /** Executor, coordinator and physical sequence agree on what one slot holds. The coordinator may know less
      than there is, never something else, and it knows everything about a busy slot. */
  predicate Tallies(s: Slot, e: Entry, p: seq<Token>) {
    && s.busy == e.busy
    && s.tokens == p
    && (e.tokens == p || (e.tokens == [] && !e.busy))
    && (e.busy ==> e.state != Anchor)
  }

  /** And on its generation. */
  predicate Agrees(s: Slot, e: Entry, p: seq<Token>) { s.generation == e.generation && Tallies(s, e, p) }

  predicate AgreesAt(slots: seq<Slot>, c: seq<Entry>, physical: seq<seq<Token>>, i: nat) {
    i < |slots| && i < |c| && i < |physical| && Agrees(slots[i], c[i], physical[i])
  }

  predicate AllAgree(slots: seq<Slot>, c: seq<Entry>, physical: seq<seq<Token>>) {
    |slots| == |c| == |physical| && forall i: nat | i < |slots| :: AgreesAt(slots, c, physical, i)
  }

  /** Everything the executor can see or change. */
  datatype View = View(slots: seq<Slot>, coordinator: seq<Entry>, physical: seq<seq<Token>>)

  predicate SameSize(v: View, w: View) {
    |v.slots| == |v.coordinator| == |v.physical| == |w.slots| == |w.coordinator| == |w.physical|
  }

  predicate TalliesAt(v: View, i: nat) {
    i < |v.slots| && i < |v.coordinator| && i < |v.physical| && Tallies(v.slots[i], v.coordinator[i], v.physical[i])
  }

  predicate AllTally(v: View) {
    |v.slots| == |v.coordinator| == |v.physical| && forall i: nat | i < |v.slots| :: TalliesAt(v, i)
  }

  /** Except perhaps on slot `but`, whatever was agreed still is, and no idle slot has become busy. */
  predicate NoWorse(v: View, w: View, but: nat) {
    && SameSize(v, w) && (forall i: nat | i < |v.slots| && i != but && TalliesAt(v, i) :: TalliesAt(w, i))
    && forall i | 0 <= i < |v.slots| && i != but && !v.coordinator[i].busy :: !w.coordinator[i].busy
  }

  /** Nothing has changed except perhaps slot `but`. */
  predicate KeptBut(v: View, w: View, but: nat) {
    && SameSize(v, w)
    && forall i | 0 <= i < |v.slots| && i != but ::
      w.slots[i] == v.slots[i] && w.coordinator[i] == v.coordinator[i] && w.physical[i] == v.physical[i]
  }

  /** No busy slot has changed, except perhaps `but`. */
  predicate BusyKept(v: View, w: View, but: nat) {
    && SameSize(v, w)
    && forall i | 0 <= i < |v.slots| && i != but && v.coordinator[i].busy ::
      w.slots[i] == v.slots[i] && w.coordinator[i] == v.coordinator[i] && w.physical[i] == v.physical[i]
  }

  /** Except perhaps on slot `but`, no busy slot has changed and whatever was agreed still is. */
  predicate Harmless(v: View, w: View, but: nat) { BusyKept(v, w, but) && NoWorse(v, w, but) }

  lemma {:induction false} KeptIsHarmless(v: View, w: View, but: nat)
    requires KeptBut(v, w, but)
    ensures Harmless(v, w, but)
  {
  }

  lemma {:induction false} HarmlessTwice(u: View, v: View, w: View, but: nat)
    requires Harmless(u, v, but) && Harmless(v, w, but)
    ensures Harmless(u, w, but)
  {
  }

  // ---------------------------------------------------------------- the coordinator

  function Invalidated(e: Entry): Entry { Entry(e.generation + 1, false, Empty, []) }

  function AfterCommit(c: seq<Entry>, p: Plan, resident: seq<Token>, state: Holding): seq<Entry> {
    seq(|c|, i requires 0 <= i < |c| =>
      if i == p.target then Entry(c[i].generation + 1, state.Session?, state, resident)
      else if i in p.victims then Invalidated(c[i]) else c[i])
  }

  /** Everything that the plan allowed to be overwritten is invalidated. */
  function AfterAbort(c: seq<Entry>, p: Plan): seq<Entry> {
    seq(|c|, i requires 0 <= i < |c| => if i == p.target || i in p.victims then Invalidated(c[i]) else c[i])
  }

  function AfterReset(c: seq<Entry>): seq<Entry> {
    seq(|c|, i requires 0 <= i < |c| => Invalidated(c[i]))
  }

  predicate Writable(c: seq<Entry>, i: nat) { i < |c| && !c[i].busy }

  /** The donor holds the first `reuse` tokens of the request. */
  predicate SharesPrefix(e: Entry, tokens: seq<Token>, reuse: nat) {
    reuse <= |e.tokens| && reuse <= |tokens| && e.tokens[..reuse] == tokens[..reuse]
  }

  /** What every plan promises: fresh generations, and nothing busy and no donor is overwritten. */
  predicate PlanSound(c: seq<Entry>, tokens: seq<Token>, p: Plan) {
    && tokens != []
    && Writable(c, p.target) && p.targetGeneration == c[p.target].generation
    && (p.donor.Some? ==>
      && p.donor.value < |c| && p.donorGeneration == c[p.donor.value].generation
      && c[p.donor.value].tokens != [] && SharesPrefix(c[p.donor.value], tokens, p.reuse))
    && forall k | 0 <= k < |p.victims| :: Writable(c, p.victims[k]) && p.donor != Some(p.victims[k])
  }

  /** A plan for a session request. */
  predicate Planned(c: seq<Entry>, tokens: seq<Token>, p: Plan) {
    && PlanSound(c, tokens, p)
    && match p.operation
       case Fresh => p.donor.None? && p.reuse == 0
       case Continue => p.donor == Some(p.target) && c[p.target].state != Anchor
       case Branch => p.donor.Some? && p.donor.value != p.target && c[p.donor.value].state != Anchor
       case Restore => p.donor.Some? && p.donor.value != p.target && c[p.donor.value].state == Anchor
       case Noop => false
  }

  /** A plan for an anchor: either it exists already or it gets a slot of its own. */
  predicate AnchorPlanned(c: seq<Entry>, tokens: seq<Token>, p: Plan) {
    if p.operation.Noop? then p.target < |c| && c[p.target].state == Anchor && c[p.target].tokens == tokens
    else Writable(c, p.target) && forall k | 0 <= k < |p.victims| :: Writable(c, p.victims[k])
  }

  // ---------------------------------------------------------------- the executor

  datatype Admission = Admitted(slot: nat, generation: nat, resident: nat) | Refused

  datatype AnchorResult = Materialized(slot: nat, generation: nat) | AlreadyThere | NoAnchor

  /** Which physical steps fail; a whole sequence can always be removed. */
  datatype Fault = Fault(trim: bool, copy: bool, hook: bool)

  /** How much of the request a plan leaves in the target: all that it reuses, but for one token that is left to
      ingest; a restore that would leave none restores nothing. */
  function Resident(p: Plan, tokens: seq<Token>): (n: nat)
    ensures tokens != [] ==> n < |tokens|
    ensures n <= p.reuse
    ensures p.operation.Continue? || p.operation.Branch? ==> n == p.reuse || n + 1 == |tokens| || tokens == []
    ensures p.operation.Restore? && p.reuse < |tokens| ==> n == p.reuse
    ensures p.operation.Fresh? || (p.operation.Restore? && p.reuse >= |tokens|) ==> n == 0
  {
    if tokens == [] || p.operation.Fresh? || p.operation.Noop? then 0
    else if p.operation.Restore? then (if p.reuse < |tokens| then p.reuse else 0)
    else if p.reuse < |tokens| then p.reuse else |tokens| - 1
  }

  /** The physical steps of a plan succeed: a continuation needs something to continue and a trim that works; a copy
      has to work, and in a hybrid model, whose states cannot be cut, it has to be a copy of the whole donor. */
  predicate Feasible(p: Plan, tokens: seq<Token>, hybrid: bool, fault: Fault, slots: seq<Slot>) {
    var resident := Resident(p, tokens);
    match p.operation
    case Fresh => true
    case Continue => resident > 0 && !fault.trim
    case Branch => resident == 0 || CopyWorks(p, resident, hybrid, fault, slots)
    case Restore => p.reuse >= |tokens| || CopyWorks(p, resident, hybrid, fault, slots)
    case Noop => false
  }

  predicate CopyWorks(p: Plan, resident: nat, hybrid: bool, fault: Fault, slots: seq<Slot>) {
    !fault.copy && p.donor.Some? && p.donor.value < |slots| && (hybrid ==> resident == |slots[p.donor.value].tokens|)
  }

  /** A restore that copies more than it reuses. */
  predicate PartialRestore(c: seq<Entry>, tokens: seq<Token>, p: Plan) {
    && p.operation.Restore? && p.reuse < |tokens|
    && p.donor.Some? && p.donor.value < |c| && p.reuse != |c[p.donor.value].tokens|
  }

  /** The same prompt twice, with an anchor for all of it: since one token is always left for the
      logits, the anchor is restored for one token less than it holds. */
  lemma {:induction false} RepeatedPromptRestoresPartially(tokens: seq<Token>) returns (c: seq<Entry>, p: Plan)
    requires |tokens| >= 2
    ensures |c| == 2 && c[0] == Entry(1, false, Anchor, tokens)
    ensures Planned(c, tokens, p) && p.operation.Restore? && p.reuse == |tokens| - 1
    ensures PartialRestore(c, tokens, p)
  {
    c := [Entry(1, false, Anchor, tokens), Entry(1, false, Empty, [])];
    p := Plan(Restore, 1, 1, Some(0), 1, |tokens| - 1, []);
  }

  /** A slot that both sides know and a plan that evicts it for an anchor elsewhere: if the copy then
      fails, the slot's generation is stale. */
  lemma {:induction false} EvictedSlotGoesStale(tokens: seq<Token>) returns (c: seq<Entry>, p: Plan)
    ensures AnchorPlanned(c, tokens, p) && !OnlyTarget(p)
    ensures AllAgree([Slot(1, false, false, []), Slot(1, false, false, tokens)], c, [[], tokens])
  {
    c := [Entry(1, false, Empty, []), Entry(1, false, Session, tokens)];
    p := Plan(Fresh, 0, 1, None, 0, 0, [1]);
    assert p.victims[0] == 1;
    var (slots, physical) := ([Slot(1, false, false, []), Slot(1, false, false, tokens)], [[], tokens]);
    forall i: nat | i < 2 ensures AgreesAt(slots, c, physical, i) {
      assert i == 0 || i == 1;
    }
  }

  function Take(s: seq<Token>, n: nat): seq<Token> { if n <= |s| then s[..n] else s }

  /** Slots that a plan neither writes nor evicts are as they were, but perhaps for a refreshed generation. */
  predicate BesideKept(v: View, w: View, p: Plan) {
    && SameSize(v, w)
    && forall i: nat | i < |v.slots| && i != p.target && i !in p.victims ::
      && w.coordinator[i] == v.coordinator[i] && w.physical[i] == v.physical[i]
      && w.slots[i].tokens == v.slots[i].tokens && w.slots[i].busy == v.slots[i].busy
      && w.slots[i].isAnchor == v.slots[i].isAnchor
      && (w.slots[i].generation == w.coordinator[i].generation || w.slots[i].generation == v.slots[i].generation)
  }

  /** The executor knows every slot in the coordinator's generation. */
  predicate Refreshed(v: View) {
    |v.slots| == |v.coordinator| && forall i | 0 <= i < |v.slots| :: v.slots[i].generation == v.coordinator[i].generation
  }

  /** The slot is leased: busy for both, in this generation and with these tokens. */
  predicate Occupied(v: View, i: nat, generation: nat, tokens: seq<Token>) {
    && i < |v.slots| && i < |v.coordinator| && v.coordinator[i] == Entry(generation, true, Session, tokens)
    && v.slots[i].busy && v.slots[i].generation == generation && v.slots[i].tokens == tokens
  }

  /** If only this leased slot may be wrong, it decides. */
  lemma {:induction false} TalliesByLease(v: View, w: View, i: nat, generation: nat, tokens: seq<Token>)
    requires AllTally(v) && NoWorse(v, w, i) && Occupied(w, i, generation, tokens)
    ensures AllTally(w) <==> w.physical[i] == tokens
  {
    forall k: nat | k < |v.slots| && k != i ensures TalliesAt(w, k) { assert TalliesAt(v, k); }
    if AllTally(w) { assert TalliesAt(w, i); }
    if w.physical[i] == tokens { assert TalliesAt(w, i); }
  }

  lemma {:induction false} SameIsNoWorse(v: View, but: nat)
    requires |v.slots| == |v.coordinator| == |v.physical|
    ensures NoWorse(v, v, but)
  {
  }

  lemma {:induction false} AllTallyStill(v: View, w: View)
    requires AllTally(v) && NoWorse(v, w, |v.slots|)
    ensures AllTally(w)
  {
    forall k: nat | k < |v.slots| ensures TalliesAt(w, k) { assert TalliesAt(v, k); }
  }

  predicate VictimsFree(c: seq<Entry>, p: Plan) {
    forall i | 0 <= i < |c| && i != p.target && i in p.victims :: !c[i].busy
  }

  lemma {:induction false} AbortedAgrees(slots: seq<Slot>, c: seq<Entry>, physical: seq<seq<Token>>,
                                         slots': seq<Slot>, physical': seq<seq<Token>>, p: Plan)
    requires |slots| == |c| == |physical| == |slots'| == |physical'| && p.target < |c|
    requires forall k | 0 <= k < |p.victims| :: Writable(c, p.victims[k])
    requires forall i | 0 <= i < |c| :: slots'[i].generation == AfterAbort(c, p)[i].generation
    requires forall i | 0 <= i < |c| && i != p.target ::
      && slots'[i].tokens == slots[i].tokens && slots'[i].busy == slots[i].busy && slots'[i].isAnchor == slots[i].isAnchor
      && physical'[i] == physical[i]
    requires slots'[p.target].tokens == [] && !slots'[p.target].busy && physical'[p.target] == []
    ensures AllAgree(slots, c, physical) ==> AllAgree(slots', AfterAbort(c, p), physical')
    ensures NoWorse(View(slots, c, physical), View(slots', AfterAbort(c, p), physical'), |c|)
    ensures BesideKept(View(slots, c, physical), View(slots', AfterAbort(c, p), physical'), p)
  {
    var (v, w) := (View(slots, c, physical), View(slots', AfterAbort(c, p), physical'));
    forall i: nat | i < |v.slots| && TalliesAt(v, i) ensures TalliesAt(w, i) {
    }
    if AllAgree(slots, c, physical) {
      forall i: nat | i < |c| ensures AgreesAt(slots', AfterAbort(c, p), physical', i) {
        assert AgreesAt(slots, c, physical, i);
        assert TalliesAt(v, i);
      }
    }
  }

  /** A plan that is refused because it is stale leaves all contents alone. */
  lemma {:induction false} RefusedTallies(v: View, w: View, p: Plan)
    requires SameSize(v, w) && p.target < |v.slots| && !v.coordinator[p.target].busy
    requires forall k | 0 <= k < |p.victims| :: Writable(v.coordinator, p.victims[k])
    requires w.coordinator == AfterAbort(v.coordinator, p) && w.physical == v.physical
    requires forall i | 0 <= i < |v.slots| :: w.slots[i] == v.slots[i].(generation := w.coordinator[i].generation)
    ensures NoWorse(v, w, |v.slots|) && BesideKept(v, w, p) && Refreshed(w)
  {
    forall i: nat | i < |v.slots| && TalliesAt(v, i) ensures TalliesAt(w, i) {
    }
  }

  lemma {:induction false} CommittedAgrees(slots: seq<Slot>, c: seq<Entry>, physical: seq<seq<Token>>,
                                           slots': seq<Slot>, physical': seq<seq<Token>>, p: Plan, resident: seq<Token>)
    requires |slots| == |c| == |physical| == |slots'| == |physical'| && p.target < |c|
    requires forall i | 0 <= i < |c| && i != p.target && i !in p.victims ::
      slots'[i] == slots[i] && physical'[i] == physical[i]
    requires forall i | 0 <= i < |c| && i != p.target && i in p.victims ::
      slots'[i] == Slot(c[i].generation + 1, false, false, []) && physical'[i] == []
    requires slots'[p.target].tokens == resident && slots'[p.target].busy
    requires slots'[p.target].generation == c[p.target].generation + 1
    ensures var c' := AfterCommit(c, p, resident, Session);
      AllAgree(slots, c, physical) ==> (AllAgree(slots', c', physical') <==> physical'[p.target] == resident)
    ensures NoWorse(View(slots, c, physical), View(slots', AfterCommit(c, p, resident, Session), physical'), p.target)
    ensures BesideKept(View(slots, c, physical), View(slots', AfterCommit(c, p, resident, Session), physical'), p)
  {
    var c' := AfterCommit(c, p, resident, Session);
    var (v, w) := (View(slots, c, physical), View(slots', c', physical'));
    forall i: nat | i < |v.slots| && i != p.target && TalliesAt(v, i) ensures TalliesAt(w, i) {
    }
    if AllAgree(slots, c, physical) && physical'[p.target] == resident {
      forall i: nat | i < |c| ensures AgreesAt(slots', c', physical', i) {
        assert AgreesAt(slots, c, physical, i);
      }
    }
    if AllAgree(slots', c', physical') { assert AgreesAt(slots', c', physical', p.target); }
  }

  predicate OnlyTarget(p: Plan) { forall k | 0 <= k < |p.victims| :: p.victims[k] == p.target }

  lemma {:induction false} FailedAnchorAgrees(slots: seq<Slot>, c: seq<Entry>, physical: seq<seq<Token>>,
                                              slots': seq<Slot>, physical': seq<seq<Token>>, p: Plan)
    requires |slots| == |c| == |physical| && p.target < |c|
    requires forall k | 0 <= k < |p.victims| :: Writable(c, p.victims[k])
    requires physical' == physical[p.target := []]
    requires slots' == slots[p.target := Slot(c[p.target].generation + 1, false, false, [])]
    ensures AllAgree(slots, c, physical) ==> (AllAgree(slots', AfterAbort(c, p), physical') <==> OnlyTarget(p))
    ensures NoWorse(View(slots, c, physical), View(slots', AfterAbort(c, p), physical'), |c|)
  {
    var c' := AfterAbort(c, p);
    var (v, w) := (View(slots, c, physical), View(slots', c', physical'));
    forall i: nat | i < |v.slots| && TalliesAt(v, i) ensures TalliesAt(w, i) {
    }
    if AllAgree(slots, c, physical) {
      if OnlyTarget(p) {
        forall i: nat | i < |c| ensures AgreesAt(slots', c', physical', i) {
          assert AgreesAt(slots, c, physical, i);
        }
      } else {
        var k :| 0 <= k < |p.victims| && p.victims[k] != p.target;
        assert AgreesAt(slots, c, physical, p.victims[k]);
        assert !AgreesAt(slots', c', physical', p.victims[k]);
      }
    }
  }

  lemma {:induction false} AnchoredAgrees(slots: seq<Slot>, c: seq<Entry>, physical: seq<seq<Token>>,
                                          slots': seq<Slot>, physical': seq<seq<Token>>, p: Plan, tokens: seq<Token>)
    requires |slots| == |c| == |physical| == |slots'| == |physical'| && Writable(c, p.target)
    requires forall i | 0 <= i < |c| && i != p.target && i !in p.victims ::
      slots'[i] == slots[i] && physical'[i] == physical[i]
    requires forall i | 0 <= i < |c| && i != p.target && i in p.victims ::
      slots'[i] == Slot(c[i].generation + 1, false, false, []) && physical'[i] == []
    requires slots'[p.target] == Slot(c[p.target].generation + 1, slots[p.target].busy, true, tokens)
    ensures AllAgree(slots, c, physical) ==>
      (AllAgree(slots', AfterCommit(c, p, tokens, Anchor), physical') <==> physical'[p.target] == tokens)
    ensures physical'[p.target] == tokens ==>
      NoWorse(View(slots, c, physical), View(slots', AfterCommit(c, p, tokens, Anchor), physical'), |c|)
  {
    var c' := AfterCommit(c, p, tokens, Anchor);
    var (v, w) := (View(slots, c, physical), View(slots', c', physical'));
    forall i: nat | i < |v.slots| && (i == p.target ==> physical'[p.target] == tokens) && TalliesAt(v, i) ensures TalliesAt(w, i) {
    }
    if AllAgree(slots, c, physical) {
      assert AgreesAt(slots, c, physical, p.target);
      if physical'[p.target] == tokens {
        forall i: nat | i < |c| ensures AgreesAt(slots', c', physical', i) {
          assert AgreesAt(slots, c, physical, i);
        }
      }
      if AllAgree(slots', c', physical') { assert AgreesAt(slots', c', physical', p.target); }
    }
  }

  /** Executor and coordinator know every busy slot in the same generation. */
  predicate BusyCurrent(v: View) {
    && |v.slots| == |v.coordinator|
    && forall i | 0 <= i < |v.slots| && v.coordinator[i].busy :: v.slots[i].generation == v.coordinator[i].generation
  }

  /** No busy slot that both know in the same generation has changed. */
  predicate CurrentKept(v: View, w: View) {
    && SameSize(v, w)
    && forall i | 0 <= i < |v.slots| && v.coordinator[i].busy && v.slots[i].generation == v.coordinator[i].generation ::
      w.slots[i] == v.slots[i] && w.coordinator[i] == v.coordinator[i] && w.physical[i] == v.physical[i]
  }

  /** An admission leaves every busy slot alone that both know in the same generation. */
  lemma {:induction false} AdmissionKeepsBusy(v: View, w: View, tokens: seq<Token>, p: Plan)
    requires Planned(v.coordinator, tokens, p) && BesideKept(v, w, p)
    ensures CurrentKept(v, w) && (BusyCurrent(v) ==> BusyKept(v, w, |v.slots|))
  {
  }

  /** When only one slot has changed, that slot decides. */
  lemma {:induction false} ChangedSlot(slots: seq<Slot>, c: seq<Entry>, physical: seq<seq<Token>>,
                                       slots': seq<Slot>, c': seq<Entry>, physical': seq<seq<Token>>, slot: nat)
    requires |slots| == |c| == |physical| == |slots'| == |c'| == |physical'| && slot < |c|
    requires forall i | 0 <= i < |c| && i != slot :: slots'[i] == slots[i] && c'[i] == c[i] && physical'[i] == physical[i]
    ensures AllAgree(slots, c, physical) ==> Agrees(slots[slot], c[slot], physical[slot])
    ensures AllAgree(slots, c, physical) ==>
      (AllAgree(slots', c', physical') <==> Agrees(slots'[slot], c'[slot], physical'[slot]))
  {
    if AllAgree(slots, c, physical) {
      assert AgreesAt(slots, c, physical, slot);
      if Agrees(slots'[slot], c'[slot], physical'[slot]) {
        forall i: nat | i < |c| ensures AgreesAt(slots', c', physical', i) {
          assert AgreesAt(slots, c, physical, i);
        }
      }
      if AllAgree(slots', c', physical') { assert AgreesAt(slots', c', physical', slot); }
    }
  }

  /** The slots after a release. */
  function Released(slots: seq<Slot>, c: seq<Entry>, slot: nat, generation: nat): seq<Slot>
    requires |slots| == |c|
  {
    if slot < |slots| && slots[slot].busy && slots[slot].generation == generation == c[slot].generation
    then slots[slot := slots[slot].(busy := false)]
    else slots
  }

  class CacheExecutor {
    var slots: seq<Slot>
    var coordinator: seq<Entry>
    var physical: seq<seq<Token>>

    constructor (count: nat)
      requires count > 0
      ensures Mirror() && |slots| == count && forall i | 0 <= i < count :: physical[i] == [] && !coordinator[i].busy
    {
      slots := seq(count, i => Slot(1, false, false, []));
      coordinator := seq(count, i => Entry(1, false, Empty, []));
      physical := seq(count, i => []);
    }

    predicate Shaped()
      reads this
    {
      |slots| == |coordinator| == |physical|
    }

    predicate Mirror()
      reads this
    {
      AllAgree(slots, coordinator, physical)
    }

    function Snapshot(): View
      reads this
    {
      View(slots, coordinator, physical)
    }

    /** Everybody agrees on the slots that a plan reads and writes. */
    predicate Touched(p: Plan)
      reads this
    {
      && AgreesAt(slots, coordinator, physical, p.target)
      && (p.donor.Some? ==> AgreesAt(slots, coordinator, physical, p.donor.value))
    }

    lemma {:induction false} MirrorTouches(tokens: seq<Token>, p: Plan)
      requires Mirror() && Planned(coordinator, tokens, p)
      ensures Touched(p) && BusyCurrent(Snapshot())
    {
      forall i | 0 <= i < |slots| ensures slots[i].generation == coordinator[i].generation {
        assert AgreesAt(slots, coordinator, physical, i);
      }
    }

    lemma {:induction false} MirrorIsNoWorse(v: View, but: nat)
      requires Mirror() && SameSize(v, Snapshot()) && forall i | 0 <= i < |slots| && i != but :: !slots[i].busy
      ensures NoWorse(v, Snapshot(), but)
    {
      MirrorTallies();
      forall i: nat | i < |slots| && i != but ensures TalliesAt(Snapshot(), i) && !coordinator[i].busy {
        assert AgreesAt(slots, coordinator, physical, i);
      }
    }

    lemma {:induction false} MirrorTallies()
      requires Mirror()
      ensures AllTally(Snapshot())
    {
      forall i: nat | i < |slots| ensures TalliesAt(Snapshot(), i) { assert AgreesAt(slots, coordinator, physical, i); }
    }

    method RefreshGenerations()
      requires Shaped()
      modifies this`slots
      ensures |slots| == old(|slots|)
      ensures forall i | 0 <= i < |slots| :: slots[i] == old(slots[i]).(generation := coordinator[i].generation)
    {
      var n := 0;
      while n < |slots|
        invariant 0 <= n <= |slots| == old(|slots|)
        invariant forall i | 0 <= i < n :: slots[i] == old(slots[i]).(generation := coordinator[i].generation)
        invariant forall i | n <= i < |slots| :: slots[i] == old(slots[i])
      {
        slots := slots[n := slots[n].(generation := coordinator[n].generation)];
        n := n + 1;
      }
    }

    method Remove(i: nat)
      requires i < |physical|
      modifies this`physical
      ensures physical == old(physical)[i := []]
    {
      physical := physical[i := []];
    }

    /** Removes the sequences that a committed plan evicts. */
    method EvictVictims(p: Plan)
      requires Shaped() && forall k | 0 <= k < |p.victims| :: p.victims[k] < |slots|
      modifies this`slots, this`physical
      ensures |slots| == old(|slots|) && |physical| == old(|physical|)
      ensures forall i | 0 <= i < |slots| && (i == p.target || i !in p.victims) ::
        slots[i] == old(slots[i]) && physical[i] == old(physical[i])
      ensures forall i | 0 <= i < |slots| && i != p.target && i in p.victims ::
        slots[i] == Slot(coordinator[i].generation, false, false, []) && physical[i] == []
    {
      var n := 0;
      while n < |p.victims|
        invariant 0 <= n <= |p.victims|
        invariant |slots| == old(|slots|) && |physical| == old(|physical|)
        invariant forall i | 0 <= i < |slots| && (i == p.target || i !in p.victims[..n]) ::
          slots[i] == old(slots[i]) && physical[i] == old(physical[i])
        invariant forall i | 0 <= i < |slots| && i != p.target && i in p.victims[..n] ::
          slots[i] == Slot(coordinator[i].generation, false, false, []) && physical[i] == []
      {
        var v := p.victims[n];
        assert p.victims[..n + 1] == p.victims[..n] + [v];
        if v != p.target {
          Remove(v);
          slots := slots[v := Slot(coordinator[v].generation, false, false, [])];
        }
        n := n + 1;
      }
      assert p.victims[..n] == p.victims;
    }

    /** Puts the reused tokens into the target, or reports that the backend could not. */
    method Materialize(tokens: seq<Token>, hybrid: bool, p: Plan, fault: Fault) returns (done: bool)
      requires Shaped() && Planned(coordinator, tokens, p)
      modifies this`physical, this`slots
      ensures |slots| == old(|slots|) && |physical| == old(|physical|)
      ensures forall i | 0 <= i < |slots| && i != p.target ::
        slots[i] == old(slots[i]) && physical[i] == old(physical[i])
      ensures slots[p.target] ==
        if p.operation.Continue? then old(slots[p.target]) else old(slots[p.target]).(tokens := [], isAnchor := false)
      ensures done <==> Feasible(p, tokens, hybrid, fault, old(slots))
      ensures done && PartialRestore(coordinator, tokens, p) ==> physical[p.target] == old(physical)[p.donor.value]
      ensures done && old(Touched(p)) && hybrid ==> !PartialRestore(coordinator, tokens, p)
      ensures done && old(Touched(p)) ==>
        (physical[p.target] == tokens[..Resident(p, tokens)] <==> !PartialRestore(coordinator, tokens, p))
    {
      ghost var before := physical;
      if !p.operation.Continue? {
        Remove(p.target);
        slots := slots[p.target := slots[p.target].(tokens := [], isAnchor := false)];
      }
      var resident := Resident(p, tokens);
      match p.operation {
        case Fresh =>
        case Continue =>
          if resident == 0 || fault.trim { return false; }
          physical := physical[p.target := Take(physical[p.target], resident)];
        case Branch =>
          var donor := p.donor.value;
          if resident > 0 {
            if fault.copy { return false; }
            if hybrid {
              if resident != |slots[donor].tokens| { return false; }
              physical := physical[p.target := physical[donor]];
            } else {
              physical := physical[p.target := Take(physical[donor], resident)];
            }
          }
        case Restore =>
          var donor := p.donor.value;
          if p.reuse < |tokens| {
            if fault.copy || (hybrid && resident != |slots[donor].tokens|) { return false; }
            physical := physical[p.target := physical[donor]];
          }
      }
      done := true;
      ghost var d := if p.donor.Some? then p.donor.value else p.target;
      if p.donor.Some? && old(Touched(p)) {
        assert AgreesAt(old(slots), coordinator, before, d);
      }
    }

    /** The physical target is cleared and the coordinator's view taken over. */
    method FailAdmission(p: Plan)
      requires Shaped() && p.target < |slots|
      modifies this
      ensures Shaped() && |slots| == old(|slots|) && coordinator == AfterAbort(old(coordinator), p)
      ensures physical == old(physical)[p.target := []]
      ensures forall i | 0 <= i < |slots| :: slots[i].generation == coordinator[i].generation
      ensures forall i | 0 <= i < |slots| && i != p.target ::
        slots[i] == old(slots[i]).(generation := coordinator[i].generation)
      ensures slots[p.target] == Slot(coordinator[p.target].generation, false, false, []) && Refreshed(Snapshot())
    {
      coordinator := AfterAbort(coordinator, p);
      Remove(p.target);
      RefreshGenerations();
      slots := slots[p.target := Slot(slots[p.target].generation, false, false, [])];
    }

    predicate Current(p: Plan)
      requires Shaped() && p.target < |slots| && (p.donor.Some? ==> p.donor.value < |slots|)
      reads this
    {
      && p.targetGeneration == slots[p.target].generation
      && (p.donor.Some? ==> p.donorGeneration == slots[p.donor.value].generation)
    }

    /** A plan that is not stale reads and writes slots on which everybody agrees, if all contents tally. */
    lemma {:induction false} TalliesTouch(tokens: seq<Token>, p: Plan)
      requires AllTally(Snapshot()) && Planned(coordinator, tokens, p) && Current(p)
      ensures Touched(p)
    {
      assert TalliesAt(Snapshot(), p.target);
      if p.donor.Some? { assert TalliesAt(Snapshot(), p.donor.value); }
    }

    lemma {:induction false} CurrentByMirror(tokens: seq<Token>, p: Plan)
      requires Shaped() && Planned(coordinator, tokens, p)
      ensures Mirror() ==> Current(p)
    {
      if Mirror() {
        assert AgreesAt(slots, coordinator, physical, p.target);
        if p.donor.Some? { assert AgreesAt(slots, coordinator, physical, p.donor.value); }
      }
    }

    /** The plan is aborted and the coordinator's generations are taken over; nothing else has happened. */
    method RefuseStale(p: Plan)
      requires Shaped() && Writable(coordinator, p.target)
      requires forall k | 0 <= k < |p.victims| :: Writable(coordinator, p.victims[k])
      modifies this`coordinator, this`slots
      ensures Shaped() && |slots| == old(|slots|) && BesideKept(old(Snapshot()), Snapshot(), p)
      ensures NoWorse(old(Snapshot()), Snapshot(), |slots|) && Refreshed(Snapshot())
    {
      coordinator := AfterAbort(coordinator, p);
      RefreshGenerations();
      RefusedTallies(old(Snapshot()), Snapshot(), p);
    }

    /** The plan is carried out: the target is leased, the victims go. */
    method Commit(p: Plan, resident: seq<Token>)
      requires Shaped() && p.target < |slots| && forall k | 0 <= k < |p.victims| :: p.victims[k] < |slots|
      modifies this
      ensures Shaped() && |slots| == old(|slots|) && coordinator == AfterCommit(old(coordinator), p, resident, Session)
      ensures physical[p.target] == old(physical)[p.target]
      ensures slots[p.target] == old(slots)[p.target].(tokens := resident, busy := true,
        generation := old(coordinator)[p.target].generation + 1)
      ensures forall i | 0 <= i < |slots| && i != p.target && i !in p.victims ::
        slots[i] == old(slots[i]) && physical[i] == old(physical[i])
      ensures forall i | 0 <= i < |slots| && i != p.target && i in p.victims ::
        slots[i] == Slot(old(coordinator)[i].generation + 1, false, false, []) && physical[i] == []
    {
      coordinator := AfterCommit(coordinator, p, resident, Session);
      slots := slots[p.target := slots[p.target].(tokens := resident, generation := coordinator[p.target].generation,
        busy := true)];
      EvictVictims(p);
    }

    /** A plan that is not stale is carried out, or given up with the target empty. */
    method CarryOut(tokens: seq<Token>, hybrid: bool, p: Plan, fault: Fault) returns (r: Admission)
      requires Shaped() && Planned(coordinator, tokens, p)
      modifies this
      ensures Shaped() && |slots| == old(|slots|) && BesideKept(old(Snapshot()), Snapshot(), p)
      ensures old(Touched(p)) && old(Mirror()) ==>
        (Mirror() <==> !(r.Admitted? && PartialRestore(old(coordinator), tokens, p)))
      ensures r.Admitted? <==> Feasible(p, tokens, hybrid, fault, old(slots)) && !fault.hook
      ensures r.Refused? ==> Refreshed(Snapshot()) && NoWorse(old(Snapshot()), Snapshot(), |slots|)
      ensures r.Admitted? ==> r.slot == p.target && r.resident == Resident(p, tokens)
      ensures r.Admitted? && PartialRestore(old(coordinator), tokens, p) ==>
        physical[p.target] == old(physical)[p.donor.value]
      ensures r.Admitted? ==> r.generation == old(coordinator)[p.target].generation + 1
      ensures !slots[p.target].isAnchor || (r.Admitted? && p.operation.Continue? && old(slots[p.target]).isAnchor)
      ensures r.Admitted? ==> Occupied(Snapshot(), p.target, r.generation, tokens[..r.resident])
      ensures r.Admitted? ==> NoWorse(old(Snapshot()), Snapshot(), p.target) && VictimsFree(coordinator, p)
      ensures r.Admitted? && old(Touched(p)) ==>
        (physical[p.target] == tokens[..r.resident] <==> !PartialRestore(old(coordinator), tokens, p))
      ensures r.Admitted? && old(Touched(p)) && hybrid ==> !PartialRestore(old(coordinator), tokens, p)
    {
      hide AgreesAt, NoWorse, BesideKept, SharesPrefix, PartialRestore, Feasible;
      var done := Materialize(tokens, hybrid, p, fault);
      if !done || fault.hook {
        FailAdmission(p);
        AbortedAgrees(old(slots), old(coordinator), old(physical), slots, physical, p);
        return Refused;
      }
      var resident := Resident(p, tokens);
      Commit(p, tokens[..resident]);
      CommittedAgrees(old(slots), old(coordinator), old(physical), slots, physical, p, tokens[..resident]);
      r := Admitted(p.target, slots[p.target].generation, resident);
    }

    /** A plan is carried out exactly if it is not stale and its physical steps succeed. Then all that it reuses is
        in the target, but for one token at least that is left to ingest. Whether it succeeds or not, an admission
        keeps the mirror, unless it restores less than the whole donor. */
    method Admit(tokens: seq<Token>, hybrid: bool, plan: Option<Plan>, fault: Fault) returns (r: Admission)
      requires Shaped() && (plan.Some? ==> Planned(coordinator, tokens, plan.value))
      modifies this
      ensures Shaped() && |slots| == old(|slots|)
      ensures r.Admitted? ==> plan.Some? && r.slot == plan.value.target && r.resident < |tokens|
      ensures old(Mirror()) ==>
        (Mirror() <==> !(r.Admitted? && PartialRestore(old(coordinator), tokens, plan.value)))
      ensures plan.None? ==> r.Refused? && Snapshot() == old(Snapshot())
      ensures r.Admitted? <==>
        && plan.Some? && old(Current(plan.value)) && !fault.hook
        && Feasible(plan.value, tokens, hybrid, fault, old(slots))
      ensures r.Admitted? && (plan.value.operation.Continue? || plan.value.operation.Branch?) ==>
        r.resident == if plan.value.reuse < |tokens| then plan.value.reuse else |tokens| - 1
      ensures r.Admitted? && plan.value.operation.Restore? ==>
        r.resident == if plan.value.reuse < |tokens| then plan.value.reuse else 0
      ensures r.Admitted? && PartialRestore(old(coordinator), tokens, plan.value) ==>
        physical[r.slot] == old(physical)[plan.value.donor.value]
      ensures plan.Some? && !old(Current(plan.value)) ==> r.Refused? && physical == old(physical)
      ensures plan.Some? ==> BesideKept(old(Snapshot()), Snapshot(), plan.value)
      ensures r.Refused? && plan.Some? ==> Refreshed(Snapshot()) && NoWorse(old(Snapshot()), Snapshot(), |slots|)
      ensures r.Admitted? ==> r.resident == Resident(plan.value, tokens)
      ensures r.Admitted? ==> r.generation == old(coordinator[r.slot]).generation + 1
      ensures r.Admitted? && !plan.value.operation.Continue? ==> !slots[r.slot].isAnchor
      ensures r.Admitted? ==> Occupied(Snapshot(), r.slot, r.generation, tokens[..r.resident])
      ensures r.Admitted? ==> NoWorse(old(Snapshot()), Snapshot(), r.slot) && VictimsFree(coordinator, plan.value)
      ensures r.Admitted? && hybrid && old(Mirror()) ==> Mirror()
      ensures r.Admitted? && old(Touched(plan.value)) ==>
        (physical[r.slot] == tokens[..r.resident] <==> !PartialRestore(old(coordinator), tokens, plan.value))
      ensures r.Admitted? && old(Touched(plan.value)) && hybrid ==> !PartialRestore(old(coordinator), tokens, plan.value)
    {
      hide AgreesAt, AllAgree, NoWorse, BesideKept, Refreshed, SharesPrefix, PartialRestore, Occupied, VictimsFree, Feasible;
      if plan.None? { return Refused; }
      var p := plan.value;
      CurrentByMirror(tokens, p);
      if Mirror() { MirrorTouches(tokens, p); }
      if Current(p) { r := CarryOut(tokens, hybrid, p, fault); } else { RefuseStale(p); r := Refused; }
    }

    /** Copies the source, whole, into an anchor of its own. When the copy fails, only the target's
        generation is taken over again, although the coordinator has invalidated every victim. */
    method CreateAnchor(tokens: seq<Token>, source: nat, plan: Option<Plan>, copyFails: bool) returns (r: AnchorResult)
      requires Shaped() && source < |slots| && (plan.Some? ==> AnchorPlanned(coordinator, tokens, plan.value))
      modifies this
      ensures Shaped() && |slots| == old(|slots|)
      ensures r.Materialized? ==> plan.Some? && !plan.value.operation.Noop? && r.slot == plan.value.target
      ensures r.Materialized? ==>
        r.generation == slots[r.slot].generation && slots[r.slot].tokens == tokens && slots[r.slot].isAnchor
      ensures r.Materialized? ==> physical[r.slot] == (if source == r.slot then [] else old(physical)[source])
      ensures r.AlreadyThere? ==> plan.Some? && plan.value.operation.Noop?
      ensures r.Materialized? ==> r.generation == old(coordinator)[r.slot].generation + 1
      ensures r.Materialized? ==> coordinator == AfterCommit(old(coordinator), plan.value, tokens, Anchor)
      ensures r.NoAnchor? && plan.Some? ==> coordinator == AfterAbort(old(coordinator), plan.value)
      ensures plan.None? || plan.value.operation.Noop? ==> !r.Materialized? && Snapshot() == old(Snapshot())
      ensures BusyKept(old(Snapshot()), Snapshot(), |slots|)
      ensures old(coordinator[source]).busy && old(physical)[source] == tokens ==>
        NoWorse(old(Snapshot()), Snapshot(), |slots|)
      ensures old(Mirror()) && r.Materialized? ==> (Mirror() <==> physical[r.slot] == tokens)
      ensures old(Mirror()) && r.AlreadyThere? ==> Mirror()
      ensures old(Mirror()) && r.NoAnchor? && plan.Some? ==> (Mirror() <==> OnlyTarget(plan.value))
      ensures r.NoAnchor? <==> plan.None? || (copyFails && !plan.value.operation.Noop?)
    {
      if plan.None? { return NoAnchor; }
      var p := plan.value;
      if p.operation.Noop? { return AlreadyThere; }
      Remove(p.target);
      if copyFails {
        coordinator := AfterAbort(coordinator, p);
        Remove(p.target);
        slots := slots[p.target := Slot(coordinator[p.target].generation, false, false, [])];
        FailedAnchorAgrees(old(slots), old(coordinator), old(physical), slots, physical, p);
        return NoAnchor;
      }
      physical := physical[p.target := physical[source]];
      coordinator := AfterCommit(coordinator, p, tokens, Anchor);
      slots := slots[p.target := slots[p.target].(tokens := tokens, isAnchor := true,
        generation := coordinator[p.target].generation)];
      EvictVictims(p);
      AnchoredAgrees(old(slots), old(coordinator), old(physical), slots, physical, p, tokens);
      return Materialized(p.target, slots[p.target].generation);
    }

    /** Removes the sequence first and asks the coordinator afterwards; a stale generation is an error
        only then. */
    method InvalidateAndClear(slot: nat, generation: nat, keepBusy: bool) returns (r: Option<nat>)
      requires Shaped()
      modifies this
      ensures Shaped() && |slots| == old(|slots|)
      ensures KeptBut(old(Snapshot()), Snapshot(), slot)
      ensures slot < |slots| ==> physical[slot] == []
      ensures slot < |slots| ==> (r.Some? <==> old(coordinator[slot]).generation == generation)
      ensures slot < |slots| && r.Some? ==> r.value == generation + 1 && slots[slot] == Slot(r.value, keepBusy, false, [])
      ensures slot < |slots| && r.Some? ==> coordinator[slot] == Entry(r.value, keepBusy, Empty, [])
      ensures slot < |slots| && r.None? ==>
        slots[slot] == old(slots[slot]) && coordinator[slot] == old(coordinator[slot])
      ensures old(Mirror()) ==>
        (Mirror() <==> slot >= |slots| || r.Some? || old(physical)[slot] == [])
    {
      if slot >= |slots| { return Some(0); }
      Remove(slot);
      if coordinator[slot].generation != generation {
        ChangedSlot(old(slots), coordinator, old(physical), slots, coordinator, physical, slot);
        return None;
      }
      coordinator := coordinator[slot := Invalidated(coordinator[slot])];
      slots := slots[slot := Slot(generation + 1, false, false, [])];
      if keepBusy {
        coordinator := coordinator[slot := coordinator[slot].(busy := true)];
        slots := slots[slot := slots[slot].(busy := true)];
      }
      ChangedSlot(old(slots), old(coordinator), old(physical), slots, coordinator, physical, slot);
      return Some(generation + 1);
    }

    /** Publishes tokens that the model has taken in. If the coordinator refuses, the slot is
        invalidated. */
    method Advance(slot: nat, generation: nat, tokens: seq<Token>, fails: bool) returns (r: Option<nat>)
      requires Shaped() && slot < |slots|
      modifies this
      ensures Shaped() && |slots| == old(|slots|)
      ensures KeptBut(old(Snapshot()), Snapshot(), slot)
      ensures r.Some? <==>
        !fails && old(coordinator[slot]).generation == generation && old(coordinator[slot]).state != Anchor
      ensures r.Some? ==> r.value == generation + 1 && physical == old(physical)
      ensures r.Some? ==>
        slots[slot] == old(slots[slot]).(generation := r.value, busy := true, tokens := old(slots[slot]).tokens + tokens)
      ensures r.Some? ==> coordinator[slot] == Entry(r.value, true, Session, old(coordinator[slot]).tokens + tokens)
      ensures r.None? ==> physical[slot] == []
      ensures r.None? && old(coordinator[slot]).generation == generation ==>
        slots[slot] == Slot(generation + 1, false, false, []) && coordinator[slot] == Entry(generation + 1, false, Empty, [])
      ensures r.None? && old(coordinator[slot]).generation != generation ==>
        slots[slot] == old(slots[slot]) && coordinator[slot] == old(coordinator[slot])
      ensures r.None? && old(Mirror()) ==>
        (Mirror() <==> old(coordinator[slot]).generation == generation || old(physical)[slot] == [])
    {
      var e := coordinator[slot];
      if fails || e.generation != generation || e.state == Anchor {
        var ignored := InvalidateAndClear(slot, generation, false);
        return None;
      }
      coordinator := coordinator[slot := Entry(generation + 1, true, Session, e.tokens + tokens)];
      slots := slots[slot := slots[slot].(generation := generation + 1, busy := true, tokens := slots[slot].tokens + tokens)];
      return Some(generation + 1);
    }

    /** Frees the slot that a lease names; a lease with an old generation frees nothing. */
    method Release(slot: nat, generation: nat)
      requires Shaped()
      modifies this
      ensures Shaped() && |slots| == old(|slots|) && physical == old(physical)
      ensures KeptBut(old(Snapshot()), Snapshot(), slot)
      ensures slots == Released(old(slots), old(coordinator), slot, generation)
      ensures slot < |slots| && slots[slot] == old(slots[slot]) ==> coordinator[slot] == old(coordinator[slot])
      ensures slot < |slots| && slots[slot] != old(slots[slot]) ==>
        coordinator[slot] == old(coordinator[slot]).(busy := false)
      ensures old(Mirror()) ==> Mirror()
    {
      if slot >= |slots| { return; }
      if !slots[slot].busy || slots[slot].generation != generation { return; }
      if coordinator[slot].generation != generation { return; }
      coordinator := coordinator[slot := coordinator[slot].(busy := false)];
      slots := slots[slot := slots[slot].(busy := false)];
      ChangedSlot(old(slots), old(coordinator), physical, slots, coordinator, physical, slot);
    }

    method Reset()
      requires Shaped()
      modifies this
      ensures Mirror() && |slots| == old(|slots|) && coordinator == AfterReset(old(coordinator))
      ensures forall i | 0 <= i < |slots| :: physical[i] == [] && slots[i] == Slot(coordinator[i].generation, false, false, [])
    {
      coordinator := AfterReset(coordinator);
      physical := seq(|physical|, i => []);
      var n := 0;
      while n < |slots|
        invariant 0 <= n <= |slots| == |physical| == old(|slots|)
        invariant coordinator == AfterReset(old(coordinator)) && forall i | 0 <= i < |physical| :: physical[i] == []
        invariant forall i | 0 <= i < n :: slots[i] == Slot(coordinator[i].generation, false, false, [])
      {
        slots := slots[n := Slot(coordinator[n].generation, false, false, [])];
        n := n + 1;
      }
    }

    method ResetForRetry(active: nat) returns (generation: nat)
      requires Shaped() && active < |slots|
      modifies this
      ensures Mirror() && |slots| == old(|slots|)
      ensures forall i | 0 <= i < |slots| :: physical[i] == [] && (slots[i].busy <==> i == active)
      ensures generation == slots[active].generation == old(coordinator[active]).generation + 1
    {
      Reset();
      label cleared:
      generation := coordinator[active].generation;
      assert AgreesAt(slots, coordinator, physical, active);
      coordinator := coordinator[active := coordinator[active].(busy := true)];
      slots := slots[active := slots[active].(generation := generation, busy := true)];
      ChangedSlot(old@cleared(slots), old@cleared(coordinator), physical, slots, coordinator, physical, active);
    }
  }
}

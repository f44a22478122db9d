/** Plan handles: move-only variables, each of which commits, aborts or cleans up what it holds. A handle
    that is destroyed must not be used again. Whether the coordinator refuses a call is arbitrary. */
module PlanHandles {

  import opened Common

  /** `holders[h]` is the handle that variable `h` holds. The other sequences are history: the handles that
      were destroyed, and what the coordinator was told of them. */
  datatype State = State(issued: nat, holders: seq<Option<nat>>, destroyed: seq<nat>, committed: seq<nat>, aborted: seq<nat>)

  /** `Issue(true)` is a plan whose wrapper could not be built: its handle is destroyed at once, and
      destroying a plan that is not settled aborts it. */
  datatype Action =
    | Issue(fails: bool)
    | MoveConstruct(from: nat)
    | MoveAssign(to: nat, from: nat, refused: bool)
    | Commit(h: nat, refused: bool)
    | Abort(h: nat, refused: bool)
    | Cleanup(h: nat, refused: bool)

  predicate Enabled(s: State, a: Action) {
    match a
    case Issue(_) => true
    case MoveConstruct(from) => from < |s.holders|
    case MoveAssign(to, from, _) => to < |s.holders| && from < |s.holders|
    case Commit(h, _) => h < |s.holders|
    case Abort(h, _) => h < |s.holders|
    case Cleanup(h, _) => h < |s.holders|
  }

  /** Gives up the handle of a variable, without fail. */
  function CleanedUp(s: State, h: nat, refused: bool): State
    requires h < |s.holders|
  {
    if s.holders[h].None? then s
    else
      var p := s.holders[h].value;
      s.(holders := s.holders[h := None], destroyed := s.destroyed + [p],
        aborted := if refused then s.aborted else s.aborted + [p])
  }

  function Step(s: State, a: Action): State
    requires Enabled(s, a)
  {
    match a
    case Issue(fails) =>
      if fails then s.(issued := s.issued + 1, destroyed := s.destroyed + [s.issued], aborted := s.aborted + [s.issued])
      else s.(issued := s.issued + 1, holders := s.holders + [Some(s.issued)])
    case MoveConstruct(from) => s.(holders := s.holders[from := None] + [s.holders[from]])
    case MoveAssign(to, from, refused) =>
      if to == from then s
      else
        var t := CleanedUp(s, to, refused);
        t.(holders := t.holders[to := t.holders[from]][from := None])
    case Commit(h, refused) =>
      if refused || s.holders[h].None? then s
      else
        var p := s.holders[h].value;
        s.(holders := s.holders[h := None], destroyed := s.destroyed + [p], committed := s.committed + [p])
    case Abort(h, refused) => if refused then s else CleanedUp(s, h, false)
    case Cleanup(h, refused) => CleanedUp(s, h, refused)
  }

  // ---------------------------------------------------------------- counting

  function Held(holders: seq<Option<nat>>, p: nat): nat {
    if holders == [] then 0 else Held(holders[..|holders| - 1], p) + One(holders[|holders| - 1], p)
  }

  function One(x: Option<nat>, p: nat): nat { if x == Some(p) then 1 else 0 }

  lemma {:induction false} HeldMore(holders: seq<Option<nat>>, x: Option<nat>, p: nat)
    ensures Held(holders + [x], p) == Held(holders, p) + One(x, p)
  {
    assert (holders + [x])[..|holders|] == holders;
  }

  lemma {:induction false} HeldUpdate(holders: seq<Option<nat>>, h: nat, x: Option<nat>, p: nat)
    requires h < |holders|
    ensures Held(holders[h := x], p) + One(holders[h], p) == Held(holders, p) + One(x, p)
  {
    var n := |holders| - 1;
    if h == n {
      assert holders[h := x][..n] == holders[..n];
    } else {
      HeldUpdate(holders[..n], h, x, p);
      assert holders[h := x][..n] == holders[..n][h := x];
    }
  }

  // ---------------------------------------------------------------- what always holds

  /** Every handle that was issued is held once or was destroyed once; and only what is destroyed has been
      settled, one way. */
  predicate SoundFor(s: State, p: nat) {
    && Held(s.holders, p) + Times(s.destroyed, p) == (if p < s.issued then 1 else 0)
    && Times(s.committed, p) + Times(s.aborted, p) <= Times(s.destroyed, p)
  }

  ghost predicate Sound(s: State) { forall p :: SoundFor(s, p) }

  lemma {:induction false} CleanedUpIsSound(s: State, h: nat, refused: bool, p: nat)
    requires SoundFor(s, p) && h < |s.holders|
    ensures SoundFor(CleanedUp(s, h, refused), p) && CleanedUp(s, h, refused).holders[h].None?
  {
    if s.holders[h].Some? {
      var q := s.holders[h].value;
      HeldUpdate(s.holders, h, None, p);
      TimesMore(s.destroyed, q, p);
      TimesMore(s.aborted, q, p);
    }
  }

  lemma {:induction false} MoveIsSound(s: State, from: nat, p: nat)
    requires SoundFor(s, p) && from < |s.holders|
    ensures SoundFor(Step(s, MoveConstruct(from)), p)
  {
    HeldUpdate(s.holders, from, None, p);
    HeldMore(s.holders[from := None], s.holders[from], p);
  }

  lemma {:induction false} AssignIsSound(s: State, to: nat, from: nat, refused: bool, p: nat)
    requires SoundFor(s, p) && to < |s.holders| && from < |s.holders|
    ensures SoundFor(Step(s, MoveAssign(to, from, refused)), p)
  {
    if to != from {
      var t := CleanedUp(s, to, refused);
      CleanedUpIsSound(s, to, refused, p);
      HeldUpdate(t.holders, to, t.holders[from], p);
      HeldUpdate(t.holders[to := t.holders[from]], from, None, p);
    }
  }

  lemma {:induction false} CommitIsSound(s: State, h: nat, refused: bool, p: nat)
    requires SoundFor(s, p) && h < |s.holders|
    ensures SoundFor(Step(s, Commit(h, refused)), p)
  {
    if s.holders[h].Some? {
      HeldUpdate(s.holders, h, None, p);
      TimesMore(s.destroyed, s.holders[h].value, p);
      TimesMore(s.committed, s.holders[h].value, p);
    }
  }

  lemma {:induction false} IssueIsSound(s: State, fails: bool, p: nat)
    requires SoundFor(s, p)
    ensures SoundFor(Step(s, Issue(fails)), p)
  {
    TimesMore(s.destroyed, s.issued, p);
    TimesMore(s.aborted, s.issued, p);
    HeldMore(s.holders, Some(s.issued), p);
  }

  lemma {:induction false} StepIsSound(s: State, a: Action, p: nat)
    requires SoundFor(s, p) && Enabled(s, a)
    ensures SoundFor(Step(s, a), p)
  {
    match a
    case Issue(fails) => IssueIsSound(s, fails, p);
    case MoveConstruct(from) => MoveIsSound(s, from, p);
    case MoveAssign(to, from, refused) => AssignIsSound(s, to, from, refused, p);
    case Commit(h, refused) => CommitIsSound(s, h, refused, p);
    case Abort(h, _) => CleanedUpIsSound(s, h, false, p);
    case Cleanup(h, refused) => CleanedUpIsSound(s, h, refused, p);
  }

  predicate Runnable(s: State, run: seq<Action>)
    decreases |run|
  {
    run == [] || (Enabled(s, run[0]) && Runnable(Step(s, run[0]), run[1..]))
  }

  function After(s: State, run: seq<Action>): State
    requires Runnable(s, run)
    decreases |run|
  {
    if run == [] then s else After(Step(s, run[0]), run[1..])
  }

  lemma {:induction false} EveryRunIsSound(s: State, run: seq<Action>)
    requires Sound(s) && Runnable(s, run)
    ensures Sound(After(s, run))
    decreases |run|
  {
    if run != [] {
      forall p ensures SoundFor(Step(s, run[0]), p) {
        assert SoundFor(s, p);
        StepIsSound(s, run[0], p);
      }
      EveryRunIsSound(Step(s, run[0]), run[1..]);
    }
  }

  lemma {:induction false} HeldAt(holders: seq<Option<nat>>, h: nat, p: nat)
    requires h < |holders| && holders[h] == Some(p)
    ensures Held(holders, p) > 0
  {
    HeldUpdate(holders, h, None, p);
  }

  const NOTHING := State(0, [], [], [], [])

  /** Over every run from nothing: a handle is destroyed at most once and settled at most once, one way, and
      none is lost; and what a variable still holds is neither destroyed nor settled, and held by that
      variable alone. */
  lemma {:induction false} ConsumedAtMostOnce(run: seq<Action>, h: nat, k: nat, p: nat)
    requires Runnable(NOTHING, run)
    ensures var s := After(NOTHING, run);
      && Times(s.destroyed, p) <= 1 && Times(s.committed, p) + Times(s.aborted, p) <= 1
      && (p < s.issued ==> Held(s.holders, p) + Times(s.destroyed, p) == 1)
      && (h < |s.holders| && s.holders[h] == Some(p) ==>
        && Times(s.destroyed, p) == Times(s.committed, p) == Times(s.aborted, p) == 0
        && (k < |s.holders| && k != h ==> s.holders[k] != Some(p)))
  {
    EveryRunIsSound(NOTHING, run);
    var s := After(NOTHING, run);
    assert SoundFor(s, p);
    if h < |s.holders| && s.holders[h] == Some(p) {
      HeldAt(s.holders, h, p);
      if k < |s.holders| && k != h && s.holders[k] == Some(p) {
        HeldUpdate(s.holders, h, None, p);
        HeldAt(s.holders[h := None], k, p);
      }
    }
  }

  /** The executor's use of a plan: commit it; whether that works or not, try to abort it; then leave its
      scope. The coordinator is told of exactly one outcome if any call gets through, a commit counts even
      though an abort is tried after it, and the handle is always destroyed. */
  lemma {:induction false} ExecutorSettlesItsPlan(s: State, refuseCommit: bool, refuseAbort: bool, refuseLast: bool)
    requires Sound(s)
    ensures var h := |s.holders|;
      var use := [Issue(false), Commit(h, refuseCommit), Abort(h, refuseAbort), Cleanup(h, refuseLast)];
      && Runnable(s, use)
      && var (t, p) := (After(s, use), s.issued);
        && t.holders == s.holders + [None] && t.destroyed == s.destroyed + [p]
        && t.committed == (if refuseCommit then s.committed else s.committed + [p])
        && t.aborted == (if refuseCommit && !(refuseAbort && refuseLast) then s.aborted + [p] else s.aborted)
  {
    var h := |s.holders|;
    var a := Step(s, Issue(false));
    var b := Step(a, Commit(h, refuseCommit));
    var c := Step(b, Abort(h, refuseAbort));
    var d := Step(c, Cleanup(h, refuseLast));
    assert d.holders == s.holders + [None];
    RunOfFour(s, Issue(false), Commit(h, refuseCommit), Abort(h, refuseAbort), Cleanup(h, refuseLast));
  }

  lemma {:induction false} RunOfFour(s: State, a: Action, b: Action, c: Action, d: Action)
    requires Enabled(s, a) && Enabled(Step(s, a), b) && Enabled(Step(Step(s, a), b), c)
    requires Enabled(Step(Step(Step(s, a), b), c), d)
    ensures Runnable(s, [a, b, c, d]) && After(s, [a, b, c, d]) == Step(Step(Step(Step(s, a), b), c), d)
  {
    var (s1, s2) := (Step(s, a), Step(Step(s, a), b));
    var s3 := Step(s2, c);
    assert [a, b, c, d][1..] == [b, c, d] && [b, c, d][1..] == [c, d] && [c, d][1..] == [d] && [d][1..] == [];
    assert Runnable(Step(s3, d), []);
    assert Runnable(s3, [d]) && After(s3, [d]) == Step(s3, d);
    assert Runnable(s2, [c, d]) && After(s2, [c, d]) == Step(s3, d);
    assert Runnable(s1, [b, c, d]) && After(s1, [b, c, d]) == Step(s3, d);
  }

  // ---------------------------------------------------------------- the wrapper

  /** What the coordinator has been told. */
  class Ledger {
    var destroyed: seq<nat>
    var committed: seq<nat>
    var aborted: seq<nat>

    constructor ()
      ensures destroyed == [] && committed == [] && aborted == []
    {
      destroyed, committed, aborted := [], [], [];
    }
  }

  /** These handles and what the ledger says, as a state. */
  function Seen(handles: seq<Option<nat>>, destroyed: seq<nat>, committed: seq<nat>, aborted: seq<nat>): State {
    State(0, handles, destroyed, committed, aborted)
  }

  class PlanHandle {
    var handle: Option<nat>

    constructor (p: nat)
      ensures handle == Some(p)
    {
      handle := Some(p);
    }

    constructor Move(other: PlanHandle)
      modifies other
      ensures other.handle == None && handle == old(other.handle)
    {
      handle := other.handle;
      new;
      other.handle := None;
    }

    method CommitPlan(refused: bool, ledger: Ledger) returns (ok: bool)
      modifies this, ledger
      ensures Seen([handle], ledger.destroyed, ledger.committed, ledger.aborted)
        == Step(Seen([old(handle)], old(ledger.destroyed), old(ledger.committed), old(ledger.aborted)), Commit(0, refused))
      ensures ok <==> old(handle).Some? && !refused
    {
      assert [old(handle)][0 := None] == [None];
      if handle.None? || refused { return false; }
      ledger.committed := ledger.committed + [handle.value];
      ledger.destroyed := ledger.destroyed + [handle.value];
      handle := None;
      return true;
    }

    method AbortPlan(refused: bool, ledger: Ledger) returns (ok: bool)
      modifies this, ledger
      ensures Seen([handle], ledger.destroyed, ledger.committed, ledger.aborted)
        == Step(Seen([old(handle)], old(ledger.destroyed), old(ledger.committed), old(ledger.aborted)), Abort(0, refused))
      ensures ok <==> old(handle).None? || !refused
    {
      assert [old(handle)][0 := None] == [None];
      if handle.None? { return true; }
      if refused { return false; }
      ledger.aborted := ledger.aborted + [handle.value];
      ledger.destroyed := ledger.destroyed + [handle.value];
      handle := None;
      return true;
    }

    method CleanUp(refused: bool, ledger: Ledger)
      modifies this, ledger
      ensures handle == None && Seen([handle], ledger.destroyed, ledger.committed, ledger.aborted)
        == Step(Seen([old(handle)], old(ledger.destroyed), old(ledger.committed), old(ledger.aborted)), Cleanup(0, refused))
    {
      assert [old(handle)][0 := None] == [None];
      if handle.None? { return; }
      if !refused { ledger.aborted := ledger.aborted + [handle.value]; }
      ledger.destroyed := ledger.destroyed + [handle.value];
      handle := None;
    }

    method Assign(other: PlanHandle, refused: bool, ledger: Ledger)
      modifies this, other, ledger
      ensures this == other ==>
        && handle == old(handle) && ledger.destroyed == old(ledger.destroyed)
        && ledger.committed == old(ledger.committed) && ledger.aborted == old(ledger.aborted)
      ensures this != other ==>
        Seen([handle, other.handle], ledger.destroyed, ledger.committed, ledger.aborted)
        == Step(Seen([old(handle), old(other.handle)], old(ledger.destroyed), old(ledger.committed), old(ledger.aborted)),
          MoveAssign(0, 1, refused))
    {
      if this != other {
        ghost var (mine, theirs) := (handle, other.handle);
        assert [mine, theirs][0 := None] == [None, theirs];
        CleanUp(refused, ledger);
        handle := other.handle;
        other.handle := None;
        assert [None, theirs][0 := theirs][1 := None] == [theirs, None] == [mine, theirs][0 := theirs][1 := None];
      }
    }
  }
}

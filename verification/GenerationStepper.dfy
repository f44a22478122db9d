/** One step over all active requests: `GenerationStepper::step` fills one decode batch within its
    budgets, decodes it, and falls back to one request at a time when the batch fails. Whether a
    decode succeeds is arbitrary; a failed one leaves the physical sequences alone. */
module Stepper {

  import opened Common
  import opened Utf8
  import opened CacheExecutors
  import opened Requests

  // ---------------------------------------------------------------- the model's sequences

  /** The physical sequences after the model has taken in a batch. */
  function Fed(physical: seq<seq<Token>>, batch: seq<Contribution>): (r: seq<seq<Token>>)
    ensures |r| == |physical|
  {
    if batch == [] then physical
    else
      var (before, c) := (Fed(physical, batch[..|batch| - 1]), batch[|batch| - 1]);
      if c.slot < |before| then before[c.slot := before[c.slot] + [c.token]] else before
  }

  /** Every entry of the batch continues its sequence: it is placed at its very end. */
  predicate Consecutive(physical: seq<seq<Token>>, batch: seq<Contribution>) {
    batch == [] ||
    (var (init, c) := (batch[..|batch| - 1], batch[|batch| - 1]);
     Consecutive(physical, init) && c.slot < |physical| && c.position == |Fed(physical, init)[c.slot]|)
  }

  lemma {:induction false} FedOneMore(physical: seq<seq<Token>>, batch: seq<Contribution>, c: Contribution)
    requires Consecutive(physical, batch) && c.slot < |physical| && c.position == |Fed(physical, batch)[c.slot]|
    ensures Consecutive(physical, batch + [c])
    ensures Fed(physical, batch + [c]) == Fed(physical, batch)[c.slot := Fed(physical, batch)[c.slot] + [c.token]]
  {
    assert (batch + [c])[..|batch|] == batch;
  }

  lemma {:induction false} FedSegment(physical: seq<seq<Token>>, batch: seq<Contribution>, p: Progress, slot: nat, k: nat)
    requires Contributing(p) && k <= p.stepTokens && slot < |physical|
    requires Consecutive(physical, batch) && |Fed(physical, batch)[slot]| == p.nPos
    requires |Segment(p, slot)| == |Input(p)| == p.stepTokens
    ensures var (before, longer) := (Fed(physical, batch), batch + Segment(p, slot)[..k]);
      && Consecutive(physical, longer)
      && Fed(physical, longer) == before[slot := before[slot] + Input(p)[..k]]
  {
    var (before, seg, input) := (Fed(physical, batch), Segment(p, slot), Input(p));
    if k == 0 {
      assert batch + seg[..0] == batch;
      assert before[slot] + input[..0] == before[slot];
    } else {
      FedSegment(physical, batch, p, slot, k - 1);
      SegmentMeans(p, slot, k - 1);
      LastOfTake(batch, seg, k);
      LastOfTake(before[slot], input, k);
      var shorter := batch + seg[..k - 1];
      FedOneMore(physical, shorter, seg[k - 1]);
      UpdateTwice(before, slot, before[slot] + input[..k - 1], before[slot] + input[..k]);
    }
  }

  lemma {:induction false} LastOfTake<T>(prefix: seq<T>, s: seq<T>, k: nat)
    requires 0 < k <= |s|
    ensures prefix + s[..k - 1] + [s[k - 1]] == prefix + s[..k]
  {
  }

  lemma {:induction false} UpdateTwice<T>(s: seq<T>, i: nat, x: T, y: T)
    requires i < |s|
    ensures s[i := x][i := y] == s[i := y]
  {
  }

  /** The model takes in a whole batch or, on failure, nothing. */
  method Decode(ex: CacheExecutor, batch: seq<Contribution>, ghost after: seq<seq<Token>>) returns (ok: bool)
    requires Consecutive(ex.physical, batch) && after == Fed(ex.physical, batch)
    modifies ex`physical
    ensures ex.physical == if ok then after else old(ex.physical)
  {
    ok := *;
    if ok { ex.physical := Fed(ex.physical, batch); }
  }

  // ---------------------------------------------------------------- filling the batch

  predicate Apart(rs: seq<ActiveRequest>, i: nat, j: nat) {
    i < |rs| && j < |rs| && rs[i] != rs[j] && rs[i].slot != rs[j].slot
  }

  /** Different requests on different slots. */
  predicate Distinct(rs: seq<ActiveRequest>) { forall i: nat, j: nat | i < j < |rs| :: Apart(rs, i, j) }

  function CountFrom(flags: seq<bool>, from: nat): nat
    requires from <= |flags|
    decreases |flags| - from
  {
    if from == |flags| then 0 else (if flags[from] then 1 else 0) + CountFrom(flags, from + 1)
  }

  function Quantum(priority: Priority): nat {
    match priority case Interactive => 192 case Normal => 96 case Background => 48
  }

  function PrefillCap(batchBudget: nat, sole: bool, prefillBudget: int): nat {
    if !sole && 0 < prefillBudget < batchBudget then prefillBudget else batchBudget
  }

  lemma {:induction false} FedWholeSegment(physical: seq<seq<Token>>, batch: seq<Contribution>, p: Progress, slot: nat)
    requires Contributing(p) && slot < |physical|
    requires Consecutive(physical, batch) && |Fed(physical, batch)[slot]| == p.nPos
    ensures Consecutive(physical, batch + Segment(p, slot)) && |Segment(p, slot)| == |Input(p)| == p.stepTokens
    ensures Fed(physical, batch + Segment(p, slot)) ==
      Fed(physical, batch)[slot := Fed(physical, batch)[slot] + Input(p)]
  {
    SegmentMeans(p, slot, 0);
    FedSegment(physical, batch, p, slot, p.stepTokens);
    assert Segment(p, slot)[..p.stepTokens] == Segment(p, slot) && Input(p)[..p.stepTokens] == Input(p);
  }

  /** What is left of the batch, of its prefill part, and how many runnable requests are not in it. */
  datatype Budget = Budget(left: nat, prefill: nat, runnable: nat)

  /** Whether a request gets a turn at all. */
  predicate HasTurn(b: Budget, prefilling: bool) { b.left > 0 && !(prefilling && b.prefill == 0) }

  /** How much one request may add. */
  function RequestBudget(b: Budget, priority: Priority, prefilling: bool, sole: bool, batchBudget: nat): nat {
    var quantum := if sole then batchBudget else Quantum(priority);
    var reserved := if b.runnable > 0 then b.runnable - 1 else 0;
    var free := if b.left >= reserved then b.left - reserved else 0;
    var most := if quantum < free then quantum else free;
    var own := if most < 1 then 1 else most;
    if prefilling && b.prefill < own then b.prefill else own
  }

  function Spent(b: Budget, added: nat, prefilling: bool): Budget
    requires added <= b.left && b.runnable > 0 && (prefilling ==> added <= b.prefill)
  {
    Budget(b.left - added, if prefilling then b.prefill - added else b.prefill, b.runnable - 1)
  }

  /** A turn leaves one entry for each other runnable request, if there was one for each. */
  lemma {:induction false} TurnFits(b: Budget, priority: Priority, prefilling: bool, sole: bool, batchBudget: nat, added: nat)
    requires HasTurn(b, prefilling) && b.runnable > 0 && b.left <= batchBudget
    requires 1 <= added <= RequestBudget(b, priority, prefilling, sole, batchBudget)
    ensures added <= b.left && (prefilling ==> added <= b.prefill)
    ensures b.left >= b.runnable ==> Spent(b, added, prefilling).left >= b.runnable - 1
  {
  }

  ghost function Flags(rs: seq<ActiveRequest>): (flags: seq<bool>)
    reads rs
    ensures |flags| == |rs| && forall k | 0 <= k < |rs| :: flags[k] == rs[k].terminal.Active?
  {
    seq(|rs|, k requires 0 <= k < |rs| reads rs => rs[k].terminal.Active?)
  }

  method CountRunnable(rs: seq<ActiveRequest>) returns (n: nat)
    ensures n == CountFrom(Flags(rs), 0)
  {
    n := 0;
    var k := |rs|;
    while k > 0
      invariant 0 <= k <= |rs| && n == CountFrom(Flags(rs), k)
    {
      k := k - 1;
      if rs[k].terminal.Active? { n := n + 1; }
    }
  }

  predicate Rising(picked: seq<nat>, i: nat, j: nat) { i < |picked| && j < |picked| && picked[i] < picked[j] }

  /** `cs` are the requests at the places `picked`, in order, all before place `n`. */
  predicate Picks(cs: seq<ActiveRequest>, ordered: seq<ActiveRequest>, picked: seq<nat>, n: nat) {
    && |cs| == |picked|
    && (forall k | 0 <= k < |picked| :: picked[k] < n && picked[k] < |ordered| && cs[k] == ordered[picked[k]])
    && forall i: nat, j: nat | i < j < |picked| :: Rising(picked, i, j)
  }

  lemma {:induction false} PickedAreDistinct(cs: seq<ActiveRequest>, ordered: seq<ActiveRequest>, picked: seq<nat>, n: nat)
    requires Distinct(ordered) && Picks(cs, ordered, picked, n)
    ensures Distinct(cs) && forall k | 0 <= k < |cs| :: cs[k] in ordered
    ensures forall i | 0 <= i < |ordered| && i in picked :: ordered[i] in cs
  {
    forall i: nat, j: nat | i < j < |cs| ensures Apart(cs, i, j) {
      assert Rising(picked, i, j);
      assert Apart(ordered, picked[i], picked[j]);
    }
    forall i | 0 <= i < |ordered| && i in picked ensures ordered[i] in cs {
      var k :| 0 <= k < |picked| && picked[k] == i;
      assert cs[k] == ordered[i];
    }
  }

  /** The contributors come in the order in which they were considered. */
  predicate InOrder(cs: seq<ActiveRequest>, ordered: seq<ActiveRequest>) {
    forall i, j, p, q | 0 <= i < j < |cs| && 0 <= p < |ordered| && 0 <= q < |ordered| && cs[i] == ordered[p] && cs[j] == ordered[q] ::
      p < q
  }

  lemma {:induction false} PickedInOrder(cs: seq<ActiveRequest>, ordered: seq<ActiveRequest>, picked: seq<nat>, n: nat)
    requires Distinct(ordered) && Picks(cs, ordered, picked, n)
    ensures InOrder(cs, ordered)
  {
    forall i: nat, j: nat, p: nat, q: nat
      | i < j < |cs| && p < |ordered| && q < |ordered| && cs[i] == ordered[p] && cs[j] == ordered[q]
      ensures p < q
    {
      assert Rising(picked, i, j);
      assert p == picked[i] || Apart(ordered, if p < picked[i] then p else picked[i], if p < picked[i] then picked[i] else p);
      assert q == picked[j] || Apart(ordered, if q < picked[j] then q else picked[j], if q < picked[j] then picked[j] else q);
    }
  }

  lemma {:induction false} NotPickedYet(cs: seq<ActiveRequest>, ordered: seq<ActiveRequest>, picked: seq<nat>, n: nat)
    requires Distinct(ordered) && n < |ordered| && Picks(cs, ordered, picked, n)
    ensures ordered[n] !in cs && Picks(cs + [ordered[n]], ordered, picked + [n], n + 1)
  {
    forall k | 0 <= k < |cs| ensures cs[k] != ordered[n] {
      assert Apart(ordered, picked[k], n);
    }
    forall i: nat, j: nat | i < j < |picked + [n]| ensures Rising(picked + [n], i, j) {
      assert j < |picked| ==> Rising(picked, i, j);
    }
  }

  lemma {:induction false} OthersDiffer(rs: seq<ActiveRequest>, n: nat)
    requires Distinct(rs) && n < |rs|
    ensures forall k | 0 <= k < |rs| && k != n :: rs[k] != rs[n] && rs[k].slot != rs[n].slot
  {
    forall k: nat | k < |rs| && k != n ensures rs[k] != rs[n] && rs[k].slot != rs[n].slot {
      assert if k < n then Apart(rs, k, n) else Apart(rs, n, k);
    }
  }

  // ---------------------------------------------------------------- how the budget is shared

  function TokensOf(fed: seq<Progress>): nat {
    if fed == [] then 0 else TokensOf(fed[..|fed| - 1]) + fed[|fed| - 1].stepTokens
  }

  /** The prefill part of the contributions. */
  function PrefillOf(fed: seq<Progress>): nat {
    if fed == [] then 0
    else PrefillOf(fed[..|fed| - 1]) + if fed[|fed| - 1].phase.Prefill? then fed[|fed| - 1].stepTokens else 0
  }

  datatype Limits = Limits(batch: nat, prefill: nat, sole: bool, running: nat)

  /** A contribution is no longer than its quantum, and of more than one token only if that leaves a place for
      everybody else who runs. It is shorter than the prompt up to its next anchor only if it is as long as its
      quantum, if prefill is spent, or if no more is left than a place for everybody else. */
  predicate Fair(fed: seq<Progress>, priority: Priority, limits: Limits) {
    fed != [] ==>
      var (p, quantum) := (fed[|fed| - 1], if limits.sole then limits.batch else Quantum(priority));
      var (size, others) := (TokensOf(fed), limits.running - |fed|);
      && p.stepTokens <= quantum && (p.stepTokens <= 1 || size + others <= limits.batch)
      && (TakesAll(p, quantum) || PrefillOf(fed) == limits.prefill || size + others >= limits.batch)
  }

  predicate AllFair(fed: seq<Progress>, priorities: seq<Priority>, limits: Limits) {
    |priorities| == |fed| && forall k | 0 <= k < |fed| :: Fair(fed[..k + 1], priorities[k], limits)
  }

  lemma {:induction false} FairOn(fed: seq<Progress>, priorities: seq<Priority>, limits: Limits, p: Progress, priority: Priority,
                                  b: Budget)
    requires AllFair(fed, priorities, limits) && HasTurn(b, p.phase.Prefill?) && b.runnable > 0
    requires b.left + TokensOf(fed) == limits.batch && b.prefill + PrefillOf(fed) == limits.prefill
    requires b.runnable + |fed| == limits.running
    requires Contributing(p)
    requires var most := RequestBudget(b, priority, p.phase.Prefill?, limits.sole, limits.batch);
      p.stepTokens <= most && TakesAll(p, most)
    ensures AllFair(fed + [p], priorities + [priority], limits)
  {
    var (all, names) := (fed + [p], priorities + [priority]);
    assert all[..|fed|] == fed;
    forall k | 0 <= k < |all| ensures Fair(all[..k + 1], names[k], limits) {
      if k < |fed| {
        assert all[..k + 1] == fed[..k + 1];
      } else {
        assert all[..k + 1] == all;
      }
    }
  }

  /** The budgets after the first `n` requests have been considered. */
  predicate Accounted(b: Budget, flags: seq<bool>, decoding: seq<bool>, picked: seq<nat>, n: nat,
                      batchBudget: nat, cap: nat, size: nat, prefill: nat) {
    && n <= |flags| == |decoding| && size + b.left == batchBudget && prefill + b.prefill == cap
    && b.runnable >= CountFrom(flags, n) && b.runnable + |picked| == CountFrom(flags, 0)
    && (forall k | 0 <= k < n && flags[k] && k !in picked :: b.left == 0 || (!decoding[k] && b.prefill == 0))
    && (CountFrom(flags, 0) <= batchBudget ==>
      b.left >= b.runnable && forall k | 0 <= k < n && flags[k] && decoding[k] :: k in picked)
    && (picked == [] ==> size == 0 && prefill == 0)
    && (picked == [] && batchBudget > 0 && cap > 0 ==> forall k | 0 <= k < n :: !flags[k])
  }

  lemma {:induction false} TurnAccounted(b: Budget, flags: seq<bool>, decoding: seq<bool>, picked: seq<nat>, n: nat,
                                         batchBudget: nat, cap: nat, size: nat, prefill: nat,
                                         priority: Priority, sole: bool, added: nat)
    requires Accounted(b, flags, decoding, picked, n, batchBudget, cap, size, prefill) && n < |flags| && flags[n]
    requires HasTurn(b, !decoding[n])
    requires 1 <= added <= RequestBudget(b, priority, !decoding[n], sole, batchBudget)
    ensures added <= b.left && b.runnable > 0 && (!decoding[n] ==> added <= b.prefill)
    ensures Accounted(Spent(b, added, !decoding[n]), flags, decoding, picked + [n], n + 1, batchBudget, cap,
      size + added, if decoding[n] then prefill else prefill + added)
  {
    TurnFits(b, priority, !decoding[n], sole, batchBudget, added);
    forall k | 0 <= k < n + 1 && (k in picked || k == n) ensures k in picked + [n] {
      assert k == n ==> (picked + [n])[|picked|] == n;
    }
  }

  lemma {:induction false} SkipAccounted(b: Budget, flags: seq<bool>, decoding: seq<bool>, picked: seq<nat>, n: nat,
                                         batchBudget: nat, cap: nat, size: nat, prefill: nat)
    requires Accounted(b, flags, decoding, picked, n, batchBudget, cap, size, prefill) && n < |flags|
    requires !flags[n] || !HasTurn(b, !decoding[n])
    ensures Accounted(b, flags, decoding, picked, n + 1, batchBudget, cap, size, prefill)
  {
  }

  ghost function Progresses(rs: seq<ActiveRequest>): (ps: seq<Progress>)
    reads rs
    ensures |ps| == |rs| && forall k | 0 <= k < |rs| :: ps[k] == rs[k].at
  {
    seq(|rs|, k requires 0 <= k < |rs| reads rs => rs[k].at)
  }

  predicate Unmoved(rs: seq<ActiveRequest>, was: seq<Progress>)
    reads rs
  {
    |rs| == |was| && forall k | 0 <= k < |rs| :: SameButStep(was[k], rs[k].at)
  }


  /** The batch as the contributions of these requests, one after the other. */
  predicate Contributors(cs: seq<ActiveRequest>)
    reads cs
  {
    forall k | 0 <= k < |cs| :: cs[k].terminal.Active? && Contributing(cs[k].at)
  }

  function Segments(cs: seq<ActiveRequest>): seq<Contribution>
    requires Contributors(cs)
    reads cs
  {
    if cs == [] then [] else Segments(cs[..|cs| - 1]) + Segment(cs[|cs| - 1].at, cs[|cs| - 1].slot)
  }

  function PrefillTokens(cs: seq<ActiveRequest>): nat
    reads cs
  {
    if cs == [] then 0
    else
      var last := cs[|cs| - 1].at;
      PrefillTokens(cs[..|cs| - 1]) + if last.phase.Prefill? then last.stepTokens else 0
  }

  /** The same from the progress of the contributors when they were chosen. */
  function SegmentsOf(fed: seq<Progress>, cs: seq<ActiveRequest>): seq<Contribution>
    requires |fed| == |cs| && forall k | 0 <= k < |fed| :: Contributing(fed[k])
  {
    if fed == [] then []
    else SegmentsOf(fed[..|fed| - 1], cs[..|cs| - 1]) + Segment(fed[|fed| - 1], cs[|cs| - 1].slot)
  }

  lemma {:induction false} SegmentsAreOf(cs: seq<ActiveRequest>, fed: seq<Progress>)
    requires Contributors(cs) && |fed| == |cs| && forall k | 0 <= k < |cs| :: fed[k] == cs[k].at
    ensures Segments(cs) == SegmentsOf(fed, cs) && PrefillTokens(cs) == PrefillOf(fed)
    ensures |Segments(cs)| == TokensOf(fed)
    decreases |cs|
  {
    if cs != [] {
      SegmentsAreOf(cs[..|cs| - 1], fed[..|fed| - 1]);
      SegmentSize(cs[|cs| - 1].at, cs[|cs| - 1].slot);
    }
  }

  function Priorities(cs: seq<ActiveRequest>): (priorities: seq<Priority>)
    ensures |priorities| == |cs| && forall k | 0 <= k < |cs| :: priorities[k] == cs[k].priority
  {
    seq(|cs|, k requires 0 <= k < |cs| => cs[k].priority)
  }

  lemma {:induction false} SegmentSize(p: Progress, slot: nat)
    requires Contributing(p)
    ensures |Segment(p, slot)| == |Input(p)| == p.stepTokens
  {
    SegmentMeans(p, slot, 0);
  }

  /** One request joins the batch. */
  method Contribute(r: ActiveRequest, cs: seq<ActiveRequest>, batch: seq<Contribution>, most: nat)
    returns (extended: seq<Contribution>)
    requires r.terminal.Active? && Able(r.at) && most >= 1 && r !in cs && Contributors(cs) && batch == Segments(cs)
    modifies r`at
    ensures SameButStep(old(r.at), r.at) && 1 <= r.at.stepTokens <= most && |extended| == |batch| + r.at.stepTokens
    ensures TakesAll(r.at, most) && Progresses(cs + [r]) == old(Progresses(cs)) + [r.at]
    ensures Contributors(cs + [r]) && extended == Segments(cs + [r])
    ensures PrefillTokens(cs + [r]) == old(PrefillTokens(cs)) + if r.at.phase.Prefill? then r.at.stepTokens else 0
  {
    extended := r.AddContribution(batch, most);
    SegmentSize(r.at, r.slot);
    assert (cs + [r])[..|cs|] == cs;
  }

  /** Every running request has something to contribute. */
  predicate AllAble(flags: seq<bool>, was: seq<Progress>) {
    |flags| == |was| && forall k | 0 <= k < |was| && flags[k] :: Able(was[k])
  }

  ghost function Decoding(rs: seq<ActiveRequest>): (d: seq<bool>)
    reads rs
    ensures |d| == |rs| && forall k | 0 <= k < |rs| :: d[k] == rs[k].at.phase.Decode?
  {
    seq(|rs|, k requires 0 <= k < |rs| reads rs => rs[k].at.phase.Decode?)
  }

  /** Every running request that decodes is among the contributors. */
  predicate NoneLeftOut(rs: seq<ActiveRequest>, flags: seq<bool>, decoding: seq<bool>, contributors: seq<ActiveRequest>) {
    |rs| == |flags| == |decoding| && forall k | 0 <= k < |rs| && flags[k] && decoding[k] :: rs[k] in contributors
  }

  /** Somebody contributes, if anybody runs. */
  predicate SomebodyIn(flags: seq<bool>, contributors: seq<ActiveRequest>) {
    contributors == [] ==> forall k | 0 <= k < |flags| :: !flags[k]
  }

  /** A request takes its share of what is left. */
  method Join(r: ActiveRequest, cs: seq<ActiveRequest>, batch: seq<Contribution>, b: Budget, sole: bool, batchBudget: nat,
              ghost cap: nat, ghost running: nat)
    returns (extended: seq<Contribution>)
    requires r.terminal.Active? && Able(r.at) && r !in cs && Contributors(cs) && batch == Segments(cs)
    requires HasTurn(b, r.at.phase.Prefill?) && b.runnable > 0 && b.runnable + |cs| == running
    requires b.left + |batch| == batchBudget && b.prefill + PrefillTokens(cs) == cap
    requires AllFair(Progresses(cs), Priorities(cs), Limits(batchBudget, cap, sole, running))
    modifies r`at
    ensures SameButStep(old(r.at), r.at) && |extended| == |batch| + r.at.stepTokens
    ensures 1 <= r.at.stepTokens <= RequestBudget(b, r.priority, r.at.phase.Prefill?, sole, batchBudget)
    ensures Contributors(cs + [r]) && extended == Segments(cs + [r])
    ensures PrefillTokens(cs + [r]) == old(PrefillTokens(cs)) + if r.at.phase.Prefill? then r.at.stepTokens else 0
    ensures AllFair(Progresses(cs + [r]), Priorities(cs + [r]), Limits(batchBudget, cap, sole, running))
  {
    hide Fair, AllFair, TokensOf, PrefillOf, PrefillTokens, Segments, Contributors, Contributing, Able;
    ghost var fed := Progresses(cs);
    SegmentsAreOf(cs, fed);
    extended := Contribute(r, cs, batch, RequestBudget(b, r.priority, r.at.phase.Prefill?, sole, batchBudget));
    LastContributes(cs, r);
    FairOn(fed, Priorities(cs), Limits(batchBudget, cap, sole, running), r.at, r.priority, b);
    assert Priorities(cs + [r]) == Priorities(cs) + [r.priority];
  }

  lemma {:induction false} LastContributes(cs: seq<ActiveRequest>, r: ActiveRequest)
    requires Contributors(cs + [r])
    ensures Contributing(r.at)
  {
    assert (cs + [r])[|cs|] == r;
  }

  /** Whoever runs is left out only if the batch is full or, in prefill, if the prefill part is spent. */
  predicate LeftOutOnly(rs: seq<ActiveRequest>, flags: seq<bool>, decoding: seq<bool>, contributors: seq<ActiveRequest>,
                        full: bool, prefillSpent: bool) {
    && |rs| == |flags| == |decoding|
    && forall k | 0 <= k < |rs| && flags[k] && rs[k] !in contributors :: full || (!decoding[k] && prefillSpent)
  }

  /** The request at place `n` contributes if it is running and there is room. */
  method Consider(r: ActiveRequest, n: nat, b: Budget, batch: seq<Contribution>, cs: seq<ActiveRequest>,
                  sole: bool, batchBudget: nat, cap: nat, ghost picked: seq<nat>, ghost ordered: seq<ActiveRequest>,
                  ghost flags: seq<bool>, ghost decoding: seq<bool>)
    returns (extended: seq<Contribution>, left: Budget, contributors: seq<ActiveRequest>, ghost turns: seq<nat>)
    requires Distinct(ordered) && n < |ordered| == |flags| && r == ordered[n] && Picks(cs, ordered, picked, n)
    requires Contributors(cs) && batch == Segments(cs)
    requires Accounted(b, flags, decoding, picked, n, batchBudget, cap, |batch|, PrefillTokens(cs))
    requires flags[n] == r.terminal.Active? && (flags[n] ==> Able(r.at)) && decoding[n] == r.at.phase.Decode?
    requires AllFair(Progresses(cs), Priorities(cs), Limits(batchBudget, cap, sole, CountFrom(flags, 0)))
    modifies r`at
    ensures SameButStep(old(r.at), r.at) && Picks(contributors, ordered, turns, n + 1)
    ensures Contributors(contributors) && extended == Segments(contributors)
    ensures Accounted(left, flags, decoding, turns, n + 1, batchBudget, cap, |extended|, PrefillTokens(contributors))
    ensures AllFair(Progresses(contributors), Priorities(contributors), Limits(batchBudget, cap, sole, CountFrom(flags, 0)))
  {
    hide Segments, PrefillTokens, Distinct, Apart, Contributors, Contributing, Able, AllFair, RequestBudget;
    extended, left, contributors, turns := batch, b, cs, picked;
    var prefilling := r.at.phase.Prefill?;
    if r.terminal.Active? && HasTurn(b, prefilling) {
      ghost var taken := PrefillTokens(cs);
      NotPickedYet(cs, ordered, picked, n);
      extended := Join(r, cs, batch, b, sole, batchBudget, cap, CountFrom(flags, 0));
      TurnAccounted(b, flags, decoding, picked, n, batchBudget, cap, |batch|, taken, r.priority, sole, r.at.stepTokens);
      left, contributors, turns := Spent(b, r.at.stepTokens, prefilling), cs + [r], picked + [n];
    } else {
      SkipAccounted(b, flags, decoding, picked, n, batchBudget, cap, |batch|, PrefillTokens(cs));
    }
  }

  lemma {:induction false} UnmovedMeans(rs: seq<ActiveRequest>, was: seq<Progress>)
    requires Unmoved(rs, was)
    ensures |was| == |rs| && forall k | 0 <= k < |rs| :: SameButStep(was[k], Progresses(rs)[k])
  {
  }

  lemma {:induction false} StillUnmoved(rs: seq<ActiveRequest>, was: seq<Progress>, before: seq<Progress>, n: nat)
    requires |was| == |before| == |rs| && n < |rs| && forall k | 0 <= k < |rs| :: SameButStep(was[k], before[k])
    requires SameButStep(before[n], rs[n].at) && forall k | 0 <= k < |rs| && k != n :: rs[k].at == before[k]
    ensures Unmoved(rs, was)
  {
  }

  lemma {:induction false} NobodyMoved(rs: seq<ActiveRequest>)
    ensures Unmoved(rs, Progresses(rs))
  {
  }

  lemma {:induction false} StillAble(rs: seq<ActiveRequest>, was: seq<Progress>, flags: seq<bool>, decoding: seq<bool>, n: nat)
    requires AllAble(flags, was) && Unmoved(rs, was) && n < |rs| == |decoding| && decoding[n] == was[n].phase.Decode?
    ensures (flags[n] ==> Able(rs[n].at)) && decoding[n] == rs[n].at.phase.Decode?
  {
  }

  lemma {:induction false} NothingYet(ordered: seq<ActiveRequest>, b: Budget, flags: seq<bool>, decoding: seq<bool>)
    requires |flags| == |decoding| && b.runnable == CountFrom(flags, 0)
    ensures Picks([], ordered, [], 0) && Contributors([]) && Segments([]) == [] && PrefillTokens([]) == 0
    ensures forall limits :: AllFair(Progresses([]), Priorities([]), limits)
    ensures Accounted(b, flags, decoding, [], 0, b.left, b.prefill, 0, 0)
  {
  }

  /** What the account of all requests means for the batch. */
  lemma {:induction false} AccountedMeans(cs: seq<ActiveRequest>, ordered: seq<ActiveRequest>, picked: seq<nat>, b: Budget,
                                          flags: seq<bool>, decoding: seq<bool>, batchBudget: nat, cap: nat, size: nat,
                                          prefill: nat)
    requires Picks(cs, ordered, picked, |ordered|) && |flags| == |ordered|
    requires Accounted(b, flags, decoding, picked, |ordered|, batchBudget, cap, size, prefill)
    ensures size <= batchBudget && prefill <= cap
    ensures CountFrom(flags, 0) <= batchBudget ==> NoneLeftOut(ordered, flags, decoding, cs)
    ensures batchBudget > 0 && cap > 0 ==> SomebodyIn(flags, cs)
    ensures LeftOutOnly(ordered, flags, decoding, cs, size == batchBudget, prefill == cap)
  {
    assert forall i | 0 <= i < |picked| :: ordered[picked[i]] == cs[i];
  }

  method ConsiderAll(ordered: seq<ActiveRequest>, batchBudget: nat, cap: nat, sole: bool)
    returns (batch: seq<Contribution>, contributors: seq<ActiveRequest>, b: Budget, ghost picked: seq<nat>)
    requires Distinct(ordered) && AllAble(Flags(ordered), Progresses(ordered))
    modifies ordered`at
    ensures Unmoved(ordered, old(Progresses(ordered))) && Picks(contributors, ordered, picked, |ordered|)
    ensures Contributors(contributors) && batch == Segments(contributors)
    ensures Accounted(b, old(Flags(ordered)), old(Decoding(ordered)), picked, |ordered|, batchBudget, cap, |batch|,
      PrefillTokens(contributors))
    ensures AllFair(Progresses(contributors), Priorities(contributors),
      Limits(batchBudget, cap, sole, CountFrom(old(Flags(ordered)), 0)))
  {
    hide CountFrom, Segments, PrefillTokens, Picks, Distinct, Apart, Contributors, Contributing, Accounted, Able, AllAble,
      SameButStep, Unmoved, AllFair;
    batch, contributors := [], [];
    ghost var (was, flags, decoding) := (Progresses(ordered), Flags(ordered), Decoding(ordered));
    picked := [];
    var runnable := CountRunnable(ordered);
    b := Budget(batchBudget, cap, runnable);
    NothingYet(ordered, b, flags, decoding);
    NobodyMoved(ordered);
    var n: nat := 0;
    while n < |ordered|
      invariant n <= |ordered| && Unmoved(ordered, was) && Picks(contributors, ordered, picked, n) && Flags(ordered) == flags
      invariant Contributors(contributors) && batch == Segments(contributors)
      invariant Accounted(b, flags, decoding, picked, n, batchBudget, cap, |batch|, PrefillTokens(contributors))
      invariant AllFair(Progresses(contributors), Priorities(contributors), Limits(batchBudget, cap, sole, CountFrom(flags, 0)))
    {
      batch, b, contributors, picked := ConsiderAt(ordered[n], ordered, n, b, batch, contributors, sole, batchBudget, cap,
        picked, was, flags, decoding);
      n := n + 1;
    }
  }

  method ConsiderAt(r: ActiveRequest, ordered: seq<ActiveRequest>, n: nat, b: Budget, batch: seq<Contribution>,
                    cs: seq<ActiveRequest>, sole: bool, batchBudget: nat, cap: nat, ghost picked: seq<nat>,
                    ghost was: seq<Progress>, ghost flags: seq<bool>, ghost decoding: seq<bool>)
    returns (extended: seq<Contribution>, left: Budget, contributors: seq<ActiveRequest>, ghost turns: seq<nat>)
    requires Distinct(ordered) && n < |ordered| && r == ordered[n] && Unmoved(ordered, was) && Flags(ordered) == flags
    requires AllAble(flags, was) && |decoding| == |was| && decoding[n] == was[n].phase.Decode?
    requires Picks(cs, ordered, picked, n) && Contributors(cs) && batch == Segments(cs)
    requires Accounted(b, flags, decoding, picked, n, batchBudget, cap, |batch|, PrefillTokens(cs))
    requires AllFair(Progresses(cs), Priorities(cs), Limits(batchBudget, cap, sole, CountFrom(flags, 0)))
    modifies r`at
    ensures Unmoved(ordered, was) && Flags(ordered) == flags && Picks(contributors, ordered, turns, n + 1)
    ensures Contributors(contributors) && extended == Segments(contributors)
    ensures Accounted(left, flags, decoding, turns, n + 1, batchBudget, cap, |extended|, PrefillTokens(contributors))
    ensures AllFair(Progresses(contributors), Priorities(contributors), Limits(batchBudget, cap, sole, CountFrom(flags, 0)))
  {
    hide CountFrom, Segments, PrefillTokens, Picks, Distinct, Apart, Contributors, Contributing, Accounted, Able, AllAble,
      SameButStep, Unmoved, AllFair, Priorities;
    ghost var before := Progresses(ordered);
    UnmovedMeans(ordered, was);
    OthersDiffer(ordered, n);
    StillAble(ordered, was, flags, decoding, n);
    extended, left, contributors, turns := Consider(r, n, b, batch, cs, sole, batchBudget, cap, picked, ordered,
      flags, decoding);
    StillUnmoved(ordered, was, before, n);
  }

  /** Fills the batch. It stays within its budget, and prefill within its own; and if there is room for
      every running request, each one that decodes is in it, whatever comes before it. */
  method Gather(ordered: seq<ActiveRequest>, batchBudget: nat, sole: bool, prefillBudget: int)
    returns (batch: seq<Contribution>, contributors: seq<ActiveRequest>)
    requires Distinct(ordered) && AllAble(Flags(ordered), Progresses(ordered))
    modifies ordered`at
    ensures Contributors(contributors) && batch == Segments(contributors)
    ensures |batch| <= batchBudget && PrefillTokens(contributors) <= PrefillCap(batchBudget, sole, prefillBudget)
    ensures old(CountFrom(Flags(ordered), 0)) <= batchBudget ==>
      NoneLeftOut(ordered, old(Flags(ordered)), old(Decoding(ordered)), contributors)
    ensures batchBudget > 0 ==> SomebodyIn(old(Flags(ordered)), contributors)
    ensures LeftOutOnly(ordered, old(Flags(ordered)), old(Decoding(ordered)), contributors, |batch| == batchBudget,
      PrefillTokens(contributors) == PrefillCap(batchBudget, sole, prefillBudget))
    ensures AllFair(Progresses(contributors), Priorities(contributors),
      Limits(batchBudget, PrefillCap(batchBudget, sole, prefillBudget), sole, CountFrom(old(Flags(ordered)), 0)))
    ensures Unmoved(ordered, old(Progresses(ordered)))
    ensures Distinct(contributors) && forall k | 0 <= k < |contributors| :: contributors[k] in ordered
    ensures InOrder(contributors, ordered)
  {
    hide CountFrom, Segments, PrefillTokens, Picks, Distinct, Apart, Contributors, Accounted, AllAble, NoneLeftOut, SomebodyIn,
      Unmoved, LeftOutOnly, AllFair, InOrder;
    ghost var (flags, decoding) := (Flags(ordered), Decoding(ordered));
    ghost var picked, b;
    var cap := PrefillCap(batchBudget, sole, prefillBudget);
    batch, contributors, b, picked := ConsiderAll(ordered, batchBudget, cap, sole);
    PickedAreDistinct(contributors, ordered, picked, |ordered|);
    PickedInOrder(contributors, ordered, picked, |ordered|);
    AccountedMeans(contributors, ordered, picked, b, flags, decoding, batchBudget, cap, |batch|, PrefillTokens(contributors));
  }

  /** Every contributor's sequence reaches exactly to its own position. */
  predicate Fits(cs: seq<ActiveRequest>, physical: seq<seq<Token>>)
    reads cs
  {
    forall k | 0 <= k < |cs| :: cs[k].slot < |physical| && |physical[cs[k].slot]| == cs[k].at.nPos
  }

  predicate Gets(c: ActiveRequest, before: seq<seq<Token>>, after: seq<seq<Token>>)
    requires Contributing(c.at)
    reads c
  {
    c.slot < |before| && c.slot < |after| && after[c.slot] == before[c.slot] + Input(c.at)
  }

  predicate Untouched(cs: seq<ActiveRequest>, i: nat) { forall k | 0 <= k < |cs| :: cs[k].slot != i }

  /** The batch can be decoded, every contributor gets its contribution at the end of its sequence, and
      nobody else gets anything. */
  predicate Served(cs: seq<ActiveRequest>, physical: seq<seq<Token>>, batch: seq<Contribution>)
    requires Contributors(cs)
    reads cs
  {
    && Consecutive(physical, batch)
    && (forall k | 0 <= k < |cs| :: Gets(cs[k], physical, Fed(physical, batch)))
    && forall i: nat | i < |physical| && Untouched(cs, i) :: Fed(physical, batch)[i] == physical[i]
  }

  lemma {:induction false} InitIsDistinct(cs: seq<ActiveRequest>)
    requires Distinct(cs) && cs != []
    ensures Distinct(cs[..|cs| - 1]) && Untouched(cs[..|cs| - 1], cs[|cs| - 1].slot)
  {
    var init := cs[..|cs| - 1];
    forall i: nat, j: nat | i < j < |init| ensures Apart(init, i, j) { assert Apart(cs, i, j); }
    OthersDiffer(cs, |cs| - 1);
  }

  lemma {:induction false} OneMoreServed(cs: seq<ActiveRequest>, physical: seq<seq<Token>>, batch: seq<Contribution>)
    requires cs != [] && Contributors(cs) && Untouched(cs[..|cs| - 1], cs[|cs| - 1].slot)
    requires Served(cs[..|cs| - 1], physical, batch) && Fits([cs[|cs| - 1]], physical)
    ensures var last := cs[|cs| - 1]; Served(cs, physical, batch + Segment(last.at, last.slot))
  {
    hide Fed, Segment, Contributing, Input;
    var (init, last) := (cs[..|cs| - 1], cs[|cs| - 1]);
    assert [last][0] == last;
    var before := Fed(physical, batch);
    FedWholeSegment(physical, batch, last.at, last.slot);
    var after := Fed(physical, batch + Segment(last.at, last.slot));
    forall k | 0 <= k < |cs| ensures Gets(cs[k], physical, after) {
      if k < |init| { assert Gets(init[k], physical, before) && init[k] == cs[k]; }
    }
    forall i: nat | i < |physical| && Untouched(cs, i) ensures after[i] == physical[i] {
      assert cs[|cs| - 1].slot != i;
      assert forall k | 0 <= k < |init| :: init[k] == cs[k];
      assert Untouched(init, i);
    }
  }

  lemma {:induction false} BatchServes(cs: seq<ActiveRequest>, physical: seq<seq<Token>>)
    requires Distinct(cs) && Contributors(cs) && Fits(cs, physical)
    ensures Served(cs, physical, Segments(cs))
    decreases |cs|
  {
    if cs != [] {
      InitIsDistinct(cs);
      BatchServes(cs[..|cs| - 1], physical);
      OneMoreServed(cs, physical, Segments(cs[..|cs| - 1]));
    }
  }

  // ---------------------------------------------------------------- after the decode

  /** Where a contributor stands within a step; once it is done, with what was told of it. */
  datatype Stage = Waiting | Taken | Done(told: seq<Event>)

  /** Where a request stood when the step began. */
  datatype Mark = Mark(rank: int, cached: nat, nPos: nat, past: History, terminal: Terminal)

  ghost function MarkOf(c: ActiveRequest): Mark
    reads c
  {
    Mark(Rank(c.spec, c.at), c.at.cached, c.at.nPos, c.past, c.terminal)
  }

  /** A contributor that has not been dealt with is running, with its contribution taken in by the model
      or not. Afterwards it is ready again and closer to its end, or it has ended and that was told last;
      and the text it has shown is what was told. */
  ghost predicate Stands(c: ActiveRequest, stage: Stage, mark: Mark, ex: CacheExecutor)
    reads c, ex
  {
    if stage.Done? then
      && c.Ready(ex) && (c.terminal.Active? ==> Rank(c.spec, c.at) < mark.rank)
      && EndsOnce(stage.told, !c.terminal.Active?) && c.EndsShown(stage.told)
      && c.past.shown == mark.past.shown + Requests.TextOf(stage.told) && c.at.completionTokens <= c.spec.Limit()
      && AnchorsOf(stage.told, c.spec) && Kept(c.spec, c.at.cached, c.at.nPos, c.past, c.terminal)
      && TalliesAt(ex.Snapshot(), c.slot) && (c.terminal.Active? || c.Freed(ex))
    else
      && c.Running() && Contributing(c.at) && MarkOf(c) == mark
      && var before := Consumed(c.spec, c.at, c.past);
        c.Ahead(ex, before, if stage.Taken? then before + Input(c.at) else before)
  }

  function StageAt(outs: seq<seq<Event>>, stage: Stage, j: nat): Stage { if j < |outs| then Done(outs[j]) else stage }

  /** The first contributors are done, with `outs` told of them; the others are at `stage`. */
  ghost predicate AllStand(cs: seq<ActiveRequest>, outs: seq<seq<Event>>, stage: Stage, marks: seq<Mark>,
                           ex: CacheExecutor)
    reads cs, ex
  {
    && |marks| == |cs| && |outs| <= |cs|
    && forall j | 0 <= j < |cs| :: Stands(cs[j], StageAt(outs, stage, j), marks[j], ex)
  }

  /** An event and the request that it is about. */
  datatype Told = Told(request: ActiveRequest, event: Event)

  function Tell(c: ActiveRequest, events: seq<Event>): seq<Told> {
    seq(|events|, i requires 0 <= i < |events| => Told(c, events[i]))
  }

  /** What is told of each of these requests, one after the other. */
  function TellAll(cs: seq<ActiveRequest>, outs: seq<seq<Event>>): seq<Told>
    requires |outs| <= |cs|
  {
    if outs == [] then []
    else TellAll(cs, outs[..|outs| - 1]) + Tell(cs[|outs| - 1], outs[|outs| - 1])
  }

  lemma {:induction false} TellOneMore(cs: seq<ActiveRequest>, outs: seq<seq<Event>>, events: seq<Event>)
    requires |outs| < |cs|
    ensures TellAll(cs, outs + [events]) == TellAll(cs, outs) + Tell(cs[|outs|], events)
  {
    assert (outs + [events])[..|outs|] == outs;
  }

  /** Busy slots of other requests are as they were. */
  predicate OthersKept(v: View, w: View, cs: seq<ActiveRequest>) {
    && SameSize(v, w)
    && forall i | 0 <= i < |v.slots| && v.coordinator[i].busy && Untouched(cs, i) ::
      w.slots[i] == v.slots[i] && w.coordinator[i] == v.coordinator[i] && w.physical[i] == v.physical[i]
  }

  /** And whatever was agreed on slots of other requests still is, and no idle slot has become busy. */
  predicate NoWorseBeside(v: View, w: View, cs: seq<ActiveRequest>) {
    && SameSize(v, w) && (forall i: nat | i < |v.slots| && Untouched(cs, i) && TalliesAt(v, i) :: TalliesAt(w, i))
    && forall i: nat | i < |v.slots| && Untouched(cs, i) && !v.coordinator[i].busy :: !w.coordinator[i].busy
  }

  lemma {:induction false} LiveIsBounded(s: Spec, p: Progress, h: History)
    requires Live(s, p, h)
    ensures p.nPos <= |s.full| + |h.sampled|
  {
  }

  /** After a successful decode. */
  method PostOne(c: ActiveRequest, ex: CacheExecutor, ghost mark: Mark) returns (events: seq<Event>)
    requires Stands(c, Taken, mark, ex)
    modifies c, ex
    ensures Stands(c, Done(events), mark, ex) && Harmless(old(ex.Snapshot()), ex.Snapshot(), c.slot)
  {
    hide Live, EndsOnce, AnchorsOf, Kept, Requests.TextOf, AnchorsExact;
    LiveIsBounded(c.spec, c.at, c.past);
    var told, _ := c.PostDecode(ex, Consumed(c.spec, c.at, c.past) + Input(c.at));
    events := told;
  }

  /** After a decode of the whole batch, the next contributor. */
  method PostNext(c: ActiveRequest, ex: CacheExecutor, ghost cs: seq<ActiveRequest>, ghost marks: seq<Mark>,
                  ghost outs: seq<seq<Event>>)
    returns (events: seq<Event>)
    requires Distinct(cs) && |outs| < |cs| && c == cs[|outs|] && AllStand(cs, outs, Taken, marks, ex)
    modifies c, ex
    ensures AllStand(cs, outs + [events], Taken, marks, ex) && Harmless(old(ex.Snapshot()), ex.Snapshot(), c.slot)
  {
    hide Live, EndsOnce, AnchorsOf, Kept, Requests.TextOf;
    ghost var k := |outs|;
    OthersDiffer(cs, k);
    assert Stands(c, StageAt(outs, Taken, k), marks[k], ex);
    events := PostOne(c, ex, marks[k]);
    forall j | 0 <= j < |cs| ensures Stands(cs[j], StageAt(outs + [events], Taken, j), marks[j], ex) {
      if j != k { assert old(Stands(cs[j], StageAt(outs, Taken, j), marks[j], ex)); }
    }
  }

  lemma {:induction false} OthersStillKept(u: View, v: View, w: View, cs: seq<ActiveRequest>, k: nat)
    requires OthersKept(u, v, cs) && NoWorseBeside(u, v, cs) && k < |cs| && Harmless(v, w, cs[k].slot)
    ensures OthersKept(u, w, cs) && NoWorseBeside(u, w, cs)
  {
  }

  lemma {:induction false} AllDone(cs: seq<ActiveRequest>, outs: seq<seq<Event>>, stage: Stage, marks: seq<Mark>,
                                   ex: CacheExecutor)
    requires |outs| == |cs| && AllStand(cs, outs, stage, marks, ex)
    ensures AllStand(cs, outs, Waiting, marks, ex)
  {
    forall j | 0 <= j < |cs| ensures Stands(cs[j], StageAt(outs, Waiting, j), marks[j], ex) {
      assert Stands(cs[j], StageAt(outs, stage, j), marks[j], ex);
    }
  }

  method PostAll(cs: seq<ActiveRequest>, ex: CacheExecutor, ghost marks: seq<Mark>)
    returns (events: seq<Told>, ghost outs: seq<seq<Event>>)
    requires Distinct(cs) && AllStand(cs, [], Taken, marks, ex) && ex.Shaped()
    modifies cs, ex
    ensures |outs| == |cs| && AllStand(cs, outs, Waiting, marks, ex) && events == TellAll(cs, outs)
    ensures OthersKept(old(ex.Snapshot()), ex.Snapshot(), cs) && NoWorseBeside(old(ex.Snapshot()), ex.Snapshot(), cs)
  {
    events, outs := [], [];
    var k: nat := 0;
    while k < |cs|
      invariant k == |outs| <= |cs| && AllStand(cs, outs, Taken, marks, ex) && events == TellAll(cs, outs)
      invariant OthersKept(old(ex.Snapshot()), ex.Snapshot(), cs) && NoWorseBeside(old(ex.Snapshot()), ex.Snapshot(), cs)
    {
      ghost var v := ex.Snapshot();
      var more := PostNext(cs[k], ex, cs, marks, outs);
      OthersStillKept(old(ex.Snapshot()), v, ex.Snapshot(), cs, k);
      TellOneMore(cs, outs, more);
      events := events + Tell(cs[k], more);
      outs := outs + [more];
      k := k + 1;
    }
    AllDone(cs, outs, Taken, marks, ex);
  }

  lemma {:induction false} StandsStill(c: ActiveRequest, was: Progress, ex: CacheExecutor)
    requires SameButStep(was, c.at) && Contributing(c.at) && c.terminal.Active? && c.reason.Stop?
    requires Live(c.spec, was, c.past) && c.Holding(ex, Consumed(c.spec, was, c.past))
    ensures Stands(c, Waiting, Mark(Rank(c.spec, was), was.cached, was.nPos, c.past, c.terminal), ex)
  {
    SameLive(c.spec, was, c.at, c.past);
  }

  lemma {:induction false} AloneServed(c: ActiveRequest, physical: seq<seq<Token>>)
    requires Contributing(c.at) && c.slot < |physical| && |physical[c.slot]| == c.at.nPos
    ensures Consecutive(physical, [] + Segment(c.at, c.slot))
    ensures Fed(physical, [] + Segment(c.at, c.slot)) == physical[c.slot := physical[c.slot] + Input(c.at)]
  {
    FedWholeSegment(physical, [], c.at, c.slot);
  }

  method AloneBatch(c: ActiveRequest, ghost ex: CacheExecutor, ghost mark: Mark)
    returns (batch: seq<Contribution>)
    requires Stands(c, Waiting, mark, ex)
    modifies c`at
    ensures Stands(c, Waiting, mark, ex) && batch == [] + Segment(c.at, c.slot) && c.at == old(c.at)
  {
    ghost var was := c.at;
    SameLive(c.spec, c.at, c.at, c.past);
    batch := c.AddContribution([], if c.at.stepTokens < 1 then 1 else c.at.stepTokens);
    StandsStill(c, was, ex);
  }

  method DecodeAlone(c: ActiveRequest, ex: CacheExecutor, ghost mark: Mark) returns (ok: bool)
    requires Stands(c, Waiting, mark, ex)
    modifies c`at, ex`physical
    ensures Stands(c, if ok then Taken else Waiting, mark, ex) && c.at == old(c.at)
    ensures c.slot < |old(ex.physical)| && ex.physical == old(ex.physical)[c.slot := ex.physical[c.slot]]
  {
    var batch := AloneBatch(c, ex, mark);
    ok := DecodeOne(c, batch, ex, mark);
  }

  lemma {:induction false} WaitsAtItsEnd(c: ActiveRequest, mark: Mark, ex: CacheExecutor)
    requires Stands(c, Waiting, mark, ex)
    ensures Contributing(c.at) && c.slot < |ex.physical| && |ex.physical[c.slot]| == c.at.nPos
    ensures c.at.nPos <= |c.spec.full| + |c.past.sampled| && ex.physical[c.slot] == Consumed(c.spec, c.at, c.past)
  {
  }

  method DecodeOne(c: ActiveRequest, batch: seq<Contribution>, ex: CacheExecutor, ghost mark: Mark)
    returns (ok: bool)
    requires Stands(c, Waiting, mark, ex) && batch == [] + Segment(c.at, c.slot)
    modifies ex`physical
    ensures Stands(c, if ok then Taken else Waiting, mark, ex)
    ensures c.slot < |old(ex.physical)| && ex.physical == old(ex.physical)[c.slot := ex.physical[c.slot]]
  {
    hide Live, EndsOnce, TextOf, Fed, Consecutive, Segment;
    WaitsAtItsEnd(c, mark, ex);
    ghost var before := Consumed(c.spec, c.at, c.past);
    ghost var after := ex.physical[c.slot := before + Input(c.at)];
    AloneServed(c, ex.physical);
    ok := Decode(ex, batch, after);
    NowStands(c, ok, before, mark, ex);
  }

  lemma {:induction false} NowStands(c: ActiveRequest, ok: bool, before: seq<Token>, mark: Mark, ex: CacheExecutor)
    requires c.Running() && Contributing(c.at) && MarkOf(c) == mark && before == Consumed(c.spec, c.at, c.past)
    requires ex.Shaped() && c.Leased(ex, before)
    requires ex.physical[c.slot] == if ok then before + Input(c.at) else before
    ensures Stands(c, if ok then Taken else Waiting, mark, ex)
  {
  }

  /** The request starts over, or has failed. */
  predicate NotDecoded(c: ActiveRequest, was: Progress)
    reads c
  {
    c.terminal.Failed? || (c.terminal.Active? && c.at == Restarted(c.spec, was))
  }

  method Failed(c: ActiveRequest, sole: bool, ex: CacheExecutor, ghost mark: Mark) returns (events: seq<Event>)
    requires Stands(c, Waiting, mark, ex)
    modifies c, ex
    ensures Stands(c, Done(events), mark, ex) && NotDecoded(c, old(c.at))
    ensures !sole ==> KeptBut(old(ex.Snapshot()), ex.Snapshot(), c.slot)
    ensures NoWorse(old(ex.Snapshot()), ex.Snapshot(), c.slot)
    ensures ex.Shaped() && |ex.slots| == old(|ex.slots|)
  {
    events := c.DecodeFailure(sole, ex);
  }

  /** One request on its own: its contribution again, as a batch of its own. */
  method Isolated(c: ActiveRequest, ex: CacheExecutor, ghost mark: Mark) returns (events: seq<Event>)
    requires Stands(c, Waiting, mark, ex)
    modifies c, ex
    ensures Stands(c, Done(events), mark, ex) && Harmless(old(ex.Snapshot()), ex.Snapshot(), c.slot)
  {
    hide Stands;
    var ok := DecodeAlone(c, ex, mark);
    if ok {
      events := PostOne(c, ex, mark);
    } else {
      events := Failed(c, false, ex, mark);
    }
  }

  method IsolateNext(c: ActiveRequest, ex: CacheExecutor, ghost cs: seq<ActiveRequest>, ghost marks: seq<Mark>,
                     ghost outs: seq<seq<Event>>)
    returns (events: seq<Event>)
    requires Distinct(cs) && |outs| < |cs| && c == cs[|outs|] && AllStand(cs, outs, Waiting, marks, ex)
    modifies c, ex
    ensures AllStand(cs, outs + [events], Waiting, marks, ex) && Harmless(old(ex.Snapshot()), ex.Snapshot(), c.slot)
  {
    hide Live, EndsOnce, AnchorsOf, Kept, Requests.TextOf;
    ghost var k := |outs|;
    OthersDiffer(cs, k);
    assert Stands(c, StageAt(outs, Waiting, k), marks[k], ex);
    events := Isolated(c, ex, marks[k]);
    forall j | 0 <= j < |cs| ensures Stands(cs[j], StageAt(outs + [events], Waiting, j), marks[j], ex) {
      if j != k { assert old(Stands(cs[j], StageAt(outs, Waiting, j), marks[j], ex)); }
    }
  }

  method IsolateAll(cs: seq<ActiveRequest>, ex: CacheExecutor, ghost marks: seq<Mark>)
    returns (events: seq<Told>, ghost outs: seq<seq<Event>>)
    requires Distinct(cs) && AllStand(cs, [], Waiting, marks, ex) && ex.Shaped()
    modifies cs, ex
    ensures |outs| == |cs| && AllStand(cs, outs, Waiting, marks, ex) && events == TellAll(cs, outs)
    ensures OthersKept(old(ex.Snapshot()), ex.Snapshot(), cs) && NoWorseBeside(old(ex.Snapshot()), ex.Snapshot(), cs)
  {
    events, outs := [], [];
    var k: nat := 0;
    while k < |cs|
      invariant k == |outs| <= |cs| && AllStand(cs, outs, Waiting, marks, ex) && events == TellAll(cs, outs)
      invariant OthersKept(old(ex.Snapshot()), ex.Snapshot(), cs) && NoWorseBeside(old(ex.Snapshot()), ex.Snapshot(), cs)
    {
      ghost var v := ex.Snapshot();
      var more := IsolateNext(cs[k], ex, cs, marks, outs);
      OthersStillKept(old(ex.Snapshot()), v, ex.Snapshot(), cs, k);
      TellOneMore(cs, outs, more);
      events := events + Tell(cs[k], more);
      outs := outs + [more];
      k := k + 1;
    }
  }

  // ---------------------------------------------------------------- a whole step

  ghost predicate AllReady(rs: seq<ActiveRequest>, ex: CacheExecutor)
    reads rs, ex
  {
    forall k | 0 <= k < |rs| :: ReadyAt(rs, k, ex)
  }

  ghost predicate ReadyAt(rs: seq<ActiveRequest>, k: nat, ex: CacheExecutor)
    requires k < |rs|
    reads rs[k], ex
  {
    rs[k].Ready(ex)
  }

  ghost function Marks(cs: seq<ActiveRequest>): (marks: seq<Mark>)
    reads cs
    ensures |marks| == |cs| && forall k | 0 <= k < |cs| :: marks[k] == MarkOf(cs[k])
  {
    seq(|cs|, k requires 0 <= k < |cs| reads cs => MarkOf(cs[k]))
  }

  lemma {:induction false} ReadyAreAble(rs: seq<ActiveRequest>, ex: CacheExecutor)
    requires AllReady(rs, ex)
    ensures AllAble(Flags(rs), Progresses(rs))
  {
    forall k | 0 <= k < |rs| && rs[k].terminal.Active? ensures Able(rs[k].at) {
      assert ReadyAt(rs, k, ex);
      SameLive(rs[k].spec, rs[k].at, rs[k].at, rs[k].past);
    }
  }

  lemma {:induction false} StillReady(r: ActiveRequest, was: Progress, ex: CacheExecutor)
    requires SameButStep(was, r.at)
    requires r.terminal.Active? ==>
      r.reason.Stop? && Live(r.spec, was, r.past) && r.Holding(ex, Consumed(r.spec, was, r.past))
    ensures r.Ready(ex)
  {
    if r.terminal.Active? { SameLive(r.spec, was, r.at, r.past); }
  }

  lemma {:induction false} ContributorsStand(rs: seq<ActiveRequest>, cs: seq<ActiveRequest>, ex: CacheExecutor)
    requires AllReady(rs, ex) && Contributors(cs)
    requires forall k | 0 <= k < |cs| :: cs[k] in rs
    ensures AllStand(cs, [], Waiting, Marks(cs), ex) && Fits(cs, ex.physical)
  {
    forall k | 0 <= k < |cs|
      ensures Stands(cs[k], Waiting, Marks(cs)[k], ex)
      ensures cs[k].slot < |ex.physical| && |ex.physical[cs[k].slot]| == cs[k].at.nPos
    {
      var i :| 0 <= i < |rs| && rs[i] == cs[k];
      assert ReadyAt(rs, i, ex);
    }
  }

  /** Fills the batch; everybody stays ready. */
  method Choose(ordered: seq<ActiveRequest>, batchBudget: nat, sole: bool, prefillBudget: int,
                ghost ex: CacheExecutor)
    returns (batch: seq<Contribution>, contributors: seq<ActiveRequest>)
    requires Distinct(ordered) && AllReady(ordered, ex)
    modifies ordered`at
    ensures AllReady(ordered, ex) && Marks(ordered) == old(Marks(ordered))
    ensures Unmoved(ordered, old(Progresses(ordered)))
    ensures Distinct(contributors) && forall k | 0 <= k < |contributors| :: contributors[k] in ordered
    ensures Contributors(contributors) && batch == Segments(contributors)
    ensures AllStand(contributors, [], Waiting, Marks(contributors), ex) && Fits(contributors, ex.physical)
    ensures |batch| <= batchBudget && PrefillTokens(contributors) <= PrefillCap(batchBudget, sole, prefillBudget)
    ensures old(CountFrom(Flags(ordered), 0)) <= batchBudget ==>
      NoneLeftOut(ordered, old(Flags(ordered)), old(Decoding(ordered)), contributors)
    ensures batchBudget > 0 ==> SomebodyIn(old(Flags(ordered)), contributors)
    ensures LeftOutOnly(ordered, old(Flags(ordered)), old(Decoding(ordered)), contributors, |batch| == batchBudget,
      PrefillTokens(contributors) == PrefillCap(batchBudget, sole, prefillBudget))
    ensures AllFair(Progresses(contributors), Priorities(contributors),
      Limits(batchBudget, PrefillCap(batchBudget, sole, prefillBudget), sole, CountFrom(old(Flags(ordered)), 0)))
    ensures InOrder(contributors, ordered)
  {
    hide AllFair, LeftOutOnly, InOrder, SomebodyIn, NoneLeftOut;
    ReadyAreAble(ordered, ex);
    ghost var was := Progresses(ordered);
    batch, contributors := Gather(ordered, batchBudget, sole, prefillBudget);
    forall k | 0 <= k < |ordered|
      ensures ReadyAt(ordered, k, ex) && Rank(ordered[k].spec, was[k]) == Rank(ordered[k].spec, ordered[k].at)
    {
      assert old(ReadyAt(ordered, k, ex));
      StillReady(ordered[k], was[k], ex);
    }
    ContributorsStand(ordered, contributors, ex);
  }

  lemma {:induction false} ServedKeepsOthers(v: View, w: View, cs: seq<ActiveRequest>, batch: seq<Contribution>, ok: bool)
    requires Contributors(cs) && Served(cs, v.physical, batch)
    requires |v.slots| == |v.coordinator| == |v.physical|
    requires w == v.(physical := if ok then Fed(v.physical, batch) else v.physical)
    ensures OthersKept(v, w, cs) && NoWorseBeside(v, w, cs)
  {
    forall i: nat | i < |v.physical| && (forall k | 0 <= k < |cs| :: cs[k].slot != i)
      ensures w.physical[i] == v.physical[i]
    {
      assert Untouched(cs, i);
    }
  }

  method DecodeAll(batch: seq<Contribution>, cs: seq<ActiveRequest>, ex: CacheExecutor, ghost marks: seq<Mark>)
    returns (ok: bool)
    requires Contributors(cs) && Served(cs, ex.physical, batch) && ex.Shaped()
    requires AllStand(cs, [], Waiting, marks, ex)
    modifies ex`physical
    ensures AllStand(cs, [], if ok then Taken else Waiting, marks, ex)
    ensures OthersKept(old(ex.Snapshot()), ex.Snapshot(), cs) && NoWorseBeside(old(ex.Snapshot()), ex.Snapshot(), cs)
  {
    ghost var v := ex.Snapshot();
    ghost var after := Fed(ex.physical, batch);
    ok := Decode(ex, batch, after);
    forall k | 0 <= k < |cs| ensures Stands(cs[k], if ok then Taken else Waiting, marks[k], ex) {
      assert old(Stands(cs[k], Waiting, marks[k], ex));
      assert Gets(cs[k], v.physical, after);
      NowStands(cs[k], ok, v.physical[cs[k].slot], marks[k], ex);
    }
    ServedKeepsOthers(v, ex.Snapshot(), cs, batch, ok);
  }

  lemma {:induction false} OthersKeptTwice(u: View, v: View, w: View, cs: seq<ActiveRequest>)
    requires OthersKept(u, v, cs) && OthersKept(v, w, cs)
    ensures OthersKept(u, w, cs)
  {
  }

  lemma {:induction false} TalliesTwice(u: View, v: View, w: View, cs: seq<ActiveRequest>)
    requires NoWorseBeside(u, v, cs) && NoWorseBeside(v, w, cs)
    ensures NoWorseBeside(u, w, cs)
  {
  }

  /** A batch of one request that fails. */
  method FailOnly(cs: seq<ActiveRequest>, sole: bool, ex: CacheExecutor, ghost marks: seq<Mark>)
    returns (events: seq<Told>, ghost outs: seq<seq<Event>>)
    requires |cs| == 1 && AllStand(cs, [], Waiting, marks, ex) && ex.Shaped()
    modifies cs, ex
    ensures NotDecoded(cs[0], old(cs[0].at))
    ensures |outs| == |cs| && AllStand(cs, outs, Waiting, marks, ex) && events == TellAll(cs, outs)
    ensures ex.Shaped() && |ex.slots| == old(|ex.slots|)
    ensures !sole ==> OthersKept(old(ex.Snapshot()), ex.Snapshot(), cs)
    ensures NoWorseBeside(old(ex.Snapshot()), ex.Snapshot(), cs)
  {
    hide Live, EndsOnce, AnchorsOf, Kept, Requests.TextOf;
    assert Stands(cs[0], StageAt([], Waiting, 0), marks[0], ex);
    var told := Failed(cs[0], sole, ex, marks[0]);
    TellOneMore(cs, [], told);
    events, outs := Tell(cs[0], told), [told];
    assert [] + [told] == [told];
  }

  /** Decodes the batch and deals with every contributor: all together, or, if the batch fails, one at a
      time. */
  method RunBatch(batch: seq<Contribution>, cs: seq<ActiveRequest>, sole: bool, ex: CacheExecutor,
                  ghost marks: seq<Mark>)
    returns (events: seq<Told>, ghost outs: seq<seq<Event>>)
    requires Distinct(cs) && Contributors(cs) && Served(cs, ex.physical, batch) && ex.Shaped()
    requires AllStand(cs, [], Waiting, marks, ex)
    modifies cs, ex
    ensures |outs| == |cs| && AllStand(cs, outs, Waiting, marks, ex) && events == TellAll(cs, outs)
    ensures ex.Shaped() && |ex.slots| == old(|ex.slots|)
    ensures !sole || |cs| != 1 ==> OthersKept(old(ex.Snapshot()), ex.Snapshot(), cs)
    ensures NoWorseBeside(old(ex.Snapshot()), ex.Snapshot(), cs)
  {
    if cs == [] { return [], []; }
    ghost var u := ex.Snapshot();
    var ok := DecodeAll(batch, cs, ex, marks);
    ghost var v := ex.Snapshot();
    events, outs := DealWith(ok, cs, sole, ex, marks);
    if !sole || |cs| != 1 { OthersKeptTwice(u, v, ex.Snapshot(), cs); }
    TalliesTwice(u, v, ex.Snapshot(), cs);
  }

  method DealWith(ok: bool, cs: seq<ActiveRequest>, sole: bool, ex: CacheExecutor, ghost marks: seq<Mark>)
    returns (events: seq<Told>, ghost outs: seq<seq<Event>>)
    requires Distinct(cs) && cs != [] && AllStand(cs, [], if ok then Taken else Waiting, marks, ex) && ex.Shaped()
    modifies cs, ex
    ensures !ok && |cs| == 1 ==> NotDecoded(cs[0], old(cs[0].at))
    ensures |outs| == |cs| && AllStand(cs, outs, Waiting, marks, ex) && events == TellAll(cs, outs)
    ensures ex.Shaped() && |ex.slots| == old(|ex.slots|)
    ensures !sole || |cs| != 1 ==> OthersKept(old(ex.Snapshot()), ex.Snapshot(), cs)
    ensures NoWorseBeside(old(ex.Snapshot()), ex.Snapshot(), cs)
  {
    if ok {
      events, outs := PostAll(cs, ex, marks);
    } else if |cs| == 1 {
      events, outs := FailOnly(cs, sole, ex, marks);
    } else {
      events, outs := IsolateAll(cs, ex, marks);
    }
  }

  /** What one step does to a request: a contributor that runs on is closer to its end, what was told of a
      contributor is all the text it has shown since, anchors at its boundaries, and its end if it has ended;
      its ledger is exact, also if it has ended; and nobody else has moved. */
  ghost predicate Stepped(r: ActiveRequest, mark: Mark, cs: seq<ActiveRequest>, outs: seq<seq<Event>>)
    requires |outs| == |cs|
    reads r
  {
    && (r !in cs ==> MarkOf(r) == mark)
    && forall j | 0 <= j < |cs| && cs[j] == r ::
      && mark.terminal.Active? && (r.terminal.Active? ==> Rank(r.spec, r.at) < mark.rank)
      && EndsOnce(outs[j], !r.terminal.Active?) && r.EndsShown(outs[j])
      && r.past.shown == mark.past.shown + Requests.TextOf(outs[j]) && r.at.completionTokens <= r.spec.Limit()
      && AnchorsOf(outs[j], r.spec) && Kept(r.spec, r.at.cached, r.at.nPos, r.past, r.terminal)
  }

  lemma {:induction false} NotAContributor(rs: seq<ActiveRequest>, cs: seq<ActiveRequest>, k: nat)
    requires Distinct(rs) && k < |rs| && rs[k] !in cs && forall j | 0 <= j < |cs| :: cs[j] in rs
    ensures Untouched(cs, rs[k].slot)
    ensures |rs| <= 1 ==> cs == []
  {
    OthersDiffer(rs, k);
    assert cs != [] ==> cs[0] in rs;
    forall j | 0 <= j < |cs| ensures cs[j] != rs[k] && cs[j].slot != rs[k].slot {
      var i :| 0 <= i < |rs| && rs[i] == cs[j];
    }
  }

  lemma {:induction false} ContributorStepped(r: ActiveRequest, mark: Mark, cs: seq<ActiveRequest>, outs: seq<seq<Event>>,
                                              marks: seq<Mark>, ex: CacheExecutor)
    requires |outs| == |cs| && AllStand(cs, outs, Waiting, marks, ex) && r in cs
    requires mark.terminal.Active? && forall j | 0 <= j < |cs| && cs[j] == r :: marks[j] == mark
    ensures r.Ready(ex) && Stepped(r, mark, cs, outs)
  {
    forall j | 0 <= j < |cs| && cs[j] == r ensures Stands(r, Done(outs[j]), mark, ex) {
      assert Stands(cs[j], StageAt(outs, Waiting, j), marks[j], ex);
    }
    var j :| 0 <= j < |cs| && cs[j] == r;
    assert Stands(r, Done(outs[j]), mark, ex);
  }

  lemma {:induction false} BystanderStepped(r: ActiveRequest, mark: Mark, cs: seq<ActiveRequest>, outs: seq<seq<Event>>)
    requires |outs| == |cs| && r !in cs && MarkOf(r) == mark
    ensures Stepped(r, mark, cs, outs)
  {
  }

  /** The batch, and what it means for those that are not in it: nothing. */
  method RunBeside(ordered: seq<ActiveRequest>, batch: seq<Contribution>, cs: seq<ActiveRequest>, sole: bool,
                   ex: CacheExecutor, ghost marks: seq<Mark>)
    returns (events: seq<Told>, ghost outs: seq<seq<Event>>)
    requires Distinct(ordered) && AllReady(ordered, ex) && ex.Shaped() && (sole ==> |ordered| <= 1)
    requires Distinct(cs) && forall k | 0 <= k < |cs| :: cs[k] in ordered
    requires Contributors(cs) && Served(cs, ex.physical, batch) && AllStand(cs, [], Waiting, marks, ex)
    modifies cs, ex
    ensures |outs| == |cs| && AllStand(cs, outs, Waiting, marks, ex) && events == TellAll(cs, outs)
    ensures ex.Shaped() && forall k | 0 <= k < |ordered| && ordered[k] !in cs :: ReadyAt(ordered, k, ex)
    ensures NoWorseBeside(old(ex.Snapshot()), ex.Snapshot(), cs)
  {
    hide Live, Stands, Served, TellAll;
    events, outs := RunBatch(batch, cs, sole, ex, marks);
    forall k | 0 <= k < |ordered| && ordered[k] !in cs ensures ReadyAt(ordered, k, ex) {
      NotAContributor(ordered, cs, k);
      assert old(ReadyAt(ordered, k, ex));
      assert OthersKept(old(ex.Snapshot()), ex.Snapshot(), cs);
    }
  }

  predicate NoNewBusy(v: View, w: View) {
    SameSize(v, w) && forall i | 0 <= i < |v.slots| && !v.coordinator[i].busy :: !w.coordinator[i].busy
  }

  /** Whoever of these has ended has given its slot back. */
  ghost predicate GaveBack(cs: seq<ActiveRequest>, ex: CacheExecutor)
    reads cs, ex
  {
    forall k | 0 <= k < |cs| :: cs[k].terminal.Active? || cs[k].Freed(ex)
  }

  predicate SlotsBusy(cs: seq<ActiveRequest>, v: View) {
    forall k | 0 <= k < |cs| :: cs[k].slot < |v.coordinator| && v.coordinator[cs[k].slot].busy
  }

  lemma {:induction false} AllWereBusy(cs: seq<ActiveRequest>, marks: seq<Mark>, ex: CacheExecutor)
    requires AllStand(cs, [], Waiting, marks, ex)
    ensures SlotsBusy(cs, ex.Snapshot())
  {
    hide Live;
    forall k | 0 <= k < |cs| ensures cs[k].slot < |ex.coordinator| && ex.coordinator[cs[k].slot].busy {
      assert Stands(cs[k], StageAt([], Waiting, k), marks[k], ex);
    }
  }

  /** What the slots look like after a step. */
  lemma {:induction false} SlotsAfter(v: View, cs: seq<ActiveRequest>, outs: seq<seq<Event>>, marks: seq<Mark>,
                                      ex: CacheExecutor)
    requires NoWorseBeside(v, ex.Snapshot(), cs) && |outs| == |cs| && SlotsBusy(cs, v)
    requires AllStand(cs, outs, Waiting, marks, ex)
    ensures AllTally(v) ==> AllTally(ex.Snapshot())
    ensures GaveBack(cs, ex) && NoNewBusy(v, ex.Snapshot())
  {
    hide Live, EndsOnce, AnchorsOf, Kept, Requests.TextOf;
    if AllTally(v) { AllTallyAfter(v, cs, outs, marks, ex); }
    forall k | 0 <= k < |cs| ensures cs[k].terminal.Active? || cs[k].Freed(ex) {
      assert Stands(cs[k], StageAt(outs, Waiting, k), marks[k], ex);
    }
    forall i: nat | i < |v.slots| && !v.coordinator[i].busy ensures !ex.coordinator[i].busy {
      assert Untouched(cs, i);
    }
  }

  lemma {:induction false} AllTallyAfter(v: View, cs: seq<ActiveRequest>, outs: seq<seq<Event>>, marks: seq<Mark>,
                                         ex: CacheExecutor)
    requires AllTally(v) && NoWorseBeside(v, ex.Snapshot(), cs) && |outs| == |cs|
    requires AllStand(cs, outs, Waiting, marks, ex)
    ensures AllTally(ex.Snapshot())
  {
    forall i: nat | i < |ex.slots| ensures TalliesAt(ex.Snapshot(), i) {
      assert TalliesAt(v, i);
      if k :| 0 <= k < |cs| && cs[k].slot == i {
        assert Stands(cs[k], StageAt(outs, Waiting, k), marks[k], ex);
      } else {
        assert Untouched(cs, i);
      }
    }
  }

  method RunStep(ordered: seq<ActiveRequest>, batch: seq<Contribution>, cs: seq<ActiveRequest>, sole: bool,
                 ex: CacheExecutor)
    returns (events: seq<Told>, ghost outs: seq<seq<Event>>)
    requires Distinct(ordered) && AllReady(ordered, ex) && ex.Shaped() && (sole ==> |ordered| <= 1)
    requires Distinct(cs) && forall k | 0 <= k < |cs| :: cs[k] in ordered
    requires Contributors(cs) && Served(cs, ex.physical, batch) && AllStand(cs, [], Waiting, Marks(cs), ex)
    modifies cs, ex
    ensures AllReady(ordered, ex) && ex.Shaped() && |outs| == |cs| && events == TellAll(cs, outs)
    ensures (old(AllTally(ex.Snapshot())) ==> AllTally(ex.Snapshot())) && GaveBack(cs, ex)
    ensures NoNewBusy(old(ex.Snapshot()), ex.Snapshot())
    ensures forall k | 0 <= k < |ordered| :: Stepped(ordered[k], old(Marks(ordered))[k], cs, outs)
  {
    hide AllTally, Stands, AllStand, Served, TellAll, Live, Stepped, GaveBack, NoNewBusy, SlotsBusy, NoWorseBeside, Distinct;
    ghost var (marks, was) := (Marks(cs), Marks(ordered));
    ghost var v := ex.Snapshot();
    AllWereBusy(cs, marks, ex);
    events, outs := RunBeside(ordered, batch, cs, sole, ex, marks);
    SlotsAfter(v, cs, outs, marks, ex);
    forall k | 0 <= k < |ordered|
      ensures ReadyAt(ordered, k, ex) && Stepped(ordered[k], was[k], cs, outs)
    {
      if ordered[k] in cs {
        assert was[k].terminal.Active?;
        ContributorStepped(ordered[k], was[k], cs, outs, marks, ex);
      } else {
        BystanderStepped(ordered[k], was[k], cs, outs);
      }
    }
  }

  /** Who is in the batch of a step, in which order and with which contribution: within the budgets, a fair share
      of them, and a contribution is what the request was to contribute next. */
  ghost predicate Chose(ordered: seq<ActiveRequest>, was: seq<Progress>, batch: seq<Contribution>,
                        contributors: seq<ActiveRequest>, fed: seq<Progress>, limits: Limits)
  {
    && InOrder(contributors, ordered) && AllFair(fed, Priorities(contributors), limits)
    && |fed| == |contributors| && |was| == |ordered| && (forall k | 0 <= k < |fed| :: Contributing(fed[k]))
    && (forall k, i | 0 <= k < |fed| && 0 <= i < |ordered| && contributors[k] == ordered[i] :: SameButStep(was[i], fed[k]))
    && batch == SegmentsOf(fed, contributors) && |batch| <= limits.batch && PrefillOf(fed) <= limits.prefill
  }

  lemma {:induction false} ChoseThem(ordered: seq<ActiveRequest>, was: seq<Progress>, batch: seq<Contribution>,
                                     cs: seq<ActiveRequest>, limits: Limits)
    requires Unmoved(ordered, was) && Contributors(cs) && batch == Segments(cs)
    requires |batch| <= limits.batch && PrefillTokens(cs) <= limits.prefill
    requires InOrder(cs, ordered) && AllFair(Progresses(cs), Priorities(cs), limits)
    ensures Chose(ordered, was, batch, cs, Progresses(cs), limits) && PrefillOf(Progresses(cs)) == PrefillTokens(cs)
  {
    SegmentsAreOf(cs, Progresses(cs));
  }

  lemma {:induction false} ServedMeans(cs: seq<ActiveRequest>, physical: seq<seq<Token>>, batch: seq<Contribution>)
    requires Contributors(cs)
    ensures Served(cs, physical, batch) ==> Consecutive(physical, batch)
  {
  }

  /** One step keeps every request ready: for each running request the physical sequence is exactly its
      prompt and its sampled tokens up to its position, and the ledger of what decoded since the last
      reset is exactly the part of that after the reused prefix. The batch holds the next contributions of
      the contributors, within its budgets and in order, each cut short only by the end of its prompt, its next anchor,
      its quantum or a budget; somebody is left out only if a budget is spent, and if there is room for all, every
      request that decodes is among them. What is told is, per contributor, its new text and at most one end, last. */
  method Step(ordered: seq<ActiveRequest>, ex: CacheExecutor, batchBudget: nat, sole: bool, prefillBudget: int)
    returns (events: seq<Told>, ghost batch: seq<Contribution>, ghost contributors: seq<ActiveRequest>,
             ghost fed: seq<Progress>, ghost outs: seq<seq<Event>>)
    requires Distinct(ordered) && AllReady(ordered, ex) && ex.Shaped() && (sole ==> |ordered| <= 1)
    modifies ordered, ex
    ensures AllReady(ordered, ex) && ex.Shaped() && (old(AllTally(ex.Snapshot())) ==> AllTally(ex.Snapshot()))
    ensures GaveBack(contributors, ex) && NoNewBusy(old(ex.Snapshot()), ex.Snapshot())
    ensures Distinct(contributors) && forall k | 0 <= k < |contributors| :: contributors[k] in ordered
    ensures |outs| == |contributors| && events == TellAll(contributors, outs)
    ensures forall k | 0 <= k < |ordered| :: Stepped(ordered[k], old(Marks(ordered))[k], contributors, outs)
    ensures Chose(ordered, old(Progresses(ordered)), batch, contributors, fed,
      Limits(batchBudget, PrefillCap(batchBudget, sole, prefillBudget), sole, old(CountFrom(Flags(ordered), 0))))
    ensures LeftOutOnly(ordered, old(Flags(ordered)), old(Decoding(ordered)), contributors, |batch| == batchBudget,
      PrefillOf(fed) == PrefillCap(batchBudget, sole, prefillBudget))
    ensures Consecutive(old(ex.physical), batch) && (!sole && prefillBudget > 0 ==> PrefillOf(fed) <= prefillBudget)
    ensures old(CountFrom(Flags(ordered), 0)) <= batchBudget ==>
      NoneLeftOut(ordered, old(Flags(ordered)), old(Decoding(ordered)), contributors)
    ensures batchBudget > 0 ==> SomebodyIn(old(Flags(ordered)), contributors)
  {
    hide GaveBack, NoNewBusy, AllTally, Stepped, Stands, AllStand, TellAll, Live, Distinct, SomebodyIn, NoneLeftOut, Chose,
      Served, Fits, Consecutive, CountFrom, Contributors, Unmoved, Segments, PrefillTokens, LeftOutOnly, AllFair, InOrder;
    ghost var was := Progresses(ordered);
    ghost var limits := Limits(batchBudget, PrefillCap(batchBudget, sole, prefillBudget), sole, CountFrom(Flags(ordered), 0));
    var entries, chosen := Choose(ordered, batchBudget, sole, prefillBudget, ex);
    batch, contributors, fed := entries, chosen, Progresses(chosen);
    ChoseThem(ordered, was, entries, chosen, limits);
    ServedMeans(chosen, ex.physical, entries);
    BatchServes(chosen, ex.physical);
    events, outs := RunStep(ordered, entries, chosen, sole, ex);
  }
}

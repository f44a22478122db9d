/** The native scheduler: a queue, the active requests and the loaded model. Whether a model loads, a
    request can be prepared, and what a step generates are arbitrary; a step names only requests it was
    given and ends each of them at most once, as its last event. */
module Schedulers {

  import opened Common
  import opened Utf8
  import Limiter
  import Protocol

  type Id = Protocol.Id

  /** `ticket` numbers the requests in the order in which they were enqueued; it is history. */
  datatype Waiting = Waiting(id: Id, model: Option<nat>, priority: Priority, ticket: nat)

  datatype Running = Running(id: Id, model: nat, priority: Priority, decoding: bool, hasWork: bool,
                             done: bool, cancelled: bool)

  datatype Generation = Text(text: Bytes) | Progress | Complete(cancelled: bool, tail: Bytes) | Failure | Cache

  datatype Event =
    | Started(id: Id)
    | QueuedCancelled(id: Id)
    | Error(id: Id)
    | Completion(id: Id)
    | Generated(id: Id, generation: Generation)
    | Topology

  predicate EndsRequest(g: Generation) { g.Complete? || g.Failure? }

  predicate Ends(e: Event) {
    match e
    case QueuedCancelled(_) | Error(_) | Completion(_) => true
    case Generated(_, g) => EndsRequest(g)
    case _ => false
  }

  // ---------------------------------------------------------------- conservation

  predicate About(e: Event, id: Id) { !e.Topology? && e.id == id }

  /** How many requests with this id these events have finished. */
  function Finished(events: seq<Event>, id: Id): nat {
    if events == [] then 0
    else
      var e := events[|events| - 1];
      Finished(events[..|events| - 1], id) + if About(e, id) && Ends(e) then 1 else 0
  }

  /** Of `n` requests with this id, every event about it finds one that is not finished. */
  predicate Consistent(n: nat, events: seq<Event>, id: Id) {
    events == [] ||
    (var (init, e) := (events[..|events| - 1], events[|events| - 1]);
     Consistent(n, init, id) && (About(e, id) ==> Finished(init, id) < n))
  }

  /** From `n` unfinished requests with this id to `m`. */
  predicate Leads(n: nat, events: seq<Event>, m: nat, id: Id) {
    Consistent(n, events, id) && n == m + Finished(events, id)
  }

  lemma {:induction false} OneMore(n: nat, events: seq<Event>, m: nat, e: Event, id: Id)
    requires Leads(n, events, m, id) && (About(e, id) ==> m > 0)
    ensures Leads(n, events + [e], if About(e, id) && Ends(e) then m - 1 else m, id)
  {
    assert (events + [e])[..|events|] == events;
  }

  lemma {:induction false} LeadsOn(n: nat, a: seq<Event>, m: nat, b: seq<Event>, k: nat, id: Id)
    requires Leads(n, a, m, id) && Leads(m, b, k, id)
    ensures Leads(n, a + b, k, id)
  {
    if b == [] {
      assert a + b == a;
    } else {
      var (init, e) := (b[..|b| - 1], b[|b| - 1]);
      LeadsOn(n, a, m, init, m - Finished(init, id), id);
      OneMore(n, a + init, m - Finished(init, id), e, id);
      assert a + init + [e] == a + b;
    }
  }

  lemma {:induction false} ConsistentAt(n: nat, events: seq<Event>, id: Id, k: nat)
    requires Consistent(n, events, id) && k < |events|
    ensures About(events[k], id) ==> Finished(events[..k], id) < n
    ensures Finished(events[..k + 1], id) == Finished(events[..k], id) + if About(events[k], id) && Ends(events[k]) then 1 else 0
    decreases |events|
  {
    var init := events[..|events| - 1];
    assert events[..k + 1][..k] == events[..k];
    if k < |init| {
      ConsistentAt(n, init, id, k);
      assert init[..k] == events[..k];
    } else {
      assert init == events[..k];
    }
  }

  function InQueue(w: seq<Waiting>, id: Id): nat {
    if w == [] then 0 else InQueue(w[..|w| - 1], id) + if w[|w| - 1].id == id then 1 else 0
  }

  /** Active requests with this id that are not done. */
  function Undone(a: seq<Running>, id: Id): nat {
    if a == [] then 0
    else
      var r := a[|a| - 1];
      Undone(a[..|a| - 1], id) + if r.id == id && !r.done then 1 else 0
  }

  lemma {:induction false} QueueSum(a: seq<Waiting>, b: seq<Waiting>, id: Id)
    ensures InQueue(a + b, id) == InQueue(a, id) + InQueue(b, id)
  {
    if b == [] {
      assert a + b == a;
    } else {
      QueueSum(a, b[..|b| - 1], id);
      assert (a + b)[..|a + b| - 1] == a + b[..|b| - 1];
    }
  }

  lemma {:induction false} QueueOne(w: Waiting, id: Id)
    ensures InQueue([w], id) == if w.id == id then 1 else 0
  {
    assert [w][..0] == [];
  }

  lemma {:induction false} QueueWithout(w: seq<Waiting>, k: nat, id: Id)
    requires k < |w|
    ensures InQueue(w, id) == InQueue(Without(w, k), id) + if w[k].id == id then 1 else 0
  {
    QueueSum(w[..k], w[k + 1..], id);
    QueueSum(w[..k] + [w[k]], w[k + 1..], id);
    QueueSum(w[..k], [w[k]], id);
    QueueOne(w[k], id);
    assert w[..k] + [w[k]] + w[k + 1..] == w;
  }

  lemma {:induction false} UndoneSum(a: seq<Running>, b: seq<Running>, id: Id)
    ensures Undone(a + b, id) == Undone(a, id) + Undone(b, id)
  {
    if b == [] {
      assert a + b == a;
    } else {
      UndoneSum(a, b[..|b| - 1], id);
      assert (a + b)[..|a + b| - 1] == a + b[..|b| - 1];
    }
  }

  lemma {:induction false} UndoneOne(r: Running, id: Id)
    ensures Undone([r], id) == if r.id == id && !r.done then 1 else 0
  {
    assert [r][..0] == [];
  }

  lemma {:induction false} UndoneSplit(a: seq<Running>, k: nat, id: Id)
    requires k < |a|
    ensures Undone(a, id) == Undone(a[..k], id) + Undone([a[k]], id) + Undone(a[k + 1..], id)
  {
    UndoneSum(a[..k], [a[k]], id);
    UndoneSum(a[..k] + [a[k]], a[k + 1..], id);
    assert a[..k] + [a[k]] + a[k + 1..] == a;
  }

  /** Replacing one active request. */
  lemma {:induction false} UndoneUpdate(a: seq<Running>, k: nat, r: Running, id: Id)
    requires k < |a| && r.id == a[k].id
    ensures !a[k].done ==> Undone(a, a[k].id) > 0
    ensures var (was, now) := (if a[k].id == id && !a[k].done then 1 else 0, if r.id == id && !r.done then 1 else 0);
      Undone(a[k := r], id) + was == Undone(a, id) + now
  {
    UndoneSplit(a, k, id);
    UndoneSplit(a, k, a[k].id);
    UndoneSplit(a[k := r], k, id);
    UndoneOne(a[k], id);
    UndoneOne(a[k], a[k].id);
    UndoneOne(r, id);
    assert a[k := r][..k] == a[..k] && a[k := r][k + 1..] == a[k + 1..];
  }

  // ---------------------------------------------------------------- order

  predicate SameClass(a: Waiting, b: Waiting) { a.priority == b.priority }

  /** Within a class the queue is in the order of the tickets. */
  predicate InOrder(w: seq<Waiting>) {
    forall i, j | 0 <= i < j < |w| && SameClass(w[i], w[j]) :: w[i].ticket < w[j].ticket
  }

  /** And nobody waits who came before one that has been started. */
  predicate BehindStarted(w: seq<Waiting>, started: seq<Waiting>) {
    forall i, j | 0 <= i < |started| && 0 <= j < |w| && SameClass(started[i], w[j]) :: started[i].ticket < w[j].ticket
  }

  predicate InLine(w: seq<Waiting>, started: seq<Waiting>, next: nat) {
    && InOrder(w) && InOrder(started) && BehindStarted(w, started)
    && (forall i | 0 <= i < |w| :: w[i].ticket < next) && (forall i | 0 <= i < |started| :: started[i].ticket < next)
  }

  predicate FirstOfClass(w: seq<Waiting>, k: nat) {
    k < |w| && forall j | 0 <= j < k :: !SameClass(w[j], w[k])
  }

  lemma {:induction false} LineWithout(w: seq<Waiting>, started: seq<Waiting>, next: nat, k: nat)
    requires InLine(w, started, next) && k < |w|
    ensures InLine(Without(w, k), started, next)
  {
    var rest := Without(w, k);
    assert forall j | 0 <= j < |rest| :: rest[j] == if j < k then w[j] else w[j + 1];
  }

  lemma {:induction false} FirstIsLeast(w: seq<Waiting>, k: nat)
    requires InOrder(w) && FirstOfClass(w, k)
    ensures forall j | 0 <= j < |Without(w, k)| && SameClass(w[k], Without(w, k)[j]) :: w[k].ticket < Without(w, k)[j].ticket
  {
    var rest := Without(w, k);
    assert forall j | 0 <= j < |rest| :: rest[j] == if j < k then w[j] else w[j + 1];
  }

  lemma {:induction false} LineAfterStart(w: seq<Waiting>, started: seq<Waiting>, next: nat, k: nat)
    requires InLine(w, started, next) && FirstOfClass(w, k)
    ensures InLine(Without(w, k), started + [w[k]], next)
  {
    LineWithout(w, started, next, k);
    FirstIsLeast(w, k);
  }

  /** A request that is put back goes to the front, and is first of its class again. */
  lemma {:induction false} LineAfterPutBack(w: seq<Waiting>, started: seq<Waiting>, next: nat, k: nat)
    requires InLine(w, started, next) && FirstOfClass(w, k)
    ensures InLine([w[k]] + Without(w, k), started, next)
  {
    LineWithout(w, started, next, k);
    FirstIsLeast(w, k);
    var back := [w[k]] + Without(w, k);
    assert forall j | 1 <= j < |back| :: back[j] == Without(w, k)[j - 1];
  }

  /** The requests that these events start, in order. */
  function Starts(events: seq<Event>): seq<Id> {
    if events == [] then []
    else
      var e := events[|events| - 1];
      Starts(events[..|events| - 1]) + if e.Started? then [e.id] else []
  }

  function IdsOf(w: seq<Waiting>): seq<Id> {
    if w == [] then [] else IdsOf(w[..|w| - 1]) + [w[|w| - 1].id]
  }

  /** The history of started requests grows by exactly those that the events start. */
  predicate Chronicle(started: seq<Waiting>, events: seq<Event>, after: seq<Waiting>) {
    started <= after && IdsOf(after) == IdsOf(started) + Starts(events)
  }

  lemma {:induction false} StartsSum(a: seq<Event>, b: seq<Event>)
    ensures Starts(a + b) == Starts(a) + Starts(b)
  {
    if b == [] {
      assert a + b == a;
    } else {
      StartsSum(a, b[..|b| - 1]);
      assert (a + b)[..|a + b| - 1] == a + b[..|b| - 1];
    }
  }

  lemma {:induction false} StartsOne(e: Event)
    ensures Starts([e]) == if e.Started? then [e.id] else []
  {
    assert [e][..0] == [];
  }

  lemma {:induction false} ChronicleOne(started: seq<Waiting>, w: Waiting)
    ensures Chronicle(started, [Started(w.id)], started + [w])
  {
    assert (started + [w])[..|started|] == started;
    StartsOne(Started(w.id));
  }

  lemma {:induction false} ChronicleOn(s: seq<Waiting>, x: seq<Event>, s1: seq<Waiting>, y: seq<Event>, s2: seq<Waiting>)
    requires Chronicle(s, x, s1) && Chronicle(s1, y, s2)
    ensures Chronicle(s, x + y, s2)
  {
    StartsSum(x, y);
  }

  // ---------------------------------------------------------------- unfinished requests

  /** A request that is enqueued and not finished is either in the queue or active and not done. */
  function Live(w: seq<Waiting>, a: seq<Running>, id: Id): nat { InQueue(w, id) + Undone(a, id) }

  /** What events report leads from one queue and active set to another. */
  ghost predicate Reports(w: seq<Waiting>, a: seq<Running>, events: seq<Event>, w': seq<Waiting>, a': seq<Running>) {
    forall id :: Leads(Live(w, a, id), events, Live(w', a', id), id)
  }

  predicate MovedFor(w: seq<Waiting>, a: seq<Running>, e: Event, w': seq<Waiting>, a': seq<Running>, id: Id) {
    && (About(e, id) ==> Live(w, a, id) > 0)
    && Live(w, a, id) == Live(w', a', id) + if About(e, id) && Ends(e) then 1 else 0
  }

  /** One event and the change that goes with it. */
  ghost predicate Moved(w: seq<Waiting>, a: seq<Running>, e: Event, w': seq<Waiting>, a': seq<Running>) {
    forall id :: MovedFor(w, a, e, w', a', id)
  }

  lemma {:induction false} ReportMore(w: seq<Waiting>, a: seq<Running>, events: seq<Event>, w1: seq<Waiting>, a1: seq<Running>,
                                      e: Event, w2: seq<Waiting>, a2: seq<Running>)
    requires Reports(w, a, events, w1, a1) && Moved(w1, a1, e, w2, a2)
    ensures Reports(w, a, events + [e], w2, a2)
  {
    forall id ensures Leads(Live(w, a, id), events + [e], Live(w2, a2, id), id) {
      assert MovedFor(w1, a1, e, w2, a2, id) && Leads(Live(w, a, id), events, Live(w1, a1, id), id);
      OneMore(Live(w, a, id), events, Live(w1, a1, id), e, id);
    }
  }

  lemma {:induction false} ReportsOn(w: seq<Waiting>, a: seq<Running>, x: seq<Event>, w1: seq<Waiting>, a1: seq<Running>,
                                     y: seq<Event>, w2: seq<Waiting>, a2: seq<Running>)
    requires Reports(w, a, x, w1, a1) && Reports(w1, a1, y, w2, a2)
    ensures Reports(w, a, x + y, w2, a2)
  {
    forall id ensures Leads(Live(w, a, id), x + y, Live(w2, a2, id), id) {
      LeadsOn(Live(w, a, id), x, Live(w1, a1, id), y, Live(w2, a2, id), id);
    }
  }

  lemma {:induction false} NothingToReport(w: seq<Waiting>, a: seq<Running>, w': seq<Waiting>, a': seq<Running>)
    requires forall id :: Live(w, a, id) == Live(w', a', id)
    ensures Reports(w, a, [], w', a')
  {
    forall id ensures Leads(Live(w, a, id), [], Live(w', a', id), id) {
      assert Live(w, a, id) == Live(w', a', id);
    }
  }

  lemma {:induction false} LeavesQueue(w: seq<Waiting>, a: seq<Running>, k: nat, e: Event)
    requires k < |w| && Ends(e) && e.id == w[k].id
    ensures Moved(w, a, e, Without(w, k), a)
  {
    forall id ensures MovedFor(w, a, e, Without(w, k), a, id) { QueueWithout(w, k, id); }
  }

  lemma {:induction false} StartsRunning(w: seq<Waiting>, a: seq<Running>, k: nat, r: Running)
    requires k < |w| && r.id == w[k].id && !r.done
    ensures Moved(w, a, Started(r.id), Without(w, k), a + [r])
  {
    forall id ensures MovedFor(w, a, Started(r.id), Without(w, k), a + [r], id) {
      QueueWithout(w, k, id);
      UndoneSum(a, [r], id);
      UndoneOne(r, id);
    }
  }

  lemma {:induction false} ActiveTells(w: seq<Waiting>, a: seq<Running>, k: nat, r: Running, e: Event)
    requires k < |a| && !a[k].done && r.id == a[k].id && !e.Topology? && e.id == r.id && (r.done <==> Ends(e))
    ensures Moved(w, a, e, w, a[k := r])
  {
    var now := a[k := r];
    forall id ensures MovedFor(w, a, e, w, now, id) { UndoneUpdate(a, k, r, id); }
  }

  lemma {:induction false} PutBackKeeps(w: seq<Waiting>, k: nat, id: Id)
    requires k < |w|
    ensures InQueue([w[k]] + Without(w, k), id) == InQueue(w, id)
  {
    QueueWithout(w, k, id);
    QueueSum([w[k]], Without(w, k), id);
    QueueOne(w[k], id);
  }

  function StillActive(a: seq<Running>): seq<Running> {
    if a == [] then []
    else StillActive(a[..|a| - 1]) + if a[|a| - 1].done then [] else [a[|a| - 1]]
  }

  predicate OneModel(a: seq<Running>, loaded: Option<nat>) {
    forall k | 0 <= k < |a| :: loaded == Some(a[k].model)
  }

  lemma {:induction false} EraseKeeps(a: seq<Running>, id: Id)
    ensures Undone(StillActive(a), id) == Undone(a, id)
  {
    if a != [] {
      var (init, r) := (a[..|a| - 1], a[|a| - 1]);
      EraseKeeps(init, id);
      assert StillActive(init) + [] == StillActive(init);
      UndoneSum(StillActive(init), [r], id);
      UndoneOne(r, id);
    }
  }

  lemma {:induction false} EraseKeepsModel(a: seq<Running>, loaded: Option<nat>)
    requires OneModel(a, loaded)
    ensures OneModel(StillActive(a), loaded)
  {
    if a != [] { EraseKeepsModel(a[..|a| - 1], loaded); }
  }

  // ---------------------------------------------------------------- the order of a step

  predicate Runnable(r: Running) { !r.done && (r.decoding || r.hasWork) }

  predicate Chosen(r: Running, p: Priority, decoding: bool) {
    Runnable(r) && r.priority == p && r.decoding == decoding
  }

  /** The places, before `n`, of the runnable requests of one class and phase. */
  function Pick(a: seq<Running>, p: Priority, decoding: bool, n: nat): seq<nat>
    requires n <= |a|
  {
    if n == 0 then [] else Pick(a, p, decoding, n - 1) + if Chosen(a[n - 1], p, decoding) then [n - 1] else []
  }

  function PickClass(a: seq<Running>, p: Priority): seq<nat> { Pick(a, p, true, |a|) + Pick(a, p, false, |a|) }

  /** Class by class, and within a class those that decode first. */
  function DecodeOrder(a: seq<Running>): seq<nat> {
    PickClass(a, Interactive) + PickClass(a, Normal) + PickClass(a, Background)
  }

  function ClassNo(n: nat): Priority { if n == 0 then Interactive else if n == 1 then Normal else Background }

  function FirstClasses(a: seq<Running>, n: nat): seq<nat> {
    if n == 0 then [] else FirstClasses(a, n - 1) + PickClass(a, ClassNo(n - 1))
  }

  lemma {:induction false} ThreeClasses(a: seq<Running>)
    ensures FirstClasses(a, 3) == DecodeOrder(a)
  {
    var first := PickClass(a, Interactive);
    assert FirstClasses(a, 1) == [] + first == first;
    assert FirstClasses(a, 2) == first + PickClass(a, Normal);
  }

  lemma {:induction false} TimesSum(a: seq<nat>, b: seq<nat>, k: nat)
    ensures Times(a + b, k) == Times(a, k) + Times(b, k)
  {
    if b == [] {
      assert a + b == a;
    } else {
      TimesSum(a, b[..|b| - 1], k);
      assert (a + b)[..|a + b| - 1] == a + b[..|b| - 1];
    }
  }

  lemma {:induction false} InMeansTimes(s: seq<nat>, k: nat)
    ensures k in s <==> Times(s, k) > 0
  {
    if s != [] {
      InMeansTimes(s[..|s| - 1], k);
      assert s == s[..|s| - 1] + [s[|s| - 1]];
    }
  }

  lemma {:induction false} PickOnce(a: seq<Running>, p: Priority, decoding: bool, n: nat, k: nat)
    requires n <= |a|
    ensures Times(Pick(a, p, decoding, n), k) == if k < n && Chosen(a[k], p, decoding) then 1 else 0
  {
    if n > 0 {
      PickOnce(a, p, decoding, n - 1, k);
      if Chosen(a[n - 1], p, decoding) {
        TimesSum(Pick(a, p, decoding, n - 1), [n - 1], k);
        assert [n - 1][..0] == [];
      } else {
        assert Pick(a, p, decoding, n) == Pick(a, p, decoding, n - 1);
      }
    }
  }

  lemma {:induction false} ClassOnce(a: seq<Running>, p: Priority, k: nat)
    ensures Times(PickClass(a, p), k) == if k < |a| && Runnable(a[k]) && a[k].priority == p then 1 else 0
  {
    PickOnce(a, p, true, |a|, k);
    PickOnce(a, p, false, |a|, k);
    TimesSum(Pick(a, p, true, |a|), Pick(a, p, false, |a|), k);
  }

  /** A step is given every runnable request exactly once, and nothing else. */
  lemma {:induction false} OrderHasEachOnce(a: seq<Running>, k: nat)
    ensures Times(DecodeOrder(a), k) == if k < |a| && Runnable(a[k]) then 1 else 0
    ensures k in DecodeOrder(a) <==> k < |a| && Runnable(a[k])
  {
    ClassOnce(a, Interactive, k);
    ClassOnce(a, Normal, k);
    ClassOnce(a, Background, k);
    TimesSum(PickClass(a, Interactive), PickClass(a, Normal), k);
    TimesSum(PickClass(a, Interactive) + PickClass(a, Normal), PickClass(a, Background), k);
    InMeansTimes(DecodeOrder(a), k);
  }

  /** What a step may generate: only about requests it was given, and nothing about one after its end. */
  predicate StepOk(gens: seq<(nat, Generation)>, ordered: seq<nat>) {
    && (forall i | 0 <= i < |gens| :: gens[i].0 in ordered)
    && forall i, j | 0 <= i < j < |gens| && gens[i].0 == gens[j].0 :: !EndsRequest(gens[i].1)
  }

  method AnyStep(ordered: seq<nat>) returns (gens: seq<(nat, Generation)>)
    ensures StepOk(gens, ordered)
  {
    gens := *;
    if !StepOk(gens, ordered) { gens := []; }
  }

  method AnyFlags(n: nat) returns (flags: seq<(bool, bool)>)
    ensures |flags| == n
  {
    flags := *;
    if |flags| != n { flags := seq(n, i => (false, false)); }
  }

  // ---------------------------------------------------------------- the scheduler

  /** Nobody leaves the queue, or one request with this id does, and that is told. */
  predicate Withdrawn(w: seq<Waiting>, target: Id, events: seq<Event>, w': seq<Waiting>) {
    if events == [] then w' == w
    else events == [QueuedCancelled(target)] && exists k: nat :: k < |w| && w[k].id == target && w' == Without(w, k)
  }

  datatype Preparation = Prepared | Backpressure | Refused

  function Completed(r: Running, all: bool): Running {
    if !r.done && (all || r.cancelled) then r.(done := true, cancelled := true) else r
  }

  predicate HasClass(w: seq<Waiting>, p: Priority) { exists j | 0 <= j < |w| :: w[j].priority == p }

  /** Place `k` is the first of the first class, in schedule order from the cursor on, that has a request,
      and the cursor moves right behind that class. */
  ghost predicate InTurn(w: seq<Waiting>, cursor: nat, k: nat, after: nat) {
    && FirstOfClass(w, k)
    && exists offset: nat :: Turn(w, cursor, w[k].priority, offset) && after == (cursor + offset + 1) % 7
  }

  ghost predicate Turn(w: seq<Waiting>, cursor: nat, p: Priority, offset: nat) {
    && offset < 7 && Limiter.ClassAt(cursor + offset) == p
    && forall c | cursor <= c < cursor + offset :: !HasClass(w, Limiter.ClassAt(c))
  }

  lemma {:induction false} EveryClassHasATurn(cursor: nat, p: Priority)
    requires cursor < 7
    ensures exists c: nat :: cursor <= c < cursor + 7 && Limiter.ClassAt(c) == p
  {
    var c: nat := match p
      case Interactive => if cursor < 4 then cursor else 7
      case Normal => if cursor <= 4 then 4 else if cursor == 5 then 5 else 11
      case Background => 6;
    assert cursor <= c < cursor + 7 && Limiter.ClassAt(c) == p;
  }

  /** Everything that was generated is told, in order, under the id of its request. */
  predicate Passed(events: seq<Event>, gens: seq<(nat, Generation)>, a: seq<Running>) {
    |events| == |gens| && forall i | 0 <= i < |gens| ::
      gens[i].0 < |a| && events[i] == Generated(a[gens[i].0].id, gens[i].1)
  }

  lemma {:induction false} PassedIsAsLong(events: seq<Event>, gens: seq<(nat, Generation)>, a: seq<Running>)
    requires Passed(events, gens, a)
    ensures |events| == |gens|
  {
  }

  predicate EndsAt(g: (nat, Generation), k: nat) { g.0 == k && EndsRequest(g.1) }

  predicate EndedIn(gens: seq<(nat, Generation)>, n: nat, k: nat)
    requires n <= |gens|
  {
    exists j :: 0 <= j < n && EndsAt(gens[j], k)
  }

  /** After the first `n` things that a step told: exactly those requests are done that were told to end. */
  predicate Progressed(was: seq<Running>, now: seq<Running>, gens: seq<(nat, Generation)>, n: nat)
    requires n <= |gens|
  {
    |now| == |was| && forall k | 0 <= k < |was| ::
      SameRequest(now[k], was[k]) && (now[k].done <==> was[k].done || EndedIn(gens, n, k))
  }

  lemma {:induction false} ProgressedOn(was: seq<Running>, now: seq<Running>, gens: seq<(nat, Generation)>, n: nat, r: Running)
    requires n < |gens| && gens[n].0 < |now| && Progressed(was, now, gens, n) && !now[gens[n].0].done
    requires r == now[gens[n].0].(done := EndsRequest(gens[n].1))
    ensures Progressed(was, now[gens[n].0 := r], gens, n + 1)
  {
    var after := now[gens[n].0 := r];
    forall k: nat | k < |was|
      ensures SameRequest(after[k], was[k]) && (after[k].done <==> was[k].done || EndedIn(gens, n + 1, k))
    {
      assert SameRequest(now[k], was[k]);
      if EndedIn(gens, n, k) {
        var j :| 0 <= j < n && EndsAt(gens[j], k);
      }
      if EndsAt(gens[n], k) { assert EndedIn(gens, n + 1, k); }
    }
  }

  /** Whoever the rest is about is not done yet. */
  predicate StillToPass(gens: seq<(nat, Generation)>, i: nat, a: seq<Running>) {
    forall j | i <= j < |gens| :: gens[j].0 < |a| && !a[gens[j].0].done
  }

  lemma {:induction false} NothingPassed(gens: seq<(nat, Generation)>, a: seq<Running>)
    ensures Passed([], gens[..0], a) && Progressed(a, a, gens, 0) && Starts([]) == []
  {
  }

  lemma {:induction false} PassedOn(events: seq<Event>, gens: seq<(nat, Generation)>, i: nat, was: seq<Running>, e: Event)
    requires i < |gens| && Passed(events, gens[..i], was)
    requires gens[i].0 < |was| && e == Generated(was[gens[i].0].id, gens[i].1)
    ensures Passed(events + [e], gens[..i + 1], was)
  {
    assert gens[..i + 1] == gens[..i] + [gens[i]];
  }

  lemma {:induction false} ProgressedStill(was: seq<Running>, a: seq<Running>, b: seq<Running>, gens: seq<(nat, Generation)>)
    requires Progressed(was, a, gens, |gens|) && |a| == |b|
    requires forall k | 0 <= k < |a| :: SameRequest(b[k], a[k]) && b[k].done == a[k].done
    ensures Progressed(was, b, gens, |gens|)
  {
  }

  predicate SameRequest(a: Running, b: Running) {
    a.id == b.id && a.model == b.model && a.priority == b.priority && a.cancelled == b.cancelled
  }

  /** What one turn of the admission loop does with the request at place `k`. */
  predicate Outcome(w: seq<Waiting>, a: seq<Running>, k: nat, events: seq<Event>, goOn: bool, w': seq<Waiting>, a': seq<Running>)
    requires k < |w|
  {
    if !goOn then events == [] && a' == a && (w' == w || w' == [w[k]] + Without(w, k))
    else
      && w' == Without(w, k)
      && if a' == a then events == [Error(w[k].id)]
        else
          && events == [Started(w[k].id)] && |a'| == |a| + 1
          && var r := a'[|a|];
            r.id == w[k].id && w[k].model == Some(r.model) && r.priority == w[k].priority && !r.done && !r.cancelled
  }

  /** What the loaded model allows: how many active requests, now and at most, and if it has an encoder, only one. */
  datatype Capacity = Capacity(encoder: bool, maxActive: int, ceiling: int)

  const NO_CAPACITY := Capacity(false, 0, 0)

  predicate Closed(a: seq<Running>, c: Capacity) { (c.encoder && a != []) || |a| >= c.maxActive }

  /** A loaded model runs at least one request. */
  predicate HasRoom(loaded: Option<nat>, c: Capacity) { loaded.Some? ==> c.maxActive >= 1 }

  /** A request has to wait as long as another model runs requests, or as its own has no room. */
  predicate Held(w: Waiting, a: seq<Running>, loaded: Option<nat>, c: Capacity) {
    w.model.Some? && a != [] && (loaded != w.model || Closed(a, c))
  }

  /** There is room for the first request in the queue and its model is loaded, but it was put back. */
  predicate PutBack(w: seq<Waiting>, a: seq<Running>, loaded: Option<nat>, c: Capacity) {
    w != [] && w[0].model.Some? && loaded == w[0].model && !Closed(a, c)
  }

  /** The first request of some class has to wait. */
  predicate SomeoneHeld(w: seq<Waiting>, a: seq<Running>, loaded: Option<nat>, c: Capacity) {
    exists k :: 0 <= k < |w| && FirstOfClass(w, k) && Held(w[k], a, loaded, c)
  }

  /** Why nobody else was started: nobody waits, somebody was put back, or the next one has to wait. */
  predicate Waits(pressed: bool, w: seq<Waiting>, a: seq<Running>, loaded: Option<nat>, c: Capacity) {
    w == [] || if pressed then PutBack(w, a, loaded, c) else SomeoneHeld(w, a, loaded, c)
  }

  method AnyCapacity() returns (c: Capacity)
    ensures c.maxActive >= 1 && c.ceiling >= 1
  {
    c := *;
    if c.maxActive < 1 || c.ceiling < 1 { c := Capacity(c.encoder, 1, 1); }
  }

  /** Nobody was started beyond the limit. */
  predicate WithinCapacity(before: seq<Running>, a: seq<Running>, c: Capacity) {
    |a| > |before| ==> |a| <= c.maxActive && (c.encoder ==> |a| == 1)
  }

  lemma {:induction false} StillActiveIsNoLonger(a: seq<Running>)
    ensures |StillActive(a)| <= |a|
  {
    if a != [] { StillActiveIsNoLonger(a[..|a| - 1]); }
  }

  /** A request that was just prepared: it prefills. */
  function Entered(w: Waiting, hasWork: bool): Running
    requires w.model.Some?
  {
    Running(w.id, w.model.value, w.priority, false, hasWork, false, false)
  }

  class Scheduler {
    var waiting: seq<Waiting>
    var active: seq<Running>
    var cursor: nat
    var loaded: Option<nat>
    var capacity: Capacity
    ghost var started: seq<Waiting>
    ghost var ticks: nat
    var next: nat

    constructor ()
      ensures Valid() && waiting == [] && active == [] && loaded == None && started == [] && capacity == NO_CAPACITY
      ensures ticks == 0
    {
      waiting, active, cursor, loaded, capacity, started, next := [], [], 0, None, NO_CAPACITY, [], 0;
      ticks := 0;
    }

    /** Requests of one class are started in the order in which they came, and all active ones run the
        loaded model. */
    ghost predicate Valid()
      reads this
    {
      cursor < 7 && InLine(waiting, started, next) && OneModel(active, loaded) && HasRoom(loaded, capacity)
    }

    method Enqueue(id: Id, model: Option<nat>, priority: Priority)
      requires Valid()
      modifies this`waiting, this`next
      ensures Valid() && waiting == old(waiting) + [Waiting(id, model, priority, old(next))]
      ensures forall other :: Live(waiting, active, other) == Live(old(waiting), active, other) + if other == id then 1 else 0
    {
      ghost var w := Waiting(id, model, priority, next);
      forall other ensures InQueue(waiting + [w], other) == InQueue(waiting, other) + if other == id then 1 else 0 {
        QueueSum(waiting, [w], other);
        QueueOne(w, other);
      }
      waiting := waiting + [Waiting(id, model, priority, next)];
      next := next + 1;
    }

    method Select() returns (k: nat)
      requires Valid() && waiting != []
      modifies this`cursor
      ensures cursor < 7 && InTurn(waiting, old(cursor), k, cursor)
    {
      k := 0;
      var offset := 0;
      while offset < 7
        invariant 0 <= offset <= 7 && cursor == old(cursor)
        invariant forall c | cursor <= c < cursor + offset :: !HasClass(waiting, Limiter.ClassAt(c))
      {
        var found := FindClass(Limiter.ClassAt(cursor + offset));
        if found.Some? {
          k := found.value;
          assert Turn(waiting, cursor, waiting[k].priority, offset);
          cursor := (cursor + offset + 1) % 7;
          return;
        }
        offset := offset + 1;
      }
      EveryClassHasATurn(cursor, waiting[0].priority);
      assert HasClass(waiting, waiting[0].priority);
      assert false;
    }

    method FindClass(p: Priority) returns (found: Option<nat>)
      ensures found.Some? ==> FirstOfClass(waiting, found.value) && waiting[found.value].priority == p
      ensures found.None? ==> !HasClass(waiting, p)
    {
      var k: nat := 0;
      while k < |waiting|
        invariant k <= |waiting| && forall j | 0 <= j < k :: waiting[j].priority != p
      {
        if waiting[k].priority == p { return Some(k); }
        k := k + 1;
      }
      return None;
    }

    /** Nothing is loaded over another model while requests are active. */
    method LoadModel(model: nat) returns (ok: bool)
      requires active == [] || loaded == Some(model)
      modifies this`loaded, this`capacity
      ensures loaded == if ok then Some(model) else None
      ensures old(loaded) == Some(model) ==> ok && capacity == old(capacity)
      ensures !ok ==> capacity == NO_CAPACITY
      ensures ok && old(loaded) != Some(model) ==> capacity.maxActive >= 1
    {
      if loaded == Some(model) { return true; }
      loaded, capacity := None, NO_CAPACITY;
      ok := *;
      if ok {
        loaded := Some(model);
        capacity := AnyCapacity();
      }
    }

    /** The limit on active requests, at least one and no more than the ceiling. */
    method SetMaxActive(requested: int) returns (ok: bool)
      requires Valid()
      modifies this`capacity
      ensures Valid() && (ok <==> requested > 0)
      ensures capacity.encoder == old(capacity).encoder && capacity.ceiling == old(capacity).ceiling
      ensures if ok then 1 <= capacity.maxActive <= requested && (capacity.maxActive == 1 || capacity.maxActive <= capacity.ceiling)
        else capacity == old(capacity)
      ensures ok ==> capacity.maxActive == requested || capacity.maxActive >= capacity.ceiling
    {
      if requested <= 0 { return false; }
      var most := if requested < capacity.ceiling then requested else capacity.ceiling;
      capacity := capacity.(maxActive := if most < 1 then 1 else most);
      return true;
    }

    method UnloadModel()
      requires Valid() && active == []
      modifies this`loaded, this`capacity
      ensures Valid() && loaded == None && capacity == NO_CAPACITY
    {
      loaded, capacity := None, NO_CAPACITY;
    }

    method Drop(k: nat)
      requires Valid() && k < |waiting|
      modifies this`waiting
      ensures Valid() && waiting == Without(old(waiting), k)
    {
      LineWithout(waiting, started, next, k);
      waiting := waiting[..k] + waiting[k + 1..];
    }

    /** The next request in turn: it fails, has to wait, or is ready to be prepared. */
    method SelectNext() returns (k: nat, ready: bool, events: seq<Event>, goOn: bool)
      requires Valid() && waiting != []
      modifies this`cursor, this`waiting, this`loaded, this`capacity
      ensures Valid() && Reports(old(waiting), active, events, waiting, active) && Starts(events) == []
      ensures InTurn(old(waiting), old(cursor), k, cursor)
      ensures active != [] ==> loaded == old(loaded) && capacity == old(capacity)
      ensures ready ==> !Closed(active, capacity)
      ensures !ready && !goOn ==> waiting == old(waiting) && Held(waiting[k], active, loaded, capacity)
      ensures !ready && goOn ==> old(waiting)[k].model.None? || loaded.None?
      ensures !ready ==> Outcome(old(waiting), active, k, events, goOn, waiting, active)
      ensures ready ==> events == [] && waiting == old(waiting) && waiting[k].model.Some? && loaded == waiting[k].model
    {
      k := Select();
      ready, goOn := false, true;
      var w := waiting[k];
      StartsOne(Error(w.id));
      NothingToReport(waiting, active, waiting, active);
      LeavesQueue(waiting, active, k, Error(w.id));
      ReportMore(waiting, active, [], waiting, active, Error(w.id), Without(waiting, k), active);
      if w.model.None? {
        Drop(k);
        events := [Error(w.id)];
        return;
      }
      events := [];
      if active != [] && loaded.Some? && loaded != w.model { goOn := false; return; }
      assert active != [] ==> loaded == Some(active[0].model);
      var ok := LoadModel(w.model.value);
      if !ok {
        Drop(k);
        events := [Error(w.id)];
        return;
      }
      if (capacity.encoder && active != []) || |active| >= capacity.maxActive { goOn := false; return; }
      ready := true;
    }

    /** One turn of the admission loop: the selected request fails, starts, or has to wait. */
    method AdmitOne() returns (events: seq<Event>, goOn: bool, ghost k: nat, ghost pressed: bool)
      requires Valid() && waiting != []
      modifies this`cursor, this`waiting, this`active, this`loaded, this`capacity, this`started
      ensures Valid() && Reports(old(waiting), old(active), events, waiting, active)
      ensures InTurn(old(waiting), old(cursor), k, cursor)
      ensures Outcome(old(waiting), old(active), k, events, goOn, waiting, active)
      ensures Chronicle(old(started), events, started)
      ensures old(active) <= active && (old(active) != [] ==> loaded == old(loaded) && capacity == old(capacity))
      ensures !goOn && !pressed ==> waiting == old(waiting) && Held(waiting[k], active, loaded, capacity)
      ensures pressed ==> !goOn && PutBack(waiting, active, loaded, capacity)
      ensures WithinCapacity(old(active), active, capacity)
    {
      var selected, ready;
      selected, ready, events, goOn := SelectNext();
      k, pressed := selected, false;
      if ready {
        var outcome: Preparation := *;
        var hasWork: bool := *;
        events, goOn := PrepareSelected(selected, outcome, hasWork);
        pressed := outcome.Backpressure?;
      }
    }

    method PrepareSelected(k: nat, outcome: Preparation, hasWork: bool) returns (events: seq<Event>, goOn: bool)
      requires Valid() && FirstOfClass(waiting, k) && waiting[k].model.Some? && loaded == waiting[k].model
      modifies this`waiting, this`active, this`started
      ensures Valid() && Reports(old(waiting), old(active), events, waiting, active)
      ensures Outcome(old(waiting), old(active), k, events, goOn, waiting, active)
      ensures Chronicle(old(started), events, started) && old(active) <= active
      ensures goOn <==> !outcome.Backpressure?
      ensures waiting == (if goOn then [] else [old(waiting)[k]]) + Without(old(waiting), k)
      ensures outcome.Prepared? ==> events == [Started(old(waiting)[k].id)]
      ensures active == if outcome.Prepared? then old(active) + [Entered(old(waiting)[k], hasWork)] else old(active)
    {
      hide Reports, Moved, InLine;
      var w := waiting[k];
      NothingToReport(waiting, active, waiting, active);
      StartsOne(Error(w.id));
      assert [] + [Started(w.id)] == [Started(w.id)] && [] + [Error(w.id)] == [Error(w.id)];
      match outcome {
        case Prepared =>
          var r := Entered(w, hasWork);
          LineAfterStart(waiting, started, next, k);
          ChronicleOne(started, w);
          StartsRunning(waiting, active, k, r);
          ReportMore(waiting, active, [], waiting, active, Started(w.id), Without(waiting, k), active + [r]);
          started := started + [w];
          waiting := waiting[..k] + waiting[k + 1..];
          active := active + [r];
          return [Started(w.id)], true;
        case Backpressure =>
          LineAfterPutBack(waiting, started, next, k);
          forall id ensures Live([w] + Without(waiting, k), active, id) == Live(waiting, active, id) {
            PutBackKeeps(waiting, k, id);
          }
          NothingToReport(waiting, active, [w] + Without(waiting, k), active);
          waiting := [w] + (waiting[..k] + waiting[k + 1..]);
          return [], false;
        case Refused =>
          LeavesQueue(waiting, active, k, Error(w.id));
          ReportMore(waiting, active, [], waiting, active, Error(w.id), Without(waiting, k), active);
          Drop(k);
          return [Error(w.id)], true;
      }
    }

    /** Requests are started in turn until the queue is empty, the next one has to wait, or there is back-pressure. */
    method Admit() returns (events: seq<Event>, ghost pressed: bool)
      requires Valid()
      modifies this`cursor, this`waiting, this`active, this`loaded, this`capacity, this`started
      ensures Valid() && Reports(old(waiting), old(active), events, waiting, active)
      ensures Chronicle(old(started), events, started)
      ensures old(active) <= active && (old(active) != [] ==> loaded == old(loaded) && capacity == old(capacity))
      ensures Waits(pressed, waiting, active, loaded, capacity)
      ensures WithinCapacity(old(active), active, capacity)
    {
      events, pressed := [], false;
      NothingToReport(waiting, active, waiting, active);
      while waiting != []
        invariant Valid() && Reports(old(waiting), old(active), events, waiting, active)
        invariant Chronicle(old(started), events, started)
        invariant old(active) <= active && (old(active) != [] ==> loaded == old(loaded) && capacity == old(capacity))
        invariant WithinCapacity(old(active), active, capacity) && !pressed
        decreases |waiting|
      {
        ghost var (w, a, s) := (waiting, active, started);
        var more, goOn, k, putBack := AdmitOne();
        ChronicleOn(old(started), events, s, more, started);
        ReportsOn(old(waiting), old(active), events, w, a, more, waiting, active);
        events := events + more;
        if !goOn {
          pressed := putBack;
          break;
        }
      }
    }

    /** Marks the active ones as cancelled; a queued one leaves at once. */
    method Cancel(target: Id) returns (events: seq<Event>)
      requires Valid()
      modifies this`active, this`waiting
      ensures Valid() && Reports(old(waiting), old(active), events, waiting, active)
      ensures target != Protocol.NO_ID ==> InQueue(waiting, target) == 0 || InQueue(waiting, target) < InQueue(old(waiting), target)
      ensures Withdrawn(old(waiting), target, events, waiting)
      ensures target == Protocol.NO_ID ==> events == [] && waiting == old(waiting)
      ensures |active| == |old(active)| && forall k | 0 <= k < |active| ::
        active[k] == old(active)[k].(cancelled := old(active)[k].cancelled
          || (!old(active)[k].done && (target == Protocol.NO_ID || old(active)[k].id == target)))
    {
      MarkCancelled(target);
      NothingToReport(old(waiting), old(active), waiting, active);
      if target == Protocol.NO_ID { return []; }
      var k: nat := 0;
      while k < |waiting| && waiting[k].id != target
        invariant k <= |waiting| && forall j | 0 <= j < k :: waiting[j].id != target
      {
        k := k + 1;
      }
      if k == |waiting| {
        NotInQueue(waiting, target);
        return [];
      }
      LeavesQueue(waiting, active, k, QueuedCancelled(target));
      ReportMore(old(waiting), old(active), [], waiting, active, QueuedCancelled(target), Without(waiting, k), active);
      QueueWithout(waiting, k, target);
      Drop(k);
      return [QueuedCancelled(target)];
    }

    method MarkCancelled(target: Id)
      requires Valid()
      modifies this`active
      ensures Valid() && |active| == |old(active)|
      ensures forall k | 0 <= k < |active| ::
        active[k] == old(active)[k].(cancelled := old(active)[k].cancelled
          || (!old(active)[k].done && (target == Protocol.NO_ID || old(active)[k].id == target)))
      ensures forall id :: Live(waiting, active, id) == Live(waiting, old(active), id)
    {
      var k: nat := 0;
      while k < |active|
        invariant k <= |active| == |old(active)|
        invariant forall j | 0 <= j < k ::
          active[j] == old(active)[j].(cancelled := old(active)[j].cancelled
            || (!old(active)[j].done && (target == Protocol.NO_ID || old(active)[j].id == target)))
        invariant forall j | k <= j < |active| :: active[j] == old(active)[j]
      {
        if !active[k].done && (target == Protocol.NO_ID || active[k].id == target) {
          active := active[k := active[k].(cancelled := true)];
        }
        k := k + 1;
      }
      forall id ensures Undone(active, id) == Undone(old(active), id) { SameUndone(active, old(active), id); }
    }

    /** Completes every active request that was cancelled, or every one. */
    method CompleteCancelled(all: bool) returns (events: seq<Event>)
      requires Valid()
      modifies this`active
      ensures Valid() && Reports(waiting, old(active), events, waiting, active) && |active| == |old(active)|
      ensures forall k | 0 <= k < |active| :: active[k] == Completed(old(active)[k], all)
      ensures Starts(events) == []
    {
      events := [];
      NothingToReport(waiting, active, waiting, active);
      var k: nat := 0;
      while k < |active|
        invariant k <= |active| == |old(active)| && Valid()
        invariant Reports(waiting, old(active), events, waiting, active)
        invariant forall j | 0 <= j < k :: active[j] == Completed(old(active)[j], all)
        invariant forall j | k <= j < |active| :: active[j] == old(active)[j]
        invariant Starts(events) == []
      {
        if !active[k].done && (all || active[k].cancelled) {
          ghost var a := active;
          var e := CompleteOne(k);
          StartsSum(events, [e]);
          StartsOne(e);
          ReportMore(waiting, old(active), events, waiting, a, e, waiting, active);
          events := events + [e];
        }
        k := k + 1;
      }
    }

    method CompleteOne(k: nat) returns (e: Event)
      requires Valid() && k < |active| && !active[k].done
      modifies this`active
      ensures Valid() && Moved(waiting, old(active), e, waiting, active) && e == Completion(old(active)[k].id)
      ensures active == old(active)[k := Completed(old(active)[k], true)]
    {
      var r := active[k].(done := true, cancelled := true);
      e := Completion(r.id);
      ActiveTells(waiting, active, k, r, e);
      active := active[k := r];
    }

    method DecodeFirst() returns (ordered: seq<nat>)
      ensures ordered == DecodeOrder(active)
    {
      ordered := [];
      var n: nat := 0;
      while n < 3
        invariant n <= 3 && ordered == FirstClasses(active, n)
      {
        var places := PickBoth(ClassNo(n));
        ordered := ordered + places;
        n := n + 1;
      }
      ThreeClasses(active);
    }

    method PickBoth(p: Priority) returns (places: seq<nat>)
      ensures places == PickClass(active, p)
    {
      var decoding := PickPhase(p, true);
      var prefilling := PickPhase(p, false);
      places := decoding + prefilling;
    }

    method PickPhase(p: Priority, decoding: bool) returns (places: seq<nat>)
      ensures places == Pick(active, p, decoding, |active|)
    {
      places := [];
      var k: nat := 0;
      while k < |active|
        invariant k <= |active| && places == Pick(active, p, decoding, k)
      {
        var r := active[k];
        if !r.done && (r.decoding || r.hasWork) && r.priority == p && r.decoding == decoding { places := places + [k]; }
        k := k + 1;
      }
    }

    /** Runs one step and passes on what it generated. */
    method StepAll(ordered: seq<nat>) returns (events: seq<Event>, ghost gens: seq<(nat, Generation)>)
      requires Valid() && forall k | k in ordered :: k < |active| && !active[k].done
      modifies this`active
      ensures Valid() && Reports(waiting, old(active), events, waiting, active) && Starts(events) == []
      ensures StepOk(gens, ordered) && Passed(events, gens, old(active)) && Progressed(old(active), active, gens, |gens|)
    {
      var told := AnyStep(ordered);
      gens := told;
      events := PassOn(told, ordered);
      ghost var a := active;
      var flags := AnyFlags(|active|);
      MoveOn(flags);
      ProgressedStill(old(active), a, active, gens);
    }

    method PassOn(gens: seq<(nat, Generation)>, ghost ordered: seq<nat>) returns (events: seq<Event>)
      requires Valid() && (forall k | k in ordered :: k < |active| && !active[k].done) && StepOk(gens, ordered)
      modifies this`active
      ensures Valid() && Reports(waiting, old(active), events, waiting, active) && Starts(events) == []
      ensures Passed(events, gens, old(active)) && Progressed(old(active), active, gens, |gens|)
    {
      hide InLine, OneModel, HasRoom, Reports, Moved, Passed, Progressed, Starts;
      events := [];
      NothingToReport(waiting, active, waiting, active);
      NothingPassed(gens, active);
      var i: nat := 0;
      while i < |gens|
        invariant i <= |gens| && Valid() && |active| == |old(active)|
        invariant Reports(waiting, old(active), events, waiting, active) && Starts(events) == []
        invariant Passed(events, gens[..i], old(active)) && Progressed(old(active), active, gens, i)
        invariant StillToPass(gens, i, active)
      {
        ghost var a := active;
        var e := PassOne(gens, i, old(active));
        PassedOn(events, gens, i, old(active), e);
        ReportMore(waiting, old(active), events, waiting, a, e, waiting, active);
        StartsSum(events, [e]);
        StartsOne(e);
        events := events + [e];
        i := i + 1;
      }
      assert gens[..i] == gens;
    }

    /** Tells one thing that the step generated. */
    method PassOne(gens: seq<(nat, Generation)>, i: nat, ghost was: seq<Running>) returns (e: Event)
      requires Valid() && i < |gens| && Progressed(was, active, gens, i) && StillToPass(gens, i, active)
      requires forall j, k | 0 <= j < k < |gens| && gens[j].0 == gens[k].0 :: !EndsRequest(gens[j].1)
      modifies this`active
      ensures StillToPass(gens, i + 1, active) && |active| == |old(active)| && gens[i].0 < |was|
      ensures Valid() && Moved(waiting, old(active), e, waiting, active) && Progressed(was, active, gens, i + 1)
      ensures e == Generated(was[gens[i].0].id, gens[i].1)
      ensures active == old(active)[gens[i].0 := active[gens[i].0]]
      ensures active[gens[i].0].done <==> EndsRequest(gens[i].1)
    {
      var (k, g) := gens[i];
      var r := active[k].(done := EndsRequest(g));
      e := Generated(r.id, g);
      ProgressedOn(was, active, gens, i, r);
      ActiveTells(waiting, active, k, r, e);
      active := active[k := r];
    }

    /** Takes over where the requests stand after a step: whether each decodes, and whether it has unread
        prompt. */
    method MoveOn(flags: seq<(bool, bool)>)
      requires Valid() && |flags| == |active|
      modifies this`active
      ensures Valid() && forall id :: Live(waiting, active, id) == Live(waiting, old(active), id)
      ensures |active| == |old(active)|
      ensures forall k | 0 <= k < |active| ::
        active[k] == old(active)[k].(decoding := flags[k].0, hasWork := flags[k].1)
      ensures forall w, a, events | Reports(w, a, events, waiting, old(active)) :: Reports(w, a, events, waiting, active)
    {
      var k: nat := 0;
      while k < |active|
        invariant k <= |active| == |old(active)| && Valid()
        invariant forall j | 0 <= j < k :: active[j] == old(active)[j].(decoding := flags[j].0, hasWork := flags[j].1)
        invariant forall j | k <= j < |active| :: active[j] == old(active)[j]
      {
        active := active[k := active[k].(decoding := flags[k].0, hasWork := flags[k].1)];
        k := k + 1;
      }
      forall id ensures Undone(active, id) == Undone(old(active), id) { SameUndone(active, old(active), id); }
    }

    method EraseDone()
      requires Valid()
      modifies this`active
      ensures Valid() && active == StillActive(old(active))
      ensures forall id :: Live(waiting, active, id) == Live(waiting, old(active), id)
    {
      var kept: seq<Running> := [];
      var k: nat := 0;
      while k < |active|
        invariant k <= |active| && kept == StillActive(active[..k])
      {
        assert active[..k + 1][..k] == active[..k];
        if !active[k].done { kept := kept + [active[k]]; }
        k := k + 1;
      }
      assert active[..k] == active;
      EraseKeepsModel(active, loaded);
      forall id ensures Undone(kept, id) == Undone(active, id) { EraseKeeps(active, id); }
      active := kept;
    }

    /** Runs a step over what can run, if anything can. */
    method StepRunnable() returns (events: seq<Event>, ghost gens: seq<(nat, Generation)>)
      requires Valid()
      modifies this`active
      ensures Valid() && Reports(waiting, old(active), events, waiting, active) && Starts(events) == []
      ensures StepOk(gens, DecodeOrder(old(active))) && Passed(events, gens, old(active))
      ensures Progressed(old(active), active, gens, |gens|)
    {
      hide DecodeOrder, InLine, OneModel;
      events, gens := [], [];
      NothingToReport(waiting, active, waiting, active);
      var ordered := DecodeFirst();
      if ordered != [] {
        forall k | k in ordered ensures k < |active| && !active[k].done { OrderHasEachOnce(active, k); }
        events, gens := StepAll(ordered);
      }
    }

    /** Completes what was cancelled, runs a step over what can run, and erases what is done. `middle` is
        the active set that the step was given and `last` the one that it left. */
    method Generate() returns (events: seq<Event>, ghost gens: seq<(nat, Generation)>, ghost at: nat,
                               ghost middle: seq<Running>, ghost last: seq<Running>)
      requires Valid()
      modifies this`active
      ensures Valid() && Reports(waiting, old(active), events, waiting, active) && AllRunning(active)
      ensures Starts(events) == []
      ensures |middle| == |old(active)| && forall k | 0 <= k < |middle| :: middle[k] == Completed(old(active)[k], false)
      ensures StepOk(gens, DecodeOrder(middle)) && Progressed(middle, last, gens, |gens|) && active == StillActive(last)
      ensures at + |gens| <= |events| && Passed(events[at..at + |gens|], gens, middle)
    {
      hide InLine, OneModel, Reports, StillActive, AllRunning, DecodeOrder, StepOk, Progressed, Starts;
      var completed := CompleteCancelled(false);
      at, middle := |completed|, active;
      var told;
      told, gens := StepRunnable();
      last := active;
      var news := Sweep();
      ReportsOn(waiting, old(active), completed, waiting, middle, told, waiting, last);
      ReportsOn(waiting, old(active), completed + told, waiting, last, news, waiting, active);
      StartsSum(completed, told);
      StartsSum(completed + told, news);
      events := completed + told + news;
      assert events[at..at + |gens|] == told by { PassedIsAsLong(told, gens, middle); }
    }

    /** Erases what is done, and tells if that was anything. */
    method Sweep() returns (events: seq<Event>)
      requires Valid()
      modifies this`active
      ensures Valid() && active == StillActive(old(active)) && AllRunning(active)
      ensures Reports(waiting, old(active), events, waiting, active) && Starts(events) == []
      ensures events == if |active| == |old(active)| then [] else [Topology]
    {
      var before := |active|;
      EraseDone();
      StillRunning(old(active));
      events := [];
      NothingToReport(waiting, old(active), waiting, active);
      if |active| != before {
        StartsOne(Topology);
        TopologyMoves(waiting, active);
        ReportMore(waiting, old(active), [], waiting, active, Topology, waiting, active);
        events := [Topology];
      }
    }

    /** Admission, then a step. `admitted` are the active requests that the step begins with. */
    method Tick() returns (events: seq<Event>, ghost admitted: seq<Running>, ghost pressed: bool)
      requires Valid() && AllRunning(active)
      modifies this
      ensures Valid() && Reports(old(waiting), old(active), events, waiting, active) && AllRunning(active)
      ensures Chronicle(old(started), events, started) && ticks == old(ticks) + 1
      ensures old(active) <= admitted && WithinCapacity(old(active), admitted, capacity) && |active| <= |admitted|
      ensures Waits(pressed, waiting, admitted, loaded, capacity)
    {
      ticks := ticks + 1;
      events, pressed := Admit();
      admitted := active;
      if active != [] {
        ghost var (w, a) := (waiting, active);
        var more, _, _, _, last := Generate();
        StillActiveIsNoLonger(last);
        ChronicleOn(old(started), events, started, more, started);
        ReportsOn(old(waiting), old(active), events, w, a, more, waiting, active);
        events := events + more;
      }
    }

    /** Ends everything, in the queue too. */
    method CancelAll() returns (events: seq<Event>)
      requires Valid()
      modifies this`active, this`waiting
      ensures Valid() && active == [] && waiting == []
      ensures Reports(old(waiting), old(active), events, waiting, active)
    {
      events := CompleteCancelled(true);
      ghost var a := active;
      Clear();
      ReportsOn(waiting, old(active), events, waiting, a, [], waiting, active);
      assert events + [] == events;
      var more := CancelWaiting();
      ReportsOn(old(waiting), old(active), events, old(waiting), active, more, waiting, active);
      events := events + more;
    }

    method Clear()
      requires Valid() && forall k | 0 <= k < |active| :: active[k].done
      modifies this`active
      ensures Valid() && active == [] && Reports(waiting, old(active), [], waiting, active)
    {
      forall id ensures Undone(active, id) == Undone([], id) { AllDone(active, id); }
      NothingToReport(waiting, active, waiting, []);
      active := [];
    }

    method CancelWaiting() returns (events: seq<Event>)
      requires Valid()
      modifies this`waiting
      ensures Valid() && waiting == [] && Reports(old(waiting), active, events, waiting, active)
      ensures |events| == |old(waiting)| && forall k | 0 <= k < |events| :: events[k] == QueuedCancelled(old(waiting)[k].id)
    {
      events := [];
      NothingToReport(waiting, active, waiting, active);
      while waiting != []
        invariant Valid() && Reports(old(waiting), active, events, waiting, active)
        invariant |events| <= |old(waiting)| && waiting == old(waiting)[|events|..]
        invariant forall k | 0 <= k < |events| :: events[k] == QueuedCancelled(old(waiting)[k].id)
        decreases |waiting|
      {
        var w := waiting[0];
        LeavesQueue(waiting, active, 0, QueuedCancelled(w.id));
        ReportMore(old(waiting), active, events, waiting, active, QueuedCancelled(w.id), Without(waiting, 0), active);
        Drop(0);
        events := events + [QueuedCancelled(w.id)];
      }
    }
  }

  predicate AllRunning(a: seq<Running>) { forall k | 0 <= k < |a| :: !a[k].done }

  lemma {:induction false} StillRunning(a: seq<Running>)
    ensures AllRunning(StillActive(a))
  {
    if a != [] { StillRunning(a[..|a| - 1]); }
  }

  lemma {:induction false} AllDone(a: seq<Running>, id: Id)
    requires forall k | 0 <= k < |a| :: a[k].done
    ensures Undone(a, id) == 0
  {
    if a != [] { AllDone(a[..|a| - 1], id); }
  }

  lemma {:induction false} TopologyMoves(w: seq<Waiting>, a: seq<Running>)
    ensures Moved(w, a, Topology, w, a)
  {
  }

  lemma {:induction false} NotInQueue(w: seq<Waiting>, id: Id)
    requires forall j | 0 <= j < |w| :: w[j].id != id
    ensures InQueue(w, id) == 0
  {
    if w != [] { NotInQueue(w[..|w| - 1], id); }
  }

  lemma {:induction false} SameUndone(a: seq<Running>, b: seq<Running>, id: Id)
    requires |a| == |b| && forall k | 0 <= k < |a| :: a[k].id == b[k].id && a[k].done == b[k].done
    ensures Undone(a, id) == Undone(b, id)
  {
    if a != [] { SameUndone(a[..|a| - 1], b[..|b| - 1], id); }
  }
}

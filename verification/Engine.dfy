/** The scheduler with what it calls: an admission prepares a request, a step is the stepper's step, and a
    cancelled request is finished. What is told about a request, over any run and among all others, is its
    start, what its steps told of it, and its cancellation. */
module Engines {

  import opened Common
  import opened CacheExecutors
  import opened Pipeline
  import opened Requests
  import opened Stepper
  import P = Protocol
  import RequestText
  import S = Schedulers
  import W = Workers

  type Id = P.Id

  // ---------------------------------------------------------------- what was told about one request

  lemma {:induction false} AboutSum(a: seq<S.Event>, b: seq<S.Event>, id: Id)
    ensures W.AboutOnly(a + b, id) == W.AboutOnly(a, id) + W.AboutOnly(b, id)
  {
    if b == [] {
      assert a + b == a;
    } else {
      AboutSum(a, b[..|b| - 1], id);
      assert (a + b)[..|a + b| - 1] == a + b[..|b| - 1];
    }
  }

  lemma {:induction false} AboutOne(e: S.Event, id: Id)
    ensures W.AboutOnly([e], id) == if S.About(e, id) then [e] else []
  {
    assert [e][..0] == [];
  }

  lemma {:induction false} AboutNone(events: seq<S.Event>, id: Id)
    requires forall k | 0 <= k < |events| :: !S.About(events[k], id)
    ensures W.AboutOnly(events, id) == []
  {
    if events != [] { AboutNone(events[..|events| - 1], id); }
  }

  lemma {:induction false} AboutAll(events: seq<S.Event>, id: Id)
    requires forall k | 0 <= k < |events| :: S.About(events[k], id)
    ensures W.AboutOnly(events, id) == events
  {
    if events != [] { AboutAll(events[..|events| - 1], id); }
  }

  /** What a step tells, under the ids of its requests. */
  function Named(told: seq<Told>): seq<S.Event> {
    seq(|told|, i requires 0 <= i < |told| => S.Generated(told[i].request.spec.id, AsGeneration(told[i].event)))
  }

  ghost predicate DifferentIds(cs: seq<ActiveRequest>) {
    forall i, j | 0 <= i < j < |cs| :: cs[i].spec.id != cs[j].spec.id
  }

  lemma {:induction false} NamedOneMore(cs: seq<ActiveRequest>, outs: seq<seq<Event>>, id: Id)
    requires outs != [] && |outs| <= |cs|
    ensures var (n, own) := (|outs| - 1, cs[|outs| - 1].spec.id == id);
      W.AboutOnly(Named(TellAll(cs, outs)), id)
      == W.AboutOnly(Named(TellAll(cs, outs[..n])), id) + if own then EventsFor(outs[n], id) else []
  {
    var n := |outs| - 1;
    var (before, last) := (Named(TellAll(cs, outs[..n])), Named(Tell(cs[n], outs[n])));
    assert Named(TellAll(cs, outs)) == before + last;
    AboutSum(before, last, id);
    if cs[n].spec.id == id {
      AboutAll(last, id);
      assert last == EventsFor(outs[n], id);
    } else {
      AboutNone(last, id);
    }
  }

  lemma {:induction false} AboutNobody(cs: seq<ActiveRequest>, outs: seq<seq<Event>>, id: Id)
    requires |outs| <= |cs| && forall k | 0 <= k < |outs| :: cs[k].spec.id != id
    ensures W.AboutOnly(Named(TellAll(cs, outs)), id) == []
  {
    if outs != [] {
      AboutNobody(cs, outs[..|outs| - 1], id);
      NamedOneMore(cs, outs, id);
    }
  }

  /** Of everything that a step tells, what is about one contributor is what was told of it. */
  lemma {:induction false} AboutContributor(cs: seq<ActiveRequest>, outs: seq<seq<Event>>, j: nat)
    requires DifferentIds(cs) && j < |outs| <= |cs|
    ensures W.AboutOnly(Named(TellAll(cs, outs)), cs[j].spec.id) == EventsFor(outs[j], cs[j].spec.id)
  {
    var (n, id) := (|outs| - 1, cs[j].spec.id);
    NamedOneMore(cs, outs, id);
    if j < n {
      AboutContributor(cs, outs[..n], j);
      assert EventsFor(outs[j], id) + [] == EventsFor(outs[j], id);
    } else {
      AboutNobody(cs, outs[..n], id);
    }
  }

  /** Under which names the scheduler passes on what a step told. */
  lemma {:induction false} PassedIsNamed(more: seq<S.Event>, told: seq<Told>, ordered: seq<ActiveRequest>, places: seq<nat>,
                                         a: seq<S.Running>)
    requires |places| == |ordered| && forall i | 0 <= i < |told| :: told[i].request in ordered
    requires forall i | 0 <= i < |places| :: places[i] < |a| && a[places[i]].id == ordered[i].spec.id
    requires S.Passed(more, Generations(told, ordered, places), a)
    ensures more == Named(told)
  {
    forall i: nat | i < |told| ensures more[i] == Named(told)[i] {
      assert ordered[PlaceOf(ordered, told[i].request)] == told[i].request;
    }
  }

  /** The scheduler marks exactly those as done that the step ended. */
  lemma {:induction false} EndedIffTold(told: seq<Told>, ordered: seq<ActiveRequest>, places: seq<nat>, i: nat)
    requires |places| == |ordered| && i < |ordered| && Distinct(ordered)
    requires forall p, q | 0 <= p < q < |places| :: places[p] != places[q]
    requires forall p | 0 <= p < |told| :: told[p].request in ordered
    ensures var gens := Generations(told, ordered, places);
      S.EndedIn(gens, |gens|, places[i]) <==> EndTold(told, ordered[i])
  {
    var gens := Generations(told, ordered, places);
    OthersDiffer(ordered, i);
    if S.EndedIn(gens, |gens|, places[i]) {
      var j :| 0 <= j < |gens| && S.EndsAt(gens[j], places[i]);
      assert PlaceOf(ordered, told[j].request) == i;
      assert Final(told[j].event);
    }
    if EndTold(told, ordered[i]) {
      var j :| 0 <= j < |told| && told[j].request == ordered[i] && Final(told[j].event);
      assert PlaceOf(ordered, told[j].request) == i;
      assert S.EndsAt(gens[j], places[i]);
    }
  }

  // ---------------------------------------------------------------- the life of a request

  /** Where a request stood when it last ran, how often it has contributed, what its steps told of it, and
      whether it was cancelled after that. */
  datatype Life = Life(mark: Mark, count: nat, told: seq<Event>, cancelled: bool)

  predicate Over(l: Life) { l.cancelled || !l.mark.terminal.Active? }

  /** All that is told about a request once it has started. */
  function Story(id: Id, l: Life): seq<S.Event> {
    var told := [S.Started(id)] + EventsFor(l.told, id);
    if l.cancelled then told + [S.Completion(id)] else told
  }

  ghost predicate Recorded(events: seq<S.Event>, s: Spec, l: Life) {
    && LivedAs(s, l.mark, l.count, l.told) && (l.cancelled ==> l.mark.terminal.Active?)
    && (l.mark.terminal.Active? ==> l.mark.rank > 0)
    && W.AboutOnly(events, s.id) == Story(s.id, l)
  }

  /** Nothing more about this request. */
  lemma {:induction false} StillRecorded(events: seq<S.Event>, more: seq<S.Event>, s: Spec, l: Life)
    requires Recorded(events, s, l) && W.AboutOnly(more, s.id) == []
    ensures Recorded(events + more, s, l)
  {
    AboutSum(events, more, s.id);
    assert Story(s.id, l) + [] == Story(s.id, l);
  }

  lemma {:induction false} StartRecorded(events: seq<S.Event>, s: Spec, reused: nat)
    requires W.AboutOnly(events, s.id) == [] && reused < |s.full| < s.backend.context && GoodBoundaries(s.boundaries, |s.full|)
    requires s.boundaries != [] ==> s.boundaries[0] > reused
    ensures Recorded(events + [S.Started(s.id)], s,
      Life(Mark(Rank(s, Start(s, reused)), reused, reused, NoPast(s), Active), 0, [], false))
  {
    hide LivedAs, Live, GoodBoundaries;
    LifeBegins(s, reused);
    StartIsLive(s, reused);
    RankIsPositive(s, Start(s, reused), NoPast(s));
    AboutSum(events, [S.Started(s.id)], s.id);
    AboutOne(S.Started(s.id), s.id);
    var none: seq<Event> := [];
    assert [S.Started(s.id)] + EventsFor(none, s.id) == [S.Started(s.id)];
  }

  lemma {:induction false} CancelRecorded(events: seq<S.Event>, s: Spec, l: Life)
    requires Recorded(events, s, l) && !Over(l)
    ensures Recorded(events + [S.Completion(s.id)], s, l.(cancelled := true))
  {
    AboutSum(events, [S.Completion(s.id)], s.id);
    AboutOne(S.Completion(s.id), s.id);
  }

  lemma {:induction false} StepRecorded(events: seq<S.Event>, r: ActiveRequest, l: Life, cs: seq<ActiveRequest>,
                                        outs: seq<seq<Event>>, j: nat)
    requires Recorded(events, r.spec, l) && !Over(l) && (r.terminal.Active? ==> Rank(r.spec, r.at) > 0)
    requires |outs| == |cs| && DifferentIds(cs) && j < |cs| && cs[j] == r && Stepped(r, l.mark, cs, outs)
    ensures Recorded(events + Named(TellAll(cs, outs)), r.spec, Life(MarkOf(r), l.count + 1, l.told + outs[j], false))
  {
    hide LivedAs, Stepped, TellAll;
    var id := r.spec.id;
    LivedOn(r, l.mark, l.count, l.told, cs, outs, j);
    AboutSum(events, Named(TellAll(cs, outs)), id);
    AboutContributor(cs, outs, j);
    assert [S.Started(id)] + EventsFor(l.told, id) + EventsFor(outs[j], id)
      == [S.Started(id)] + EventsFor(l.told + outs[j], id);
  }

  /** A running request has sent the text of all that was sampled up to the first doubtful place; a completion
      carries the stream of all of that text through the stop buffer; a cancelled one ends as such, after the text
      it had shown. */
  ghost predicate StreamIs(lines: seq<P.Line>, s: Spec, l: Life) {
    if l.cancelled then
      && P.Ended(lines) && lines[|lines| - 1].kind == P.Completed(None)
      && P.TextOf(lines) == l.mark.past.shown && Prompt(s, l.mark.past)
    else match l.mark.terminal
      case Active => !P.Ended(lines) && P.TextOf(lines) == l.mark.past.shown && Prompt(s, l.mark.past)
      case Completed =>
        && P.Ended(lines) && lines[|lines| - 1].kind == P.Completed(Some(Content(s, l.mark.past)))
        && P.TextOf(lines) == Content(s, l.mark.past)
      case Failed => P.Ended(lines) && lines[|lines| - 1].kind == P.Failed
  }

  /** From its acceptance on, among the events of everybody else: the stream of a request that has started. */
  lemma {:induction false} StreamOfRequest(events: seq<S.Event>, s: Spec, l: Life)
    requires Recorded(events, s, l)
    ensures StreamIs(W.StreamAfter([P.Line(s.id, P.Accepted, 0)], events, s.id), s, l)
  {
    var accepted := [P.Line(s.id, P.Accepted, 0)];
    var base := [S.Started(s.id)] + EventsFor(l.told, s.id);
    W.OthersDoNotMatter(accepted, events, s.id);
    AboutAll(base, s.id);
    ContentOfRun(s, l.mark, l.count, l.told, base, s.id);
    if l.cancelled {
      W.StreamOn(accepted, base, [S.Completion(s.id)], s.id);
      var before := W.StreamAfter(accepted, base, s.id);
      assert [S.Completion(s.id)][..0] == [];
      assert W.StreamAfter(accepted, base + [S.Completion(s.id)], s.id) == W.Append(before, P.Completed(None), s.id);
      AppendMeans(before, P.Completed(None), s.id);
      assert P.TextOf(before) + [] == P.TextOf(before);
    }
  }

  /** And that is what the worker writes for it, if it sends all of these events. */
  lemma {:induction false} WorkerWritesStream(start: seq<P.Line>, events: seq<S.Event>, output: seq<P.Line>, s: Spec, l: Life)
    requires W.Streamed(start, events, output) && P.LinesOf(start, s.id) == [P.Line(s.id, P.Accepted, 0)]
    requires Recorded(events, s, l)
    ensures StreamIs(P.LinesOf(output, s.id), s, l)
  {
    hide StreamIs;
    assert P.LinesOf(output, s.id) == W.StreamAfter(P.LinesOf(start, s.id), events, s.id);
    StreamOfRequest(events, s, l);
  }

  // ---------------------------------------------------------------- who is where

  /** A request is unfinished at most once; it starts once, and nothing is told about it before. */
  predicate Known(w: seq<S.Waiting>, a: seq<S.Running>, events: seq<S.Event>, known: set<Id>, begun: set<Id>, id: Id) {
    && S.Live(w, a, id) <= 1 && (id !in known ==> S.Live(w, a, id) == 0)
    && (id in begun ==> id in known && S.InQueue(w, id) == 0) && (id !in begun ==> S.Undone(a, id) == 0)
    && (id !in begun && (id !in known || S.InQueue(w, id) > 0) ==> W.AboutOnly(events, id) == [])
  }

  ghost predicate AllKnown(w: seq<S.Waiting>, a: seq<S.Running>, events: seq<S.Event>, known: set<Id>, begun: set<Id>) {
    forall id :: Known(w, a, events, known, begun, id)
  }

  lemma {:induction false} KnownAfterEnqueue(w: seq<S.Waiting>, a: seq<S.Running>, events: seq<S.Event>, known: set<Id>,
                                             begun: set<Id>, x: S.Waiting)
    requires AllKnown(w, a, events, known, begun) && x.id !in known
    ensures AllKnown(w + [x], a, events, known + {x.id}, begun)
  {
    forall id ensures Known(w + [x], a, events, known + {x.id}, begun, id) {
      assert Known(w, a, events, known, begun, id);
      S.QueueSum(w, [x], id);
      S.QueueOne(x, id);
    }
  }

  /** A waiting request leaves, and that is told; perhaps it starts. */
  lemma {:induction false} KnownAfterLeaving(w: seq<S.Waiting>, a: seq<S.Running>, events: seq<S.Event>, known: set<Id>,
                                             begun: set<Id>, k: nat, e: S.Event)
    requires AllKnown(w, a, events, known, begun) && k < |w| && !e.Topology? && e.id == w[k].id
    ensures w[k].id !in begun && w[k].id in known && W.AboutOnly(events, w[k].id) == []
    ensures AllKnown(Without(w, k), a, events + [e], known, begun)
    ensures forall r: S.Running | r.id == w[k].id :: AllKnown(Without(w, k), a + [r], events + [e], known, begun + {r.id})
  {
    S.QueueWithout(w, k, w[k].id);
    assert Known(w, a, events, known, begun, w[k].id);
    forall id ensures Known(Without(w, k), a, events + [e], known, begun, id) {
      assert Known(w, a, events, known, begun, id);
      S.QueueWithout(w, k, id);
      AboutSum(events, [e], id);
      AboutOne(e, id);
    }
    forall r: S.Running | r.id == w[k].id
      ensures AllKnown(Without(w, k), a + [r], events + [e], known, begun + {r.id})
    {
      forall id ensures Known(Without(w, k), a + [r], events + [e], known, begun + {r.id}, id) {
        assert Known(w, a, events, known, begun, id);
        assert Known(Without(w, k), a, events + [e], known, begun, id);
        S.QueueWithout(w, k, id);
        S.UndoneSum(a, [r], id);
        S.UndoneOne(r, id);
      }
    }
  }

  lemma {:induction false} KnownAfterPutBack(w: seq<S.Waiting>, a: seq<S.Running>, events: seq<S.Event>, known: set<Id>,
                                             begun: set<Id>, k: nat)
    requires AllKnown(w, a, events, known, begun) && k < |w|
    ensures AllKnown([w[k]] + Without(w, k), a, events, known, begun)
  {
    forall id ensures Known([w[k]] + Without(w, k), a, events, known, begun, id) {
      assert Known(w, a, events, known, begun, id);
      S.PutBackKeeps(w, k, id);
    }
  }

  /** Among the active ones, some may be done now, and only requests that have started are told of. */
  lemma {:induction false} KnownAfterNews(w: seq<S.Waiting>, a: seq<S.Running>, events: seq<S.Event>, known: set<Id>,
                                          begun: set<Id>, more: seq<S.Event>, a': seq<S.Running>)
    requires AllKnown(w, a, events, known, begun)
    requires forall id :: S.Undone(a', id) <= S.Undone(a, id)
    requires forall id | id !in begun :: W.AboutOnly(more, id) == []
    ensures AllKnown(w, a', events + more, known, begun)
  {
    forall id ensures Known(w, a', events + more, known, begun, id) {
      assert Known(w, a, events, known, begun, id);
      assert S.Undone(a', id) <= S.Undone(a, id);
      AboutSum(events, more, id);
    }
  }

  lemma {:induction false} UndoneAt(a: seq<S.Running>, k: nat)
    requires k < |a| && !a[k].done
    ensures S.Undone(a, a[k].id) > 0
  {
    S.UndoneUpdate(a, k, a[k], a[k].id);
  }

  lemma {:induction false} UndoneTwice(a: seq<S.Running>, i: nat, j: nat)
    requires i < j < |a| && a[i].id == a[j].id && !a[i].done && !a[j].done
    ensures S.Undone(a, a[i].id) > 1
  {
    S.UndoneSum(a[..j], a[j..], a[i].id);
    assert a[..j] + a[j..] == a;
    UndoneAt(a[..j], i);
    UndoneAt(a[j..], 0);
  }

  lemma {:induction false} UndoneMeans(a: seq<S.Running>, id: Id) returns (k: nat)
    requires S.Undone(a, id) > 0
    ensures k < |a| && a[k].id == id && !a[k].done
  {
    if a[|a| - 1].id == id && !a[|a| - 1].done { k := |a| - 1; } else { k := UndoneMeans(a[..|a| - 1], id); }
  }

  lemma {:induction false} RunningIdsDiffer(w: seq<S.Waiting>, a: seq<S.Running>, events: seq<S.Event>, known: set<Id>,
                                            begun: set<Id>, i: nat, j: nat)
    requires AllKnown(w, a, events, known, begun) && i < |a| && j < |a| && i != j && !a[i].done && !a[j].done
    ensures a[i].id != a[j].id && a[i].id in begun && a[j].id in begun
  {
    assert Known(w, a, events, known, begun, a[i].id) && Known(w, a, events, known, begun, a[j].id);
    UndoneAt(a, i);
    UndoneAt(a, j);
    if a[i].id == a[j].id { UndoneTwice(a, if i < j then i else j, if i < j then j else i); }
  }

  lemma {:induction false} StillIn(a: seq<S.Running>, k: nat) returns (i: nat)
    requires k < |S.StillActive(a)|
    ensures i < |a| && a[i] == S.StillActive(a)[k] && !a[i].done
  {
    var init := S.StillActive(a[..|a| - 1]);
    if k < |init| { i := StillIn(a[..|a| - 1], k); } else { i := |a| - 1; }
  }

  // ---------------------------------------------------------------- the requests behind the scheduler's

  /** A running request as the scheduler sees it, the object behind it, and its life so far. */
  ghost predicate Runs(r: S.Running, o: ActiveRequest, l: Life, ex: CacheExecutor)
    reads o, ex
  {
    && o.terminal.Active? && o.Ready(ex) && l.mark == MarkOf(o) && !l.cancelled
    && (r.decoding <==> o.at.phase.Decode?) && (r.hasWork <==> |o.at.prompt| != o.at.ingested)
  }

  ghost predicate RunsAt(a: seq<S.Running>, k: nat, requests: map<Id, ActiveRequest>, lives: map<Id, Life>,
                         ex: CacheExecutor)
    requires k < |a|
    reads requests.Values, ex
  {
    a[k].id in requests && a[k].id in lives && Runs(a[k], requests[a[k].id], lives[a[k].id], ex)
  }

  ghost predicate AllRun(a: seq<S.Running>, requests: map<Id, ActiveRequest>, lives: map<Id, Life>, ex: CacheExecutor)
    reads requests.Values, ex
  {
    forall k | 0 <= k < |a| && !a[k].done :: RunsAt(a, k, requests, lives, ex)
  }

  ghost predicate RecordedAt(a: seq<S.Running>, events: seq<S.Event>, requests: map<Id, ActiveRequest>,
                             lives: map<Id, Life>, id: Id)
    requires id in requests && id in lives
  {
    && requests[id].spec.id == id && Recorded(events, requests[id].spec, lives[id])
    && (S.Undone(a, id) == 0 ==> Over(lives[id]))
  }

  ghost predicate AllRecorded(a: seq<S.Running>, events: seq<S.Event>, requests: map<Id, ActiveRequest>,
                              lives: map<Id, Life>)
  {
    requests.Keys == lives.Keys && forall id | id in requests :: RecordedAt(a, events, requests, lives, id)
  }

  predicate SlotApart(a: seq<S.Running>, requests: map<Id, ActiveRequest>, i: nat, j: nat) {
    i < |a| && j < |a| && a[i].id != a[j].id && !a[i].done && !a[j].done && a[i].id in requests && a[j].id in requests ==>
      requests[a[i].id].slot != requests[a[j].id].slot
  }

  ghost predicate SlotsApart(a: seq<S.Running>, requests: map<Id, ActiveRequest>) {
    forall i: nat, j: nat :: SlotApart(a, requests, i, j)
  }

  lemma {:induction false} RecordedStill(a: seq<S.Running>, events: seq<S.Event>, requests: map<Id, ActiveRequest>,
                                         lives: map<Id, Life>, more: seq<S.Event>, a': seq<S.Running>)
    requires AllRecorded(a, events, requests, lives)
    requires forall id | id in requests :: W.AboutOnly(more, id) == []
    requires forall id :: S.Undone(a', id) == S.Undone(a, id)
    ensures AllRecorded(a', events + more, requests, lives)
  {
    forall id | id in requests ensures RecordedAt(a', events + more, requests, lives, id) {
      assert RecordedAt(a, events, requests, lives, id) && S.Undone(a', id) == S.Undone(a, id);
      StillRecorded(events, more, requests[id].spec, lives[id]);
    }
  }

  ghost predicate Books(w: seq<S.Waiting>, a: seq<S.Running>, events: seq<S.Event>, known: set<Id>,
                        requests: map<Id, ActiveRequest>, lives: map<Id, Life>)
  {
    AllKnown(w, a, events, known, requests.Keys) && AllRecorded(a, events, requests, lives) && SlotsApart(a, requests)
  }

  predicate SameButFlag(a: seq<S.Running>, b: seq<S.Running>) {
    |a| == |b| && forall k | 0 <= k < |a| :: b[k] == a[k].(cancelled := b[k].cancelled)
  }

  lemma {:induction false} BooksAfterCancel(w: seq<S.Waiting>, a: seq<S.Running>, events: seq<S.Event>, known: set<Id>,
                                            requests: map<Id, ActiveRequest>, lives: map<Id, Life>, target: Id,
                                            more: seq<S.Event>, w': seq<S.Waiting>, b: seq<S.Running>)
    requires Books(w, a, events, known, requests, lives) && S.Withdrawn(w, target, more, w') && SameButFlag(a, b)
    ensures Books(w', b, events + more, known, requests, lives)
  {
    hide Recorded;
    forall id ensures S.Undone(b, id) == S.Undone(a, id) { S.SameUndone(b, a, id); }
    KnownAfterNews(w, a, events, known, requests.Keys, [], b);
    assert events + [] == events;
    if more != [] {
      var k: nat :| k < |w| && w[k].id == target && w' == Without(w, k);
      KnownAfterLeaving(w, b, events, known, requests.Keys, k, S.QueuedCancelled(target));
    }
    forall id | id in requests ensures W.AboutOnly(more, id) == [] {
      if more != [] { AboutOne(more[0], id); }
    }
    RecordedStill(a, events, requests, lives, more, b);
    forall i: nat, j: nat ensures SlotApart(b, requests, i, j) { assert SlotApart(a, requests, i, j); }
  }

  /** A waiting request leaves, and that is told. */
  lemma {:induction false} BooksAfterLeaving(w: seq<S.Waiting>, a: seq<S.Running>, events: seq<S.Event>, known: set<Id>,
                                             requests: map<Id, ActiveRequest>, lives: map<Id, Life>, k: nat, e: S.Event)
    requires Books(w, a, events, known, requests, lives) && k < |w| && !e.Topology? && e.id == w[k].id
    ensures Books(Without(w, k), a, events + [e], known, requests, lives)
  {
    hide Recorded;
    KnownAfterLeaving(w, a, events, known, requests.Keys, k, e);
    forall id | id in requests ensures W.AboutOnly([e], id) == [] { AboutOne(e, id); }
    RecordedStill(a, events, requests, lives, [e], a);
  }

  lemma {:induction false} BooksAfterPutBack(w: seq<S.Waiting>, a: seq<S.Running>, events: seq<S.Event>, known: set<Id>,
                                             requests: map<Id, ActiveRequest>, lives: map<Id, Life>, k: nat)
    requires Books(w, a, events, known, requests, lives) && k < |w|
    ensures Books([w[k]] + Without(w, k), a, events, known, requests, lives)
  {
    KnownAfterPutBack(w, a, events, known, requests.Keys, k);
  }

  /** What the admission loop does with a request that it does not start. */
  lemma {:induction false} BooksAfterTurn(w: seq<S.Waiting>, a: seq<S.Running>, events: seq<S.Event>, known: set<Id>,
                                          requests: map<Id, ActiveRequest>, lives: map<Id, Life>, k: nat,
                                          more: seq<S.Event>, goOn: bool, w': seq<S.Waiting>)
    requires Books(w, a, events, known, requests, lives) && k < |w| && S.Outcome(w, a, k, more, goOn, w', a)
    ensures Books(w', a, events + more, known, requests, lives)
  {
    hide Books;
    assert events + [] == events;
    if goOn {
      BooksAfterLeaving(w, a, events, known, requests, lives, k, S.Error(w[k].id));
    } else {
      BooksAfterPutBack(w, a, events, known, requests, lives, k);
    }
  }

  /** The life of a request that was just prepared. */
  ghost predicate Newborn(s: Spec, l: Life) {
    exists reused: nat :: Reuses(s, reused) &&
      l == Life(Mark(Rank(s, Start(s, reused)), reused, reused, NoPast(s), Active), 0, [], false)
  }

  predicate Reuses(s: Spec, reused: nat) {
    && reused < |s.full| < s.backend.context && GoodBoundaries(s.boundaries, |s.full|)
    && (s.boundaries != [] ==> s.boundaries[0] > reused)
  }

  /** Its slot is nobody else's. */
  predicate NewSlot(a: seq<S.Running>, requests: map<Id, ActiveRequest>, slot: nat) {
    forall k | 0 <= k < |a| && !a[k].done && a[k].id in requests :: requests[a[k].id].slot != slot
  }

  lemma {:induction false} ApartAfterStart(a: seq<S.Running>, requests: map<Id, ActiveRequest>, r: S.Running, o: ActiveRequest)
    requires SlotsApart(a, requests) && NewSlot(a, requests, o.slot)
    requires r.id !in requests
    ensures SlotsApart(a + [r], requests[r.id := o])
  {
    var (b, now) := (a + [r], requests[r.id := o]);
    forall i: nat, j: nat ensures SlotApart(b, now, i, j) { assert SlotApart(a, requests, i, j); }
  }

  lemma {:induction false} BooksAfterStart(w: seq<S.Waiting>, a: seq<S.Running>, events: seq<S.Event>, known: set<Id>,
                                           requests: map<Id, ActiveRequest>, lives: map<Id, Life>, k: nat, r: S.Running,
                                           o: ActiveRequest, l: Life)
    requires Books(w, a, events, known, requests, lives) && k < |w| && r.id == w[k].id == o.spec.id && !r.done
    requires Newborn(o.spec, l) && NewSlot(a, requests, o.slot)
    ensures r.id !in requests
    ensures Books(Without(w, k), a + [r], events + [S.Started(r.id)], known, requests[r.id := o], lives[r.id := l])
  {
    hide Recorded, Known, SlotApart;
    var (e, b, now, grown) := (S.Started(r.id), a + [r], requests[r.id := o], lives[r.id := l]);
    KnownAfterLeaving(w, a, events, known, requests.Keys, k, e);
    assert now.Keys == requests.Keys + {r.id};
    ApartAfterStart(a, requests, r, o);
    var reused: nat :| Reuses(o.spec, reused) &&
      l == Life(Mark(Rank(o.spec, Start(o.spec, reused)), reused, reused, NoPast(o.spec), Active), 0, [], false);
    StartRecorded(events, o.spec, reused);
    forall id | id in now ensures RecordedAt(b, events + [e], now, grown, id) {
      S.UndoneSum(a, [r], id);
      S.UndoneOne(r, id);
      if id != r.id {
        assert RecordedAt(a, events, requests, lives, id);
        AboutOne(e, id);
        StillRecorded(events, [e], requests[id].spec, lives[id]);
      }
    }
  }

  lemma {:induction false} ShorterAfterTurn(w: seq<S.Waiting>, a: seq<S.Running>, k: nat, more: seq<S.Event>, goOn: bool,
                                            w': seq<S.Waiting>)
    requires k < |w| && S.Outcome(w, a, k, more, goOn, w', a)
    ensures goOn ==> |w'| < |w|
  {
  }

  lemma {:induction false} RunsAreNotOver(a: seq<S.Running>, k: nat, requests: map<Id, ActiveRequest>, lives: map<Id, Life>,
                                          ex: CacheExecutor)
    requires AllRun(a, requests, lives, ex) && k < |a| && !a[k].done
    ensures a[k].id in lives && !Over(lives[a[k].id])
  {
    assert RunsAt(a, k, requests, lives, ex);
  }

  /** Everybody else who runs is another object on another slot. */
  lemma {:induction false} RunningApart(w: seq<S.Waiting>, a: seq<S.Running>, events: seq<S.Event>, known: set<Id>,
                                        requests: map<Id, ActiveRequest>, lives: map<Id, Life>, k: nat)
    requires Books(w, a, events, known, requests, lives) && k < |a| && !a[k].done
    ensures a[k].id in requests && requests[a[k].id].spec.id == a[k].id
    ensures forall j | 0 <= j < |a| && j != k && !a[j].done ::
      && a[j].id in requests && a[j].id != a[k].id
      && requests[a[j].id] != requests[a[k].id] && requests[a[j].id].slot != requests[a[k].id].slot
  {
    UndoneAt(a, k);
    assert Known(w, a, events, known, requests.Keys, a[k].id);
    assert RecordedAt(a, events, requests, lives, a[k].id);
    forall j | 0 <= j < |a| && j != k && !a[j].done
      ensures a[j].id in requests && a[j].id != a[k].id
      ensures requests[a[j].id] != requests[a[k].id] && requests[a[j].id].slot != requests[a[k].id].slot
    {
      RunningIdsDiffer(w, a, events, known, requests.Keys, j, k);
      assert SlotApart(a, requests, j, k) && RecordedAt(a, events, requests, lives, a[j].id);
    }
  }

  lemma {:induction false} BooksAfterCompletion(w: seq<S.Waiting>, a: seq<S.Running>, events: seq<S.Event>, known: set<Id>,
                                                requests: map<Id, ActiveRequest>, lives: map<Id, Life>, k: nat)
    requires Books(w, a, events, known, requests, lives) && k < |a| && !a[k].done
    requires a[k].id in lives && !Over(lives[a[k].id])
    ensures Books(w, a[k := S.Completed(a[k], true)], events + [S.Completion(a[k].id)], known, requests,
      lives[a[k].id := lives[a[k].id].(cancelled := true)])
  {
    hide LivedAs, Known, Recorded;
    var (who, r) := (a[k].id, S.Completed(a[k], true));
    var (b, e, after) := (a[k := r], S.Completion(who), lives[who := lives[who].(cancelled := true)]);
    forall id ensures S.Undone(b, id) <= S.Undone(a, id) && (id != who ==> S.Undone(b, id) == S.Undone(a, id)) {
      S.UndoneUpdate(a, k, r, id);
    }
    assert who in requests;
    forall id | id != who ensures W.AboutOnly([e], id) == [] { AboutOne(e, id); }
    KnownAfterNews(w, a, events, known, requests.Keys, [e], b);
    forall id | id in requests ensures RecordedAt(b, events + [e], requests, after, id) {
      assert RecordedAt(a, events, requests, lives, id);
      if id == who {
        CancelRecorded(events, requests[id].spec, lives[id]);
      } else {
        StillRecorded(events, [e], requests[id].spec, lives[id]);
      }
    }
    forall i: nat, j: nat ensures SlotApart(b, requests, i, j) { assert SlotApart(a, requests, i, j); }
  }

  /** Whoever is done leaves the active set. */
  lemma {:induction false} BooksAfterErase(w: seq<S.Waiting>, a: seq<S.Running>, events: seq<S.Event>, known: set<Id>,
                                           requests: map<Id, ActiveRequest>, lives: map<Id, Life>, more: seq<S.Event>)
    requires Books(w, a, events, known, requests, lives) && forall k | 0 <= k < |more| :: more[k].Topology?
    ensures Books(w, S.StillActive(a), events + more, known, requests, lives)
  {
    hide Recorded, Known;
    var b := S.StillActive(a);
    forall id ensures S.Undone(b, id) == S.Undone(a, id) && W.AboutOnly(more, id) == [] {
      S.EraseKeeps(a, id);
      AboutNone(more, id);
    }
    KnownAfterNews(w, a, events, known, requests.Keys, more, b);
    RecordedStill(a, events, requests, lives, more, b);
    forall i: nat, j: nat ensures SlotApart(b, requests, i, j) {
      if i < |b| && j < |b| {
        var p := StillIn(a, i);
        var q := StillIn(a, j);
        assert SlotApart(a, requests, p, q);
      }
    }
  }

  lemma {:induction false} RunAfterErase(a: seq<S.Running>, requests: map<Id, ActiveRequest>, lives: map<Id, Life>,
                                         ex: CacheExecutor)
    requires AllRun(a, requests, lives, ex)
    ensures AllRun(S.StillActive(a), requests, lives, ex)
  {
    hide Runs;
    var b := S.StillActive(a);
    forall k: nat | k < |b| && !b[k].done ensures RunsAt(b, k, requests, lives, ex) {
      var i := StillIn(a, k);
      assert RunsAt(a, i, requests, lives, ex);
    }
  }

  lemma {:induction false} BooksAfterClear(w: seq<S.Waiting>, a: seq<S.Running>, events: seq<S.Event>, known: set<Id>,
                                           requests: map<Id, ActiveRequest>, lives: map<Id, Life>)
    requires Books(w, a, events, known, requests, lives) && forall k | 0 <= k < |a| :: a[k].done
    ensures Books(w, [], events, known, requests, lives)
  {
    hide Recorded, Known;
    forall id ensures S.Undone([], id) == S.Undone(a, id) { S.AllDone(a, id); }
    KnownAfterNews(w, a, events, known, requests.Keys, [], []);
    RecordedStill(a, events, requests, lives, [], []);
    assert events + [] == events;
  }

  lemma {:induction false} BooksAfterCancelWaiting(w: seq<S.Waiting>, a: seq<S.Running>, events: seq<S.Event>, known: set<Id>,
                                                   requests: map<Id, ActiveRequest>, lives: map<Id, Life>, more: seq<S.Event>)
    requires Books(w, a, events, known, requests, lives)
    requires |more| == |w| && forall k | 0 <= k < |more| :: more[k] == S.QueuedCancelled(w[k].id)
    ensures Books([], a, events + more, known, requests, lives)
    decreases |w|
  {
    hide Books;
    if w == [] {
      assert events + more == events;
    } else {
      BooksAfterLeaving(w, a, events, known, requests, lives, 0, more[0]);
      assert Without(w, 0) == w[1..];
      BooksAfterCancelWaiting(w[1..], a, events + [more[0]], known, requests, lives, more[1..]);
      assert events + [more[0]] + more[1..] == events + more;
    }
  }

  lemma {:induction false} AllAreOver(w: seq<S.Waiting>, events: seq<S.Event>, known: set<Id>,
                                      requests: map<Id, ActiveRequest>, lives: map<Id, Life>)
    requires Books(w, [], events, known, requests, lives)
    ensures requests.Keys == lives.Keys && forall id | id in requests :: Over(lives[id])
  {
    forall id | id in requests ensures Over(lives[id]) { assert RecordedAt([], events, requests, lives, id); }
  }

  lemma {:induction false} EveryStream(w: seq<S.Waiting>, a: seq<S.Running>, events: seq<S.Event>, known: set<Id>,
                                       requests: map<Id, ActiveRequest>, lives: map<Id, Life>)
    requires Books(w, a, events, known, requests, lives)
    ensures requests.Keys == lives.Keys
    ensures forall id | id in requests ::
      && requests[id].spec.id == id && Recorded(events, requests[id].spec, lives[id])
      && StreamIs(W.StreamAfter([P.Line(id, P.Accepted, 0)], events, id), requests[id].spec, lives[id])
      && lives[id].count <= MostContributions(requests[id].spec)
  {
    hide StreamIs, W.StreamAfter;
    forall id | id in requests
      ensures requests[id].spec.id == id && Recorded(events, requests[id].spec, lives[id])
      ensures StreamIs(W.StreamAfter([P.Line(id, P.Accepted, 0)], events, id), requests[id].spec, lives[id])
      ensures lives[id].count <= MostContributions(requests[id].spec)
    {
      assert RecordedAt(a, events, requests, lives, id);
      StreamOfRequest(events, requests[id].spec, lives[id]);
      ContributionsAreFew(requests[id].spec, lives[id]);
    }
  }

  lemma {:induction false} ContributionsAreFew(s: Spec, l: Life)
    requires LivedAs(s, l.mark, l.count, l.told) && (l.mark.terminal.Active? ==> l.mark.rank > 0)
    ensures l.count <= MostContributions(s)
  {
  }

  lemma {:induction false} SameRun(a: seq<S.Running>, b: seq<S.Running>, requests: map<Id, ActiveRequest>,
                                   lives: map<Id, Life>, ex: CacheExecutor)
    requires AllRun(a, requests, lives, ex) && SameButFlag(a, b)
    ensures AllRun(b, requests, lives, ex)
  {
    forall k | 0 <= k < |b| && !b[k].done ensures RunsAt(b, k, requests, lives, ex) {
      assert RunsAt(a, k, requests, lives, ex);
    }
  }

  predicate HeldBy(a: seq<S.Running>, requests: map<Id, ActiveRequest>, i: nat, k: nat) {
    k < |a| && !a[k].done && a[k].id in requests && requests[a[k].id].slot == i
  }

  /** Every busy slot is held by somebody who runs. */
  ghost predicate NoLeak(c: seq<Entry>, a: seq<S.Running>, requests: map<Id, ActiveRequest>) {
    forall i: nat | i < |c| && c[i].busy :: exists k: nat :: HeldBy(a, requests, i, k)
  }

  lemma {:induction false} NoLeakSame(c: seq<Entry>, a: seq<S.Running>, requests: map<Id, ActiveRequest>, b: seq<S.Running>)
    requires NoLeak(c, a, requests) && SameButFlag(a, b)
    ensures NoLeak(c, b, requests)
  {
    forall i: nat | i < |c| && c[i].busy ensures exists k: nat :: HeldBy(b, requests, i, k) {
      var k: nat :| HeldBy(a, requests, i, k);
      assert HeldBy(b, requests, i, k);
    }
  }

  /** Nobody new is busy but the request that starts, if one does. */
  lemma {:induction false} NoLeakAfterAsking(v: View, w: View, a: seq<S.Running>, requests: map<Id, ActiveRequest>)
    requires NoLeak(v.coordinator, a, requests) && NoWorse(v, w, |w.slots|)
    ensures NoLeak(w.coordinator, a, requests)
  {
  }

  lemma {:induction false} NoLeakAfterStart(v: View, w: View, a: seq<S.Running>, requests: map<Id, ActiveRequest>, r: S.Running,
                                            o: ActiveRequest)
    requires NoLeak(v.coordinator, a, requests) && NoWorse(v, w, o.slot) && r.id !in requests && !r.done
    ensures NoLeak(w.coordinator, a + [r], requests[r.id := o])
  {
    var (c, b, now) := (w.coordinator, a + [r], requests[r.id := o]);
    forall i: nat | i < |c| && c[i].busy ensures exists k: nat :: HeldBy(b, now, i, k) {
      if i == o.slot {
        assert HeldBy(b, now, i, |a|);
      } else {
        assert v.coordinator[i].busy;
        var k: nat :| HeldBy(a, requests, i, k);
        assert HeldBy(b, now, i, k);
      }
    }
  }

  lemma {:induction false} NoLeakAfterCompletion(v: View, w: View, a: seq<S.Running>, requests: map<Id, ActiveRequest>, k: nat)
    requires NoLeak(v.coordinator, a, requests) && k < |a| && a[k].id in requests
    requires var slot := requests[a[k].id].slot;
      KeptBut(v, w, slot) && slot < |w.coordinator| && !w.coordinator[slot].busy
    ensures NoLeak(w.coordinator, a[k := S.Completed(a[k], true)], requests)
  {
    var b := a[k := S.Completed(a[k], true)];
    forall i: nat | i < |w.coordinator| && w.coordinator[i].busy ensures exists j: nat :: HeldBy(b, requests, i, j) {
      assert v.coordinator[i].busy;
      var j: nat :| HeldBy(a, requests, i, j);
      assert HeldBy(b, requests, i, j);
    }
  }

  lemma {:induction false} NoLeakAfterErase(c: seq<Entry>, a: seq<S.Running>, requests: map<Id, ActiveRequest>)
    requires NoLeak(c, a, requests)
    ensures NoLeak(c, S.StillActive(a), requests)
  {
    forall i: nat | i < |c| && c[i].busy ensures exists k: nat :: HeldBy(S.StillActive(a), requests, i, k) {
      var k: nat :| HeldBy(a, requests, i, k);
      var j := StaysActive(a, k);
      assert HeldBy(S.StillActive(a), requests, i, j);
    }
  }

  lemma {:induction false} StaysActive(a: seq<S.Running>, k: nat) returns (j: nat)
    requires k < |a| && !a[k].done
    ensures j < |S.StillActive(a)| && S.StillActive(a)[j] == a[k]
  {
    var init := S.StillActive(a[..|a| - 1]);
    if k == |a| - 1 { j := |init|; } else { j := StaysActive(a[..|a| - 1], k); }
  }

  /** When nobody runs, nothing is busy. */
  lemma {:induction false} NobodyHolds(c: seq<Entry>, a: seq<S.Running>, requests: map<Id, ActiveRequest>)
    requires NoLeak(c, a, requests) && forall k | 0 <= k < |a| :: a[k].done
    ensures forall i | 0 <= i < |c| :: !c[i].busy
  {
    forall i: nat | i < |c| ensures !c[i].busy {
      assert c[i].busy ==> exists k: nat :: HeldBy(a, requests, i, k);
    }
  }

  lemma {:induction false} NothingLeaks(c: seq<Entry>, requests: map<Id, ActiveRequest>)
    requires forall i | 0 <= i < |c| :: !c[i].busy
    ensures NoLeak(c, [], requests)
  {
  }

  predicate Extends(before: map<Id, ActiveRequest>, after: map<Id, ActiveRequest>) {
    forall id | id in before :: id in after && after[id] == before[id]
  }

  /** One more. */
  lemma {:induction false} RunsToo(a: seq<S.Running>, r: S.Running, requests: map<Id, ActiveRequest>, lives: map<Id, Life>,
                                   o: ActiveRequest, l: Life, ex: CacheExecutor)
    requires AllRun(a, requests, lives, ex) && Runs(r, o, l, ex) && r.id !in requests
    ensures AllRun(a + [r], requests[r.id := o], lives[r.id := l], ex)
  {
    hide Runs;
    var (b, now, grown) := (a + [r], requests[r.id := o], lives[r.id := l]);
    forall k | 0 <= k < |b| && !b[k].done ensures RunsAt(b, k, now, grown, ex) {
      if k < |a| { assert RunsAt(a, k, requests, lives, ex); }
    }
  }

  lemma {:induction false} TalliesStill(v: View, w: View, i: nat)
    requires AllTally(v) && KeptBut(v, w, i) && (i < |v.slots| ==> TalliesAt(w, i))
    ensures AllTally(w)
  {
    forall k: nat | k < |v.slots| ensures TalliesAt(w, k) { assert TalliesAt(v, k); }
  }

  /** The objects at these places. */
  function Behind(a: seq<S.Running>, requests: map<Id, ActiveRequest>, places: seq<nat>): (objects: seq<ActiveRequest>)
    requires forall i | 0 <= i < |places| :: places[i] < |a| && a[places[i]].id in requests
    ensures |objects| == |places| && forall i | 0 <= i < |places| :: objects[i] == requests[a[places[i]].id]
  {
    seq(|places|, i requires 0 <= i < |places| => requests[a[places[i]].id])
  }

  ghost function LivesAfter(requests: map<Id, ActiveRequest>, lives: map<Id, Life>, cs: seq<ActiveRequest>,
                            outs: seq<seq<Event>>): map<Id, Life>
    requires requests.Keys == lives.Keys && |outs| == |cs|
    reads requests.Values
  {
    map id | id in requests :: if requests[id] in cs
      then Life(MarkOf(requests[id]), lives[id].count + 1, lives[id].told + outs[PlaceOf(cs, requests[id])], false)
      else lives[id]
  }

  // ---------------------------------------------------------------- a step

  /** Whom a step is given: everybody who runs, each once. */
  ghost predicate Ordered(a: seq<S.Running>, requests: map<Id, ActiveRequest>, places: seq<nat>, ordered: seq<ActiveRequest>) {
    && (forall i | 0 <= i < |places| :: places[i] < |a| && !a[places[i]].done && a[places[i]].id in requests)
    && (forall i, j | 0 <= i < j < |places| :: places[i] != places[j])
    && (forall k: nat | k < |a| && !a[k].done :: k in places)
    && ordered == Behind(a, requests, places)
  }

  lemma {:induction false} TimesSplit(s: seq<nat>, i: nat, j: nat)
    requires i < j < |s| && s[i] == s[j]
    ensures Times(s, s[i]) > 1
  {
    S.TimesSum(s[..j], s[j..], s[i]);
    assert s[..j] + s[j..] == s;
    assert s[i] in s[..j] && s[i] in s[j..] by { assert s[..j][i] == s[i] && s[j..][0] == s[i]; }
    S.InMeansTimes(s[..j], s[i]);
    S.InMeansTimes(s[j..], s[i]);
  }

  /** A step is given everybody once who can run. */
  lemma {:induction false} OrderOnce(a: seq<S.Running>)
    ensures forall i | 0 <= i < |S.DecodeOrder(a)| :: S.DecodeOrder(a)[i] < |a| && !a[S.DecodeOrder(a)[i]].done
    ensures forall i, j | 0 <= i < j < |S.DecodeOrder(a)| :: S.DecodeOrder(a)[i] != S.DecodeOrder(a)[j]
    ensures |a| == 1 ==> |S.DecodeOrder(a)| <= 1
  {
    hide S.DecodeOrder;
    var places := S.DecodeOrder(a);
    forall i: nat | i < |places| ensures places[i] < |a| && !a[places[i]].done { S.OrderHasEachOnce(a, places[i]); }
    forall i: nat, j: nat | i < j < |places| ensures places[i] != places[j] {
      S.OrderHasEachOnce(a, places[i]);
      if places[i] == places[j] { TimesSplit(places, i, j); }
    }
    assert |places| > 1 ==> places[0] != places[1];
  }

  lemma {:induction false} OrderIsOrdered(a: seq<S.Running>, requests: map<Id, ActiveRequest>, lives: map<Id, Life>,
                                          ex: CacheExecutor)
    requires AllRun(a, requests, lives, ex)
    ensures forall i | 0 <= i < |S.DecodeOrder(a)| :: S.DecodeOrder(a)[i] < |a| && a[S.DecodeOrder(a)[i]].id in requests
    ensures Ordered(a, requests, S.DecodeOrder(a), Behind(a, requests, S.DecodeOrder(a)))
  {
    hide S.DecodeOrder, Live;
    var places := S.DecodeOrder(a);
    OrderOnce(a);
    forall i: nat | i < |places| ensures places[i] < |a| && a[places[i]].id in requests {
      assert RunsAt(a, places[i], requests, lives, ex);
    }
    forall k: nat | k < |a| && !a[k].done ensures k in places {
      S.OrderHasEachOnce(a, k);
      assert RunsAt(a, k, requests, lives, ex);
      AlwaysWork(requests[a[k].id], ex);
    }
  }

  lemma {:induction false} AlwaysWork(o: ActiveRequest, ex: CacheExecutor)
    requires o.terminal.Active? && o.Ready(ex)
    ensures o.at.phase.Decode? || |o.at.prompt| != o.at.ingested
  {
  }

  lemma {:induction false} OrderedDiffer(w: seq<S.Waiting>, a: seq<S.Running>, events: seq<S.Event>, known: set<Id>,
                                         requests: map<Id, ActiveRequest>, lives: map<Id, Life>, places: seq<nat>,
                                         ordered: seq<ActiveRequest>)
    requires Books(w, a, events, known, requests, lives) && Ordered(a, requests, places, ordered)
    ensures Distinct(ordered) && DifferentIds(ordered)
    ensures forall i | 0 <= i < |ordered| :: ordered[i].spec.id == a[places[i]].id && ordered[i] in requests.Values
    ensures requests.Keys == lives.Keys && forall id | id in requests :: requests[id].spec.id == id
  {
    hide Recorded, Known;
    forall id | id in requests ensures requests[id].spec.id == id { assert RecordedAt(a, events, requests, lives, id); }
    forall i: nat, j: nat | i < j < |ordered| ensures Apart(ordered, i, j) && ordered[i].spec.id != ordered[j].spec.id {
      RunningApart(w, a, events, known, requests, lives, places[j]);
    }
  }

  lemma {:induction false} OrderedAreReady(a: seq<S.Running>, requests: map<Id, ActiveRequest>, lives: map<Id, Life>,
                                           places: seq<nat>, ordered: seq<ActiveRequest>, ex: CacheExecutor)
    requires AllRun(a, requests, lives, ex) && Ordered(a, requests, places, ordered)
    requires forall id | id in requests :: requests[id].spec.id == id
    ensures AllReady(ordered, ex)
    ensures Stood(ordered, lives, Marks(ordered)) && forall i | 0 <= i < |ordered| :: Marks(ordered)[i].terminal.Active?
  {
    hide Live;
    forall i: nat | i < |ordered|
      ensures ReadyAt(ordered, i, ex) && Marks(ordered)[i].terminal.Active?
      ensures ordered[i].spec.id in lives && Standing(lives[ordered[i].spec.id], Marks(ordered)[i])
    {
      assert RunsAt(a, places[i], requests, lives, ex);
      RankIsPositive(ordered[i].spec, ordered[i].at, ordered[i].past);
    }
  }

  predicate NobodyRuns(a: seq<S.Running>) { forall k | 0 <= k < |a| :: a[k].done }

  lemma {:induction false} SomebodyRuns(a: seq<S.Running>, requests: map<Id, ActiveRequest>, places: seq<nat>,
                                        ordered: seq<ActiveRequest>)
    requires Ordered(a, requests, places, ordered)
    ensures !NobodyRuns(a) ==> |ordered| > 0
  {
  }

  lemma {:induction false} SomebodyContributes(flags: seq<bool>, marks: seq<Mark>, cs: seq<ActiveRequest>)
    requires |flags| == |marks| > 0 && forall k | 0 <= k < |marks| :: flags[k] == marks[k].terminal.Active?
    requires SomebodyIn(flags, cs) && marks[0].terminal.Active?
    ensures cs != []
  {
    assert flags[0];
  }

  /** The life of a request that runs, as it stands. */
  predicate Standing(l: Life, mark: Mark) { !Over(l) && l.mark == mark && mark.rank > 0 }

  ghost predicate Stood(ordered: seq<ActiveRequest>, lives: map<Id, Life>, marks: seq<Mark>) {
    |marks| == |ordered| && forall i | 0 <= i < |ordered| ::
      ordered[i].spec.id in lives && Standing(lives[ordered[i].spec.id], marks[i])
  }

  /** What a step has done to the requests that it was given. */
  ghost predicate HasStepped(ordered: seq<ActiveRequest>, marks: seq<Mark>, cs: seq<ActiveRequest>, outs: seq<seq<Event>>)
    reads ordered
  {
    && |outs| == |cs| && |marks| == |ordered| && Distinct(cs) && (forall k | 0 <= k < |cs| :: cs[k] in ordered)
    && forall i | 0 <= i < |ordered| ::
      Stepped(ordered[i], marks[i], cs, outs) && (ordered[i].terminal.Active? ==> Rank(ordered[i].spec, ordered[i].at) > 0)
  }

  lemma {:induction false} ReadyIsRanked(ordered: seq<ActiveRequest>, ex: CacheExecutor)
    requires AllReady(ordered, ex)
    ensures forall i | 0 <= i < |ordered| :: ordered[i].terminal.Active? ==> Rank(ordered[i].spec, ordered[i].at) > 0
  {
    forall i | 0 <= i < |ordered| && ordered[i].terminal.Active? ensures Rank(ordered[i].spec, ordered[i].at) > 0 {
      assert ReadyAt(ordered, i, ex);
      RankIsPositive(ordered[i].spec, ordered[i].at, ordered[i].past);
    }
  }

  lemma {:induction false} ContributorsDiffer(ordered: seq<ActiveRequest>, cs: seq<ActiveRequest>)
    requires DifferentIds(ordered) && Distinct(cs) && forall k | 0 <= k < |cs| :: cs[k] in ordered
    ensures DifferentIds(cs)
  {
    forall i: nat, j: nat | i < j < |cs| ensures cs[i].spec.id != cs[j].spec.id {
      assert Apart(cs, i, j);
      var p :| 0 <= p < |ordered| && ordered[p] == cs[i];
      var q :| 0 <= q < |ordered| && ordered[q] == cs[j];
    }
  }

  /** What a step tells can be passed on, and it ends exactly those that do not run any more. */
  lemma {:induction false} StepIsPassedOn(ordered: seq<ActiveRequest>, places: seq<nat>, marks: seq<Mark>,
                                          cs: seq<ActiveRequest>, outs: seq<seq<Event>>)
    requires HasStepped(ordered, marks, cs, outs) && Distinct(ordered) && |places| == |ordered|
    requires forall i | 0 <= i < |marks| :: marks[i].terminal.Active?
    requires forall i, j | 0 <= i < j < |places| :: places[i] != places[j]
    ensures var told := TellAll(cs, outs);
      && (forall i | 0 <= i < |told| :: told[i].request in ordered)
      && var gens := Generations(told, ordered, places);
        && S.StepOk(gens, places)
        && forall i | 0 <= i < |ordered| :: S.EndedIn(gens, |gens|, places[i]) <==> !ordered[i].terminal.Active?
  {
    var told := TellAll(cs, outs);
    var ended := seq(|cs|, k requires 0 <= k < |cs| reads cs => !cs[k].terminal.Active?);
    forall k | 0 <= k < |outs| ensures EndsOnce(outs[k], ended[k]) {
      var i :| 0 <= i < |ordered| && ordered[i] == cs[k];
      assert Stepped(ordered[i], marks[i], cs, outs);
    }
    StepMeetsScheduler(ordered, places, cs, outs, ended);
    forall i | 0 <= i < |ordered|
      ensures S.EndedIn(Generations(told, ordered, places), |told|, places[i]) <==> !ordered[i].terminal.Active?
    {
      EndedIffTold(told, ordered, places, i);
      if ordered[i] in cs {
        assert cs[PlaceOf(cs, ordered[i])] == ordered[i];
      } else {
        assert Stepped(ordered[i], marks[i], cs, outs);
        if x: nat :| x < |told| && told[x].request == ordered[i] && Final(told[x].event) {
          var q, e := ToldOf(cs, outs, x);
        }
      }
    }
  }

  lemma {:induction false} UndoneShrinks(a: seq<S.Running>, b: seq<S.Running>, id: Id)
    requires |a| == |b| && forall k | 0 <= k < |a| :: b[k].id == a[k].id && (a[k].done ==> b[k].done)
    ensures S.Undone(b, id) <= S.Undone(a, id)
  {
    if a != [] { UndoneShrinks(a[..|a| - 1], b[..|b| - 1], id); }
  }

  /** The active set after a step: exactly those are done that have ended, and the others stand where their
      objects stand. */
  ghost predicate Followed(a: seq<S.Running>, b: seq<S.Running>, requests: map<Id, ActiveRequest>)
    reads requests.Values
  {
    && |b| == |a|
    && forall k | 0 <= k < |a| ::
      && b[k].id == a[k].id && (a[k].done ==> b[k].done)
      && (!a[k].done ==> a[k].id in requests && var o := requests[a[k].id];
        && (b[k].done <==> !o.terminal.Active?)
        && (b[k].decoding <==> o.at.phase.Decode?) && (b[k].hasWork <==> |o.at.prompt| != o.at.ingested))
  }

  lemma {:induction false} RunAfterStep(a: seq<S.Running>, b: seq<S.Running>, requests: map<Id, ActiveRequest>,
                                        lives: map<Id, Life>, places: seq<nat>, ordered: seq<ActiveRequest>,
                                        marks: seq<Mark>, cs: seq<ActiveRequest>, outs: seq<seq<Event>>,
                                        ex: CacheExecutor)
    requires requests.Keys == lives.Keys && Ordered(a, requests, places, ordered) && Stood(ordered, lives, marks)
    requires forall id | id in requests :: requests[id].spec.id == id
    requires HasStepped(ordered, marks, cs, outs) && AllReady(ordered, ex) && Followed(a, b, requests)
    ensures AllRun(b, requests, LivesAfter(requests, lives, cs, outs), ex)
  {
    hide LivedAs, Live, Recorded;
    var after := LivesAfter(requests, lives, cs, outs);
    forall k: nat | k < |b| && !b[k].done ensures RunsAt(b, k, requests, after, ex) {
      assert k in places;
      var i :| 0 <= i < |places| && places[i] == k;
      assert ordered[i] == requests[a[k].id] && ReadyAt(ordered, i, ex) && Stepped(ordered[i], marks[i], cs, outs);
    }
  }

  lemma {:induction false} NotAmong(a: seq<S.Running>, events: seq<S.Event>, requests: map<Id, ActiveRequest>,
                                    lives: map<Id, Life>, places: seq<nat>, ordered: seq<ActiveRequest>,
                                    cs: seq<ActiveRequest>, id: Id)
    requires AllRecorded(a, events, requests, lives) && Ordered(a, requests, places, ordered)
    requires (forall k | 0 <= k < |cs| :: cs[k] in ordered) && (id in requests ==> requests[id] !in cs)
    ensures forall k | 0 <= k < |cs| :: cs[k].spec.id != id
  {
    forall k | 0 <= k < |cs| ensures cs[k].spec.id != id {
      var i :| 0 <= i < |ordered| && ordered[i] == cs[k];
      assert RecordedAt(a, events, requests, lives, a[places[i]].id);
    }
  }

  lemma {:induction false} TalesAfterStep(a: seq<S.Running>, events: seq<S.Event>, requests: map<Id, ActiveRequest>,
                                          lives: map<Id, Life>, places: seq<nat>, ordered: seq<ActiveRequest>,
                                          marks: seq<Mark>, cs: seq<ActiveRequest>, outs: seq<seq<Event>>, id: Id)
    requires AllRecorded(a, events, requests, lives) && id in requests
    requires Ordered(a, requests, places, ordered) && DifferentIds(ordered) && Stood(ordered, lives, marks)
    requires HasStepped(ordered, marks, cs, outs)
    ensures requests[id].spec.id == id
    ensures Recorded(events + Named(TellAll(cs, outs)), requests[id].spec, LivesAfter(requests, lives, cs, outs)[id])
  {
    hide LivedAs, TellAll, Recorded, Stepped;
    var o := requests[id];
    assert RecordedAt(a, events, requests, lives, id);
    if o in cs {
      ContributorsDiffer(ordered, cs);
      var i :| 0 <= i < |ordered| && ordered[i] == o;
      assert Stepped(ordered[i], marks[i], cs, outs) && Standing(lives[id], marks[i]);
      StepRecorded(events, o, lives[id], cs, outs, PlaceOf(cs, o));
    } else {
      NotAmong(a, events, requests, lives, places, ordered, cs, id);
      AboutNobody(cs, outs, id);
      StillRecorded(events, Named(TellAll(cs, outs)), o.spec, lives[id]);
    }
  }

  /** Whoever does not run any more after the step has ended. */
  lemma {:induction false} OverAfterStep(a: seq<S.Running>, b: seq<S.Running>, events: seq<S.Event>,
                                         requests: map<Id, ActiveRequest>, lives: map<Id, Life>, places: seq<nat>,
                                         ordered: seq<ActiveRequest>, marks: seq<Mark>, cs: seq<ActiveRequest>,
                                         outs: seq<seq<Event>>, id: Id)
    requires AllRecorded(a, events, requests, lives) && id in requests
    requires Ordered(a, requests, places, ordered) && Stood(ordered, lives, marks)
    requires HasStepped(ordered, marks, cs, outs) && Followed(a, b, requests) && S.Undone(b, id) == 0
    ensures Over(LivesAfter(requests, lives, cs, outs)[id])
  {
    hide Recorded, DifferentIds;
    assert RecordedAt(a, events, requests, lives, id);
    if S.Undone(a, id) > 0 {
      var k := UndoneMeans(a, id);
      if !b[k].done { UndoneAt(b, k); }
      assert k in places;
      var i :| 0 <= i < |places| && places[i] == k;
      assert Stepped(ordered[i], marks[i], cs, outs) && Standing(lives[id], marks[i]);
    }
  }

  lemma {:induction false} BooksAfterStep(w: seq<S.Waiting>, a: seq<S.Running>, b: seq<S.Running>, events: seq<S.Event>,
                                          known: set<Id>, requests: map<Id, ActiveRequest>, lives: map<Id, Life>,
                                          places: seq<nat>, ordered: seq<ActiveRequest>, marks: seq<Mark>,
                                          cs: seq<ActiveRequest>, outs: seq<seq<Event>>)
    requires Books(w, a, events, known, requests, lives)
    requires Ordered(a, requests, places, ordered) && DifferentIds(ordered) && Stood(ordered, lives, marks)
    requires HasStepped(ordered, marks, cs, outs) && Followed(a, b, requests)
    ensures Books(w, b, events + Named(TellAll(cs, outs)), known, requests, LivesAfter(requests, lives, cs, outs))
  {
    hide TellAll, Recorded, Known, Stepped, Stood;
    var (more, after) := (Named(TellAll(cs, outs)), LivesAfter(requests, lives, cs, outs));
    forall id ensures S.Undone(b, id) <= S.Undone(a, id) { UndoneShrinks(a, b, id); }
    forall id | id !in requests ensures W.AboutOnly(more, id) == [] {
      NotAmong(a, events, requests, lives, places, ordered, cs, id);
      AboutNobody(cs, outs, id);
    }
    KnownAfterNews(w, a, events, known, requests.Keys, more, b);
    forall id | id in requests ensures RecordedAt(b, events + more, requests, after, id) {
      TalesAfterStep(a, events, requests, lives, places, ordered, marks, cs, outs, id);
      if S.Undone(b, id) == 0 {
        OverAfterStep(a, b, events, requests, lives, places, ordered, marks, cs, outs, id);
      }
    }
    forall i: nat, j: nat ensures SlotApart(b, requests, i, j) { assert SlotApart(a, requests, i, j); }
  }

  lemma {:induction false} NoLeakAfterStep(v: View, a: seq<S.Running>, b: seq<S.Running>, requests: map<Id, ActiveRequest>,
                                           places: seq<nat>, ordered: seq<ActiveRequest>, marks: seq<Mark>,
                                           cs: seq<ActiveRequest>, outs: seq<seq<Event>>, ex: CacheExecutor)
    requires NoLeak(v.coordinator, a, requests) && Ordered(a, requests, places, ordered)
    requires forall i | 0 <= i < |marks| :: marks[i].terminal.Active?
    requires HasStepped(ordered, marks, cs, outs) && Followed(a, b, requests)
    requires GaveBack(cs, ex) && NoNewBusy(v, ex.Snapshot())
    ensures NoLeak(ex.coordinator, b, requests)
  {
    forall i: nat | i < |ex.coordinator| && ex.coordinator[i].busy ensures exists k: nat :: HeldBy(b, requests, i, k) {
      assert v.coordinator[i].busy;
      var k: nat :| HeldBy(a, requests, i, k);
      assert k in places;
      var p :| 0 <= p < |places| && places[p] == k;
      assert Stepped(ordered[p], marks[p], cs, outs);
      if ordered[p] in cs { assert cs[PlaceOf(cs, ordered[p])] == ordered[p]; }
      assert HeldBy(b, requests, i, k);
    }
  }

  // ---------------------------------------------------------------- progress

  /** How often this request can still contribute, at most. */
  function Left(r: S.Running, lives: map<Id, Life>): int {
    if r.done || r.id !in lives then 0 else lives[r.id].mark.rank
  }

  function WorkLeft(a: seq<S.Running>, lives: map<Id, Life>): int {
    if a == [] then 0 else WorkLeft(a[..|a| - 1], lives) + Left(a[|a| - 1], lives)
  }

  lemma {:induction false} WorkShrinks(a: seq<S.Running>, lives: map<Id, Life>, b: seq<S.Running>, after: map<Id, Life>)
    requires |b| == |a| && forall k | 0 <= k < |a| :: Left(b[k], after) <= Left(a[k], lives)
    ensures WorkLeft(b, after) <= WorkLeft(a, lives)
    ensures (exists k :: 0 <= k < |a| && Left(b[k], after) < Left(a[k], lives)) ==> WorkLeft(b, after) < WorkLeft(a, lives)
  {
    if a != [] {
      var n := |a| - 1;
      WorkShrinks(a[..n], lives, b[..n], after);
      assert Left(b[n], after) <= Left(a[n], lives);
      if k :| 0 <= k < n && Left(b[k], after) < Left(a[k], lives) {
        assert Left(b[..n][k], after) < Left(a[..n][k], lives);
      }
    }
  }

  lemma {:induction false} WorkAfterErase(a: seq<S.Running>, lives: map<Id, Life>)
    ensures WorkLeft(S.StillActive(a), lives) == WorkLeft(a, lives)
  {
    if a != [] {
      var (init, r) := (S.StillActive(a[..|a| - 1]), a[|a| - 1]);
      WorkAfterErase(a[..|a| - 1], lives);
      if r.done { assert init + [] == init; } else { assert (init + [r])[..|init|] == init; }
    }
  }

  /** A step in which anybody contributes leaves less to do. */
  lemma {:induction false} WorkAfterStep(a: seq<S.Running>, b: seq<S.Running>, requests: map<Id, ActiveRequest>,
                                         lives: map<Id, Life>, places: seq<nat>, ordered: seq<ActiveRequest>,
                                         marks: seq<Mark>, cs: seq<ActiveRequest>, outs: seq<seq<Event>>)
    requires requests.Keys == lives.Keys && Ordered(a, requests, places, ordered) && Stood(ordered, lives, marks)
    requires forall id | id in requests :: requests[id].spec.id == id
    requires HasStepped(ordered, marks, cs, outs) && Followed(a, b, requests)
    ensures WorkLeft(b, LivesAfter(requests, lives, cs, outs)) <= WorkLeft(a, lives)
    ensures cs != [] ==> WorkLeft(b, LivesAfter(requests, lives, cs, outs)) < WorkLeft(a, lives)
  {
    var after := LivesAfter(requests, lives, cs, outs);
    forall k: nat | k < |a|
      ensures Left(b[k], after) <= Left(a[k], lives)
      ensures !a[k].done && requests[a[k].id] in cs ==> Left(b[k], after) < Left(a[k], lives)
    {
      if !a[k].done { LeftAfterStep(a, b, requests, lives, places, ordered, marks, cs, outs, k); }
    }
    WorkShrinks(a, lives, b, after);
    if cs != [] {
      assert cs[0] in ordered;
      var i :| 0 <= i < |ordered| && ordered[i] == cs[0];
      assert requests[a[places[i]].id] in cs;
      assert Left(b[places[i]], after) < Left(a[places[i]], lives);
    }
  }

  lemma {:induction false} LeftAfterStep(a: seq<S.Running>, b: seq<S.Running>, requests: map<Id, ActiveRequest>,
                                         lives: map<Id, Life>, places: seq<nat>, ordered: seq<ActiveRequest>,
                                         marks: seq<Mark>, cs: seq<ActiveRequest>, outs: seq<seq<Event>>, k: nat)
    requires requests.Keys == lives.Keys && Ordered(a, requests, places, ordered) && Stood(ordered, lives, marks)
    requires forall id | id in requests :: requests[id].spec.id == id
    requires HasStepped(ordered, marks, cs, outs) && Followed(a, b, requests) && k < |a| && !a[k].done
    ensures a[k].id in requests
    ensures var after := LivesAfter(requests, lives, cs, outs);
      if requests[a[k].id] in cs then Left(b[k], after) < Left(a[k], lives) else Left(b[k], after) <= Left(a[k], lives)
  {
    hide EndsOnce, AnchorsOf, Kept, Requests.TextOf;
    assert k in places;
    var i :| 0 <= i < |places| && places[i] == k;
    assert Stepped(ordered[i], marks[i], cs, outs) && Standing(lives[ordered[i].spec.id], marks[i]);
    if requests[a[k].id] in cs { assert cs[PlaceOf(cs, ordered[i])] == ordered[i]; }
  }

  lemma {:induction false} WorkAfterCompletion(w: seq<S.Waiting>, a: seq<S.Running>, events: seq<S.Event>, known: set<Id>,
                                               requests: map<Id, ActiveRequest>, lives: map<Id, Life>, k: nat)
    requires Books(w, a, events, known, requests, lives) && k < |a| && !a[k].done
    requires a[k].id in lives && !Over(lives[a[k].id])
    ensures WorkLeft(a[k := S.Completed(a[k], true)], lives[a[k].id := lives[a[k].id].(cancelled := true)])
      < WorkLeft(a, lives)
  {
    hide LivedAs;
    assert a[k].id in requests && RecordedAt(a, events, requests, lives, a[k].id);
    var (b, after) := (a[k := S.Completed(a[k], true)], lives[a[k].id := lives[a[k].id].(cancelled := true)]);
    forall j | 0 <= j < |a| ensures Left(b[j], after) <= Left(a[j], lives) {
    }
    assert Left(b[k], after) < Left(a[k], lives);
    WorkShrinks(a, lives, b, after);
  }

  /** Whoever runs has something left to do: so many ticks later, nobody runs who runs now. */
  lemma {:induction false} WorkIsLeft(a: seq<S.Running>, requests: map<Id, ActiveRequest>, lives: map<Id, Life>,
                                      ex: CacheExecutor)
    requires AllRun(a, requests, lives, ex) && S.AllRunning(a)
    ensures WorkLeft(a, lives) >= |a|
  {
    if a != [] {
      var init := a[..|a| - 1];
      forall k | 0 <= k < |init| && !init[k].done ensures RunsAt(init, k, requests, lives, ex) {
        assert RunsAt(a, k, requests, lives, ex);
      }
      WorkIsLeft(init, requests, lives, ex);
      assert RunsAt(a, |a| - 1, requests, lives, ex);
      var o := requests[a[|a| - 1].id];
      RankIsPositive(o.spec, o.at, o.past);
    }
  }

  lemma {:induction false} ReadyForStep(w: seq<S.Waiting>, a: seq<S.Running>, events: seq<S.Event>, known: set<Id>,
                                        requests: map<Id, ActiveRequest>, lives: map<Id, Life>, places: seq<nat>,
                                        ordered: seq<ActiveRequest>, ex: CacheExecutor)
    requires Books(w, a, events, known, requests, lives) && AllRun(a, requests, lives, ex)
    requires Ordered(a, requests, places, ordered)
    ensures Distinct(ordered) && DifferentIds(ordered) && AllReady(ordered, ex) && Stood(ordered, lives, Marks(ordered))
    ensures forall i | 0 <= i < |ordered| ::
      ordered[i].spec.id == a[places[i]].id && ordered[i] in requests.Values && Marks(ordered)[i].terminal.Active?
    ensures !NobodyRuns(a) ==> |ordered| > 0
  {
    hide Books, AllRun;
    OrderedDiffer(w, a, events, known, requests, lives, places, ordered);
    OrderedAreReady(a, requests, lives, places, ordered, ex);
    SomebodyRuns(a, requests, places, ordered);
  }

  /** Everything that a step keeps. */
  lemma {:induction false} StepKeepsAll(w: seq<S.Waiting>, a: seq<S.Running>, b: seq<S.Running>, events: seq<S.Event>,
                                        known: set<Id>, requests: map<Id, ActiveRequest>, lives: map<Id, Life>,
                                        places: seq<nat>, ordered: seq<ActiveRequest>, marks: seq<Mark>,
                                        cs: seq<ActiveRequest>, outs: seq<seq<Event>>, ex: CacheExecutor)
    requires Books(w, a, events, known, requests, lives)
    requires Ordered(a, requests, places, ordered) && DifferentIds(ordered) && Stood(ordered, lives, marks)
    requires HasStepped(ordered, marks, cs, outs) && AllReady(ordered, ex) && Followed(a, b, requests)
    ensures requests.Keys == lives.Keys
    ensures var after := LivesAfter(requests, lives, cs, outs);
      && Books(w, b, events + Named(TellAll(cs, outs)), known, requests, after) && AllRun(b, requests, after, ex)
      && WorkLeft(b, after) <= WorkLeft(a, lives) && (cs != [] ==> WorkLeft(b, after) < WorkLeft(a, lives))
  {
    hide Books, AllRun, Stepped, Followed, LivesAfter, WorkLeft, AllReady, Stood;
    OrderedDiffer(w, a, events, known, requests, lives, places, ordered);
    BooksAfterStep(w, a, b, events, known, requests, lives, places, ordered, marks, cs, outs);
    RunAfterStep(a, b, requests, lives, places, ordered, marks, cs, outs, ex);
    WorkAfterStep(a, b, requests, lives, places, ordered, marks, cs, outs);
  }

  // ---------------------------------------------------------------- runs

  /** Exactly those with this id, or all, are marked as cancelled, beside those that were. */
  predicate Marked(a: seq<S.Running>, b: seq<S.Running>, target: Id) {
    |b| == |a| && forall k | 0 <= k < |a| ::
      b[k].cancelled == (a[k].cancelled || (!a[k].done && (target == P.NO_ID || a[k].id == target)))
  }

  /** Whoever was cancelled is done: a step is given no cancelled request. */
  predicate MarkedAreDone(a: seq<S.Running>) { forall k | 0 <= k < |a| && a[k].cancelled :: a[k].done }

  lemma {:induction false} MarkedAreCompleted(a: seq<S.Running>, b: seq<S.Running>)
    requires |b| == |a| && forall k | 0 <= k < |a| :: b[k] == S.Completed(a[k], false)
    ensures MarkedAreDone(b)
  {
  }

  lemma {:induction false} MarkedAreStill(a: seq<S.Running>, b: seq<S.Running>)
    requires |b| == |a| && forall k | 0 <= k < |a| :: b[k].cancelled == a[k].cancelled && (a[k].done ==> b[k].done)
    ensures MarkedAreDone(a) ==> MarkedAreDone(b)
  {
  }

  predicate NobodyMarked(a: seq<S.Running>) { forall k | 0 <= k < |a| :: !a[k].cancelled }

  lemma {:induction false} NobodyMarkedStill(a: seq<S.Running>)
    requires MarkedAreDone(a)
    ensures NobodyMarked(S.StillActive(a))
  {
    if a != [] { NobodyMarkedStill(a[..|a| - 1]); }
  }

  datatype Move =
    | Enqueue(id: Id, model: Option<nat>, priority: Priority)
    | Cancel(target: Id)
    | Tick(batchBudget: nat, prefillBudget: int)

  /** A request as it is prepared: its prompt and options, what the coordinator plans for it, and what goes wrong. */
  datatype Asked = Asked(spec: Spec, hybrid: bool, plan: Option<Plan>, fault: Fault)

  class Engine {
    const scheduler: S.Scheduler
    const ex: CacheExecutor
    /** Every id that was ever enqueued. */
    var known: set<Id>
    /** The object behind each request that has started, also after its end. */
    var requests: map<Id, ActiveRequest>
    /** The life of each, and everything that was told, as histories. */
    ghost var lives: map<Id, Life>
    ghost var events: seq<S.Event>

    constructor (slots: nat)
      requires slots > 0
      ensures Valid() && known == {} && events == [] && fresh(scheduler) && fresh(ex) && requests == map[]
      ensures scheduler.waiting == [] && scheduler.active == []
    {
      scheduler := new S.Scheduler();
      ex := new CacheExecutor(slots);
      known, requests, lives, events := {}, map[], map[], [];
      new;
      ex.MirrorTallies();
    }

    /** All contents tally, only who runs holds a slot, everybody who runs is ready, and what was told of each
        request is its story. */
    ghost predicate Valid()
      reads this, scheduler, ex, requests.Values
    {
      && scheduler.Valid() && AllTally(ex.Snapshot()) && NoLeak(ex.coordinator, scheduler.active, requests)
      && Books(scheduler.waiting, scheduler.active, events, known, requests, lives)
      && AllRun(scheduler.active, requests, lives, ex)
    }

    /** A request whose id is new. */
    method Enqueue(id: Id, model: Option<nat>, priority: Priority)
      requires Valid() && id !in known
      modifies this`known, scheduler
      ensures Valid() && known == old(known) + {id} && scheduler.active == old(scheduler.active)
      ensures scheduler.waiting == old(scheduler.waiting) + [S.Waiting(id, model, priority, old(scheduler.next))]
    {
      hide AllRun, NoLeak, AllTally, AllRecorded, S.InLine, S.OneModel, S.HasRoom, SlotsApart;
      KnownAfterEnqueue(scheduler.waiting, scheduler.active, events, known, requests.Keys,
        S.Waiting(id, model, priority, scheduler.next));
      scheduler.Enqueue(id, model, priority);
      known := known + {id};
    }

    /** What the coordinator promises of its plans, and no partial restore. */
    predicate Usable(spec: Spec, hybrid: bool, plan: Plan)
      reads ex
    {
      && Planned(ex.coordinator, spec.full, plan)
      && (hybrid || !PartialRestore(ex.coordinator, spec.full, plan))
      && (spec.boundaries != [] ==> spec.boundaries[0] > plan.reuse)
    }

    /** What was asked for can be prepared. */
    predicate Succeeds(asked: Asked)
      reads ex
    {
      var Asked(spec, hybrid, plan, fault) := asked;
      && |spec.full| < spec.backend.context && GoodBoundaries(spec.boundaries, |spec.full|)
      && ex.Shaped() && plan.Some? && Usable(spec, hybrid, plan.value)
      && ex.Current(plan.value) && !fault.hook && Feasible(plan.value, spec.full, hybrid, fault, ex.slots)
    }

    /** Prepares a request, with any plan of the coordinator that does not restore less than a whole anchor, exactly
        if its prompt fits into the context, the plan is not stale, and its physical steps succeed. */
    method Ask(id: Id, priority: Priority, asked: Asked) returns (r: Option<ActiveRequest>)
      requires AllTally(ex.Snapshot())
      modifies ex
      ensures r.Some? <==> old(Succeeds(asked.(spec := asked.spec.(id := id))))
      ensures r.Some? ==> r.value.spec == asked.spec.(id := id) && r.value.priority == priority
      ensures AllTally(ex.Snapshot()) && CurrentKept(old(ex.Snapshot()), ex.Snapshot())
      ensures r.Some? ==> fresh(r.value) && r.value.spec.id == id && r.value.terminal.Active? && r.value.Ready(ex)
      ensures r.Some? ==> r.value.slot < |old(ex.coordinator)| && !old(ex.coordinator)[r.value.slot].busy
      ensures r.Some? ==> Newborn(r.value.spec, Life(MarkOf(r.value), 0, [], false))
      ensures r.Some? ==> r.value.at.phase.Prefill? && |r.value.at.prompt| != r.value.at.ingested
      ensures NoWorse(old(ex.Snapshot()), ex.Snapshot(), if r.Some? then r.value.slot else |ex.slots|)
    {
      hide Feasible, Live, LivedAs, Undecided, PiecesOf, NoWorse, GoodBoundaries;
      var Asked(given, hybrid, plan, fault) := asked;
      var spec := given.(id := id);
      SameIsNoWorse(ex.Snapshot(), |ex.slots|);
      if |spec.full| >= spec.backend.context || !GoodBoundaries(spec.boundaries, |spec.full|) { return None; }
      if plan.Some? && !Usable(spec, hybrid, plan.value) { plan := None; }
      r := Prepare(spec, priority, hybrid, plan, fault, ex);
      if r.Some? { assert Reuses(spec, Resident(plan.value, spec.full)); }
    }

    /** Whether it is prepared or not, nobody who runs notices. */
    method AskBeside(id: Id, priority: Priority, ghost a: seq<S.Running>) returns (r: Option<ActiveRequest>)
      requires AllTally(ex.Snapshot()) && AllRun(a, requests, lives, ex)
      modifies ex
      ensures AllTally(ex.Snapshot()) && AllRun(a, requests, lives, ex)
      ensures r.Some? ==> fresh(r.value) && r.value.spec.id == id && NewSlot(a, requests, r.value.slot)
      ensures r.Some? ==> Newborn(r.value.spec, Life(MarkOf(r.value), 0, [], false))
      ensures r.Some? ==> forall s: S.Running | !s.decoding && s.hasWork ::
        Runs(s, r.value, Life(MarkOf(r.value), 0, [], false), ex)
      ensures NoWorse(old(ex.Snapshot()), ex.Snapshot(), if r.Some? then r.value.slot else |ex.slots|)
    {
      hide Live, LivedAs, Newborn, NoWorse;
      var asked: Asked := *;
      r := Ask(id, priority, asked);
      forall k | 0 <= k < |a| && !a[k].done
        ensures RunsAt(a, k, requests, lives, ex)
        ensures r.Some? ==> requests[a[k].id].slot != r.value.slot
      {
        assert old(RunsAt(a, k, requests, lives, ex));
      }
    }

    /** Prepares the selected request, and starts it, puts it back or refuses it. */
    method PrepareSelected(k: nat) returns (goOn: bool)
      requires Valid() && S.FirstOfClass(scheduler.waiting, k)
      requires scheduler.waiting[k].model.Some? && scheduler.loaded == scheduler.waiting[k].model
      modifies this`requests, this`lives, this`events, scheduler, ex
      ensures Valid() && Extends(old(requests), requests) && fresh(requests.Values - old(requests.Values))
      ensures |scheduler.waiting| + (if goOn then 1 else 0) == |old(scheduler.waiting)|
      ensures S.AllRunning(old(scheduler.active)) ==> S.AllRunning(scheduler.active)
      ensures scheduler.loaded == old(scheduler.loaded) && scheduler.capacity == old(scheduler.capacity)
      ensures old(scheduler.active) <= scheduler.active && |scheduler.active| <= |old(scheduler.active)| + 1
      ensures !goOn ==> scheduler.active == old(scheduler.active) && scheduler.waiting[0] == old(scheduler.waiting)[k]
    {
      hide Books, Runs, Newborn, AllRun, NewSlot, NoLeak, NoWorse, AllTally, S.Outcome, S.Reports, S.Chronicle, S.InLine,
        S.OneModel;
      ghost var v := ex.Snapshot();
      ghost var (w, a) := (scheduler.waiting, scheduler.active);
      var (id, priority) := (scheduler.waiting[k].id, scheduler.waiting[k].priority);
      var r := AskBeside(id, priority, a);
      var again: bool := *;
      var more;
      var outcome := if r.Some? then S.Prepared else if again then S.Backpressure else S.Refused;
      more, goOn := scheduler.PrepareSelected(k, outcome, true);
      if r.None? {
        NoLeakAfterAsking(v, ex.Snapshot(), a, requests);
        BooksAfterTurn(w, a, events, known, requests, lives, k, more, goOn, scheduler.waiting);
      } else {
        ghost var l := Life(MarkOf(r.value), 0, [], false);
        assert scheduler.waiting == Without(w, k);
        BooksAfterStart(w, a, events, known, requests, lives, k, S.Entered(w[k], true), r.value, l);
        NoLeakAfterStart(v, ex.Snapshot(), a, requests, S.Entered(w[k], true), r.value);
        RunsToo(a, S.Entered(w[k], true), requests, lives, r.value, l, ex);
        requests, lives := requests[id := r.value], lives[id := l];
      }
      events := events + more;
    }

    /** Another model comes with an empty cache; nobody runs then. */
    method StartOver()
      requires scheduler.active == [] && AllTally(ex.Snapshot())
      modifies ex
      ensures AllTally(ex.Snapshot()) && AllRun(scheduler.active, requests, lives, ex)
      ensures EmptyCache()
    {
      ex.Reset();
      ex.MirrorTallies();
    }

    /** The next request of some class has to wait for room or for its model. */
    predicate HoldsBack()
      reads scheduler
    {
      S.SomeoneHeld(scheduler.waiting, scheduler.active, scheduler.loaded, scheduler.capacity)
    }

    /** The request in turn was put back. */
    predicate PutsBack()
      reads scheduler
    {
      S.PutBack(scheduler.waiting, scheduler.active, scheduler.loaded, scheduler.capacity)
    }

    /** The next request in turn, and its model; the cache starts over with another model. */
    method SelectAndLoad() returns (k: nat, ready: bool, more: seq<S.Event>, goOn: bool)
      requires Valid() && scheduler.waiting != []
      modifies scheduler`cursor, scheduler`waiting, scheduler`loaded, scheduler`capacity, ex
      ensures scheduler.Valid() && S.InTurn(old(scheduler.waiting), old(scheduler.cursor), k, scheduler.cursor)
      ensures !ready ==>
        S.Outcome(old(scheduler.waiting), scheduler.active, k, more, goOn, scheduler.waiting, scheduler.active)
      ensures !ready && !goOn ==>
        && scheduler.waiting == old(scheduler.waiting)
        && S.Held(scheduler.waiting[k], scheduler.active, scheduler.loaded, scheduler.capacity)
      ensures ready ==>
        && scheduler.waiting == old(scheduler.waiting) && scheduler.waiting[k].model.Some?
        && scheduler.loaded == scheduler.waiting[k].model && !S.Closed(scheduler.active, scheduler.capacity)
      ensures AllTally(ex.Snapshot()) && AllRun(scheduler.active, requests, lives, ex)
      ensures NoLeak(ex.coordinator, scheduler.active, requests)
      ensures scheduler.active != [] ==>
        scheduler.loaded == old(scheduler.loaded) && scheduler.capacity == old(scheduler.capacity)
      ensures if scheduler.loaded == old(scheduler.loaded) then ex.Snapshot() == old(ex.Snapshot()) else EmptyCache()
    {
      hide Books, AllRun, AllTally, S.Outcome, S.Reports, S.InLine, S.OneModel, S.Held, S.Closed;
      var was := scheduler.loaded;
      k, ready, more, goOn := scheduler.SelectNext();
      if scheduler.loaded != was { StartOver(); }
    }

    predicate EmptyCache()
      reads ex
    {
      |ex.physical| == |ex.coordinator| && forall i | 0 <= i < |ex.coordinator| :: ex.physical[i] == [] && !ex.coordinator[i].busy
    }

    /** One turn of the admission loop. */
    method AdmitNext() returns (goOn: bool, ghost pressed: bool)
      requires Valid() && scheduler.waiting != []
      modifies this`requests, this`lives, this`events, scheduler, ex
      ensures Valid() && Extends(old(requests), requests) && fresh(requests.Values - old(requests.Values))
      ensures goOn ==> |scheduler.waiting| < |old(scheduler.waiting)|
      ensures S.AllRunning(old(scheduler.active)) ==> S.AllRunning(scheduler.active)
      ensures !goOn && !pressed ==> HoldsBack()
      ensures pressed ==> !goOn && PutsBack()
      ensures scheduler.loaded != old(scheduler.loaded) ==> old(scheduler.active) == []
      ensures old(scheduler.active) <= scheduler.active
      ensures old(scheduler.active) != [] ==> scheduler.capacity == old(scheduler.capacity)
      ensures S.WithinCapacity(old(scheduler.active), scheduler.active, scheduler.capacity)
    {
      hide Books, AllRun, AllTally, S.Outcome, S.Reports, S.InLine, S.OneModel, S.AllRunning, S.Held;
      ghost var w := scheduler.waiting;
      pressed := false;
      var k, ready, more, selected := SelectAndLoad();
      if ready {
        goOn := PrepareSelected(k);
        pressed := !goOn;
      } else {
        goOn := selected;
        ShorterAfterTurn(w, scheduler.active, k, more, goOn, scheduler.waiting);
        BooksAfterTurn(w, scheduler.active, events, known, requests, lives, k, more, goOn, scheduler.waiting);
        events := events + more;
      }
    }

    /** Requests start in turn until the queue is empty, the next one has to wait, or there is back-pressure. */
    method Admit() returns (ghost pressed: bool)
      requires Valid()
      modifies this`requests, this`lives, this`events, scheduler, ex
      ensures Valid() && Extends(old(requests), requests) && fresh(requests.Values - old(requests.Values))
      ensures S.AllRunning(old(scheduler.active)) ==> S.AllRunning(scheduler.active)
      ensures old(scheduler.waiting) == [] ==>
        scheduler.waiting == [] && scheduler.active == old(scheduler.active) && lives == old(lives) && events == old(events)
      ensures scheduler.waiting == [] || if pressed then PutsBack() else HoldsBack()
      ensures S.WithinCapacity(old(scheduler.active), scheduler.active, scheduler.capacity)
    {
      hide Books, AllRun, NoLeak, AllTally, S.AllRunning, HoldsBack, PutsBack;
      pressed := false;
      while scheduler.waiting != []
        invariant Valid() && Extends(old(requests), requests)
        invariant fresh(requests.Values - old(requests.Values))
        invariant old(scheduler.waiting) == [] ==>
          scheduler.waiting == [] && scheduler.active == old(scheduler.active) && lives == old(lives) && events == old(events)
        invariant S.AllRunning(old(scheduler.active)) ==> S.AllRunning(scheduler.active)
        invariant old(scheduler.active) <= scheduler.active && !pressed
        invariant S.WithinCapacity(old(scheduler.active), scheduler.active, scheduler.capacity)
        decreases |scheduler.waiting|
      {
        var goOn, putBack := AdmitNext();
        if !goOn {
          pressed := putBack;
          break;
        }
      }
    }

    /** The object of a cancelled request. */
    method FinishCancelled(o: ActiveRequest) returns (completion: Option<Requests.Completion>)
      requires o.terminal.Active? && o.Ready(ex)
      modifies o, ex
      ensures o.terminal.Completed? && o.lease.None? && o.reason == Reason.Cancel && o.Settled(ex) && o.Freed(ex)
      ensures completion == Some(Requests.Completion(Reason.Cancel, [], |o.spec.full|, o.at.completionTokens))
      ensures o.at == old(o.at) && o.past == old(o.past)
      ensures KeptBut(old(ex.Snapshot()), ex.Snapshot(), o.slot)
    {
      o.reason := Reason.Cancel;
      completion := o.Finish(false, ex);
    }

    /** And its slot: everybody else goes on. */
    method FinishAt(k: nat)
      requires Valid() && k < |scheduler.active| && !scheduler.active[k].done
      modifies ex, requests.Values
      ensures var a := scheduler.active;
        && a[k].id in requests && AllTally(ex.Snapshot()) && NoLeak(ex.coordinator, a[k := S.Completed(a[k], true)], requests)
        && forall j | 0 <= j < |a| && j != k && !a[j].done :: RunsAt(a, j, requests, lives, ex)
      ensures var o := requests[scheduler.active[k].id]; o.terminal.Completed? && o.lease.None? && o.Freed(ex)
    {
      hide NoLeak, Books, Live, LivedAs, AllTally, TalliesAt;
      ghost var (a, v) := (scheduler.active, ex.Snapshot());
      RunningApart(scheduler.waiting, a, events, known, requests, lives, k);
      assert RunsAt(a, k, requests, lives, ex);
      var o := requests[scheduler.active[k].id];
      var completion := FinishCancelled(o);
      TalliesStill(v, ex.Snapshot(), o.slot);
      NoLeakAfterCompletion(v, ex.Snapshot(), a, requests, k);
      forall j | 0 <= j < |a| && j != k && !a[j].done ensures RunsAt(a, j, requests, lives, ex) {
        assert old(RunsAt(a, j, requests, lives, ex));
      }
    }

    /** Finishes a cancelled request. */
    method CompleteAt(k: nat)
      requires Valid() && k < |scheduler.active| && !scheduler.active[k].done
      modifies this`lives, this`events, scheduler`active, ex, requests.Values
      ensures Valid() && scheduler.active == old(scheduler.active)[k := S.Completed(old(scheduler.active)[k], true)]
      ensures WorkLeft(scheduler.active, lives) < old(WorkLeft(scheduler.active, lives))
      ensures scheduler.active[k].id in requests
      ensures var o := requests[scheduler.active[k].id]; o.terminal.Completed? && o.lease.None? && o.Freed(ex)
    {
      hide NoLeak, Books, Runs, S.Moved, S.InLine, S.OneModel, AllTally, WorkLeft;
      ghost var a := scheduler.active;
      var id := scheduler.active[k].id;
      RunningApart(scheduler.waiting, a, events, known, requests, lives, k);
      RunsAreNotOver(a, k, requests, lives, ex);
      FinishAt(k);
      var e := scheduler.CompleteOne(k);
      BooksAfterCompletion(scheduler.waiting, a, events, known, requests, lives, k);
      WorkAfterCompletion(scheduler.waiting, a, events, known, requests, lives, k);
      events, lives := events + [e], lives[id := lives[id].(cancelled := true)];
      assert forall j | 0 <= j < |a| && j != k && !a[j].done :: RunsAt(a, j, requests, old(lives), ex);
    }

    /** Finishes everybody who was cancelled, or everybody. */
    method CompleteMarked(all: bool)
      requires Valid()
      modifies this`lives, this`events, scheduler`active, ex, requests.Values
      ensures Valid() && |scheduler.active| == |old(scheduler.active)|
      ensures forall k | 0 <= k < |scheduler.active| :: scheduler.active[k] == S.Completed(old(scheduler.active)[k], all)
      ensures WorkLeft(scheduler.active, lives) <= old(WorkLeft(scheduler.active, lives))
      ensures scheduler.active != old(scheduler.active) ==>
        WorkLeft(scheduler.active, lives) < old(WorkLeft(scheduler.active, lives))
    {
      hide Books, AllRun, WorkLeft, NoLeak, AllTally;
      var k: nat := 0;
      while k < |scheduler.active|
        invariant k <= |scheduler.active| == |old(scheduler.active)| && Valid()
        invariant forall j | 0 <= j < k :: scheduler.active[j] == S.Completed(old(scheduler.active)[j], all)
        invariant forall j | k <= j < |scheduler.active| :: scheduler.active[j] == old(scheduler.active)[j]
        invariant WorkLeft(scheduler.active, lives) <= old(WorkLeft(scheduler.active, lives))
        invariant scheduler.active != old(scheduler.active) ==>
          WorkLeft(scheduler.active, lives) < old(WorkLeft(scheduler.active, lives))
      {
        if !scheduler.active[k].done && (all || scheduler.active[k].cancelled) { CompleteAt(k); }
        k := k + 1;
      }
    }

    /** Whether each decodes, and whether it has unread prompt. */
    method FlagsNow() returns (flags: seq<(bool, bool)>)
      ensures |flags| == |scheduler.active|
      ensures forall k | 0 <= k < |flags| && scheduler.active[k].id in requests ::
        var at := requests[scheduler.active[k].id].at;
        (flags[k].0 <==> at.phase.Decode?) && (flags[k].1 <==> |at.prompt| != at.ingested)
    {
      flags := [];
      while |flags| < |scheduler.active|
        invariant |flags| <= |scheduler.active|
        invariant forall k | 0 <= k < |flags| && scheduler.active[k].id in requests ::
          var at := requests[scheduler.active[k].id].at;
          (flags[k].0 <==> at.phase.Decode?) && (flags[k].1 <==> |at.prompt| != at.ingested)
      {
        var id := scheduler.active[|flags|].id;
        if id in requests {
          var at := requests[id].at;
          flags := flags + [(at.phase.Decode?, |at.prompt| != at.ingested)];
        } else {
          flags := flags + [(false, false)];
        }
      }
    }

    /** The step itself. */
    method TakeStep(ordered: seq<ActiveRequest>, sole: bool, batchBudget: nat, prefillBudget: int)
      returns (told: seq<Told>, ghost cs: seq<ActiveRequest>, ghost outs: seq<seq<Event>>)
      requires Distinct(ordered) && AllReady(ordered, ex) && AllTally(ex.Snapshot()) && (sole ==> |ordered| <= 1)
      modifies ordered, ex
      ensures AllReady(ordered, ex) && AllTally(ex.Snapshot()) && HasStepped(ordered, old(Marks(ordered)), cs, outs)
      ensures |outs| == |cs| && told == TellAll(cs, outs)
      ensures batchBudget > 0 ==> SomebodyIn(old(Flags(ordered)), cs)
      ensures GaveBack(cs, ex) && NoNewBusy(old(ex.Snapshot()), ex.Snapshot())
    {
      hide Live, Stepped, Chose, TellAll, Consecutive, NoneLeftOut, ActiveRequest.Ready;
      ghost var batch, fed;
      told, batch, cs, fed, outs := Step(ordered, ex, batchBudget, sole, prefillBudget);
      ReadyIsRanked(ordered, ex);
    }

    /** Passes on what the step told, and takes over where everybody stands. */
    method PassStep(told: seq<Told>, places: seq<nat>, ordered: seq<ActiveRequest>, ghost marks: seq<Mark>,
                    ghost cs: seq<ActiveRequest>, ghost outs: seq<seq<Event>>)
      returns (more: seq<S.Event>)
      requires scheduler.Valid() && Ordered(scheduler.active, requests, places, ordered) && Distinct(ordered)
      requires HasStepped(ordered, marks, cs, outs) && told == TellAll(cs, outs)
      requires forall i | 0 <= i < |marks| :: marks[i].terminal.Active?
      requires forall i | 0 <= i < |ordered| :: ordered[i].spec.id == scheduler.active[places[i]].id
      modifies scheduler`active
      ensures scheduler.Valid() && more == Named(told) && Followed(old(scheduler.active), scheduler.active, requests)
      ensures |scheduler.active| == |old(scheduler.active)|
      ensures MarkedAreDone(old(scheduler.active)) ==> MarkedAreDone(scheduler.active)
    {
      hide Stepped, TellAll, Generations, S.StepOk, S.InLine, S.Reports, S.OneModel, S.HasRoom, S.Passed, S.EndedIn, S.Starts,
        HasStepped, Named, Distinct, MarkedAreDone;
      ghost var a := scheduler.active;
      StepIsPassedOn(ordered, places, marks, cs, outs);
      var gens := Generations(told, ordered, places);
      more := scheduler.PassOn(gens, places);
      PassedIsNamed(more, told, ordered, places, a);
      var flags := FlagsNow();
      scheduler.MoveOn(flags);
      MarkedAreStill(a, scheduler.active);
      forall k: nat | k < |a| && !a[k].done
        ensures a[k].id in requests && (scheduler.active[k].done <==> !requests[a[k].id].terminal.Active?)
      {
        assert k in places;
        var i :| 0 <= i < |places| && places[i] == k;
        assert ordered[i] == requests[a[k].id];
      }
    }

    /** Everybody who runs, in the order of the step. */
    method WhoSteps() returns (places: seq<nat>, ordered: seq<ActiveRequest>)
      requires Valid()
      ensures Ordered(scheduler.active, requests, places, ordered) && Distinct(ordered) && DifferentIds(ordered)
      ensures AllReady(ordered, ex) && Stood(ordered, lives, Marks(ordered))
      ensures |places| == |ordered| && forall i | 0 <= i < |ordered| ::
        && places[i] < |scheduler.active| && ordered[i].spec.id == scheduler.active[places[i]].id
        && ordered[i] in requests.Values && Marks(ordered)[i].terminal.Active?
      ensures (!NobodyRuns(scheduler.active) ==> |ordered| > 0) && (|scheduler.active| == 1 ==> |ordered| <= 1)
    {
      hide S.DecodeOrder, Books, AllRun, AllReady, Stood, DifferentIds, Distinct, AllTally;
      places := scheduler.DecodeFirst();
      OrderOnce(scheduler.active);
      OrderIsOrdered(scheduler.active, requests, lives, ex);
      ordered := Behind(scheduler.active, requests, places);
      ReadyForStep(scheduler.waiting, scheduler.active, events, known, requests, lives, places, ordered, ex);
    }

    /** One step over everybody who runs; what it tells is passed on. */
    method StepActive(batchBudget: nat, prefillBudget: int)
      requires Valid() && MarkedAreDone(scheduler.active)
      modifies this`lives, this`events, scheduler`active, ex, requests.Values
      ensures Valid() && |scheduler.active| == |old(scheduler.active)| && MarkedAreDone(scheduler.active)
      ensures WorkLeft(scheduler.active, lives) <= old(WorkLeft(scheduler.active, lives))
      ensures batchBudget > 0 && !NobodyRuns(old(scheduler.active)) ==>
        WorkLeft(scheduler.active, lives) < old(WorkLeft(scheduler.active, lives))
    {
      hide Live, Stepped, TellAll, S.InLine, S.OneModel, Books, AllRun, HasStepped, Stood, Ordered, AllReady, DifferentIds,
        Followed, LivesAfter, Named, Distinct, WorkLeft, SomebodyIn, NobodyRuns, AllTally, NoLeak, GaveBack, NoNewBusy;
      ghost var v := ex.Snapshot();
      ghost var (w, a) := (scheduler.waiting, scheduler.active);
      var places, ordered := WhoSteps();
      ghost var (marks, flags) := (Marks(ordered), Flags(ordered));
      var told;
      ghost var cs, outs;
      told, cs, outs := TakeStep(ordered, |scheduler.active| == 1, batchBudget, prefillBudget);
      if batchBudget > 0 && !NobodyRuns(a) { SomebodyContributes(flags, marks, cs); }
      var more := PassStep(told, places, ordered, marks, cs, outs);
      NoLeakAfterStep(v, a, scheduler.active, requests, places, ordered, marks, cs, outs, ex);
      StepKeepsAll(w, a, scheduler.active, events, known, requests, lives, places, ordered, marks, cs, outs, ex);
      events, lives := events + more, LivesAfter(requests, lives, cs, outs);
    }

    /** Completes what was cancelled, runs a step over what can run, and erases what is done. */
    method Generate(batchBudget: nat, prefillBudget: int)
      requires Valid()
      modifies this`lives, this`events, scheduler`active, ex, requests.Values
      ensures Valid() && S.AllRunning(scheduler.active)
      ensures WorkLeft(scheduler.active, lives) <= old(WorkLeft(scheduler.active, lives))
      ensures batchBudget > 0 && !NobodyRuns(old(scheduler.active)) ==>
        WorkLeft(scheduler.active, lives) < old(WorkLeft(scheduler.active, lives))
      ensures |scheduler.active| <= |old(scheduler.active)| && NobodyMarked(scheduler.active)
    {
      hide Books, AllRun, NoLeak, AllTally, S.Reports, S.AllRunning, WorkLeft, S.StillActive, NobodyMarked, MarkedAreDone;
      ghost var before := scheduler.active;
      CompleteMarked(false);
      MarkedAreCompleted(before, scheduler.active);
      StepActive(batchBudget, prefillBudget);
      ghost var a := scheduler.active;
      var more := scheduler.Sweep();
      S.StillActiveIsNoLonger(a);
      NobodyMarkedStill(a);
      BooksAfterErase(scheduler.waiting, a, events, known, requests, lives, more);
      RunAfterErase(a, requests, lives, ex);
      WorkAfterErase(a, lives);
      NoLeakAfterErase(ex.coordinator, a, requests);
      events := events + more;
    }

    /** One tick. When nobody waits, whoever is active comes closer to the end with every tick: `WorkLeft` is
        at least the number of those who run. */
    method Tick(batchBudget: nat, prefillBudget: int) returns (ghost admitted: seq<S.Running>, ghost pressed: bool)
      requires Valid() && S.AllRunning(scheduler.active)
      modifies this`requests, this`lives, this`events, scheduler, ex, requests.Values
      ensures Valid() && S.AllRunning(scheduler.active)
      ensures Extends(old(requests), requests) && fresh(requests.Values - old(requests.Values))
      ensures old(scheduler.waiting) == [] && old(scheduler.active) != [] && batchBudget > 0 ==>
        WorkLeft(scheduler.active, lives) < old(WorkLeft(scheduler.active, lives))
      ensures S.WithinCapacity(old(scheduler.active), admitted, scheduler.capacity) && |scheduler.active| <= |admitted|
      ensures NobodyMarked(scheduler.active)
      ensures old(scheduler.waiting) == [] ==> scheduler.waiting == [] && admitted == old(scheduler.active)
      ensures S.Waits(pressed, scheduler.waiting, admitted, scheduler.loaded, scheduler.capacity)
    {
      hide Books, AllRun, WorkLeft, NoLeak, AllTally, S.SomeoneHeld, S.PutBack, S.WithinCapacity;
      assert scheduler.active != [] ==> !scheduler.active[0].done;
      pressed := Admit();
      admitted := scheduler.active;
      if scheduler.active != [] { Generate(batchBudget, prefillBudget); }
    }

    /** Ends everything, in the queue too. */
    method CancelAll()
      requires Valid()
      modifies this`lives, this`events, scheduler`active, scheduler`waiting, ex, requests.Values
      ensures Valid() && scheduler.active == [] && scheduler.waiting == []
      ensures forall id | id in requests :: Over(lives[id])
      ensures forall i | 0 <= i < |ex.coordinator| :: !ex.coordinator[i].busy
    {
      hide Books, S.Reports, NoLeak, AllTally;
      CompleteMarked(true);
      ghost var (w, a) := (scheduler.waiting, scheduler.active);
      scheduler.Clear();
      NobodyHolds(ex.coordinator, a, requests);
      NothingLeaks(ex.coordinator, requests);
      BooksAfterClear(w, a, events, known, requests, lives);
      var more := scheduler.CancelWaiting();
      BooksAfterCancelWaiting(w, [], events, known, requests, lives, more);
      events := events + more;
      AllAreOver(scheduler.waiting, events, known, requests, lives);
    }

    method Cancel(target: Id)
      requires Valid()
      modifies this`events, scheduler
      ensures Valid() && old(events) <= events
      ensures S.Withdrawn(old(scheduler.waiting), target, events[|old(events)|..], scheduler.waiting)
      ensures SameButFlag(old(scheduler.active), scheduler.active) && Marked(old(scheduler.active), scheduler.active, target)
      ensures S.AllRunning(old(scheduler.active)) ==> S.AllRunning(scheduler.active)
    {
      hide Books, S.Withdrawn, Runs, NoLeak, AllTally;
      ghost var (w, a) := (scheduler.waiting, scheduler.active);
      var more := scheduler.Cancel(target);
      BooksAfterCancel(w, a, events, known, requests, lives, target, more, scheduler.waiting, scheduler.active);
      events := events + more;
      SameRun(a, scheduler.active, requests, lives, ex);
      NoLeakSame(ex.coordinator, a, requests, scheduler.active);
    }

    /** Once nobody new comes, everybody ends, after no more ticks than there is work left, and no slot stays busy. */
    method Drain(ticks: seq<(nat, int)>)
      requires Valid() && S.AllRunning(scheduler.active) && scheduler.waiting == []
      requires forall k | 0 <= k < |ticks| :: ticks[k].0 > 0
      modifies this`requests, this`lives, this`events, scheduler, ex, requests.Values
      ensures Valid() && scheduler.waiting == []
      ensures |ticks| >= old(WorkLeft(scheduler.active, lives)) ==>
        && scheduler.active == [] && (forall id | id in requests :: Over(lives[id]))
        && forall i | 0 <= i < |ex.coordinator| :: !ex.coordinator[i].busy
    {
      hide Books, AllRun, NoLeak, AllTally, WorkLeft;
      var k := 0;
      while k < |ticks|
        invariant 0 <= k <= |ticks| && Valid() && S.AllRunning(scheduler.active) && scheduler.waiting == []
        invariant Extends(old(requests), requests) && fresh(requests.Values - old(requests.Values))
        invariant scheduler.active == [] || WorkLeft(scheduler.active, lives) + k <= old(WorkLeft(scheduler.active, lives))
      {
        var _, _ := Tick(ticks[k].0, ticks[k].1);
        k := k + 1;
      }
      WorkIsLeft(scheduler.active, requests, lives, ex);
      if scheduler.active == [] {
        NobodyHolds(ex.coordinator, scheduler.active, requests);
        AllAreOver(scheduler.waiting, events, known, requests, lives);
      }
    }

    /** One arrival, cancellation or tick. */
    method Make(move: Move)
      requires Valid() && S.AllRunning(scheduler.active)
      modifies this, scheduler, ex, requests.Values
      ensures Valid() && S.AllRunning(scheduler.active) && old(known) <= known
      ensures Extends(old(requests), requests) && fresh(requests.Values - old(requests.Values))
      ensures match move
        case Enqueue(id, model, priority) =>
          && known == old(known) + {id} && scheduler.active == old(scheduler.active)
          && scheduler.waiting == old(scheduler.waiting) +
            if id in old(known) then [] else [S.Waiting(id, model, priority, old(scheduler.next))]
        case Cancel(target) =>
          && Marked(old(scheduler.active), scheduler.active, target) && old(events) <= events
          && S.Withdrawn(old(scheduler.waiting), target, events[|old(events)|..], scheduler.waiting)
        case Tick(_, _) => NobodyMarked(scheduler.active)
    {
      hide Books, AllRun, NoLeak, AllTally, S.AllRunning, S.Withdrawn;
      match move {
        case Enqueue(id, model, priority) => if id !in known { Enqueue(id, model, priority); }
        case Cancel(target) => Cancel(target);
        case Tick(batchBudget, prefillBudget) => var _, _ := Tick(batchBudget, prefillBudget);
      }
    }

    /** Any requests, cancellations and ticks in any order. Of every request that has started: what was told about
        it is its start, what its steps told of it, and its cancellation, and nothing else; its stream is what
        that makes of it; and it has not contributed more often than twice its prompt and its output limit, plus
        one. */
    method Run(moves: seq<Move>)
      requires Valid() && S.AllRunning(scheduler.active)
      modifies this, scheduler, ex, requests.Values
      ensures Valid() && S.AllRunning(scheduler.active)
      ensures Extends(old(requests), requests) && requests.Keys == lives.Keys
      ensures forall id | id in requests :: requests[id].spec.id == id && Recorded(events, requests[id].spec, lives[id])
      ensures forall id | id in requests ::
        StreamIs(W.StreamAfter([P.Line(id, P.Accepted, 0)], events, id), requests[id].spec, lives[id])
      ensures forall id | id in requests :: lives[id].count <= MostContributions(requests[id].spec)
      ensures forall n | 0 <= n < |moves| && moves[n].Enqueue? :: moves[n].id in known
    {
      hide Books, AllRun, NoLeak, AllTally, S.AllRunning;
      var n := 0;
      while n < |moves|
        invariant 0 <= n <= |moves| && Valid() && S.AllRunning(scheduler.active)
        invariant forall k | 0 <= k < n && moves[k].Enqueue? :: moves[k].id in known
        invariant Extends(old(requests), requests) && fresh(requests.Values - old(requests.Values))
      {
        Make(moves[n]);
        n := n + 1;
      }
      EveryStream(scheduler.waiting, scheduler.active, events, known, requests, lives);
    }
  }
}

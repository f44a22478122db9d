/** Where the generation step meets the scheduler: what the scheduler takes for granted about a step is
    what the step guarantees. */
module Pipeline {

  import opened Common
  import opened CacheExecutors
  import opened Utf8
  import opened Requests
  import opened Stepper
  import P = Protocol
  import Proofs = StopBufferProofs
  import RequestText
  import S = Schedulers
  import SB = StopBuffers
  import W = Workers

  /** How the worker passes on what a step tells. A step is given no cancelled request. */
  function AsGeneration(e: Event): S.Generation {
    match e
    case Text(text) => S.Text(text)
    case PrefillProgress(_, _) => S.Progress
    case Complete(c) => S.Complete(false, c.tail)
    case Failure(_) => S.Failure
    case _ => S.Cache
  }

  function PlaceOf(ordered: seq<ActiveRequest>, r: ActiveRequest): (k: nat)
    requires r in ordered
    ensures k < |ordered| && ordered[k] == r
  {
    if ordered[|ordered| - 1] == r then |ordered| - 1 else PlaceOf(ordered[..|ordered| - 1], r)
  }

  /** `places[k]` is where request `ordered[k]` stands among the active ones. */
  function Generations(told: seq<Told>, ordered: seq<ActiveRequest>, places: seq<nat>): seq<(nat, S.Generation)>
    requires |places| == |ordered| && forall i | 0 <= i < |told| :: told[i].request in ordered
  {
    seq(|told|, i requires 0 <= i < |told| => (places[PlaceOf(ordered, told[i].request)], AsGeneration(told[i].event)))
  }

  predicate Once(told: seq<Told>, i: nat, j: nat) {
    i < j < |told| && told[i].request == told[j].request ==> !Final(told[i].event)
  }

  /** Nothing is told of a request after its end. */
  ghost predicate EndIsLast(told: seq<Told>) { forall i: nat, j: nat :: Once(told, i, j) }

  lemma {:induction false} ToldOf(cs: seq<ActiveRequest>, outs: seq<seq<Event>>, i: nat) returns (k: nat, e: nat)
    requires |outs| <= |cs| && i < |TellAll(cs, outs)|
    ensures k < |outs| && e < |outs[k]| && TellAll(cs, outs)[i] == Told(cs[k], outs[k][e])
  {
    var before := TellAll(cs, outs[..|outs| - 1]);
    if i < |before| {
      k, e := ToldOf(cs, outs[..|outs| - 1], i);
    } else {
      k, e := |outs| - 1, i - |before|;
    }
  }

  lemma {:induction false} EndsAreLast(cs: seq<ActiveRequest>, outs: seq<seq<Event>>, ended: seq<bool>)
    requires Distinct(cs) && |outs| <= |cs| && |ended| == |outs|
    requires forall k | 0 <= k < |outs| :: EndsOnce(outs[k], ended[k])
    ensures EndIsLast(TellAll(cs, outs))
  {
    if outs != [] {
      var n := |outs| - 1;
      var before := TellAll(cs, outs[..n]);
      EndsAreLast(cs, outs[..n], ended[..n]);
      forall i: nat, j: nat ensures Once(TellAll(cs, outs), i, j) {
        assert Once(before, i, j);
        if i < |before| <= j < |TellAll(cs, outs)| {
          var k, _ := ToldOf(cs, outs[..n], i);
          assert Apart(cs, k, n);
        }
      }
    }
  }

  /** What the scheduler requires of a step holds of every step: it tells only of requests that it was
      given, and nothing of one after its end; and it tells the end of exactly those that are not active
      any more. */
  lemma {:induction false} StepMeetsScheduler(ordered: seq<ActiveRequest>, places: seq<nat>, cs: seq<ActiveRequest>,
                                              outs: seq<seq<Event>>, ended: seq<bool>)
    requires |places| == |ordered| && forall i, j | 0 <= i < j < |places| :: places[i] != places[j]
    requires Distinct(cs) && |outs| == |cs| == |ended| && forall k | 0 <= k < |cs| :: cs[k] in ordered
    requires forall k | 0 <= k < |outs| :: EndsOnce(outs[k], ended[k])
    ensures var told := TellAll(cs, outs);
      && (forall i | 0 <= i < |told| :: told[i].request in ordered)
      && S.StepOk(Generations(told, ordered, places), places)
    ensures forall k | 0 <= k < |cs| :: ended[k] <==> EndTold(TellAll(cs, outs), cs[k])
  {
    var told := TellAll(cs, outs);
    forall i: nat | i < |told| ensures told[i].request in ordered {
      var k, e := ToldOf(cs, outs, i);
    }
    EndsAreLast(cs, outs, ended);
    var gens := Generations(told, ordered, places);
    forall i: nat, j: nat | i < j < |gens| && gens[i].0 == gens[j].0 ensures !S.EndsRequest(gens[i].1) {
      assert Once(told, i, j);
    }
    forall k | 0 <= k < |cs| ensures ended[k] <==> EndTold(told, cs[k]) { EndToldIffEnded(cs, outs, ended, k); }
  }

  ghost predicate EndTold(told: seq<Told>, r: ActiveRequest) {
    exists i :: 0 <= i < |told| && told[i].request == r && Final(told[i].event)
  }

  lemma {:induction false} EndToldIffEnded(cs: seq<ActiveRequest>, outs: seq<seq<Event>>, ended: seq<bool>, k: nat)
    requires Distinct(cs) && |outs| == |ended| <= |cs| && k < |outs|
    requires forall k | 0 <= k < |outs| :: EndsOnce(outs[k], ended[k])
    ensures ended[k] <==> EndTold(TellAll(cs, outs), cs[k])
  {
    var told := TellAll(cs, outs);
    if ended[k] {
      var i := ToldAt(cs, outs, k, |outs[k]| - 1);
    }
    if i: nat :| i < |told| && told[i].request == cs[k] && Final(told[i].event) {
      var q, e := ToldOf(cs, outs, i);
      OthersDiffer(cs, k);
      assert Final(outs[q][e]);
    }
  }

  lemma {:induction false} ToldAt(cs: seq<ActiveRequest>, outs: seq<seq<Event>>, k: nat, e: nat) returns (i: nat)
    requires |outs| <= |cs| && k < |outs| && e < |outs[k]|
    ensures i < |TellAll(cs, outs)| && TellAll(cs, outs)[i] == Told(cs[k], outs[k][e])
  {
    var n := |outs| - 1;
    if k == n {
      i := |TellAll(cs, outs[..n])| + e;
    } else {
      i := ToldAt(cs, outs[..n], k, e);
    }
  }

  // ---------------------------------------------------------------- the life of a request

  /** What is known of a request that has contributed `count` times and of which `told` was told since it
      began: it has contributions left for as long as it runs; everything it has shown was told, anchors only
      of its prompt up to its boundaries, and its end, last; what decoded since the last reset is exactly
      its tokens from the reused length on, up to the last one that was sampled or that one too; and it runs for
      as long as nothing that was sampled ends it, and completes with the first token that does, for that reason. */
  ghost predicate LivedAs(s: Spec, m: Mark, count: nat, told: seq<Event>) {
    && count + (if m.terminal.Active? then m.rank else 0) <= MostContributions(s)
    && EndsOnce(told, !m.terminal.Active?) && m.past.shown == Requests.TextOf(told) && AnchorsOf(told, s)
    && Kept(s, m.cached, m.nPos, m.past, m.terminal)
    && (m.terminal.Failed? ==> told != [] && told[|told| - 1].Failure?)
    && (m.terminal.Completed? ==>
      told != [] && told[|told| - 1].Complete? && Concluded(s, m.past, told[|told| - 1].completion))
  }

  /** A request that was just prepared. */
  lemma {:induction false} LifeBegins(s: Spec, reused: nat)
    requires reused < |s.full| < s.backend.context && GoodBoundaries(s.boundaries, |s.full|)
    requires s.boundaries != [] ==> s.boundaries[0] > reused
    ensures LivedAs(s, Mark(Rank(s, Start(s, reused)), reused, reused, NoPast(s), Active), 0, [])
  {
    StartIsLive(s, reused);
    RankIsPositive(s, Start(s, reused), NoPast(s));
  }

  lemma {:induction false} EndsOnceOn(a: seq<Event>, b: seq<Event>, ended: bool)
    requires EndsOnce(a, false) && EndsOnce(b, ended)
    ensures EndsOnce(a + b, ended)
  {
  }

  /** A step in which the request contributes. */
  lemma {:induction false} LivedOn(r: ActiveRequest, m: Mark, count: nat, told: seq<Event>,
                                   cs: seq<ActiveRequest>, outs: seq<seq<Event>>, j: nat)
    requires |outs| == |cs| && Stepped(r, m, cs, outs) && LivedAs(r.spec, m, count, told)
    requires (m.terminal.Active? ==> m.rank > 0) && j < |cs| && cs[j] == r
    ensures LivedAs(r.spec, MarkOf(r), count + 1, told + outs[j])
  {
    EndsOnceOn(told, outs[j], !r.terminal.Active?);
    AnchorsOfOn(told, outs[j], r.spec);
    TextOfSum(told, outs[j]);
  }

  /** Places of all requests in some order. */
  ghost predicate Permutes(order: seq<nat>, n: nat) {
    && |order| == n && (forall i | 0 <= i < n :: order[i] < n) && (forall i, j | 0 <= i < j < n :: order[i] != order[j])
    && forall k: nat | k < n :: k in order
  }

  datatype Round = Round(order: seq<nat>, batchBudget: nat, sole: bool, prefillBudget: int)

  lemma {:induction false} Reordered(rs: seq<ActiveRequest>, order: seq<nat>, ordered: seq<ActiveRequest>)
    requires Distinct(rs) && Permutes(order, |rs|) && |ordered| == |rs|
    requires forall i | 0 <= i < |rs| :: ordered[i] == rs[order[i]]
    ensures Distinct(ordered)
  {
    forall i: nat, j: nat | i < j < |ordered| ensures Apart(ordered, i, j) {
      OthersDiffer(rs, order[i]);
    }
  }

  /** What the life of each request has been so far. */
  ghost predicate AllLived(rs: seq<ActiveRequest>, marks: seq<Mark>, counts: seq<nat>, told: seq<seq<Event>>) {
    && |marks| == |counts| == |told| == |rs|
    && forall k | 0 <= k < |rs| :: LivedAs(rs[k].spec, marks[k], counts[k], told[k])
  }

  ghost predicate Ranked(marks: seq<Mark>) { forall k | 0 <= k < |marks| && marks[k].terminal.Active? :: marks[k].rank > 0 }

  lemma {:induction false} ReadyAreRanked(rs: seq<ActiveRequest>, ex: CacheExecutor)
    requires AllReady(rs, ex)
    ensures Ranked(Marks(rs))
  {
    forall k | 0 <= k < |rs| && rs[k].terminal.Active? ensures Marks(rs)[k].rank > 0 {
      assert ReadyAt(rs, k, ex);
      RankIsPositive(rs[k].spec, rs[k].at, rs[k].past);
    }
  }

  ghost function Counted(rs: seq<ActiveRequest>, counts: seq<nat>, cs: seq<ActiveRequest>): (after: seq<nat>)
    requires |counts| == |rs|
    ensures |after| == |rs|
  {
    seq(|rs|, k requires 0 <= k < |rs| => if rs[k] in cs then counts[k] + 1 else counts[k])
  }

  ghost function ToldToo(rs: seq<ActiveRequest>, told: seq<seq<Event>>, cs: seq<ActiveRequest>, outs: seq<seq<Event>>):
      (after: seq<seq<Event>>)
    requires |told| == |rs| && |outs| == |cs|
    ensures |after| == |rs|
  {
    seq(|rs|, k requires 0 <= k < |rs| => if rs[k] in cs then told[k] + outs[PlaceOf(cs, rs[k])] else told[k])
  }

  lemma {:induction false} AllLivedOn(rs: seq<ActiveRequest>, marks: seq<Mark>, counts: seq<nat>, told: seq<seq<Event>>,
                                      cs: seq<ActiveRequest>, outs: seq<seq<Event>>)
    requires AllLived(rs, marks, counts, told) && Ranked(marks) && |outs| == |cs|
    requires forall k | 0 <= k < |rs| :: Stepped(rs[k], marks[k], cs, outs)
    ensures AllLived(rs, Marks(rs), Counted(rs, counts, cs), ToldToo(rs, told, cs, outs))
  {
    forall k | 0 <= k < |rs|
      ensures LivedAs(rs[k].spec, Marks(rs)[k], Counted(rs, counts, cs)[k], ToldToo(rs, told, cs, outs)[k])
    {
      if rs[k] in cs { LivedOn(rs[k], marks[k], counts[k], told[k], cs, outs, PlaceOf(cs, rs[k])); }
    }
  }

  method RunRound(rs: seq<ActiveRequest>, round: Round, ex: CacheExecutor)
    returns (ghost cs: seq<ActiveRequest>, ghost outs: seq<seq<Event>>)
    requires Distinct(rs) && AllReady(rs, ex) && ex.Shaped()
    requires Permutes(round.order, |rs|) && (round.sole ==> |rs| <= 1)
    modifies rs, ex
    ensures AllReady(rs, ex) && ex.Shaped() && (old(AllTally(ex.Snapshot())) ==> AllTally(ex.Snapshot()))
    ensures |outs| == |cs| && forall k | 0 <= k < |rs| :: Stepped(rs[k], old(Marks(rs))[k], cs, outs)
  {
    hide Live, Stepped, Chose, TellAll, Consecutive, NoneLeftOut, ActiveRequest.Ready;
    var ordered := seq(|rs|, i requires 0 <= i < |rs| => rs[round.order[i]]);
    Reordered(rs, round.order, ordered);
    forall i | 0 <= i < |ordered| ensures ReadyAt(ordered, i, ex) { assert ReadyAt(rs, round.order[i], ex); }
    ghost var (was, marks) := (Marks(rs), Marks(ordered));
    var events;
    ghost var batch, fed;
    events, batch, cs, fed, outs := Step(ordered, ex, round.batchBudget, round.sole, round.prefillBudget);
    forall k: nat | k < |rs| ensures ReadyAt(rs, k, ex) && Stepped(rs[k], was[k], cs, outs) {
      assert k in round.order;
      var i :| 0 <= i < |ordered| && round.order[i] == k;
      assert ordered[i] == rs[k] && marks[i] == was[k];
      assert ReadyAt(ordered, i, ex) && Stepped(ordered[i], marks[i], cs, outs);
    }
  }

  /** Any number of steps over any requests, in any orders and with any budgets. No request contributes more
      often than twice its prompt and its output limit, plus one; and what was told of it since it began is
      all the text it has shown, and its end, last. */
  method RunSteps(rs: seq<ActiveRequest>, rounds: seq<Round>, ex: CacheExecutor)
    returns (ghost counts: seq<nat>, ghost told: seq<seq<Event>>)
    requires Distinct(rs) && AllReady(rs, ex) && ex.Shaped()
    requires forall k | 0 <= k < |rs| :: LivedAs(rs[k].spec, MarkOf(rs[k]), 0, [])
    requires forall n | 0 <= n < |rounds| :: Permutes(rounds[n].order, |rs|) && (rounds[n].sole ==> |rs| <= 1)
    modifies rs, ex
    ensures AllReady(rs, ex) && ex.Shaped() && |counts| == |told| == |rs|
    ensures old(AllTally(ex.Snapshot())) ==> AllTally(ex.Snapshot())
    ensures forall k | 0 <= k < |rs| :: counts[k] <= MostContributions(rs[k].spec)
    ensures forall k | 0 <= k < |rs| :: LivedAs(rs[k].spec, MarkOf(rs[k]), counts[k], told[k])
  {
    counts, told := seq(|rs|, k => 0), seq(|rs|, k => []);
    var n := 0;
    while n < |rounds|
      invariant 0 <= n <= |rounds| && AllReady(rs, ex) && ex.Shaped()
      invariant AllLived(rs, Marks(rs), counts, told) && (old(AllTally(ex.Snapshot())) ==> AllTally(ex.Snapshot()))
    {
      ReadyAreRanked(rs, ex);
      ghost var marks := Marks(rs);
      ghost var cs, outs := RunRound(rs, rounds[n], ex);
      AllLivedOn(rs, marks, counts, told, cs, outs);
      counts, told := Counted(rs, counts, cs), ToldToo(rs, told, cs, outs);
      n := n + 1;
    }
    ReadyAreRanked(rs, ex);
  }

  // ---------------------------------------------------------------- from the stop buffer to the protocol

  /** The scheduler's events for what was told of one request. */
  function EventsFor(told: seq<Event>, id: P.Id): seq<S.Event> {
    seq(|told|, i requires 0 <= i < |told| => S.Generated(id, AsGeneration(told[i])))
  }

  lemma {:induction false} OneMoreTold(lines: seq<P.Line>, told: seq<Event>, e: Event, id: P.Id)
    ensures W.StreamAfter(lines, EventsFor(told + [e], id), id)
      == W.Written(W.StreamAfter(lines, EventsFor(told, id), id), S.Generated(id, AsGeneration(e)))
  {
    var all := EventsFor(told + [e], id);
    assert all[..|all| - 1] == EventsFor(told, id);
  }

  lemma {:induction false} NoEndGoesOut(before: seq<P.Line>, e: Event, id: P.Id)
    requires !P.Ended(before) && !Final(e)
    ensures var after := W.Written(before, S.Generated(id, AsGeneration(e)));
      !P.Ended(after) && P.TextOf(after) == P.TextOf(before) + if e.Text? then e.text else []
  {
    hide P.TextOf, P.Ended, W.Append;
    if e.Text? { AppendMeans(before, P.Text(e.text), id); }
    if e.PrefillProgress? { AppendMeans(before, P.Progress, id); }
    assert P.TextOf(before) + [] == P.TextOf(before);
  }

  lemma {:induction false} AppendMeans(lines: seq<P.Line>, kind: P.Kind, id: P.Id)
    requires !P.Ended(lines)
    ensures var after := W.Append(lines, kind, id);
      && after != [] && after[|after| - 1].kind == kind && P.Ended(after) == P.Terminal(kind)
      && P.TextOf(after) == P.TextOf(lines) + if kind.Text? then kind.text else []
  {
    P.TextOfOneMore(lines, P.Line(id, kind, |lines|));
  }

  lemma {:induction false} LastTold(told: seq<Event>, ended: bool)
    requires told != [] && EndsOnce(told, ended)
    ensures var (init, e) := (told[..|told| - 1], told[|told| - 1]);
      && told == init + [e] && EndsOnce(init, false) && (Final(e) <==> ended)
      && Requests.TextOf(told) == Requests.TextOf(init) + if e.Text? then e.text else []
  {
  }

  /** While a request runs, its stream carries exactly the text that it has shown. */
  lemma {:induction false} TextGoesOut(lines: seq<P.Line>, told: seq<Event>, id: P.Id)
    requires !P.Ended(lines) && EndsOnce(told, false)
    ensures var after := W.StreamAfter(lines, EventsFor(told, id), id);
      !P.Ended(after) && P.TextOf(after) == P.TextOf(lines) + Requests.TextOf(told)
  {
    hide W.Written, AsGeneration, EndsOnce;
    if told == [] {
      assert P.TextOf(lines) + [] == P.TextOf(lines);
    } else {
      var (init, e) := (told[..|told| - 1], told[|told| - 1]);
      LastTold(told, false);
      TextGoesOut(lines, init, id);
      OneMoreTold(lines, init, e, id);
      NoEndGoesOut(W.StreamAfter(lines, EventsFor(init, id), id), e, id);
      Regroup(P.TextOf(lines), Requests.TextOf(init), if e.Text? then e.text else []);
    }
  }

  lemma {:induction false} Regroup(a: Bytes, b: Bytes, c: Bytes)
    ensures (a + b) + c == a + (b + c)
  {
  }

  lemma {:induction false} EndedMeans(t: RequestText.EndedTranscript)
    ensures t.shown + t.held == SB.Stream(t.stops, t.pieces)
  {
  }

  /** The text of all that was sampled. */
  function Sampled(s: Spec, h: History): Bytes { SB.Flatten(PiecesOf(s.backend, h.sampled)) }

  /** The stream of that text through the stop buffer. */
  function Content(s: Spec, h: History): Bytes { SB.Stream(s.stops, PiecesOf(s.backend, h.sampled)) }

  /** Everything that was sampled is shown up to the first place that may begin a stop or a character. */
  ghost predicate Prompt(s: Spec, h: History) {
    h.shown <= Sampled(s, h) && SB.HeldBack(Sampled(s, h), s.stops, |h.shown|)
  }

  lemma {:induction false} OpenMeans(t: RequestText.OpenTranscript)
    ensures t.shown <= SB.Flatten(t.pieces) && SB.HeldBack(SB.Flatten(t.pieces), t.stops, |t.shown|)
  {
    hide SB.HeldBack, RequestText.Streams;
    assert SB.Flatten(t.pieces)[..|t.shown|] == t.shown;
  }

  /** While a request runs, nothing of its text is late, and nothing that was sampled ends it. */
  lemma {:induction false} RunningIsPrompt(s: Spec, m: Mark, count: nat, told: seq<Event>)
    requires LivedAs(s, m, count, told) && m.terminal.Active?
    ensures Prompt(s, m.past) && Undecided(s, m.past.sampled)
  {
    hide Undecided, SB.HeldBack, RequestText.Open;
    OpenMeans(m.past.text);
  }

  /** A completion says why: the last token completes a stop, or else it reaches the token limit or fills the
      context, or a token that ends generation came after it; and no token before had done so. */
  lemma {:induction false} ReasonIsFirst(s: Spec, m: Mark, count: nat, told: seq<Event>)
    requires LivedAs(s, m, count, told) && m.terminal.Completed?
    ensures told != [] && told[|told| - 1].Complete?
    ensures var (c, n) := (told[|told| - 1].completion, |m.past.sampled|);
      && c.completionTokens == n && c.promptTokens == |s.full|
      && (c.reason == Stop <==> StopIn(s, m.past.sampled) || m.past.eog.Some?)
      && (c.reason == Length ==> n == s.Limit() || |s.full| + n == s.backend.context)
      && c.reason != Cancel && (m.past.eog.Some? ==> s.backend.eog(m.past.eog.value))
      && forall k | 0 <= k < n :: Undecided(s, m.past.sampled[..k])
  {
    hide StopIn;
    var (sampled, n) := (m.past.sampled, |m.past.sampled|);
    forall k | 0 <= k < n ensures Undecided(s, sampled[..k]) {
      if m.past.eog.Some? {
        UndecidedBefore(s, sampled, k);
      } else {
        assert sampled[..n - 1][..k] == sampled[..k];
        UndecidedBefore(s, sampled[..n - 1], k);
      }
    }
  }

  /** What does not end a request had no beginning that does. */
  lemma {:induction false} UndecidedBefore(s: Spec, tokens: seq<Token>, k: nat)
    requires Undecided(s, tokens) && k <= |tokens|
    ensures Undecided(s, tokens[..k])
  {
    if k == |tokens| {
      assert tokens[..k] == tokens;
    } else {
      var n := |tokens| - 1;
      assert tokens == tokens[..n] + [tokens[n]];
      if StopIn(s, tokens[..n]) { StopInLonger(s, tokens[..n], tokens[n]); }
      UndecidedBefore(s, tokens[..n], k);
      assert tokens[..n][..k] == tokens[..k];
    }
  }

  lemma {:induction false} StopInLonger(s: Spec, tokens: seq<Token>, token: Token)
    requires StopIn(s, tokens)
    ensures StopIn(s, tokens + [token])
  {
    PiecesOneMore(s.backend, tokens, token);
    var (pieces, more) := (PiecesOf(s.backend, tokens), PieceOf(s.backend, token));
    RequestText.FlattenSum(pieces, more);
    var i: nat :| SB.StopAt(SB.Flatten(pieces), s.stops, i);
    Proofs.StopStays(SB.Flatten(pieces), SB.Flatten(more), s.stops, i);
  }

  /** End to end: the stream of a request that has completed ends with a completion whose content is the
      stream of the text of all sampled tokens through the stop buffer, and carries exactly that text; one that runs
      has sent all of its text up to the first doubtful place; one that has failed ends with a failure. */
  lemma {:induction false} ContentIsStream(s: Spec, m: Mark, count: nat, told: seq<Event>, lines: seq<P.Line>, id: P.Id)
    requires LivedAs(s, m, count, told) && !P.Ended(lines) && P.TextOf(lines) == []
    ensures var after := W.StreamAfter(lines, EventsFor(told, id), id);
      match m.terminal
      case Active => !P.Ended(after) && P.TextOf(after) == m.past.shown && Prompt(s, m.past)
      case Completed =>
        && P.Ended(after) && after[|after| - 1].kind == P.Completed(Some(Content(s, m.past)))
        && P.TextOf(after) == Content(s, m.past)
      case Failed => P.Ended(after) && after[|after| - 1].kind == P.Failed
  {
    if m.terminal.Active? {
      TextGoesOut(lines, told, id);
      RunningIsPrompt(s, m, count, told);
      assert [] + m.past.shown == m.past.shown;
    } else {
      EndGoesOut(s, m, count, told, lines, id);
    }
  }

  lemma {:induction false} EndGoesOut(s: Spec, m: Mark, count: nat, told: seq<Event>, lines: seq<P.Line>, id: P.Id)
    requires LivedAs(s, m, count, told) && !m.terminal.Active? && !P.Ended(lines) && P.TextOf(lines) == []
    ensures var after := W.StreamAfter(lines, EventsFor(told, id), id);
      && P.Ended(after)
      && (m.terminal.Failed? ==> after[|after| - 1].kind == P.Failed)
      && (m.terminal.Completed? ==>
        && after[|after| - 1].kind == P.Completed(Some(Content(s, m.past)))
        && P.TextOf(after) == Content(s, m.past))
  {
    hide W.StreamAfter, SB.Stream, EndsOnce, P.TextOf, P.Ended, W.Append, W.AppendCompletion, Requests.TextOf;
    LastTold(told, true);
    var (init, e) := (told[..|told| - 1], told[|told| - 1]);
    var before := W.StreamAfter(lines, EventsFor(init, id), id);
    TextGoesOut(lines, init, id);
    OneMoreTold(lines, init, e, id);
    assert P.TextOf(before) == m.past.shown by {
      assert [] + Requests.TextOf(init) == Requests.TextOf(init) && Requests.TextOf(init) + [] == Requests.TextOf(init);
    }
    if m.terminal.Failed? { AppendMeans(before, P.Failed, id); }
    if m.terminal.Completed? {
      EndedMeans(m.past.ended.value);
      CompletionCarriesAll(before, e.completion.tail, id);
    }
  }

  lemma {:induction false} CompletionCarriesAll(lines: seq<P.Line>, tail: Bytes, id: P.Id)
    requires !P.Ended(lines)
    ensures var after := W.AppendCompletion(lines, false, tail, id);
      && P.Ended(after) && P.TextOf(after) == P.TextOf(lines) + tail
      && after[|after| - 1].kind == P.Completed(Some(P.TextOf(lines) + tail))
  {
    hide P.TextOf, P.Ended, W.Append;
    var text := if tail == [] then lines else W.Append(lines, P.Text(tail), id);
    if tail != [] { AppendMeans(lines, P.Text(tail), id); }
    assert tail == [] ==> P.TextOf(lines) + tail == P.TextOf(lines);
    AppendMeans(text, P.Completed(Some(P.TextOf(text))), id);
    assert P.TextOf(text) + [] == P.TextOf(text);
  }

  /** The same from its acceptance on, among the events of everybody else: whatever a worker has told, if
      what concerns this request is that it started and what its steps told, this is its stream. */
  lemma {:induction false} ContentOfRun(s: Spec, m: Mark, count: nat, told: seq<Event>, events: seq<S.Event>, id: P.Id)
    requires LivedAs(s, m, count, told) && W.AboutOnly(events, id) == [S.Started(id)] + EventsFor(told, id)
    ensures var after := W.StreamAfter([P.Line(id, P.Accepted, 0)], events, id);
      match m.terminal
      case Active => !P.Ended(after) && P.TextOf(after) == m.past.shown && Prompt(s, m.past)
      case Completed =>
        && P.Ended(after) && after[|after| - 1].kind == P.Completed(Some(Content(s, m.past)))
        && P.TextOf(after) == Content(s, m.past)
      case Failed => P.Ended(after) && after[|after| - 1].kind == P.Failed
  {
    var accepted := [P.Line(id, P.Accepted, 0)];
    assert accepted[..0] == [];
    W.OthersDoNotMatter(accepted, events, id);
    W.StreamOn(accepted, [S.Started(id)], EventsFor(told, id), id);
    assert [S.Started(id)][..0] == [];
    assert W.StreamAfter(accepted, [S.Started(id)], id) == W.Append(accepted, P.Started, id);
    AppendMeans(accepted, P.Started, id);
    ContentIsStream(s, m, count, told, W.Append(accepted, P.Started, id), id);
  }

  /** And with stops that are not empty and unambiguous, that is the one-shot cut of the whole text. */
  lemma {:induction false} ContentIsOneShotCut(s: Spec, m: Mark, count: nat, told: seq<Event>, lines: seq<P.Line>, id: P.Id)
    requires LivedAs(s, m, count, told) && m.terminal.Completed? && !P.Ended(lines) && P.TextOf(lines) == []
    requires Proofs.WholeStops(s.stops) && [] !in s.stops && Proofs.Unambiguous(s.stops)
    requires Whole(Sampled(s, m.past))
    ensures var after := W.StreamAfter(lines, EventsFor(told, id), id);
      P.Ended(after) && after[|after| - 1].kind == P.Completed(Some(SB.ApplyStop(Sampled(s, m.past), s.stops)))
  {
    ContentIsStream(s, m, count, told, lines, id);
    Proofs.StreamOfWholeText(s.stops, PiecesOf(s.backend, m.past.sampled));
  }
}

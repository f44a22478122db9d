/** One request while it generates: `ActiveRequest` and what the stepper does with a single request.
    Sampled tokens, their text, failing coordinator calls and anchor plans are arbitrary. */
module Requests {

  import opened Common
  import opened Utf8
  import opened CacheExecutors
  import opened RequestText
  import opened StopBuffers
  import Leases
  import Protocol

  datatype Phase = Prefill | Decode

  datatype Terminal = Active | Completed | Failed

  datatype Reason = Stop | Length | Cancel

  /** A token that decoded successfully, and where. */
  datatype Placed = Placed(token: Token, position: nat)

  datatype Completion = Completion(reason: Reason, tail: Bytes, promptTokens: nat, completionTokens: nat)

  datatype Event =
    | Text(text: Bytes)
    | PrefillProgress(done: nat, total: nat)
    | Complete(completion: Completion)
    | Failure(code: string)
    | CacheAppend(slot: nat, generation: nat, tokens: seq<Token>)
    | CacheResetSlot(slot: nat, generation: nat)
    | CacheResetAll
    | CacheAnchor(slot: nat, generation: nat, anchor: bool, tokens: seq<Token>)

  function LedgerOf(tokens: seq<Token>, start: nat): seq<Placed> {
    seq(|tokens|, k requires 0 <= k < |tokens| => Placed(tokens[k], start + k))
  }

  lemma {:induction false} LedgerGrows(all: seq<Token>, start: nat, from: nat, to: nat)
    requires start <= from <= to <= |all|
    ensures LedgerOf(all[start..from], start) + LedgerOf(all[from..to], from) == LedgerOf(all[start..to], start)
  {
  }

  /** Anchor boundaries as the coordinator authorizes them. */
  predicate GoodBoundaries(b: seq<nat>, n: nat) {
    && (forall i, j | 0 <= i < j < |b| :: b[i] < b[j])
    && forall i | 0 <= i < |b| :: 16 <= b[i] <= n
  }

  /** The first `k` boundaries, and no others, are at or before `position`. */
  predicate Passed(b: seq<nat>, k: nat, position: int) {
    && k <= |b|
    && (forall i | 0 <= i < k :: b[i] <= position)
    && forall i | k <= i < |b| :: b[i] > position
  }

  function At(b: seq<nat>, k: nat): Option<nat> { if k < |b| then Some(b[k]) else None }

  /** The first boundary above `x`. */
  method UpperBound(b: seq<nat>, x: nat) returns (k: nat)
    ensures k <= |b| && (forall i | 0 <= i < k :: b[i] <= x) && (k < |b| ==> b[k] > x)
  {
    k := 0;
    while k < |b| && b[k] <= x
      invariant 0 <= k <= |b| && forall i | 0 <= i < k :: b[i] <= x
    {
      k := k + 1;
    }
  }

  function TextOf(events: seq<Event>): Bytes {
    if events == [] then []
    else TextOf(events[..|events| - 1]) + var e := events[|events| - 1]; if e.Text? then e.text else []
  }

  lemma {:induction false} TextOfSum(a: seq<Event>, b: seq<Event>)
    ensures TextOf(a + b) == TextOf(a) + TextOf(b)
  {
    if b == [] {
      assert a + b == a;
    } else {
      TextOfSum(a, b[..|b| - 1]);
      assert (a + b)[..|a + b| - 1] == a + b[..|b| - 1];
    }
  }

  lemma {:induction false} SilentEvent(events: seq<Event>, e: Event)
    requires !e.Text?
    ensures TextOf(events + [e]) == TextOf(events) && (events == [] ==> TextOf([e]) == [])
  {
    assert (events + [e])[..|events|] == events;
    assert events == [] ==> events + [e] == [e];
  }

  lemma {:induction false} SilentPair(e: Event, f: Option<Event>)
    requires !e.Text? && (f.Some? ==> !f.value.Text?)
    ensures TextOf([e]) == [] && TextOf([e] + if f.Some? then [f.value] else []) == []
  {
    SilentEvent([], e);
    if f.Some? { SilentEvent([e], f.value); } else { assert [e] + [] == [e]; }
  }

  lemma {:induction false} TextOfOne(text: Bytes)
    ensures TextOf([Text(text)]) == text && TextOf([]) == []
  {
    assert [Text(text)][..0] == [];
  }

  /** Any plan that the coordinator may return, or none. */
  method AnyAnchorPlan(c: seq<Entry>, tokens: seq<Token>) returns (plan: Option<Plan>)
    ensures plan.Some? ==> AnchorPlanned(c, tokens, plan.value)
  {
    plan := *;
    if plan.Some? && !AnchorPlanned(c, tokens, plan.value) { plan := None; }
  }

  // ---------------------------------------------------------------- the state of a request

  /** What the model says of itself: its context size, the text of a token, and which tokens end generation. */
  datatype Backend = Backend(context: nat, piece: Token -> Bytes, eog: Token -> bool)

  /** What never changes: the id, the whole prompt, the token limit, the anchor boundaries, the stops, the model. */
  datatype Spec = Spec(id: Protocol.Id, full: seq<Token>, maxTokens: int, boundaries: seq<nat>, stops: seq<Bytes>,
                       backend: Backend) {
    function Limit(): nat { if maxTokens < 1 then 1 else maxTokens }
  }

  /** The text of these tokens, piece by piece; a token without text has no piece. */
  function PiecesOf(backend: Backend, tokens: seq<Token>): seq<Bytes> {
    if tokens == [] then []
    else PiecesOf(backend, tokens[..|tokens| - 1]) + PieceOf(backend, tokens[|tokens| - 1])
  }

  function PieceOf(backend: Backend, token: Token): seq<Bytes> {
    if backend.piece(token) == [] then [] else [backend.piece(token)]
  }

  lemma {:induction false} PiecesOneMore(backend: Backend, tokens: seq<Token>, token: Token)
    ensures PiecesOf(backend, tokens + [token]) == PiecesOf(backend, tokens) + PieceOf(backend, token)
  {
    assert (tokens + [token])[..|tokens|] == tokens;
  }

  ghost predicate StopIn(s: Spec, tokens: seq<Token>) { HasStop(Flatten(PiecesOf(s.backend, tokens)), s.stops) }

  predicate Full(s: Spec, tokens: seq<Token>) {
    |tokens| >= s.Limit() || |s.full| + |tokens| >= s.backend.context
  }

  /** These tokens do not end a request: none of them ends generation, no stop is in their text, and neither the
      token limit nor the end of the context is reached. */
  ghost predicate Undecided(s: Spec, tokens: seq<Token>) {
    (forall k | 0 <= k < |tokens| :: !s.backend.eog(tokens[k])) && !Full(s, tokens) && !StopIn(s, tokens)
  }

  /** With the last of these tokens, or with `eog` after them, and not before, a request ends, and that is why. */
  ghost predicate Decides(s: Spec, tokens: seq<Token>, eog: Option<Token>, why: Reason) {
    match eog
    case Some(token) => Undecided(s, tokens) && s.backend.eog(token) && why == Stop
    case None =>
      && tokens != [] && Undecided(s, tokens[..|tokens| - 1]) && !s.backend.eog(tokens[|tokens| - 1])
      && (if StopIn(s, tokens) then why == Stop else Full(s, tokens) && why == Length)
  }

  lemma {:induction false} DecidedOrNot(s: Spec, tokens: seq<Token>, token: Token)
    requires Undecided(s, tokens)
    ensures s.backend.eog(token) ==> Decides(s, tokens, Some(token), Stop)
    ensures !s.backend.eog(token) && StopIn(s, tokens + [token]) ==> Decides(s, tokens + [token], None, Stop)
    ensures !s.backend.eog(token) && !StopIn(s, tokens + [token]) ==>
      if Full(s, tokens + [token]) then Decides(s, tokens + [token], None, Length) else Undecided(s, tokens + [token])
  {
    hide StopIn, Full;
    assert (tokens + [token])[..|tokens|] == tokens;
  }

  lemma {:induction false} NothingIsUndecided(s: Spec)
    requires |s.full| < s.backend.context
    ensures Undecided(s, []) && PiecesOf(s.backend, []) == []
  {
    FirstStopIsFirst([], s.stops);
    if i: nat :| StopAt([], s.stops, i) {}
  }

  /** The fields that the stepper moves forward together. */
  datatype Progress = Progress(prompt: seq<Token>, cached: nat, ingested: nat, nPos: nat, phase: Phase,
                               pending: Token, completionTokens: nat, held: Bytes, retried: bool,
                               anchorAt: Option<nat>, stepTokens: nat, wantsLogits: bool)

  /** What was sampled, up to a token that ended generation, what decoded since the last reset, where prefill
      paused, and the text that went into the stop buffer and came out of it. */
  datatype History = History(sampled: seq<Token>, eog: Option<Token>, ledger: seq<Placed>, passed: nat, paused: seq<nat>,
                             pieces: seq<Bytes>, shown: Bytes, text: OpenTranscript,
                             ended: Option<EndedTranscript>)

  predicate Anchors(s: Spec, p: Progress, h: History) {
    && GoodBoundaries(s.boundaries, |s.full|) && Passed(s.boundaries, h.passed, p.cached + p.ingested)
    && p.anchorAt == At(s.boundaries, h.passed) && h.paused == s.boundaries[..h.passed]
  }

  /** Prefill has just reached the boundary that was next. */
  predicate AtBoundary(s: Spec, p: Progress, h: History) {
    && GoodBoundaries(s.boundaries, |s.full|) && h.passed < |s.boundaries|
    && Passed(s.boundaries, h.passed, p.cached + p.ingested - 1)
    && s.boundaries[h.passed] == p.cached + p.ingested
    && p.anchorAt == Some(p.cached + p.ingested) && h.paused == s.boundaries[..h.passed]
  }

  /** What decoded is the prompt after the reused part and then what was sampled, in order, at
      consecutive positions from the reused length on. */
  predicate LedgerIs(s: Spec, cached: nat, nPos: nat, h: History) {
    && cached <= nPos <= |s.full + h.sampled|
    && h.ledger == LedgerOf((s.full + h.sampled)[cached..nPos], cached)
  }

  predicate Ledger(s: Spec, p: Progress, h: History) { LedgerIs(s, p.cached, p.nPos, h) }

  /** What was put into the stop buffer is the text of what was sampled. */
  predicate Spoken(s: Spec, h: History) { h.pieces == PiecesOf(s.backend, h.sampled) }

  /** The text is open: whatever comes next, the stream goes on from what is shown and held; no stop is in it, and
      it is shown up to the first doubtful place. */
  predicate TextOpen(s: Spec, h: History, held: Bytes) { h.text == Transcript(s.stops, h.pieces, h.shown, held) }

  /** The account of a request that may have ended: its ledger, and its text. One that has completed took in all
      its tokens but perhaps the last one that was sampled; any other has not sampled anything that ends it. */
  ghost predicate Kept(s: Spec, cached: nat, nPos: nat, h: History, terminal: Terminal) {
    && LedgerIs(s, cached, nPos, h) && Spoken(s, h)
    && if terminal.Completed? then |s.full| + |h.sampled| <= nPos + 1
       else Undecided(s, h.sampled) && h.eog.None? && TextOpen(s, h, h.text.held)
  }

  /** Why and with what a request has completed: for the first reason there was; and what it has shown and the
      tail make an ended transcript, that is, together they are the stream of its pieces. */
  ghost predicate Concluded(s: Spec, h: History, c: Completion) {
    && h.ended == Some(Transcript(s.stops, h.pieces, h.shown, c.tail)) && Decides(s, h.sampled, h.eog, c.reason)
    && c.promptTokens == |s.full| && c.completionTokens == |h.sampled|
  }

  lemma {:induction false} LimitIsAhead(s: Spec, tokens: seq<Token>)
    requires Undecided(s, tokens)
    ensures |tokens| < s.Limit() && |s.full| + |tokens| < s.backend.context
  {
  }

  lemma {:induction false} LedgerLonger(s: Spec, p: Progress, h: History, token: Token, q: Progress, k: History)
    requires Ledger(s, p, h) && k.ledger == h.ledger && k.sampled == h.sampled + [token]
    requires q.cached == p.cached && q.nPos == p.nPos
    ensures Ledger(s, q, k)
  {
    var (all, more) := (s.full + h.sampled, s.full + k.sampled);
    assert more == all + [token];
    assert more[p.cached..p.nPos] == all[p.cached..p.nPos];
  }

  ghost predicate Counts(s: Spec, p: Progress, h: History) {
    && p.cached < |s.full| < s.backend.context && p.prompt == s.full[p.cached..] && p.ingested <= |p.prompt|
    && |h.sampled| == p.completionTokens < s.Limit() && Spoken(s, h) && Undecided(s, h.sampled) && h.eog.None?
  }

  predicate Texts(s: Spec, p: Progress, h: History) { TextOpen(s, h, p.held) }

  /** The text is about to end: with the tail that a flush will add, it is the stream of its pieces. */
  predicate Ending(s: Spec, p: Progress, h: History) {
    h.ended == Some(Transcript(s.stops, h.pieces, h.shown, Trim(p.held)))
  }

  /** What holds of a running request between two steps. */
  ghost predicate Live(s: Spec, p: Progress, h: History) {
    && Counts(s, p, h) && Anchors(s, p, h) && Ledger(s, p, h) && Texts(s, p, h)
    && match p.phase
       case Prefill => p.ingested < |p.prompt| && p.nPos == p.cached + p.ingested && h.sampled == []
       case Decode =>
         && p.ingested == |p.prompt| && p.nPos + 1 == |s.full| + |h.sampled| && p.nPos + 1 < s.backend.context
         && h.sampled != [] && p.pending == h.sampled[|h.sampled| - 1]
  }

  /** All tokens so far are in; the next one is not sampled yet. */
  ghost predicate Sampling(s: Spec, p: Progress, h: History) {
    && Counts(s, p, h) && Anchors(s, p, h) && Ledger(s, p, h) && Texts(s, p, h)
    && p.ingested == |p.prompt| && p.nPos == |s.full| + |h.sampled| < s.backend.context
  }

  /** What the model has taken in of a request: the prompt and the sampled tokens up to its position. */
  function Consumed(s: Spec, p: Progress, h: History): seq<Token>
    requires p.nPos <= |s.full| + |h.sampled|
  {
    (s.full + h.sampled)[..p.nPos]
  }

  /** The tokens that a request contributes to a step. */
  function Input(p: Progress): seq<Token>
    requires p.phase.Prefill? ==> p.ingested + p.stepTokens <= |p.prompt|
  {
    if p.phase.Decode? then [p.pending] else p.prompt[p.ingested..p.ingested + p.stepTokens]
  }

  /** A contribution goes at most up to the next anchor, and wants logits exactly for the last token
      there is. */
  predicate Contributing(p: Progress) {
    && p.stepTokens >= 1
    && match p.phase
       case Decode => p.stepTokens == 1 && p.wantsLogits
       case Prefill =>
         && p.ingested + p.stepTokens <= |p.prompt|
         && (p.anchorAt.Some? ==> p.cached + p.ingested + p.stepTokens <= p.anchorAt.value)
         && (p.wantsLogits <==> p.ingested + p.stepTokens == |p.prompt|)
  }

  /** A request with something to contribute. */
  predicate Able(p: Progress) {
    p.phase.Prefill? ==>
      p.ingested < |p.prompt| && (p.anchorAt.Some? ==> p.anchorAt.value > p.cached + p.ingested)
  }

  /** As much as `budget` allows, unless the prompt or the stretch up to the next anchor ends before. */
  predicate TakesAll(p: Progress, budget: nat) {
    p.phase.Prefill? ==>
      || p.stepTokens == budget || p.ingested + p.stepTokens == |p.prompt|
      || p.anchorAt == Some(p.cached + p.ingested + p.stepTokens)
  }

  predicate SameButStep(before: Progress, p: Progress) {
    p == before.(stepTokens := p.stepTokens, wantsLogits := p.wantsLogits)
  }

  lemma {:induction false} SameLive(s: Spec, before: Progress, p: Progress, h: History)
    requires Live(s, before, h) && SameButStep(before, p)
    ensures Live(s, p, h) && Consumed(s, p, h) == Consumed(s, before, h) && Rank(s, p) == Rank(s, before)
    ensures Able(p)
  {
  }

  /** One entry of a decode batch. */
  datatype Contribution = Contribution(token: Token, position: nat, slot: nat, logits: bool)

  /** The first `n` tokens of the unread prompt as batch entries. */
  function Stretch(p: Progress, slot: nat, n: nat): seq<Contribution>
    requires p.ingested + n <= |p.prompt|
  {
    seq(n, k requires 0 <= k < n =>
      Contribution(p.prompt[p.ingested + k], p.nPos + k, slot, p.ingested + k + 1 == |p.prompt|))
  }

  /** What a request puts into the batch: its input at consecutive positions from its own position on. */
  function Segment(p: Progress, slot: nat): seq<Contribution>
    requires Contributing(p)
  {
    if p.phase.Decode? then [Contribution(p.pending, p.nPos, slot, true)] else Stretch(p, slot, p.stepTokens)
  }

  lemma {:induction false} SegmentMeans(p: Progress, slot: nat, k: nat)
    requires Contributing(p) && k < p.stepTokens
    ensures |Segment(p, slot)| == |Input(p)| == p.stepTokens
    ensures Segment(p, slot)[k] == Contribution(Input(p)[k], p.nPos + k, slot, p.wantsLogits && k == p.stepTokens - 1)
  {
  }

  /** Decreases with every step to which the request contributes. */
  function Rank(s: Spec, p: Progress): int {
    (if p.retried then 0 else |s.full| + s.Limit() + 1) + (|p.prompt| - p.ingested) + (s.Limit() - p.completionTokens)
  }

  /** How often a request can contribute at most: its prompt twice and its output, token by token. */
  function MostContributions(s: Spec): nat { 2 * (|s.full| + s.Limit()) + 1 }

  lemma {:induction false} RankIsPositive(s: Spec, p: Progress, h: History)
    requires Live(s, p, h)
    ensures 0 < Rank(s, p) <= MostContributions(s)
  {
  }

  /** The contribution is the next stretch of all the tokens, below the end of the context. */
  lemma {:induction false} InputIsNext(s: Spec, p: Progress, h: History)
    requires Live(s, p, h) && Contributing(p)
    ensures p.nPos + p.stepTokens <= |s.full| + |h.sampled| && p.nPos + p.stepTokens < s.backend.context
    ensures Consumed(s, p, h) + Input(p) == (s.full + h.sampled)[..p.nPos + p.stepTokens]
    ensures h.ledger + LedgerOf(Input(p), p.nPos) == LedgerOf((s.full + h.sampled)[p.cached..p.nPos + p.stepTokens], p.cached)
  {
    var all := s.full + h.sampled;
    assert Input(p) == all[p.nPos..p.nPos + p.stepTokens];
    LedgerGrows(all, p.cached, p.nPos, p.nPos + p.stepTokens);
  }

  /** After the step's tokens are in. */
  function Moved(p: Progress): Progress {
    if p.phase.Decode? then p.(nPos := p.nPos + 1)
    else p.(nPos := p.nPos + p.stepTokens, ingested := p.ingested + p.stepTokens)
  }

  function Decoded(p: Progress, h: History): History
    requires Contributing(p)
  {
    h.(ledger := h.ledger + LedgerOf(Input(p), p.nPos))
  }

  /** Right after a step's tokens are in: an anchor may be due, and the next token may be sampled. */
  ghost predicate Arrived(s: Spec, p: Progress, h: History) {
    && Counts(s, p, h) && Ledger(s, p, h) && Texts(s, p, h)
    && (if p.phase.Prefill? && p.anchorAt == Some(p.cached + p.ingested) then AtBoundary(s, p, h) else Anchors(s, p, h))
    && (p.phase.Prefill? ==> p.nPos == p.cached + p.ingested && h.sampled == [])
    && (p.wantsLogits ==> p.ingested == |p.prompt| && p.nPos == |s.full| + |h.sampled| < s.backend.context)
    && (!p.wantsLogits ==> p.phase.Prefill? && p.ingested < |p.prompt|)
  }

  lemma {:induction false} MovedOn(s: Spec, p: Progress, h: History)
    requires Live(s, p, h) && Contributing(p)
    ensures Arrived(s, Moved(p), Decoded(p, h))
    ensures Consumed(s, Moved(p), Decoded(p, h)) == Consumed(s, p, h) + Input(p)
    ensures Rank(s, Moved(p)) <= Rank(s, p) && (p.phase.Prefill? ==> Rank(s, Moved(p)) < Rank(s, p))
  {
    hide Undecided, LedgerIs, Anchors, AtBoundary;
    MovedLedger(s, p, h);
    MovedAnchors(s, p, h);
  }

  lemma {:induction false} MovedLedger(s: Spec, p: Progress, h: History)
    requires Live(s, p, h) && Contributing(p)
    ensures Ledger(s, Moved(p), Decoded(p, h)) && Moved(p).nPos == p.nPos + p.stepTokens
    ensures Consumed(s, Moved(p), Decoded(p, h)) == Consumed(s, p, h) + Input(p)
  {
    hide Undecided, Spoken, LedgerOf, Anchors, TextOpen;
    InputIsNext(s, p, h);
  }

  lemma {:induction false} MovedAnchors(s: Spec, p: Progress, h: History)
    requires Live(s, p, h) && Contributing(p)
    ensures var q := Moved(p);
      if p.phase.Prefill? && q.anchorAt == Some(q.cached + q.ingested) then AtBoundary(s, q, Decoded(p, h))
      else Anchors(s, q, Decoded(p, h))
  {
    hide Undecided, Spoken, LedgerIs, TextOpen;
  }

  lemma {:induction false} PromptSoFar(s: Spec, p: Progress, h: History)
    requires Arrived(s, p, h) && p.phase.Prefill?
    ensures p.cached + p.ingested <= |s.full| && Consumed(s, p, h) == s.full[..p.cached + p.ingested]
  {
  }

  /** Once the anchor is dealt with. */
  lemma {:induction false} Onwards(s: Spec, p: Progress, h: History, p': Progress, h': History)
    requires Arrived(s, p, h) && Anchors(s, p', h')
    requires p' == p.(anchorAt := p'.anchorAt) && h' == h.(passed := h'.passed, paused := h'.paused)
    ensures if p.wantsLogits then Sampling(s, p', h') else Live(s, p', h')
    ensures Consumed(s, p', h') == Consumed(s, p, h) && Rank(s, p') == Rank(s, p)
  {
  }

  /** After a token was sampled that does not end the request. */
  lemma {:induction false} GoesOn(s: Spec, p: Progress, h: History, p': Progress, h': History, token: Token)
    requires Sampling(s, p, h)
    requires p' == p.(completionTokens := p.completionTokens + 1, held := p'.held, pending := token, phase := Decode)
    requires h' == h.(sampled := h.sampled + [token], pieces := h'.pieces, shown := h'.shown, text := h'.text,
      ended := h'.ended)
    requires Undecided(s, h'.sampled) && Spoken(s, h') && Texts(s, p', h')
    ensures Live(s, p', h') && Consumed(s, p', h') == Consumed(s, p, h)
  {
    hide PiecesOf, StopIn, GoodBoundaries, Passed, LedgerOf;
    var (all, more) := (s.full + h.sampled, s.full + h'.sampled);
    assert more == all + [token];
    assert more[p.cached..p.nPos] == all[p.cached..p.nPos] && more[..p.nPos] == all[..p.nPos];
  }

  lemma {:induction false} NextBoundary(s: Spec, p: Progress, h: History, next: nat)
    requires AtBoundary(s, p, h)
    requires next <= |s.boundaries| && (forall i | 0 <= i < next :: s.boundaries[i] <= p.cached + p.ingested)
    requires next < |s.boundaries| ==> s.boundaries[next] > p.cached + p.ingested
    ensures next == h.passed + 1
    ensures Anchors(s, p.(anchorAt := At(s.boundaries, next)),
      h.(passed := h.passed + 1, paused := h.paused + [p.cached + p.ingested]))
  {
    assert next > h.passed;
    assert h.passed + 1 < |s.boundaries| ==> s.boundaries[h.passed] < s.boundaries[h.passed + 1];
  }

  /** After the one retry: the whole prompt again, from position 0. */
  function Restarted(s: Spec, p: Progress): Progress {
    p.(prompt := s.full, cached := 0, ingested := 0, nPos := 0, retried := true, anchorAt := At(s.boundaries, 0))
  }

  function Forgotten(h: History): History { h.(ledger := [], passed := 0, paused := []) }

  lemma {:induction false} RestartIsLive(s: Spec, p: Progress, h: History)
    requires Live(s, p, h) && p.phase.Prefill? && !p.retried
    ensures Live(s, Restarted(s, p), Forgotten(h))
    ensures Consumed(s, Restarted(s, p), Forgotten(h)) == []
    ensures Rank(s, Restarted(s, p)) < Rank(s, p)
  {
    assert s.full[0..] == s.full;
  }

  /** A request as it is admitted with its first `reused` tokens in place. */
  function Start(s: Spec, reused: nat): Progress
    requires reused <= |s.full|
  {
    Progress(s.full[reused..], reused, 0, reused, Prefill, 0, 0, [], false, At(s.boundaries, 0), 0, false)
  }

  ghost function NoPast(s: Spec): History { History([], None, [], 0, [], [], [], Opened(s.stops), None) }

  lemma {:induction false} StartIsLive(s: Spec, reused: nat)
    requires reused < |s.full| < s.backend.context && GoodBoundaries(s.boundaries, |s.full|)
    requires s.boundaries != [] ==> s.boundaries[0] > reused
    ensures Live(s, Start(s, reused), NoPast(s))
    ensures Consumed(s, Start(s, reused), NoPast(s)) == s.full[..reused]
  {
    var sampled: seq<Token> := [];
    assert s.full + sampled == s.full;
    NothingIsUndecided(s);
  }

  /** Every anchor among `events` that was copied holds exactly `boundary`, in the executor's mirror and
      physically. */
  predicate AnchorsExact(events: seq<Event>, v: View, boundary: seq<Token>, source: nat) {
    forall k | 0 <= k < |events| && events[k].CacheAnchor? && events[k].anchor ::
      var e := events[k];
      && e.slot != source && e.tokens == boundary && e.slot < |v.slots| && e.slot < |v.physical|
      && v.slots[e.slot].tokens == boundary == v.physical[e.slot]
  }

  predicate AnchorsAt(events: seq<Event>, boundary: seq<Token>) {
    forall k | 0 <= k < |events| && events[k].CacheAnchor? :: events[k].tokens == boundary
  }

  /** The prompt up to one of the request's boundaries. */
  predicate ToBoundary(s: Spec, tokens: seq<Token>) {
    exists i :: 0 <= i < |s.boundaries| && s.boundaries[i] <= |s.full| && tokens == s.full[..s.boundaries[i]]
  }

  /** Every anchor that is told of a request holds its prompt up to one of its boundaries. */
  predicate AnchorsOf(events: seq<Event>, s: Spec) {
    forall k | 0 <= k < |events| && events[k].CacheAnchor? :: ToBoundary(s, events[k].tokens)
  }

  lemma {:induction false} AnchorsOfOn(a: seq<Event>, b: seq<Event>, s: Spec)
    requires AnchorsOf(a, s) && AnchorsOf(b, s)
    ensures AnchorsOf(a + b, s)
  {
  }

  lemma {:induction false} AnchorsAtBoundary(events: seq<Event>, s: Spec, p: Progress, h: History)
    requires AtBoundary(s, p, h) && AnchorsAt(events, s.full[..p.cached + p.ingested])
    ensures AnchorsOf(events, s)
  {
    assert ToBoundary(s, s.full[..s.boundaries[h.passed]]);
  }

  /** What is reported about an anchor: nothing if there is none. */
  function AnchorEvents(r: AnchorResult, plan: Option<Plan>, boundary: seq<Token>): (events: seq<Event>)
    ensures EndsOnce(events, false) && AnchorsAt(events, boundary)
  {
    match r
    case NoAnchor => []
    case AlreadyThere =>
      if plan.Some? then [CacheAnchor(plan.value.target, plan.value.targetGeneration, false, boundary)] else []
    case Materialized(target, generation) => [CacheAnchor(target, generation, true, boundary)]
  }

  lemma {:induction false} AnchorEventsMean(r: AnchorResult, plan: Option<Plan>, boundary: seq<Token>, v: View, source: nat)
    requires r.Materialized? ==> r.slot != source && r.slot < |v.slots| && r.slot < |v.physical|
    requires r.Materialized? ==> v.slots[r.slot].tokens == boundary == v.physical[r.slot]
    ensures TextOf(AnchorEvents(r, plan, boundary)) == []
    ensures AnchorsExact(AnchorEvents(r, plan, boundary), v, boundary, source)
  {
    var events := AnchorEvents(r, plan, boundary);
    if events != [] { SilentEvent([], events[0]); }
  }

  lemma {:induction false} AnchorsStay(a: seq<Event>, b: seq<Event>, v: View, w: View, boundary: seq<Token>, source: nat)
    requires AnchorsExact(a, v, boundary, source) && NoAnchors(b) && KeptBut(v, w, source)
    ensures AnchorsExact(a + b, w, boundary, source)
  {
  }

  predicate NoAnchors(events: seq<Event>) { forall k | 0 <= k < |events| :: !events[k].CacheAnchor? }

  /** Every anchor that is new, on another slot than `own`, is told with what it holds. */
  predicate AnchorsTold(anchors: seq<Event>, v: View, w: View, own: nat) {
    forall i | 0 <= i < |w.coordinator| && i < |v.coordinator| && i != own && NewAnchor(v, w, i) ::
      CacheAnchor(i, w.coordinator[i].generation, true, w.coordinator[i].tokens) in anchors
  }

  lemma {:induction false} AnchorEventsTell(v: View, w: View, r: AnchorResult, plan: Option<Plan>, boundary: seq<Token>, own: nat)
    requires match r
      case Materialized(target, generation) =>
        && plan.Some? && target == plan.value.target < |v.coordinator| && generation == v.coordinator[target].generation + 1
        && w.coordinator == AfterCommit(v.coordinator, plan.value, boundary, Anchor)
      case AlreadyThere => w == v
      case NoAnchor => w == v || (plan.Some? && w.coordinator == AfterAbort(v.coordinator, plan.value))
    ensures var events := AnchorEvents(r, plan, boundary); AnchorsOnly(events) && AnchorsTold(events, v, w, own)
  {
  }

  predicate NewAnchor(v: View, w: View, i: nat)
    requires i < |v.coordinator| && i < |w.coordinator|
  {
    w.coordinator[i].state.Anchor? && w.coordinator[i] != v.coordinator[i]
  }

  lemma {:induction false} AnchorsToldAround(anchors: seq<Event>, u: View, v: View, w: View, x: View, own: nat)
    requires AnchorsTold(anchors, v, w, own) && KeptBut(u, v, own) && KeptBut(w, x, own)
    ensures AnchorsTold(anchors, u, x, own)
  {
    forall i: nat | i < |x.coordinator| && i < |u.coordinator| && i != own && NewAnchor(u, x, i)
      ensures CacheAnchor(i, x.coordinator[i].generation, true, x.coordinator[i].tokens) in anchors
    {
      assert NewAnchor(v, w, i);
    }
  }

  lemma {:induction false} NoneTold(events: seq<Event>, v: View, boundary: seq<Token>, source: nat, s: Spec)
    requires NoAnchors(events)
    ensures AnchorsOf(events, s) && AnchorsExact(events, v, boundary, source)
  {
  }

  lemma {:induction false} NothingNew(v: View, w: View, own: nat)
    requires KeptBut(v, w, own)
    ensures AnchorsTold([], v, w, own) && AnchorsOnly([]) && Plain([])
  {
  }

  predicate AnchorsOnly(events: seq<Event>) { forall k | 0 <= k < |events| :: events[k].CacheAnchor? }

  /** Text, and the end of a completed request. */
  predicate Plain(events: seq<Event>) { forall k | 0 <= k < |events| :: events[k].Text? || events[k].Complete? }

  lemma {:induction false} PlainSum(a: seq<Event>, b: seq<Event>)
    requires Plain(a) && Plain(b)
    ensures Plain(a + b)
  {
  }

  lemma {:induction false} PlainEnd(events: seq<Event>, c: Completion)
    ensures Plain(events) ==> Plain(events + [Complete(c)])
    ensures NoAnchors(events) ==> NoAnchors(events + [Complete(c)])
  {
  }

  /** A long prompt that is not read yet reports how far it is. */
  function ProgressOf(s: Spec, p: Progress): seq<Event> {
    if |p.prompt| > 1024 && p.ingested < |p.prompt| then [PrefillProgress(p.cached + p.ingested, |s.full|)] else []
  }

  lemma {:induction false} SameProgress(s: Spec, p: Progress, q: Progress)
    requires q == p.(anchorAt := q.anchorAt)
    ensures ProgressOf(s, q) == ProgressOf(s, p)
  {
  }

  /** What comes first after a contribution decoded: its tokens, in the slot's new generation, new anchors, progress. */
  function ToldFirst(s: Spec, slot: nat, generation: nat, p: Progress, anchors: seq<Event>): seq<Event>
    requires Contributing(p)
  {
    [CacheAppend(slot, generation, Input(p))] + anchors + if p.phase.Prefill? then ProgressOf(s, Moved(p)) else []
  }

  /** All that a contribution tells. */
  predicate Reported(s: Spec, slot: nat, generation: nat, p: Progress, anchors: seq<Event>, events: seq<Event>, failed: bool)
    requires Contributing(p)
  {
    if failed then |events| == 2 && events[0] == CacheAppend(slot, 0, Input(p)) && events[1].Failure?
    else
      var first := ToldFirst(s, slot, generation, p, anchors);
      AnchorsOnly(anchors) && first <= events && Plain(events[|first|..])
  }

  lemma {:induction false} ReportedMore(s: Spec, slot: nat, generation: nat, p: Progress, anchors: seq<Event>,
                                        first: seq<Event>, more: seq<Event>)
    requires Contributing(p) && AnchorsOnly(anchors) && first == ToldFirst(s, slot, generation, p, anchors) && Plain(more)
    ensures Reported(s, slot, generation, p, anchors, first + more, false)
  {
    assert (first + more)[|first|..] == more;
  }

  predicate Final(e: Event) { e.Complete? || e.Failure? }

  /** What one step tells of one request: its end, if it ends, and only as the last event. */
  predicate EndsOnce(events: seq<Event>, ended: bool) {
    && (forall k | 0 <= k < |events| && Final(events[k]) :: ended && k == |events| - 1)
    && (ended ==> events != [] && Final(events[|events| - 1]))
  }

  lemma {:induction false} NothingToTell(v: View, boundary: seq<Token>, source: nat, s: Spec)
    ensures AnchorsExact([], v, boundary, source) && EndsOnce([], false) && TextOf([]) == [] && AnchorsOf([], s)
  {
  }

  lemma {:induction false} ProgressIsSilent(events: seq<Event>, e: Event, v: View, boundary: seq<Token>, source: nat, s: Spec)
    requires e.PrefillProgress? && AnchorsExact(events, v, boundary, source) && EndsOnce(events, false) && AnchorsOf(events, s)
    ensures AnchorsExact(events + [e], v, boundary, source) && EndsOnce(events + [e], false) && AnchorsOf(events + [e], s)
    ensures TextOf(events + [e]) == TextOf(events)
  {
    SilentEvent(events, e);
  }

  class ActiveRequest {
    const spec: Spec
    const slot: nat
    const priority: Priority
    var at: Progress
    var reason: Reason
    var terminal: Terminal
    var lease: Option<Leases.Lease>
    ghost var past: History

    constructor (spec: Spec, slot: nat, priority: Priority, reused: nat, lease: Leases.Lease)
      requires reused <= |spec.full|
      ensures this.spec == spec && this.slot == slot && this.priority == priority
      ensures at == Start(spec, reused) && past == NoPast(spec)
      ensures terminal.Active? && this.lease == Some(lease) && reason == Stop
    {
      this.spec, this.slot, this.priority := spec, slot, priority;
      at, past := Start(spec, reused), NoPast(spec);
      this.lease, terminal, reason := Some(lease), Active, Stop;
    }

    /** The request holds a current lease on its slot, of which executor and coordinator know
        `resident`. */
    predicate Leased(ex: CacheExecutor, resident: seq<Token>)
      reads this`lease, ex`slots, ex`coordinator
    {
      && slot < |ex.slots| && slot < |ex.coordinator|
      && var (s, e) := (ex.slots[slot], ex.coordinator[slot]);
        && lease == Some(Leases.Lease(slot, s.generation)) && s.generation == e.generation > 0
        && s.busy && e.busy && e.state != Anchor && s.tokens == e.tokens == resident
    }

    /** And the model has taken in `physical`. */
    predicate Ahead(ex: CacheExecutor, resident: seq<Token>, physical: seq<Token>)
      reads this`lease, ex
    {
      ex.Shaped() && Leased(ex, resident) && ex.physical[slot] == physical
    }

    predicate Holding(ex: CacheExecutor, resident: seq<Token>)
      reads this`lease, ex
    {
      Ahead(ex, resident, resident)
    }

    /** The request's slot is consistent for everybody else. */
    predicate Settled(ex: CacheExecutor)
      reads ex
    {
      ex.Shaped() && AgreesAt(ex.slots, ex.coordinator, ex.physical, slot)
    }

    /** The request's slot is nobody's. */
    predicate Freed(ex: CacheExecutor)
      reads ex
    {
      slot < |ex.coordinator| && !ex.coordinator[slot].busy
    }

    /** The lease is current and its slot is consistent. */
    predicate OnSlot(ex: CacheExecutor)
      reads this`lease, ex
    {
      Settled(ex) && lease == Some(Leases.Lease(slot, ex.slots[slot].generation))
    }

    /** Either the lease is current, or the slot has been invalidated behind its back. */
    predicate Agreed(ex: CacheExecutor)
      reads this`lease, ex
    {
      && ex.Shaped() && slot < |ex.slots| && lease.Some?
      && var (s, e) := (ex.slots[slot], ex.coordinator[slot]);
        if e.generation == lease.value.generation then s.generation == e.generation > 0
        else AgreesAt(ex.slots, ex.coordinator, ex.physical, slot) && ex.physical[slot] == [] && !e.busy
    }

    /** Everything else is gone from the cache. */
    predicate OnlyOne(ex: CacheExecutor)
      reads ex
    {
      |ex.slots| == |ex.physical| && forall i | 0 <= i < |ex.slots| :: ex.physical[i] == [] && (ex.slots[i].busy <==> i == slot)
    }

    ghost predicate Running()
      reads this`at, this`past, this`terminal, this`reason
    {
      terminal.Active? && reason.Stop? && Live(spec, at, past)
    }

    /** Between two steps: a running request holds its lease, and the physical sequence is exactly what
        it has decoded. */
    ghost predicate Ready(ex: CacheExecutor)
      reads this, ex
    {
      terminal.Active? ==> reason.Stop? && Live(spec, at, past) && Holding(ex, Consumed(spec, at, past))
    }

    method MarkTerminal(state: Terminal) returns (marked: bool)
      modifies this`terminal
      ensures marked <==> old(terminal).Active? && !state.Active?
      ensures terminal == if marked then state else old(terminal)
    {
      if !terminal.Active? || state.Active? { return false; }
      terminal := state;
      return true;
    }

    /** Finishes the request, once: the tail is flushed unless it was cancelled, and the lease goes
        back. */
    method Finish(flush: bool, ex: CacheExecutor) returns (c: Option<Completion>)
      requires ex.Shaped() && (lease.Some? ==> lease.value.slot == slot)
      modifies this`terminal, this`at, this`lease, ex
      ensures c.Some? <==> old(terminal).Active?
      ensures c.None? ==> terminal == old(terminal) && lease == old(lease) && at == old(at)
      ensures c.Some? ==> terminal.Completed? && lease.None? && at == if flush then old(at).(held := []) else old(at)
      ensures c.Some? ==>
        c.value == Completion(reason, if flush then Trim(old(at).held) else [], |spec.full|, at.completionTokens)
      ensures KeptBut(old(ex.Snapshot()), ex.Snapshot(), slot)
      ensures old(terminal.Active? && OnSlot(ex)) ==> Settled(ex) && Freed(ex)
    {
      var marked := MarkTerminal(Completed);
      if !marked { return None; }
      var tail := [];
      if flush {
        tail := Trim(at.held);
        at := at.(held := []);
      }
      c := Some(Completion(reason, tail, |spec.full|, at.completionTokens));
      if lease.Some? {
        var l := lease.value;
        lease := None;
        ex.Release(l.slot, l.generation);
      }
    }

    /** Fails the request, once: its slot is invalidated and given back. */
    method Fail(code: string, ex: CacheExecutor) returns (failed: Option<Event>)
      requires ex.Shaped() && (lease.Some? ==> lease.value.slot == slot)
      modifies this`terminal, this`lease, ex
      ensures failed == if old(terminal).Active? then Some(Failure(code)) else None
      ensures old(terminal).Active? ==> terminal.Failed? && lease.None?
      ensures !old(terminal).Active? ==> terminal == old(terminal) && lease == old(lease)
      ensures KeptBut(old(ex.Snapshot()), ex.Snapshot(), slot)
      ensures old(terminal.Active? && Agreed(ex)) ==> Settled(ex) && Freed(ex)
    {
      var marked := MarkTerminal(Terminal.Failed);
      if !marked { return None; }
      failed := Some(Failure(code));
      if lease.Some? {
        var l := lease.value;
        if l.generation != 0 {
          var next := ex.InvalidateAndClear(l.slot, l.generation, false);
          if next.Some? { l := l.(generation := next.value); }
        }
        lease := None;
        ex.Release(l.slot, l.generation);
      }
    }

    // -------------------------------------------------------------- sampling

    /** If the request has ended, its last event says so, and how. */
    ghost predicate EndsShown(events: seq<Event>)
      reads this`terminal, this`past
    {
      && (terminal.Failed? ==> events != [] && events[|events| - 1].Failure?)
      && (terminal.Completed? ==>
        && events != [] && events[|events| - 1].Complete? && Concluded(spec, past, events[|events| - 1].completion))
    }

    /** Puts a piece through the stop buffer: all of the text so far is shown up to its first doubtful place, unless
        there is a stop in it now. */
    method FeedPiece(piece: Bytes) returns (events: seq<Event>, stopped: bool)
      requires Texts(spec, at, past)
      modifies this`at, this`past
      ensures at == old(at).(held := at.held)
      ensures past == old(past).(pieces := old(past).pieces + [piece], shown := old(past).shown + TextOf(events),
        text := past.text, ended := past.ended)
      ensures if stopped then Ending(spec, at, past) else Texts(spec, at, past)
      ensures stopped <==> HasStop(Flatten(past.pieces), spec.stops)
      ensures NoAnchors(events) && EndsOnce(events, false) && Plain(events)
    {
      hide Feed, HasStop, Flatten, Trim, Open;
      ghost var t := past.text;
      OpenOn(t, piece);
      var step := Feed(spec.stops, at.held, piece);
      stopped := step.stopped;
      at := at.(held := step.held);
      past := past.(pieces := past.pieces + [piece], shown := past.shown + step.visible);
      past := if stopped then past.(ended := Some(Stopped(t, piece))) else past.(text := Grown(t, piece));
      events := if step.visible != [] then [Text(step.visible)] else [];
      TextOfOne(step.visible);
      if stopped { assert Trim(at.held) == []; }
    }

    /** Completes the request and says so. */
    method Close(sofar: seq<Event>, why: Reason, ex: CacheExecutor) returns (events: seq<Event>)
      requires terminal.Active? && OnSlot(ex) && Ending(spec, at, past) && EndsOnce(sofar, false)
      requires Decides(spec, past.sampled, past.eog, why) && |past.sampled| == at.completionTokens
      modifies this`reason, this`terminal, this`at, this`lease, ex
      ensures terminal.Completed? && reason == why && EndsShown(events) && TextOf(events) == TextOf(sofar)
      ensures Settled(ex) && Freed(ex) && KeptBut(old(ex.Snapshot()), ex.Snapshot(), slot)
      ensures at == old(at).(held := at.held)
      ensures (NoAnchors(sofar) ==> NoAnchors(events)) && EndsOnce(events, true) && (Plain(sofar) ==> Plain(events))
    {
      hide Decides, Undecided, TextOf, Plain, NoAnchors, KeptBut, Trim;
      reason := why;
      var c := Finish(true, ex);
      events := sofar;
      if c.Some? {
        SilentEvent(sofar, Complete(c.value));
        PlainEnd(sofar, c.value);
        events := sofar + [Complete(c.value)];
      }
    }

    /** Nothing more will come: the held text is flushed as far as it is whole. */
    ghost method EndText()
      requires Texts(spec, at, past)
      modifies this`past
      ensures past == old(past).(ended := past.ended) && Ending(spec, at, past)
    {
      past := past.(ended := Some(Flushed(past.text)));
    }

    /** Counts a sampled token, feeds its piece, and says whether and why the request ends with it. */
    method TakeSampled(token: Token) returns (events: seq<Event>, end: Option<Reason>)
      requires Texts(spec, at, past) && Spoken(spec, past) && Undecided(spec, past.sampled) && past.eog.None?
      requires |past.sampled| == at.completionTokens && at.nPos == |spec.full| + |past.sampled| && !spec.backend.eog(token)
      modifies this`at, this`past
      ensures at == old(at).(completionTokens := old(at).completionTokens + 1, held := at.held)
      ensures at.completionTokens <= spec.Limit() && Spoken(spec, past)
      ensures past == old(past).(sampled := old(past).sampled + [token], pieces := past.pieces, shown := past.shown,
        text := past.text, ended := past.ended)
      ensures past.shown == old(past).shown + TextOf(events)
      ensures end == Some(Stop) <==> StopIn(spec, past.sampled)
      ensures end == Some(Length) ==> at.completionTokens == spec.Limit() || at.nPos + 1 >= spec.backend.context
      ensures end.Some? ==> Ending(spec, at, past) && Decides(spec, past.sampled, None, end.value)
      ensures end.None? ==> Texts(spec, at, past) && Undecided(spec, past.sampled)
      ensures NoAnchors(events) && EndsOnce(events, false) && Plain(events)
    {
      hide PiecesOf, Undecided, Decides, EndsOnce, NoAnchors, TextOf, Plain;
      PiecesOneMore(spec.backend, past.sampled, token);
      DecidedOrNot(spec, past.sampled, token);
      LimitIsAhead(spec, past.sampled);
      at := at.(completionTokens := at.completionTokens + 1);
      past := past.(sampled := past.sampled + [token]);
      var stopped;
      events, stopped := FeedSampled(spec.backend.piece(token));
      if stopped { return events, Some(Stop); }
      if at.completionTokens >= spec.maxTokens || at.nPos + 1 >= spec.backend.context {
        EndText();
        return events, Some(Length);
      }
      return events, None;
    }

    /** A token without text shows nothing. */
    method FeedSampled(piece: Bytes) returns (events: seq<Event>, stopped: bool)
      requires Texts(spec, at, past)
      modifies this`at, this`past
      ensures at == old(at).(held := at.held)
      ensures past == old(past).(pieces := old(past).pieces + if piece == [] then [] else [piece],
        shown := old(past).shown + TextOf(events), text := past.text, ended := past.ended)
      ensures if stopped then Ending(spec, at, past) else Texts(spec, at, past)
      ensures stopped <==> HasStop(Flatten(past.pieces), spec.stops)
      ensures NoAnchors(events) && EndsOnce(events, false) && Plain(events)
    {
      if piece != [] {
        events, stopped := FeedPiece(piece);
      } else {
        events, stopped := [], false;
        assert past.pieces + [] == past.pieces && past.shown + [] == past.shown;
        assert !HasStop(Flatten(past.text.pieces), past.text.stops);
      }
    }

    /** One more token: either the request ends, or it goes on in the decode phase with this token
        pending. */
    method ProcessSampled(ex: CacheExecutor) returns (events: seq<Event>)
      requires terminal.Active? && reason.Stop? && Sampling(spec, at, past) && Holding(ex, Consumed(spec, at, past))
      modifies this, ex
      ensures Ready(ex) && Settled(ex) && KeptBut(old(ex.Snapshot()), ex.Snapshot(), slot)
      ensures terminal.Active? ==> Rank(spec, at) < Rank(spec, old(at))
      ensures at.completionTokens <= spec.Limit() && !terminal.Failed? && (terminal.Active? || Freed(ex))
      ensures past.shown == old(past.shown) + TextOf(events) && EndsShown(events)
      ensures NoAnchors(events) && EndsOnce(events, !terminal.Active?) && Kept(spec, at.cached, at.nPos, past, terminal)
      ensures Plain(events)
    {
      hide Undecided, Decides, PiecesOf, StopIn, GoodBoundaries, Passed;
      ghost var (p, h) := (at, past);
      var token: Token := *;
      if spec.backend.eog(token) {
        EndText();
        DecidedOrNot(spec, past.sampled, token);
        past := past.(eog := Some(token));
        events := Close([], reason, ex);
        return;
      }
      var end;
      events, end := TakeSampled(token);
      LedgerLonger(spec, p, h, token, at, past);
      if end.Some? {
        events := Close(events, end.value, ex);
        return;
      }
      at := at.(pending := token, phase := Decode);
      GoesOn(spec, p, h, at, past, token);
    }

    // -------------------------------------------------------------- after a decode

    /** Publishes the step's tokens; if the coordinator refuses, the request fails. A lease that is
        held never has generation 0. */
    method TakeIn(input: seq<Token>, ex: CacheExecutor, ghost resident: seq<Token>)
      returns (events: seq<Event>, done: bool)
      requires terminal.Active? && Ahead(ex, resident, resident + input)
      modifies this`terminal, this`lease, ex
      ensures done ==> terminal.Active? && Holding(ex, resident + input)
      ensures !done ==> terminal.Failed? && Settled(ex) && Freed(ex)
      ensures KeptBut(old(ex.Snapshot()), ex.Snapshot(), slot) && TextOf(events) == [] && NoAnchors(events)
      ensures EndsOnce(events, !done)
      ensures if done then events == [CacheAppend(slot, old(lease).value.generation + 1, input)]
        else |events| == 2 && events[0] == CacheAppend(slot, 0, input) && events[1].Failure?
    {
      var l := lease.value;
      var refused: bool := *;
      var next := ex.Advance(l.slot, l.generation, input, refused);
      if next.None? {
        var failure := Fail("cache_coordinator_error", ex);
        events := [CacheAppend(l.slot, 0, input)] + if failure.Some? then [failure.value] else [];
        SilentPair(CacheAppend(l.slot, 0, input), failure);
        return events, false;
      }
      lease := Some(l.(generation := next.value));
      SilentPair(CacheAppend(l.slot, next.value, input), None);
      return [CacheAppend(l.slot, next.value, input)], true;
    }

    /** Plants an anchor at the boundary, or goes on without one; either way the next boundary is due. */
    method MaybeCreateAnchor(ex: CacheExecutor) returns (events: seq<Event>)
      requires AtBoundary(spec, at, past) && at.cached + at.ingested <= |spec.full|
      requires Holding(ex, spec.full[..at.cached + at.ingested])
      modifies this`at, this`past, ex
      ensures at == old(at).(anchorAt := at.anchorAt)
      ensures past == old(past).(passed := old(past).passed + 1, paused := old(past).paused + [at.cached + at.ingested])
      ensures Anchors(spec, at, past) && Holding(ex, spec.full[..at.cached + at.ingested])
      ensures Harmless(old(ex.Snapshot()), ex.Snapshot(), slot)
      ensures TextOf(events) == [] && AnchorsExact(events, ex.Snapshot(), spec.full[..at.cached + at.ingested], slot)
      ensures EndsOnce(events, false) && AnchorsOf(events, spec)
      ensures AnchorsOnly(events) && AnchorsTold(events, old(ex.Snapshot()), ex.Snapshot(), slot)
    {
      hide AnchorsExact, AnchorsOf, TextOf, EndsOnce, NoWorse, BusyKept, AnchorsOnly, AnchorsTold;
      events := [];
      if at.anchorAt.None? || lease.None? { return; }
      var count := at.anchorAt.value;
      if count < 16 || at.cached + at.ingested != count { return; }
      var next := UpperBound(spec.boundaries, count);
      NextBoundary(spec, at, past, next);
      at := at.(anchorAt := At(spec.boundaries, next));
      past := past.(passed := past.passed + 1, paused := past.paused + [count]);
      events := PlantAnchor(spec.full[..count], ex);
      AnchorsAtBoundary(events, spec, old(at), old(past));
    }

    method PlantAnchor(boundary: seq<Token>, ex: CacheExecutor) returns (events: seq<Event>)
      requires Holding(ex, boundary)
      modifies ex
      ensures Holding(ex, boundary) && Harmless(old(ex.Snapshot()), ex.Snapshot(), slot)
      ensures TextOf(events) == [] && AnchorsExact(events, ex.Snapshot(), boundary, slot) && EndsOnce(events, false)
      ensures AnchorsAt(events, boundary)
      ensures AnchorsOnly(events) && AnchorsTold(events, old(ex.Snapshot()), ex.Snapshot(), slot)
    {
      hide AnchorsTold, AnchorsOnly, AnchorsExact, TextOf, AnchorEvents;
      var plan := AnyAnchorPlan(ex.coordinator, boundary);
      var copyFails: bool := *;
      var r := ex.CreateAnchor(boundary, slot, plan, copyFails);
      events := AnchorEvents(r, plan, boundary);
      AnchorEventsMean(r, plan, boundary, ex.Snapshot(), slot);
      AnchorEventsTell(old(ex.Snapshot()), ex.Snapshot(), r, plan, boundary, slot);
    }

    /** An anchor if one is due, and a progress event for a long prompt. */
    method PlantAndReport(ex: CacheExecutor) returns (events: seq<Event>, ghost anchors: seq<Event>)
      requires if at.anchorAt == Some(at.cached + at.ingested) then AtBoundary(spec, at, past) else Anchors(spec, at, past)
      requires at.cached + at.ingested <= |spec.full| && Holding(ex, spec.full[..at.cached + at.ingested])
      modifies this`at, this`past, ex
      ensures at == old(at).(anchorAt := at.anchorAt)
      ensures past == old(past).(passed := past.passed, paused := past.paused)
      ensures Anchors(spec, at, past) && Holding(ex, spec.full[..at.cached + at.ingested])
      ensures Harmless(old(ex.Snapshot()), ex.Snapshot(), slot)
      ensures TextOf(events) == [] && AnchorsExact(events, ex.Snapshot(), spec.full[..at.cached + at.ingested], slot)
      ensures EndsOnce(events, false) && AnchorsOf(events, spec) && events == anchors + ProgressOf(spec, at)
      ensures AnchorsOnly(anchors) && AnchorsTold(anchors, old(ex.Snapshot()), ex.Snapshot(), slot)
    {
      hide AnchorsExact, EndsOnce, TextOf, Passed, GoodBoundaries, AnchorsOf;
      NothingToTell(ex.Snapshot(), spec.full[..at.cached + at.ingested], slot, spec);
      events := [];
      if at.anchorAt == Some(at.cached + at.ingested) { events := MaybeCreateAnchor(ex); }
      anchors := events;
      if |at.prompt| > 1024 && at.ingested < |at.prompt| {
        var progress := PrefillProgress(at.cached + at.ingested, |spec.full|);
        ProgressIsSilent(events, progress, ex.Snapshot(), spec.full[..at.cached + at.ingested], slot, spec);
        events := events + [progress];
      }
    }

    /** After a successful decode: the tokens are published and the position moves on. */
    method Ingest(ex: CacheExecutor) returns (events: seq<Event>, done: bool)
      requires Running() && Contributing(at) && Ahead(ex, Consumed(spec, at, past), Consumed(spec, at, past) + Input(at))
      modifies this`terminal, this`lease, this`at, this`past, ex
      ensures KeptBut(old(ex.Snapshot()), ex.Snapshot(), slot) && TextOf(events) == [] && NoAnchors(events)
      ensures EndsOnce(events, !done)
      ensures if done then events == [CacheAppend(slot, old(lease).value.generation + 1, Input(old(at)))]
        else |events| == 2 && events[0] == CacheAppend(slot, 0, Input(old(at))) && events[1].Failure?
      ensures !done ==> terminal.Failed? && Settled(ex) && Freed(ex) && at == old(at) && past == old(past)
      ensures done ==> terminal.Active? && at == Moved(old(at)) && past == Decoded(old(at), old(past))
      ensures done ==> Arrived(spec, at, past) && Holding(ex, Consumed(spec, at, past))
    {
      MovedOn(spec, at, past);
      events, done := TakeIn(Input(at), ex, Consumed(spec, at, past));
      if done {
        past := Decoded(at, past);
        at := Moved(at);
      }
    }

    /** The anchor, if one is due; then either a token is to be sampled or prefill goes on. */
    method Plant(sofar: seq<Event>, ex: CacheExecutor) returns (events: seq<Event>, ghost anchors: seq<Event>)
      requires terminal.Active? && Arrived(spec, at, past) && Holding(ex, Consumed(spec, at, past))
      requires TextOf(sofar) == [] && NoAnchors(sofar) && EndsOnce(sofar, false)
      modifies this`at, this`past, ex
      ensures at == old(at).(anchorAt := at.anchorAt) && TextOf(events) == []
      ensures past == old(past).(passed := past.passed, paused := past.paused)
      ensures if at.wantsLogits then Sampling(spec, at, past) else Live(spec, at, past)
      ensures Holding(ex, Consumed(spec, at, past)) && Harmless(old(ex.Snapshot()), ex.Snapshot(), slot)
      ensures AnchorsExact(events, ex.Snapshot(), Consumed(spec, at, past), slot) && EndsOnce(events, false)
      ensures AnchorsOf(events, spec) && AnchorsOnly(anchors)
      ensures events == sofar + anchors + if at.phase.Prefill? then ProgressOf(spec, at) else []
      ensures AnchorsTold(anchors, old(ex.Snapshot()), ex.Snapshot(), slot)
    {
      hide Undecided, PiecesOf, GoodBoundaries, Passed, AnchorsOf, TextOf, AnchorsTold, AnchorsOnly, ProgressOf, LedgerIs;
      ghost var (p, h) := (at, past);
      NoneTold(sofar, ex.Snapshot(), Consumed(spec, at, past), slot, spec);
      NothingNew(ex.Snapshot(), ex.Snapshot(), slot);
      events, anchors := sofar, [];
      if at.phase.Prefill? {
        PromptSoFar(spec, at, past);
        var more;
        more, anchors := PlantAndReport(ex);
        TextOfSum(events, more);
        AnchorsOfOn(events, more, spec);
        Regroup(sofar, anchors, ProgressOf(spec, at));
        events := events + more;
      }
      Onwards(spec, p, h, at, past);
    }

    method Arrive(ex: CacheExecutor, ghost reached: seq<Token>)
      returns (events: seq<Event>, done: bool, ghost anchors: seq<Event>)
      requires Running() && Contributing(at) && Ahead(ex, Consumed(spec, at, past), Consumed(spec, at, past) + Input(at))
      requires reached == Consumed(spec, at, past) + Input(at)
      modifies this`terminal, this`lease, this`at, this`past, ex
      ensures Harmless(old(ex.Snapshot()), ex.Snapshot(), slot)
      ensures TextOf(events) == [] && past.shown == old(past).shown && at.completionTokens == old(at).completionTokens
      ensures !done ==> terminal.Failed? && Settled(ex) && Freed(ex)
      ensures !done ==> NoAnchors(events) && Reported(spec, slot, 0, old(at), anchors, events, true)
      ensures done ==> events == ToldFirst(spec, slot, old(lease).value.generation + 1, old(at), anchors) && AnchorsOnly(anchors)
      ensures AnchorsTold(anchors, old(ex.Snapshot()), ex.Snapshot(), slot)
      ensures done ==> terminal.Active? && Holding(ex, reached)
      ensures done ==> if at.wantsLogits then Sampling(spec, at, past) else Live(spec, at, past)
      ensures done ==> Consumed(spec, at, past) == reached
      ensures done ==> at.wantsLogits || Rank(spec, at) < Rank(spec, old(at))
      ensures done ==> Rank(spec, at) <= Rank(spec, old(at))
      ensures AnchorsExact(events, ex.Snapshot(), reached, slot) && EndsOnce(events, !done)
      ensures AnchorsOf(events, spec) && Ledger(spec, at, past)
      ensures !done ==> Kept(spec, at.cached, at.nPos, past, terminal)
    {
      hide Undecided, PiecesOf, GoodBoundaries, Passed, AnchorsTold, AnchorsOnly, ProgressOf, AnchorsOf, AnchorsExact, TextOf,
        EndsOnce, LedgerIs, Spoken, Full;
      ghost var u := ex.Snapshot();
      MovedOn(spec, at, past);
      events, done := Ingest(ex);
      anchors := [];
      NothingNew(u, ex.Snapshot(), slot);
      NoneTold(events, ex.Snapshot(), reached, slot, spec);
      if done {
        ghost var v := ex.Snapshot();
        events, anchors := Plant(events, ex);
        SameProgress(spec, Moved(old(at)), at);
        AnchorsToldAround(anchors, u, v, ex.Snapshot(), ex.Snapshot(), slot);
      }
    }

    /** All that happens to a request after a step in which it decoded; `reached` is what it has taken
        in then. */
    method PostDecode(ex: CacheExecutor, ghost reached: seq<Token>) returns (events: seq<Event>, ghost anchors: seq<Event>)
      requires Running() && Contributing(at) && Ahead(ex, Consumed(spec, at, past), Consumed(spec, at, past) + Input(at))
      requires reached == Consumed(spec, at, past) + Input(at)
      modifies this, ex
      ensures Ready(ex) && Settled(ex) && Harmless(old(ex.Snapshot()), ex.Snapshot(), slot)
      ensures terminal.Active? || Freed(ex)
      ensures terminal.Active? ==> Rank(spec, at) < Rank(spec, old(at))
      ensures past.shown == old(past).shown + TextOf(events) && EndsShown(events)
      ensures AnchorsExact(events, ex.Snapshot(), reached, slot) && EndsOnce(events, !terminal.Active?)
      ensures AnchorsOf(events, spec) && Kept(spec, at.cached, at.nPos, past, terminal)
      ensures at.completionTokens <= spec.Limit()
      ensures Reported(spec, slot, old(lease).value.generation + 1, old(at), anchors, events, terminal.Failed?)
      ensures AnchorsTold(anchors, old(ex.Snapshot()), ex.Snapshot(), slot)
    {
      hide EndsOnce, NoAnchors, TextOf, Undecided, PiecesOf, GoodBoundaries, Passed, Concluded, AnchorsTold, AnchorsOnly,
        ToldFirst, Plain;
      ghost var u := ex.Snapshot();
      var done;
      events, done, anchors := Arrive(ex, reached);
      ghost var (first, v) := (events, ex.Snapshot());
      if done && at.wantsLogits {
        ghost var more;
        events, more := SampleNext(events, ex, reached);
        ReportedMore(spec, slot, old(lease).value.generation + 1, old(at), anchors, first, more);
        AnchorsToldAround(anchors, u, u, v, ex.Snapshot(), slot);
      } else if done {
        ReportedMore(spec, slot, old(lease).value.generation + 1, old(at), anchors, first, []);
        assert first + [] == first;
      }
    }

    method SampleNext(sofar: seq<Event>, ex: CacheExecutor, ghost reached: seq<Token>)
      returns (events: seq<Event>, ghost more: seq<Event>)
      requires terminal.Active? && reason.Stop? && Sampling(spec, at, past) && Holding(ex, Consumed(spec, at, past))
      requires TextOf(sofar) == [] && AnchorsExact(sofar, ex.Snapshot(), reached, slot) && EndsOnce(sofar, false)
      requires AnchorsOf(sofar, spec)
      modifies this, ex
      ensures Ready(ex) && Settled(ex) && KeptBut(old(ex.Snapshot()), ex.Snapshot(), slot)
      ensures (terminal.Active? || Freed(ex)) && !terminal.Failed? && events == sofar + more && Plain(more)
      ensures terminal.Active? ==> Rank(spec, at) < Rank(spec, old(at))
      ensures at.completionTokens <= spec.Limit()
      ensures past.shown == old(past.shown) + TextOf(events) && EndsShown(events)
      ensures AnchorsExact(events, ex.Snapshot(), reached, slot) && EndsOnce(events, !terminal.Active?)
      ensures AnchorsOf(events, spec) && Kept(spec, at.cached, at.nPos, past, terminal)
    {
      hide TextOf, Undecided, PiecesOf, GoodBoundaries, Passed, Concluded, Live, Kept;
      ghost var v := ex.Snapshot();
      events := ProcessSampled(ex);
      more := events;
      TextOfSum(sofar, events);
      AnchorsStay(sofar, events, v, ex.Snapshot(), reached, slot);
      AnchorsOfOn(sofar, events, spec);
      assert EndsShown(events) ==> EndsShown(sofar + events);
      events := sofar + events;
    }

    /** Adds what the request contributes to this step: its pending token, or as much of its prompt as
        the budget and the next anchor allow. */
    method AddContribution(batch: seq<Contribution>, budget: nat) returns (extended: seq<Contribution>)
      requires Able(at) && budget >= 1
      modifies this`at
      ensures SameButStep(old(at), at) && Contributing(at) && at.stepTokens <= budget && TakesAll(at, budget)
      ensures extended == batch + Segment(at, slot)
    {
      if at.phase.Decode? {
        at := at.(stepTokens := 1, wantsLogits := true);
        return batch + [Contribution(at.pending, at.nPos, slot, true)];
      }
      var remaining := |at.prompt| - at.ingested;
      var absolute := at.cached + at.ingested;
      if at.anchorAt.Some? && at.anchorAt.value > absolute && at.anchorAt.value - absolute < remaining {
        remaining := at.anchorAt.value - absolute;
      }
      var chunk := if remaining < budget then remaining else budget;
      at := at.(stepTokens := chunk, wantsLogits := false);
      ghost var p := at;
      extended := batch;
      var n := 0;
      while n < chunk
        invariant 0 <= n <= chunk && p.ingested + n <= |p.prompt|
        invariant at == p.(wantsLogits := n > 0 && p.ingested + n == |p.prompt|)
        invariant extended == batch + Stretch(p, slot, n)
      {
        var last := at.ingested + n + 1 == |at.prompt|;
        extended := extended + [Contribution(at.prompt[at.ingested + n], at.nPos + n, slot, last)];
        if last { at := at.(wantsLogits := true); }
        n := n + 1;
      }
    }

    /** After a failed decode: the whole prompt once more, if this was prefill and the first failure;
        otherwise the request fails. */
    method DecodeFailure(sole: bool, ex: CacheExecutor) returns (events: seq<Event>)
      requires Running() && Holding(ex, Consumed(spec, at, past))
      modifies this, ex
      ensures Ready(ex) && Settled(ex) && !terminal.Completed? && (terminal.Active? || Freed(ex))
      ensures terminal.Active? ==> Rank(spec, at) < Rank(spec, old(at))
      ensures terminal.Active? <==> old(at).phase.Prefill? && !old(at).retried
      ensures terminal.Active? ==> at == Restarted(spec, old(at)) && Consumed(spec, at, past) == []
      ensures terminal.Active? && sole ==> OnlyOne(ex)
      ensures if terminal.Active? then events == (if sole then [CacheResetAll] else [CacheResetSlot(slot, lease.value.generation)])
        else |events| == 1 && events[0].Failure?
      ensures !sole ==> KeptBut(old(ex.Snapshot()), ex.Snapshot(), slot)
      ensures NoWorse(old(ex.Snapshot()), ex.Snapshot(), slot)
      ensures ex.Shaped() && |ex.slots| == old(|ex.slots|)
      ensures past.shown == old(past).shown && TextOf(events) == [] && NoAnchors(events)
      ensures EndsOnce(events, !terminal.Active?) && EndsShown(events)
      ensures at.completionTokens == old(at).completionTokens && Kept(spec, at.cached, at.nPos, past, terminal)
    {
      if at.phase.Prefill? && !at.retried {
        events := ClearSlot(sole, ex);
        RestartIsLive(spec, at, past);
        at := Restarted(spec, at);
        past := Forgotten(past);
        return;
      }
      var failure := Fail("", ex);
      events := [];
      if failure.Some? {
        SilentEvent([], failure.value);
        events := [failure.value];
      }
    }

    /** Empties the slot but keeps the lease. */
    method ClearSlot(sole: bool, ex: CacheExecutor) returns (events: seq<Event>)
      requires OnSlot(ex) && lease.value.generation > 0
      modifies this`lease, ex
      ensures Holding(ex, []) && Settled(ex)
      ensures !sole ==> KeptBut(old(ex.Snapshot()), ex.Snapshot(), slot)
      ensures NoWorse(old(ex.Snapshot()), ex.Snapshot(), slot)
      ensures ex.Shaped() && |ex.slots| == old(|ex.slots|)
      ensures TextOf(events) == [] && NoAnchors(events) && EndsOnce(events, false)
      ensures sole ==> OnlyOne(ex)
      ensures events == if sole then [CacheResetAll] else [CacheResetSlot(slot, lease.value.generation)]
    {
      var l := lease.value;
      if sole {
        var generation := ex.ResetForRetry(l.slot);
        assert AgreesAt(ex.slots, ex.coordinator, ex.physical, slot);
        ex.MirrorIsNoWorse(old(ex.Snapshot()), slot);
        lease := Some(l.(generation := generation));
        SilentEvent([], CacheResetAll);
        return [CacheResetAll];
      }
      var next := ex.InvalidateAndClear(l.slot, l.generation, true);
      if next.Some? { lease := Some(l.(generation := next.value)); }
      events := [CacheResetSlot(slot, lease.value.generation)];
      SilentEvent([], events[0]);
    }
  }

  /** Admits a request and takes its lease. It starts ready, unless its slot was restored from an anchor
      that holds more than the request reuses; nobody else is touched. */
  method Prepare(spec: Spec, priority: Priority, hybrid: bool, plan: Option<Plan>, fault: Fault, ex: CacheExecutor)
    returns (r: Option<ActiveRequest>)
    requires ex.Shaped() && (plan.Some? ==> Planned(ex.coordinator, spec.full, plan.value))
    requires |spec.full| < spec.backend.context && GoodBoundaries(spec.boundaries, |spec.full|)
    requires plan.Some? && spec.boundaries != [] ==> spec.boundaries[0] > plan.value.reuse
    modifies ex
    ensures ex.Shaped() && CurrentKept(old(ex.Snapshot()), ex.Snapshot())
    ensures old(BusyCurrent(ex.Snapshot())) ==>
      BusyKept(old(ex.Snapshot()), ex.Snapshot(), |ex.slots|) && BusyCurrent(ex.Snapshot())
    ensures r.Some? ==> fresh(r.value) && r.value.terminal.Active? && r.value.spec == spec && r.value.priority == priority
    ensures r.Some? ==> plan.Some? && !old(ex.coordinator[plan.value.target]).busy && r.value.slot == plan.value.target
    ensures r.Some? ==> r.value.at == Start(spec, Resident(plan.value, spec.full)) && r.value.past == NoPast(spec)
    ensures r.Some? <==>
      && plan.Some? && old(ex.Current(plan.value)) && !fault.hook
      && Feasible(plan.value, spec.full, hybrid, fault, old(ex.slots))
    ensures r.Some? && old(ex.Touched(plan.value)) ==>
      (r.value.Ready(ex) <==> !PartialRestore(old(ex.coordinator), spec.full, plan.value))
    ensures r.Some? && old(ex.Touched(plan.value)) && hybrid ==> r.value.Ready(ex)
    ensures NoWorse(old(ex.Snapshot()), ex.Snapshot(), if r.Some? then r.value.slot else |ex.slots|)
    ensures r.Some? && old(AllTally(ex.Snapshot())) ==> old(ex.Touched(plan.value))
    ensures old(AllTally(ex.Snapshot())) ==>
      (AllTally(ex.Snapshot()) <==> !(r.Some? && PartialRestore(old(ex.coordinator), spec.full, plan.value)))
  {
    hide AllTally, NoWorse, PartialRestore, Live, GoodBoundaries, Feasible, CurrentKept, BusyKept, BusyCurrent, Planned,
      CacheExecutor.Touched, CacheExecutor.Current;
    var admission := TakeSlot(spec.full, hybrid, plan, fault, ex);
    match admission {
      case Refused => r := None;
      case Admitted(slot, generation, resident) =>
        var request := new ActiveRequest(spec, slot, priority, resident, Leases.Lease(slot, generation));
        StartIsLive(spec, resident);
        r := Some(request);
    }
  }

  /** The slot of a request that is admitted: leased, with all that its plan reuses. */
  method TakeSlot(tokens: seq<Token>, hybrid: bool, plan: Option<Plan>, fault: Fault, ex: CacheExecutor)
    returns (admission: Admission)
    requires ex.Shaped() && (plan.Some? ==> Planned(ex.coordinator, tokens, plan.value))
    modifies ex
    ensures ex.Shaped() && CurrentKept(old(ex.Snapshot()), ex.Snapshot())
    ensures old(BusyCurrent(ex.Snapshot())) ==>
      BusyKept(old(ex.Snapshot()), ex.Snapshot(), |ex.slots|) && BusyCurrent(ex.Snapshot())
    ensures admission.Admitted? <==>
      && plan.Some? && old(ex.Current(plan.value)) && !fault.hook
      && Feasible(plan.value, tokens, hybrid, fault, old(ex.slots))
    ensures admission.Admitted? ==>
      && plan.Some? && !old(ex.coordinator[plan.value.target]).busy && admission.slot == plan.value.target
      && admission.resident == Resident(plan.value, tokens) < |tokens| && admission.generation > 0
      && Occupied(ex.Snapshot(), admission.slot, admission.generation, tokens[..admission.resident])
    ensures admission.Admitted? && old(ex.Touched(plan.value)) ==>
      (ex.physical[admission.slot] == tokens[..admission.resident] <==>
        !PartialRestore(old(ex.coordinator), tokens, plan.value))
    ensures admission.Admitted? && old(ex.Touched(plan.value)) && hybrid ==>
      !PartialRestore(old(ex.coordinator), tokens, plan.value)
    ensures NoWorse(old(ex.Snapshot()), ex.Snapshot(), if admission.Admitted? then admission.slot else |ex.slots|)
    ensures admission.Admitted? && old(AllTally(ex.Snapshot())) ==> old(ex.Touched(plan.value))
    ensures old(AllTally(ex.Snapshot())) ==>
      (AllTally(ex.Snapshot()) <==> !(admission.Admitted? && PartialRestore(old(ex.coordinator), tokens, plan.value)))
  {
    hide AllTally, NoWorse, PartialRestore, Feasible, SharesPrefix, CurrentKept;
    ghost var v := ex.Snapshot();
    SameIsNoWorse(v, |ex.slots|);
    SameIsKept(v);
    if plan.Some? && AllTally(v) && ex.Current(plan.value) { ex.TalliesTouch(tokens, plan.value); }
    admission := ex.Admit(tokens, hybrid, plan, fault);
    if plan.Some? { AdmissionKeepsBusy(v, ex.Snapshot(), tokens, plan.value); }
    match admission {
      case Refused =>
        if plan.Some? && AllTally(v) { AllTallyStill(v, ex.Snapshot()); }
      case Admitted(slot, generation, resident) =>
        if AllTally(v) { TalliesByLease(v, ex.Snapshot(), slot, generation, tokens[..resident]); }
    }
  }

  lemma {:induction false} SameIsKept(v: View)
    requires |v.slots| == |v.coordinator| == |v.physical|
    ensures CurrentKept(v, v) && BusyKept(v, v, |v.slots|)
  {
  }
}

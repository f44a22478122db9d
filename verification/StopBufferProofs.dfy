/** What a stream through the stop buffer shows, for every way of cutting the text into chunks. */
module StopBufferProofs {
  import opened Common
  import opened Utf8
  import opened StopBuffers

  ghost predicate WholeStops(stops: seq<Bytes>) { forall k | 0 <= k < |stops| :: Whole(stops[k]) }

  ghost predicate NonEmptyStops(stops: seq<Bytes>) { forall k | 0 <= k < |stops| :: stops[k] != [] }

  /** Whatever proper beginning of a stop has been seen, the first stop inside it, if there is one,
      starts where it starts. This can be decided from the list of stops alone. */
  ghost predicate Unambiguous(stops: seq<Bytes>) {
    forall k, q: nat | 0 <= k < |stops| && q < |stops[k]| ::
      var inner := FirstStop(stops[k][..q], stops);
      inner.None? || inner.value == 0
  }

  /** The text before the earliest non-empty stop, or all of it. */
  function Cut(text: Bytes, stops: seq<Bytes>): Bytes {
    var stop := FirstStop(text, stops);
    if stop.Some? then text[..stop.value] else text
  }

  /** The text received when the first stop completes, or all of it. */
  function FirstHit(stops: seq<Bytes>, fed: Bytes, chunks: seq<Bytes>): Bytes
    decreases |chunks|
  {
    if chunks == [] then fed
    else if FirstStop(fed + chunks[0], stops).Some? then fed + chunks[0]
    else FirstHit(stops, fed + chunks[0], chunks[1..])
  }

  /** The buffer's invariant: no stop in the text so far, and no released position can begin one. */
  ghost predicate Safe(stops: seq<Bytes>, released: Bytes, held: Bytes) {
    && FirstStop(released + held, stops).None?
    && forall p: nat | p < |released| :: !ViableAt(released + held, stops, p)
  }

  lemma {:induction false} OccursShift(a: Bytes, b: Bytes, stop: Bytes, i: nat)
    ensures OccursAt(a + b, stop, |a| + i) == OccursAt(b, stop, i)
  {
    if i + |stop| <= |b| {
      assert forall j | 0 <= j < |b| :: (a + b)[|a| + j] == b[j];
    }
  }

  /** A stop that begins in `a` either lies inside it or makes its tail a beginning of a stop. */
  lemma {:induction false} StopInPrefix(a: Bytes, b: Bytes, stops: seq<Bytes>, i: nat)
    requires i < |a| && StopAt(a + b, stops, i)
    ensures StopAt(a, stops, i) || ViableAt(a, stops, i)
  {
    var k :| 0 <= k < |stops| && stops[k] != [] && OccursAt(a + b, stops[k], i);
    if i + |stops[k]| <= |a| {
      assert forall j | 0 <= j < |a| :: a[j] == (a + b)[j];
      assert OccursAt(a, stops[k], i);
    } else {
      assert forall j | i <= j < |a| :: a[j] == (a + b)[i + (j - i)] == stops[k][j - i];
      assert TailBegins(a, i, stops[k]);
    }
  }

  lemma {:induction false} StopStays(a: Bytes, b: Bytes, stops: seq<Bytes>, i: nat)
    requires StopAt(a, stops, i)
    ensures StopAt(a + b, stops, i)
  {
    var k :| 0 <= k < |stops| && stops[k] != [] && OccursAt(a, stops[k], i);
    assert forall j | 0 <= j < |a| :: (a + b)[j] == a[j];
    assert OccursAt(a + b, stops[k], i);
  }

  lemma {:induction false} StopShift(a: Bytes, b: Bytes, stops: seq<Bytes>, i: nat)
    ensures StopAt(a + b, stops, |a| + i) == StopAt(b, stops, i)
  {
    if StopAt(a + b, stops, |a| + i) {
      var k :| 0 <= k < |stops| && stops[k] != [] && OccursAt(a + b, stops[k], |a| + i);
      OccursShift(a, b, stops[k], i);
    }
    if StopAt(b, stops, i) {
      var k :| 0 <= k < |stops| && stops[k] != [] && OccursAt(b, stops[k], i);
      OccursShift(a, b, stops[k], i);
    }
  }

  /** What cannot grow into a stop cannot do so after more text either. */
  lemma {:induction false} ViablePrefix(a: Bytes, b: Bytes, stops: seq<Bytes>, p: nat)
    requires p <= |a| && ViableAt(a + b, stops, p)
    ensures ViableAt(a, stops, p)
  {
    var k :| 0 <= k < |stops| && TailBegins(a + b, p, stops[k]);
    assert forall j | p <= j < |a| :: a[j] == (a + b)[j] == stops[k][j - p];
    assert TailBegins(a, p, stops[k]);
  }

  lemma {:induction false} ViableShift(a: Bytes, b: Bytes, stops: seq<Bytes>, p: nat)
    requires ViableAt(a + b, stops, |a| + p)
    ensures ViableAt(b, stops, p)
  {
    var k :| 0 <= k < |stops| && TailBegins(a + b, |a| + p, stops[k]);
    assert forall j | p <= j < |b| :: b[j] == (a + b)[|a| + j] == stops[k][j - p];
    assert TailBegins(b, p, stops[k]);
  }

  lemma {:induction false} StopMoves(stops: seq<Bytes>, released: Bytes, held: Bytes, text: Bytes, j: nat)
    requires Safe(stops, released, held)
    ensures StopAt(released + held + text, stops, j) <==>
      j >= |released| && StopAt(held + text, stops, j - |released|)
  {
    var fed := released + held;
    assert fed + text == released + (held + text);
    if j >= |released| {
      StopShift(released, held + text, stops, j - |released|);
    } else if StopAt(fed + text, stops, j) {
      StopInPrefix(fed, text, stops, j);
      FirstStopIsFirst(fed, stops);
      assert false;
    }
  }

  /** Searching the held text is as good as searching everything received. */
  lemma {:induction false} HeldIsEnough(stops: seq<Bytes>, released: Bytes, held: Bytes, text: Bytes)
    requires Safe(stops, released, held)
    ensures var stop := FirstStop(held + text, stops);
      FirstStop(released + held + text, stops) ==
        if stop.Some? then Some(|released| + stop.value) else None
  {
    var h, now := held + text, released + held + text;
    var stop := FirstStop(h, stops);
    FirstStopIsFirst(h, stops);
    forall j: nat
      ensures StopAt(now, stops, j) <==> j >= |released| && StopAt(h, stops, j - |released|)
    {
      StopMoves(stops, released, held, text, j);
    }
    if stop.Some? { assert StopAt(now, stops, |released| + stop.value); }
    FirstStopUnique(now, stops, if stop.Some? then Some(|released| + stop.value) else None);
  }

  lemma {:induction false} StaysSafe(stops: seq<Bytes>, released: Bytes, held: Bytes, text: Bytes, p: nat)
    requires Safe(stops, released, held)
    requires p < |released + held + text| - Hold(stops, held + text)
    ensures !ViableAt(released + held + text, stops, p)
  {
    var fed, h, now := released + held, held + text, released + held + text;
    if p < |released| {
      if ViableAt(now, stops, p) { ViablePrefix(fed, text, stops, p); }
    } else {
      assert now == released + h && !Doubtful(h, stops, p - |released|);
      if ViableAt(now, stops, p) { ViableShift(released, h, stops, p - |released|); }
    }
  }

  lemma {:induction false} FeedSplits(stops: seq<Bytes>, released: Bytes, held: Bytes, text: Bytes)
    requires !Feed(stops, held, text).stopped
    ensures var step := Feed(stops, held, text);
      && (released + step.visible) + step.held == released + held + text
      && |released + step.visible| == |released + held + text| - Hold(stops, held + text)
  {
    hide FirstStop, Hold, Trim;
    assert released + held + text == released + (held + text);
  }

  /** Appending text in which no stop completes keeps the invariant. */
  lemma {:induction false} SafeStep(stops: seq<Bytes>, released: Bytes, held: Bytes, text: Bytes)
    requires Safe(stops, released, held) && !Feed(stops, held, text).stopped
    ensures var step := Feed(stops, held, text); Safe(stops, released + step.visible, step.held)
  {
    var step := Feed(stops, held, text);
    HeldIsEnough(stops, released, held, text);
    FeedSplits(stops, released, held, text);
    forall p: nat | p < |released + step.visible|
      ensures !ViableAt(released + held + text, stops, p)
    {
      StaysSafe(stops, released, held, text, p);
    }
  }

  /** The text before the stop, seen from what was released already. */
  lemma {:induction false} CutAtStop(stops: seq<Bytes>, released: Bytes, held: Bytes, text: Bytes)
    requires Safe(stops, released, held) && Feed(stops, held, text).stopped
    ensures FirstStop(released + held + text, stops).Some?
    ensures Cut(released + held + text, stops) == released + (held + text)[..FirstStop(held + text, stops).value]
  {
    hide Feed, Hold, FirstStop, Safe;
    HeldIsEnough(stops, released, held, text);
    FeedAtStop(stops, held, text);
    assert released + held + text == released + (held + text);
  }

  /** Any bytes, any stops: the stream shows a prefix of the text before the first stop to complete
      and withholds at most the three bytes of an unfinished character. */
  lemma {:induction false} StreamOfAnyBytes(stops: seq<Bytes>, released: Bytes, held: Bytes, chunks: seq<Bytes>)
    requires Safe(stops, released, held)
    ensures var cut := Cut(FirstHit(stops, released + held, chunks), stops);
      var out := released + Flatten(Released(stops, held, chunks));
      out <= cut && |cut| - |out| < 4
    decreases |chunks|
  {
    if chunks == [] {
      OutputAtEnd(stops, released, held);
    } else {
      var step := Feed(stops, held, chunks[0]);
      OutputAfterStep(stops, released, held, chunks);
      if step.stopped {
        CutAtStop(stops, released, held, chunks[0]);
      } else {
        HeldIsEnough(stops, released, held, chunks[0]);
        SafeStep(stops, released, held, chunks[0]);
        FeedSplits(stops, released, held, chunks[0]);
        StreamOfAnyBytes(stops, released + step.visible, step.held, chunks[1..]);
      }
    }
  }

  // ---------------------------------------------------------------- what is shown before the end

  /** What the appends show, without the tail of the flush. */
  function Live(stops: seq<Bytes>, held: Bytes, chunks: seq<Bytes>): Bytes
    decreases |chunks|
  {
    if chunks == [] then []
    else
      var step := Feed(stops, held, chunks[0]);
      if step.stopped then step.visible else step.visible + Live(stops, step.held, chunks[1..])
  }

  lemma {:induction false} DoubtShift(a: Bytes, b: Bytes, stops: seq<Bytes>, p: nat)
    requires p < |b|
    ensures Doubtful(a + b, stops, |a| + p) <==> Doubtful(b, stops, p)
  {
    CharacterShift(a, b, p);
    if ViableAt(a + b, stops, |a| + p) { ViableShift(a, b, stops, p); }
    if ViableAt(b, stops, p) {
      var k :| 0 <= k < |stops| && TailBegins(b, p, stops[k]);
      assert forall j | |a| <= j < |a + b| :: (a + b)[j] == b[j - |a|];
      assert TailBegins(a + b, |a| + p, stops[k]);
    }
  }

  lemma {:induction false} DoubtPrefix(a: Bytes, b: Bytes, stops: seq<Bytes>, p: nat)
    requires p < |a| && Doubtful(a + b, stops, p)
    ensures Doubtful(a, stops, p)
  {
    if ViableAt(a + b, stops, p) {
      ViablePrefix(a, b, stops, p);
    } else {
      assert forall j | 0 <= j < |a| :: (a + b)[j] == a[j];
    }
  }

  /** One append in which no stop completes shows all that is received up to the first doubtful place. */
  lemma {:induction false} LiveStep(stops: seq<Bytes>, released: Bytes, held: Bytes, text: Bytes)
    requires HeldBack(released + held, stops, |released|) && !Feed(stops, held, text).stopped
    ensures HeldBack(released + held + text, stops, |released + Feed(stops, held, text).visible|)
  {
    hide Doubtful, Feed, Hold, FirstStop, Safe;
    var (h, step) := (held + text, Feed(stops, held, text));
    var (now, shown) := (released + h, |released + step.visible|);
    assert released + held + text == now;
    if shown < |now| { DoubtShift(released, h, stops, |step.visible|); }
    forall p: nat | p < shown && p < |now| ensures !Doubtful(now, stops, p) {
      if p >= |released| {
        DoubtShift(released, h, stops, p - |released|);
      } else if Doubtful(now, stops, p) {
        DoubtPrefix(released + held, text, stops, p);
      }
    }
  }

  lemma {:induction false} NoStopYet(a: Bytes, b: Bytes, stops: seq<Bytes>)
    requires FirstStop(a + b, stops).None?
    ensures FirstStop(a, stops).None?
  {
    FirstStopIsFirst(a, stops);
    FirstStopIsFirst(a + b, stops);
    if FirstStop(a, stops).Some? { StopStays(a, b, stops, FirstStop(a, stops).value); }
  }

  lemma {:induction false} LiveFrom(stops: seq<Bytes>, released: Bytes, held: Bytes, chunks: seq<Bytes>)
    requires Safe(stops, released, held) && HeldBack(released + held, stops, |released|)
    requires FirstStop(released + held + Flatten(chunks), stops).None?
    ensures var (all, shown) := (released + held + Flatten(chunks), released + Live(stops, held, chunks));
      shown <= all && HeldBack(all, stops, |shown|)
    decreases |chunks|
  {
    hide Feed, Hold, HeldBack, Safe, FirstStop;
    if chunks == [] {
      assert released + held + [] == released + held && released + [] == released;
    } else {
      var (step, rest) := (Feed(stops, held, chunks[0]), chunks[1..]);
      var now := released + held + chunks[0];
      assert released + held + Flatten(chunks) == now + Flatten(rest);
      NoStopYet(now, Flatten(rest), stops);
      HeldIsEnough(stops, released, held, chunks[0]);
      FirstStopIsFirst(held + chunks[0], stops);
      SafeStep(stops, released, held, chunks[0]);
      FeedSplits(stops, released, held, chunks[0]);
      LiveStep(stops, released, held, chunks[0]);
      LiveFrom(stops, released + step.visible, step.held, rest);
      assert released + step.visible + Live(stops, step.held, rest) == released + (step.visible + Live(stops, step.held, rest));
    }
  }

  /** Nothing is shown late: on any bytes, however they are cut into chunks, all of the text received so far is
      shown up to the first place that may be the beginning of a stop or of a character. */
  lemma {:induction false} LiveIsPrompt(stops: seq<Bytes>, chunks: seq<Bytes>)
    requires FirstStop(Flatten(chunks), stops).None?
    ensures Live(stops, [], chunks) <= Flatten(chunks)
    ensures HeldBack(Flatten(chunks), stops, |Live(stops, [], chunks)|)
  {
    EmptyBufferIsSafe(stops);
    var none: Bytes := [];
    assert none + none == none && none + Flatten(chunks) == Flatten(chunks);
    assert none + Live(stops, none, chunks) == Live(stops, none, chunks);
    LiveFrom(stops, none, none, chunks);
  }

  lemma {:induction false} EmptyBufferIsSafe(stops: seq<Bytes>)
    ensures Safe(stops, [], [])
  {
    var none: Bytes := [];
    FirstStopIsFirst(none, stops);
    assert none + none == none;
  }

  /** From an empty buffer: no byte at or after the first completed stop is ever shown. */
  lemma {:induction false} StreamStaysBeforeStop(stops: seq<Bytes>, chunks: seq<Bytes>)
    ensures var cut := Cut(FirstHit(stops, [], chunks), stops);
      Stream(stops, chunks) <= cut && |cut| - |Stream(stops, chunks)| < 4
  {
    EmptyBufferIsSafe(stops);
    var none: Bytes := [];
    assert none + none == none && none + Stream(stops, chunks) == Stream(stops, chunks);
    StreamOfAnyBytes(stops, none, none, chunks);
  }

  // ---------------------------------------------------------------- valid text

  lemma {:induction false} PartialPrefix(a: Bytes, b: Bytes)
    requires Partial(a + b)
    ensures Partial(a)
  {
    var rest := Completion(a + b, 0);
    assert a + b + rest == a + (b + rest);
    PrefixIsPartial(a, b + rest, 0);
  }

  /** In valid text every stop starts on a character boundary. */
  lemma {:induction false} BeforeStopIsWhole(text: Bytes, stops: seq<Bytes>, i: nat)
    requires Partial(text) && WholeStops(stops) && StopAt(text, stops, i)
    ensures Whole(text[..i])
  {
    var k :| 0 <= k < |stops| && stops[k] != [] && OccursAt(text, stops[k], i);
    assert text[i + 0] == stops[k][0];
    Boundary(text, i);
  }

  lemma {:induction false} BeginsWithLead(held: Bytes, stops: seq<Bytes>, n: nat)
    requires WholeStops(stops) && 0 < n && CouldStop(held, stops, n)
    ensures !Continuation(held[|held| - n])
  {
    var k :| 0 <= k < |stops| && TailBegins(held, |held| - n, stops[k]);
    assert held[|held| - n] == stops[k][0];
  }

  /** What stays held back starts on a character boundary. */
  lemma {:induction false} ReleaseIsWhole(stops: seq<Bytes>, held: Bytes)
    requires Partial(held) && WholeStops(stops)
    ensures Whole(held[..|held| - Hold(stops, held)])
  {
    var n := PartialStop(held, stops, |held|);
    if n > IncompleteSuffix(held) {
      PartialStopIsLongest(held, stops, |held|);
      BeginsWithLead(held, stops, n);
      Boundary(held, |held| - n);
    } else {
      ScanFindsTrailing(held);
      TrailingSplit(held);
    }
  }

  /** The text received is valid up to an unfinished character, and what was released is whole. */
  ghost predicate ValidSoFar(stops: seq<Bytes>, released: Bytes, held: Bytes, chunks: seq<Bytes>) {
    && WholeStops(stops) && Safe(stops, released, held)
    && Whole(released) && Partial(released + held + Flatten(chunks))
  }

  lemma {:induction false} NextIsValid(stops: seq<Bytes>, released: Bytes, held: Bytes, chunks: seq<Bytes>)
    requires ValidSoFar(stops, released, held, chunks)
    ensures Partial(released + held)
    ensures chunks != [] ==> Partial(released + held + chunks[0])
    ensures chunks != [] && !Feed(stops, held, chunks[0]).stopped ==>
      var step := Feed(stops, held, chunks[0]);
      ValidSoFar(stops, released + step.visible, step.held, chunks[1..]) && Whole(step.visible)
  {
    PartialPrefix(released + held, Flatten(chunks));
    if chunks != [] {
      var now := released + held + chunks[0];
      assert released + held + Flatten(chunks) == now + Flatten(chunks[1..]);
      PartialPrefix(now, Flatten(chunks[1..]));
      if !Feed(stops, held, chunks[0]).stopped { ValidStep(stops, released, held, chunks[0]); }
    }
  }

  /** Valid text and stops: exactly the text before the first stop to complete, without an
      unfinished last character. */
  lemma {:induction false} StreamOfValidText(stops: seq<Bytes>, released: Bytes, held: Bytes, chunks: seq<Bytes>)
    requires ValidSoFar(stops, released, held, chunks)
    ensures released + Flatten(Released(stops, held, chunks))
         == Trim(Cut(FirstHit(stops, released + held, chunks), stops))
    decreases |chunks|
  {
    NextIsValid(stops, released, held, chunks);
    if chunks == [] {
      OutputAtEnd(stops, released, held);
      TrimAfterWhole(released, held);
    } else {
      var step := Feed(stops, held, chunks[0]);
      OutputAfterStep(stops, released, held, chunks);
      if step.stopped {
        ValidStop(stops, released, held, chunks[0]);
      } else {
        HeldIsEnough(stops, released, held, chunks[0]);
        FeedSplits(stops, released, held, chunks[0]);
        StreamOfValidText(stops, released + step.visible, step.held, chunks[1..]);
      }
    }
  }

  /** Every piece released on the way is a whole number of characters. */
  lemma {:induction false} PiecesAreWhole(stops: seq<Bytes>, released: Bytes, held: Bytes, chunks: seq<Bytes>, k: nat)
    requires ValidSoFar(stops, released, held, chunks)
    requires k < |Released(stops, held, chunks)|
    ensures Whole(Released(stops, held, chunks)[k])
    decreases |chunks|
  {
    if chunks == [] {
      NextIsValid(stops, released, held, chunks);
      TrimAfterWhole(released, held);
      assert Released(stops, held, chunks) == [Trim(held)];
    } else {
      hide Feed, Released, Whole, Partial, Safe, FirstStop, Trim, Flatten;
      NextIsValid(stops, released, held, chunks);
      PieceAt(stops, held, chunks, k);
      var step := Feed(stops, held, chunks[0]);
      if step.stopped {
        ValidStop(stops, released, held, chunks[0]);
      } else if k > 0 {
        PiecesAreWhole(stops, released + step.visible, step.held, chunks[1..], k - 1);
      }
    }
  }

  lemma {:induction false} PieceAt(stops: seq<Bytes>, held: Bytes, chunks: seq<Bytes>, k: nat)
    requires chunks != [] && k < |Released(stops, held, chunks)|
    ensures var (step, rest) := (Feed(stops, held, chunks[0]), Released(stops, Feed(stops, held, chunks[0]).held, chunks[1..]));
      && (k > 0 && !step.stopped ==> k - 1 < |rest|)
      && Released(stops, held, chunks)[k] == if k == 0 then step.visible else if step.stopped then [] else rest[k - 1]
  {
    hide FirstStop, PartialStop, Trim, Feed;
    if Feed(stops, held, chunks[0]).stopped {
    } else {
    }
  }

  lemma {:induction false} FeedAtStop(stops: seq<Bytes>, held: Bytes, text: Bytes)
    requires Feed(stops, held, text).stopped
    ensures var stop := FirstStop(held + text, stops);
      stop.Some? && Feed(stops, held, text) == Step(Trim((held + text)[..stop.value]), true, [])
  {
    hide FirstStop, Hold, Trim;
  }

  lemma {:induction false} ValidStop(stops: seq<Bytes>, released: Bytes, held: Bytes, text: Bytes)
    requires WholeStops(stops) && Safe(stops, released, held) && Feed(stops, held, text).stopped
    requires Whole(released) && Partial(released + held + text)
    ensures var now := released + held + text;
      && FirstStop(now, stops).Some?
      && released + Feed(stops, held, text).visible == Trim(Cut(now, stops))
    ensures Whole(Feed(stops, held, text).visible)
  {
    hide Feed, Trim, FirstStop, Safe, WholeFrom, PartialFrom, TrailingFrom;
    FeedAtStop(stops, held, text);
    var h := held + text;
    var before := h[..FirstStop(h, stops).value];
    CutAtStop(stops, released, held, text);
    assert released + held + text == released + h;
    AfterWhole(released, h);
    FirstStopIsFirst(h, stops);
    BeforeStopIsWhole(h, stops, |before|);
    AfterWhole(released, before);
    TrimOfWhole(before);
    TrimOfWhole(released + before);
  }

  lemma {:induction false} ValidStep(stops: seq<Bytes>, released: Bytes, held: Bytes, text: Bytes)
    requires WholeStops(stops) && Safe(stops, released, held) && !Feed(stops, held, text).stopped
    requires Whole(released) && Partial(released + held + text)
    ensures var step := Feed(stops, held, text);
      && Safe(stops, released + step.visible, step.held)
      && Whole(step.visible) && Whole(released + step.visible)
      && (released + step.visible) + step.held == released + held + text
  {
    assert released + held + text == released + (held + text);
    AfterWhole(released, held + text);
    ReleaseIsWhole(stops, held + text);
    AfterWhole(released, Feed(stops, held, text).visible);
    SafeStep(stops, released, held, text);
    FeedSplits(stops, released, held, text);
  }

  lemma {:induction false} TrimAfterWhole(a: Bytes, b: Bytes)
    requires Whole(a) && Partial(a + b)
    ensures Trim(a + b) == a + Trim(b) && Whole(Trim(b))
  {
    AfterWhole(a, b);
    ScanFindsTrailing(a + b);
    ScanFindsTrailing(b);
    TrailingSplit(b);
    assert (a + b)[..|a + b| - Trailing(b)] == a + b[..|b| - Trailing(b)];
  }

  // ---------------------------------------------------------------- against the one-shot cut

  lemma {:induction false} ApplyStopIsCut(text: Bytes, stops: seq<Bytes>)
    requires NonEmptyStops(stops)
    ensures ApplyStop(text, stops) == Cut(text, stops)
    ensures SmallestIndex(text, stops) == FirstStop(text, stops)
  {
    if stops != [] { ApplyStopIsCut(text, stops[1..]); }
  }

  /** With unambiguous stops the text that arrives after the first completed stop is irrelevant. */
  lemma {:induction false} FirstHitDecides(stops: seq<Bytes>, fed: Bytes, chunks: seq<Bytes>)
    requires Unambiguous(stops)
    ensures Cut(FirstHit(stops, fed, chunks), stops) == Cut(fed + Flatten(chunks), stops)
    decreases |chunks|
  {
    if chunks == [] {
      assert fed + Flatten(chunks) == fed;
    } else {
      var now, rest := fed + chunks[0], Flatten(chunks[1..]);
      assert fed + Flatten(chunks) == now + rest;
      if FirstStop(now, stops).Some? {
        EarliestStays(stops, now, rest);
        assert (now + rest)[..FirstStop(now, stops).value] == now[..FirstStop(now, stops).value];
      } else {
        FirstHitDecides(stops, now, chunks[1..]);
      }
    }
  }

  lemma {:induction false} EarliestStays(stops: seq<Bytes>, now: Bytes, rest: Bytes)
    requires Unambiguous(stops) && FirstStop(now, stops).Some?
    ensures FirstStop(now + rest, stops) == FirstStop(now, stops)
  {
    hide FirstStop;
    var i := FirstStop(now, stops).value;
    FirstStopIsFirst(now, stops);
    FirstStopIsFirst(now + rest, stops);
    StopStays(now, rest, stops, i);
    var j := FirstStop(now + rest, stops).value;
    if j < i {
      StopInPrefix(now, rest, stops, j);
      var k :| 0 <= k < |stops| && TailBegins(now, j, stops[k]);
      var u := stops[k][..|now| - j];
      assert now == now[..j] + u;
      FirstStopIsFirst(u, stops);
      StopShift(now[..j], u, stops, i - j);
      StopShift(now[..j], u, stops, 0);
    }
  }

  /** One whole character. */
  predicate Character(c: Bytes) { CharacterAt(c, 0) && |c| == Need(c[0]) }

  ghost predicate EveryCharacterStops(stops: seq<Bytes>) { forall c | Character(c) :: c in stops }

  /** On every valid text and every way of chunking it, streaming agrees with the one-shot cut. */
  ghost predicate Agree(stops: seq<Bytes>) {
    forall chunks | Partial(Flatten(chunks)) :: Stream(stops, chunks) == Trim(ApplyStop(Flatten(chunks), stops))
  }

  /** The centre, for all lists of valid stops: streaming agrees with the one-shot cut exactly when the stops
      are unambiguous; or, if one of them is empty, which the one-shot cut obeys and streaming ignores, when
      every single character is a stop as well. */
  lemma {:induction false} StreamingIsOneShotCut(stops: seq<Bytes>)
    requires WholeStops(stops)
    ensures Agree(stops) <==> if [] in stops then EveryCharacterStops(stops) else Unambiguous(stops)
  {
    if [] in stops {
      EmptyStopAgrees(stops);
    } else if Unambiguous(stops) {
      forall chunks | Partial(Flatten(chunks))
        ensures Stream(stops, chunks) == Trim(ApplyStop(Flatten(chunks), stops))
      {
        StreamIsFirstHit(stops, chunks);
        FirstHitDecides(stops, [], chunks);
        assert [] + Flatten(chunks) == Flatten(chunks);
        ApplyStopIsCut(Flatten(chunks), stops);
      }
    } else {
      var chunks := AmbiguousChunks(stops);
    }
  }

  lemma {:induction false} EmptyStopAgrees(stops: seq<Bytes>)
    requires WholeStops(stops) && [] in stops
    ensures Agree(stops) <==> EveryCharacterStops(stops)
  {
    if EveryCharacterStops(stops) {
      forall chunks | Partial(Flatten(chunks))
        ensures Stream(stops, chunks) == Trim(ApplyStop(Flatten(chunks), stops))
      {
        StreamIsFirstHit(stops, chunks);
        EmptyStopIndex(Flatten(chunks), stops);
        EmptyBufferIsSafe(stops);
        var none: Bytes := [];
        assert none + none == none && none + Flatten(chunks) == Flatten(chunks);
        HitCutsAll(stops, none, chunks);
      }
    }
    if Agree(stops) {
      forall c | Character(c) ensures c in stops { ShownCharacterStops(stops, c); }
    }
  }

  /** A text in which every character is a stop begins with a stop, or is an unfinished character. */
  lemma {:induction false} StopsAtOnce(stops: seq<Bytes>, text: Bytes)
    requires WholeStops(stops) && EveryCharacterStops(stops) && Partial(text)
    ensures Trim(Cut(text, stops)) == []
  {
    FirstStopIsFirst(text, stops);
    if CharacterAt(text, 0) {
      var c := text[..Need(text[0])];
      assert Character(c);
      var k :| 0 <= k < |stops| && stops[k] == c;
      assert OccursAt(text, stops[k], 0);
      assert StopAt(text, stops, 0);
    } else {
      ScanFindsTrailing(text);
      if FirstStop(text, stops).Some? { StopNeedsCharacter(text, stops, FirstStop(text, stops).value); }
    }
  }

  /** Where a stop occurs, the text begins with a whole character. */
  lemma {:induction false} StopNeedsCharacter(text: Bytes, stops: seq<Bytes>, i: nat)
    requires WholeStops(stops) && Partial(text) && StopAt(text, stops, i)
    ensures CharacterAt(text, 0)
  {
    BeforeStopIsWhole(text, stops, i);
    var k :| 0 <= k < |stops| && stops[k] != [] && OccursAt(text, stops[k], i);
    var stop := stops[k];
    if i == 0 {
      assert stop + text[|stop|..] == text;
      CharacterInPrefix(stop, text[|stop|..], 0);
    } else {
      assert text[..i] + text[i..] == text;
      CharacterInPrefix(text[..i], text[i..], 0);
    }
  }

  lemma {:induction false} HitCutsAll(stops: seq<Bytes>, fed: Bytes, chunks: seq<Bytes>)
    requires WholeStops(stops) && EveryCharacterStops(stops) && Partial(fed + Flatten(chunks))
    ensures Trim(Cut(FirstHit(stops, fed, chunks), stops)) == []
    decreases |chunks|
  {
    PartialPrefix(fed, Flatten(chunks));
    StopsAtOnce(stops, fed);
    if chunks != [] {
      var now := fed + chunks[0];
      assert fed + Flatten(chunks) == now + Flatten(chunks[1..]);
      PartialPrefix(now, Flatten(chunks[1..]));
      StopsAtOnce(stops, now);
      HitCutsAll(stops, now, chunks[1..]);
    }
  }

  /** If a character alone is shown as the one-shot cut shows it, namely not at all, it is a stop. */
  lemma {:induction false} ShownCharacterStops(stops: seq<Bytes>, c: Bytes)
    requires WholeStops(stops) && [] in stops && Character(c) && Agree(stops)
    ensures c in stops
  {
    NothingShown(stops, c);
    FirstStopIsFirst(c, stops);
    TrimOfWhole(c);
    var v := FirstStop(c, stops).value;
    BeforeStopIsWhole(c, stops, v);
    TrimOfWhole(c[..v]);
    StopFillsCharacter(stops, c);
  }

  lemma {:induction false} NothingShown(stops: seq<Bytes>, c: Bytes)
    requires WholeStops(stops) && [] in stops && Character(c) && Agree(stops)
    ensures Whole(c) && Trim(Cut(c, stops)) == []
  {
    assert WholeFrom(c, |c|);
    WholeIsPartial(c);
    OneChunk(stops, c);
    EmptyStopIndex(c, stops);
    StreamIsFirstHit(stops, [c]);
    assert Stream(stops, [c]) == Trim(ApplyStop(Flatten([c]), stops));
  }

  lemma {:induction false} OneChunk(stops: seq<Bytes>, c: Bytes)
    ensures Flatten([c]) == c && FirstHit(stops, [], [c]) == c
  {
    var none: Bytes := [];
    assert [c][1..] == [] && Flatten([c]) == c + Flatten([]) && none + c == c;
  }

  lemma {:induction false} StopFillsCharacter(stops: seq<Bytes>, c: Bytes)
    requires WholeStops(stops) && Character(c) && StopAt(c, stops, 0)
    ensures c in stops
  {
    var k :| 0 <= k < |stops| && stops[k] != [] && OccursAt(c, stops[k], 0);
    assert stops[k][0] == c[0];
    assert CharacterAt(stops[k], 0);
    assert stops[k] == c;
  }

  lemma {:induction false} StreamIsFirstHit(stops: seq<Bytes>, chunks: seq<Bytes>)
    requires WholeStops(stops) && Partial(Flatten(chunks))
    ensures Stream(stops, chunks) == Trim(Cut(FirstHit(stops, [], chunks), stops))
    ensures forall k | 0 <= k < |Released(stops, [], chunks)| :: Whole(Released(stops, [], chunks)[k])
  {
    EmptyBufferIsSafe(stops);
    var none: Bytes := [];
    assert none + none == none && none + Flatten(chunks) == Flatten(chunks);
    StreamOfValidText(stops, [], [], chunks);
    forall k | 0 <= k < |Released(stops, [], chunks)|
      ensures Whole(Released(stops, [], chunks)[k])
    {
      PiecesAreWhole(stops, [], [], chunks, k);
    }
  }

  /** An ambiguous list of stops has a text, one of its stops, that two chunks show differently. */
  lemma {:induction false} AmbiguousChunks(stops: seq<Bytes>) returns (chunks: seq<Bytes>)
    requires WholeStops(stops) && NonEmptyStops(stops) && !Unambiguous(stops)
    ensures Whole(Flatten(chunks)) && Partial(Flatten(chunks))
    ensures Stream(stops, chunks) != Trim(ApplyStop(Flatten(chunks), stops))
  {
    var k, q: nat :| 0 <= k < |stops| && q < |stops[k]|
      && FirstStop(stops[k][..q], stops).Some? && FirstStop(stops[k][..q], stops).value > 0;
    var (head, tail) := (stops[k][..q], stops[k][q..]);
    assert head + tail == stops[k];
    chunks := [head, tail];
    TwoChunks(stops, head, tail);
    WholeIsPartial(stops[k]);
    StreamOfHead(stops, head, tail);
    StopCutsToNothing(stops, k);
  }

  lemma {:induction false} TwoChunks(stops: seq<Bytes>, head: Bytes, tail: Bytes)
    ensures Flatten([head, tail]) == head + tail
    ensures FirstStop(head, stops).Some? ==> FirstHit(stops, [], [head, tail]) == head
  {
    var none: Bytes := [];
    assert [head, tail][1..] == [tail] && [tail][1..] == [];
    assert Flatten([tail]) == tail + Flatten([]) == tail;
    assert none + head == head;
  }

  /** The first chunk already completes a stop, so the stream is the text before that one. */
  lemma {:induction false} StreamOfHead(stops: seq<Bytes>, head: Bytes, tail: Bytes)
    requires WholeStops(stops) && Partial(head + tail) && FirstStop(head, stops).Some?
    ensures Stream(stops, [head, tail]) == head[..FirstStop(head, stops).value]
  {
    var v := FirstStop(head, stops).value;
    TwoChunks(stops, head, tail);
    StreamIsFirstHit(stops, [head, tail]);
    FirstStopIsFirst(head, stops);
    PartialPrefix(head, tail);
    BeforeStopIsWhole(head, stops, v);
    TrimOfWhole(head[..v]);
  }

  lemma {:induction false} StopCutsToNothing(stops: seq<Bytes>, k: nat)
    requires NonEmptyStops(stops) && k < |stops|
    ensures ApplyStop(stops[k], stops) == [] && Trim([]) == []
  {
    var s := stops[k];
    assert OccursAt(s, s, 0);
    assert StopAt(s, stops, 0);
    FirstStopIsFirst(s, stops);
    ApplyStopIsCut(s, stops);
  }

  /** On whole texts nothing is trimmed: the stream is the cut text itself. */
  lemma {:induction false} StreamOfWholeText(stops: seq<Bytes>, chunks: seq<Bytes>)
    requires WholeStops(stops) && [] !in stops && Unambiguous(stops) && Whole(Flatten(chunks))
    ensures Stream(stops, chunks) == ApplyStop(Flatten(chunks), stops)
  {
    var text := Flatten(chunks);
    WholeIsPartial(text);
    StreamingIsOneShotCut(stops);
    assert Stream(stops, chunks) == Trim(ApplyStop(text, stops));
    ApplyStopIsCut(text, stops);
    FirstStopIsFirst(text, stops);
    if FirstStop(text, stops).Some? { BeforeStopIsWhole(text, stops, FirstStop(text, stops).value); }
    TrimOfWhole(Cut(text, stops));
  }

  /** The two sides differ on an empty stop: the native search skips it, the one-shot cut cuts
      everything. */
  lemma {:induction false} EmptyStopDiffers(stops: seq<Bytes>, text: Bytes)
    requires WholeStops(stops) && [] in stops && Whole(text) && FirstStop(text, stops).None?
    ensures Stream(stops, [text]) == text
    ensures ApplyStop(text, stops) == []
  {
    assert [text][1..] == [];
    assert Flatten([text]) == text + Flatten([]) == text;
    WholeIsPartial(text);
    StreamIsFirstHit(stops, [text]);
    assert [] + text == text;
    TrimOfWhole(text);
    EmptyStopIndex(text, stops);
  }

  lemma {:induction false} EmptyStopIndex(text: Bytes, stops: seq<Bytes>)
    requires [] in stops
    ensures SmallestIndex(text, stops) == Some(0)
  {
    if stops[0] == [] {
      assert OccursAt(text, [], 0);
    } else {
      EmptyStopIndex(text, stops[1..]);
    }
  }
}

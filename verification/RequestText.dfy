/** The text of one request: what its stop buffer has shown and still holds after some pieces. */
module RequestText {

  import opened Utf8
  import opened StopBuffers
  import Proofs = StopBufferProofs

  /** After `pieces`, none of which completed a stop, `shown` is out and `held` is kept back: whatever
      comes next, the whole stream is `shown` and what the buffer will still release. */
  ghost predicate Streams(stops: seq<Bytes>, pieces: seq<Bytes>, shown: Bytes, held: Bytes) {
    forall rest :: Goes(stops, pieces, shown, held, rest)
  }

  predicate Goes(stops: seq<Bytes>, pieces: seq<Bytes>, shown: Bytes, held: Bytes, rest: seq<Bytes>) {
    Stream(stops, pieces + rest) == shown + Flatten(Released(stops, held, rest))
  }

  lemma {:induction false} StreamsAtStart(stops: seq<Bytes>)
    ensures Streams(stops, [], [], [])
  {
    forall rest ensures Goes(stops, [], [], [], rest) {
      assert [] + rest == rest;
      assert [] + Flatten(Released(stops, [], rest)) == Flatten(Released(stops, [], rest));
    }
  }

  lemma {:induction false} Regroup<T>(a: seq<T>, b: seq<T>, c: seq<T>)
    ensures a + (b + c) == a + b + c
  {
  }

  lemma {:induction false} Head<T>(x: T, rest: seq<T>)
    ensures ([x] + rest)[0] == x && ([x] + rest)[1..] == rest
  {
  }

  lemma {:induction false} StreamsOn(stops: seq<Bytes>, pieces: seq<Bytes>, shown: Bytes, held: Bytes, piece: Bytes)
    requires Streams(stops, pieces, shown, held)
    ensures var step := Feed(stops, held, piece);
      if step.stopped then Stream(stops, pieces + [piece]) == shown + step.visible
      else Streams(stops, pieces + [piece], shown + step.visible, step.held)
  {
    var step := Feed(stops, held, piece);
    if step.stopped {
      assert Goes(stops, pieces, shown, held, [piece]);
      ReleasedStep(stops, held, [piece]);
    } else {
      forall rest ensures Goes(stops, pieces + [piece], shown + step.visible, step.held, rest) {
        PieceLater(stops, pieces, shown, held, piece, rest);
      }
    }
  }

  lemma {:induction false} PieceLater(stops: seq<Bytes>, pieces: seq<Bytes>, shown: Bytes, held: Bytes,
                                      piece: Bytes, rest: seq<Bytes>)
    requires Streams(stops, pieces, shown, held) && !Feed(stops, held, piece).stopped
    ensures var step := Feed(stops, held, piece);
      Goes(stops, pieces + [piece], shown + step.visible, step.held, rest)
  {
    var step := Feed(stops, held, piece);
    assert Goes(stops, pieces, shown, held, [piece] + rest);
    Regroup(pieces, [piece], rest);
    Head(piece, rest);
    ReleasedStep(stops, held, [piece] + rest);
    Regroup(shown, step.visible, Flatten(Released(stops, step.held, rest)));
  }

  /** A request that ends without a stop shows the stream of its pieces once its tail is flushed. */
  lemma {:induction false} StreamsFlushed(stops: seq<Bytes>, pieces: seq<Bytes>, shown: Bytes, held: Bytes)
    requires Streams(stops, pieces, shown, held)
    ensures shown + Trim(held) == Stream(stops, pieces)
  {
    assert Goes(stops, pieces, shown, held, []);
    assert pieces + [] == pieces;
    var tail := Trim(held);
    assert Flatten([tail]) == tail by { assert [tail][1..] == []; }
  }

  /** What went into the buffer, what came out, and what is held back or, at the end, flushed. */
  datatype Transcript = Transcript(stops: seq<Bytes>, pieces: seq<Bytes>, shown: Bytes, held: Bytes)

  /** No stop is in the text so far, all of it is shown up to the first doubtful place, and whatever comes next,
      the stream goes on from there. */
  ghost predicate Open(t: Transcript) {
    && Streams(t.stops, t.pieces, t.shown, t.held) && t.shown + t.held == Flatten(t.pieces)
    && !HasStop(Flatten(t.pieces), t.stops) && HeldBack(Flatten(t.pieces), t.stops, |t.shown|)
  }

  /** The text of a request that no stop has ended. */
  type OpenTranscript = t: Transcript | Open(t) ghost witness NoText([])

  /** The text of a completed request: with the flushed tail, it is the stream of its pieces. */
  type EndedTranscript = t: Transcript | t.shown + t.held == Stream(t.stops, t.pieces) ghost witness NoText([])

  ghost function NoText(stops: seq<Bytes>): (t: Transcript)
    ensures t == Transcript(stops, [], [], [])
    ensures Open(t) && t.shown + t.held == Stream(t.stops, t.pieces)
  {
    StreamsAtStart(stops);
    StreamsFlushed(stops, [], [], []);
    Transcript(stops, [], [], [])
  }

  ghost function Opened(stops: seq<Bytes>): (t: OpenTranscript)
    ensures t == Transcript(stops, [], [], [])
  {
    NoText(stops)
  }

  ghost function Flushed(t: OpenTranscript): (e: EndedTranscript)
    ensures e == Transcript(t.stops, t.pieces, t.shown, Trim(t.held))
  {
    StreamsFlushed(t.stops, t.pieces, t.shown, t.held);
    Transcript(t.stops, t.pieces, t.shown, Trim(t.held))
  }

  lemma {:induction false} FlattenSum(a: seq<Bytes>, b: seq<Bytes>)
    ensures Flatten(a + b) == Flatten(a) + Flatten(b)
  {
    if a == [] {
      assert a + b == b && [] + Flatten(b) == Flatten(b);
    } else {
      FlattenSum(a[1..], b);
      assert (a + b)[1..] == a[1..] + b && (a + b)[0] == a[0];
      Regroup(a[0], Flatten(a[1..]), Flatten(b));
    }
  }

  lemma {:induction false} FlattenOneMore(pieces: seq<Bytes>, piece: Bytes)
    ensures Flatten(pieces + [piece]) == Flatten(pieces) + piece
  {
    FlattenSum(pieces, [piece]);
    assert [piece][1..] == [];
  }

  /** The buffer looks only at what it holds, and finds a stop exactly if there is one in all of the text;
      otherwise it shows all of the text up to the first doubtful place. */
  lemma {:induction false} OpenOn(t: OpenTranscript, piece: Bytes)
    ensures var (step, text) := (Feed(t.stops, t.held, piece), Flatten(t.pieces + [piece]));
      && (step.stopped <==> HasStop(text, t.stops))
      && (!step.stopped ==> Open(Transcript(t.stops, t.pieces + [piece], t.shown + step.visible, step.held)))
  {
    hide Streams, HeldBack, Feed;
    var (step, text) := (Feed(t.stops, t.held, piece), Flatten(t.pieces + [piece]));
    FlattenOneMore(t.pieces, piece);
    OpenIsSafe(t);
    StopSeenFromHeld(t, piece);
    if !step.stopped {
      StreamsOn(t.stops, t.pieces, t.shown, t.held, piece);
      Proofs.LiveStep(t.stops, t.shown, t.held, piece);
      Regroup(t.shown, step.visible, step.held);
      Regroup(t.shown, t.held, piece);
    }
  }

  lemma {:induction false} OpenIsSafe(t: OpenTranscript)
    ensures Proofs.Safe(t.stops, t.shown, t.held)
  {
    hide Streams;
    FirstStopIsFirst(Flatten(t.pieces), t.stops);
    forall p: nat | p < |t.shown| ensures !ViableAt(t.shown + t.held, t.stops, p) {
      assert t.held == [] ==> t.shown + t.held == t.shown;
      assert !Doubtful(Flatten(t.pieces), t.stops, p);
    }
  }

  lemma {:induction false} StopSeenFromHeld(t: Transcript, piece: Bytes)
    requires Proofs.Safe(t.stops, t.shown, t.held)
    ensures HasStop(t.held + piece, t.stops) <==> HasStop(t.shown + t.held + piece, t.stops)
  {
    hide Proofs.Safe, StopAt;
    var now := t.shown + t.held + piece;
    if j: nat :| StopAt(now, t.stops, j) { Proofs.StopMoves(t.stops, t.shown, t.held, piece, j); }
    if i: nat :| StopAt(t.held + piece, t.stops, i) {
      Proofs.StopMoves(t.stops, t.shown, t.held, piece, |t.shown| + i);
      assert StopAt(now, t.stops, |t.shown| + i);
    }
  }

  /** One more piece that completes no stop. */
  ghost function Grown(t: OpenTranscript, piece: Bytes): (r: OpenTranscript)
    requires !Feed(t.stops, t.held, piece).stopped
    ensures var step := Feed(t.stops, t.held, piece);
      r == Transcript(t.stops, t.pieces + [piece], t.shown + step.visible, step.held)
  {
    OpenOn(t, piece);
    var step := Feed(t.stops, t.held, piece);
    Transcript(t.stops, t.pieces + [piece], t.shown + step.visible, step.held)
  }

  /** A piece that completes a stop. */
  ghost function Stopped(t: OpenTranscript, piece: Bytes): (e: EndedTranscript)
    requires Feed(t.stops, t.held, piece).stopped
    ensures e == Transcript(t.stops, t.pieces + [piece], t.shown + Feed(t.stops, t.held, piece).visible, [])
  {
    StreamsOn(t.stops, t.pieces, t.shown, t.held, piece);
    var shown := t.shown + Feed(t.stops, t.held, piece).visible;
    assert shown + [] == shown;
    Transcript(t.stops, t.pieces + [piece], shown, [])
  }
}

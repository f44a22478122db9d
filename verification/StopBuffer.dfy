/** Streaming stop detection: `StopBuffer.append` and `finish` against the one-shot cut that the
    server applies to a finished text. */
module StopBuffers {
  import opened Common
  import opened Utf8

  // ---------------------------------------------------------------- the one-shot cut

  predicate OccursAt(text: Bytes, stop: Bytes, i: nat) {
    i + |stop| <= |text| && forall j | 0 <= j < |stop| :: text[i + j] == stop[j]
  }

  /** Position of the first occurrence of `stop` at or after `from`. */
  function IndexFrom(text: Bytes, stop: Bytes, from: nat): (r: Option<nat>)
    requires from <= |text|
    decreases |text| - from
    ensures r.Some? ==> from <= r.value <= |text|
  {
    if OccursAt(text, stop, from) then Some(from)
    else if from == |text| then None
    else IndexFrom(text, stop, from + 1)
  }

  lemma {:induction false} IndexFromIsFirst(text: Bytes, stop: Bytes, from: nat)
    requires from <= |text|
    ensures var r := IndexFrom(text, stop, from);
      && (r.Some? ==> OccursAt(text, stop, r.value))
      && (r.Some? ==> forall j: nat | from <= j < r.value :: !OccursAt(text, stop, j))
      && (r.None? ==> forall j: nat | from <= j :: !OccursAt(text, stop, j))
    decreases |text| - from
  {
    if !OccursAt(text, stop, from) && from != |text| { IndexFromIsFirst(text, stop, from + 1); }
  }

  function IndexOf(text: Bytes, stop: Bytes): Option<nat> { IndexFrom(text, stop, 0) }

  function Earlier(a: Option<nat>, b: Option<nat>): Option<nat> {
    if b.None? || (a.Some? && a.value <= b.value) then a else b
  }

  /** The smallest `indexOf` over all stops, as the one-shot cut computes it. */
  function SmallestIndex(text: Bytes, stops: seq<Bytes>): Option<nat> {
    if stops == [] then None
    else Earlier(IndexOf(text, stops[0]), SmallestIndex(text, stops[1..]))
  }

  /** The one-shot cut of a finished text. */
  function ApplyStop(text: Bytes, stops: seq<Bytes>): Bytes {
    var index := SmallestIndex(text, stops);
    if index.Some? && index.value <= |text| then text[..index.value] else text
  }

  // ---------------------------------------------------------------- native searches

  /** A non-empty stop begins at `i`. */
  ghost predicate StopAt(text: Bytes, stops: seq<Bytes>, i: nat) {
    exists k | 0 <= k < |stops| :: stops[k] != [] && OccursAt(text, stops[k], i)
  }

  ghost predicate HasStop(text: Bytes, stops: seq<Bytes>) { exists i: nat :: StopAt(text, stops, i) }

  /** `r` is the earliest position where a non-empty stop begins. */
  ghost predicate IsFirstStop(text: Bytes, stops: seq<Bytes>, r: Option<nat>) {
    && (r.Some? ==> StopAt(text, stops, r.value) && forall j: nat | j < r.value :: !StopAt(text, stops, j))
    && (r.None? ==> forall j: nat :: !StopAt(text, stops, j))
  }

  /** The native search ignores empty stops. */
  function FirstStop(text: Bytes, stops: seq<Bytes>): (r: Option<nat>)
    ensures r.Some? ==> r.value <= |text|
  {
    if stops == [] then None
    else
      var rest := FirstStop(text, stops[1..]);
      if stops[0] == [] then rest else Earlier(IndexOf(text, stops[0]), rest)
  }

  lemma {:induction false} FirstStopIsFirst(text: Bytes, stops: seq<Bytes>)
    ensures var r := FirstStop(text, stops);
      IsFirstStop(text, stops, r)
  {
    if stops != [] {
      FirstStopIsFirst(text, stops[1..]);
      IndexFromIsFirst(text, stops[0], 0);
      StopAtCons(text, stops);
    }
  }

  lemma {:induction false} FoundIfAny(text: Bytes, stops: seq<Bytes>)
    ensures FirstStop(text, stops).Some? <==> HasStop(text, stops)
  {
    FirstStopIsFirst(text, stops);
    if FirstStop(text, stops).Some? { assert StopAt(text, stops, FirstStop(text, stops).value); }
  }

  lemma {:induction false} StopAtCons(text: Bytes, stops: seq<Bytes>)
    requires stops != []
    ensures forall j: nat :: StopAt(text, stops, j) <==>
      ((stops[0] != [] && OccursAt(text, stops[0], j)) || StopAt(text, stops[1..], j))
  {
    forall j: nat
      ensures StopAt(text, stops, j) <==>
        ((stops[0] != [] && OccursAt(text, stops[0], j)) || StopAt(text, stops[1..], j))
    {
      if StopAt(text, stops, j) {
        var k :| 0 <= k < |stops| && stops[k] != [] && OccursAt(text, stops[k], j);
        if k > 0 { assert stops[1..][k - 1] == stops[k]; }
      }
      if StopAt(text, stops[1..], j) {
        var k :| 0 <= k < |stops[1..]| && stops[1..][k] != [] && OccursAt(text, stops[1..][k], j);
        assert stops[k + 1] == stops[1..][k];
      }
    }
  }

  method FindStop(text: Bytes, stops: seq<Bytes>) returns (earliest: Option<nat>)
    ensures earliest == FirstStop(text, stops)
  {
    earliest := None;
    for n := 0 to |stops|
      invariant IsFirstStop(text, stops[..n], earliest)
    {
      assert stops[..n + 1] == stops[..n] + [stops[n]];
      StopAtSnoc(text, stops[..n], stops[n]);
      if stops[n] != [] {
        var index := IndexOf(text, stops[n]);
        IndexFromIsFirst(text, stops[n], 0);
        if index.Some? && (earliest.None? || index.value < earliest.value) { earliest := index; }
      }
    }
    assert stops[..|stops|] == stops;
    FirstStopUnique(text, stops, earliest);
  }

  lemma {:induction false} StopAtSnoc(text: Bytes, stops: seq<Bytes>, last: Bytes)
    ensures forall j: nat :: StopAt(text, stops + [last], j) <==>
      (StopAt(text, stops, j) || (last != [] && OccursAt(text, last, j)))
  {
    forall j: nat
      ensures StopAt(text, stops + [last], j) <==>
        (StopAt(text, stops, j) || (last != [] && OccursAt(text, last, j)))
    {
      if StopAt(text, stops, j) {
        var k :| 0 <= k < |stops| && stops[k] != [] && OccursAt(text, stops[k], j);
        assert (stops + [last])[k] == stops[k];
      }
      assert (stops + [last])[|stops|] == last;
    }
  }

  lemma {:induction false} FirstStopUnique(text: Bytes, stops: seq<Bytes>, r: Option<nat>)
    requires IsFirstStop(text, stops, r)
    ensures r == FirstStop(text, stops)
  {
    FirstStopIsFirst(text, stops);
  }

  /** From position `p` on, `text` is a proper beginning of `stop`. */
  predicate TailBegins(text: Bytes, p: nat, stop: Bytes) {
    && p <= |text|
    && |text| - p < |stop|
    && forall j | p <= j < |text| :: text[j] == stop[j - p]
  }

  /** What follows position `p` could still grow into a stop. */
  predicate ViableAt(text: Bytes, stops: seq<Bytes>, p: nat) {
    exists k | 0 <= k < |stops| :: TailBegins(text, p, stops[k])
  }

  /** The last `n` bytes of `text` could still grow into a stop. */
  predicate CouldStop(text: Bytes, stops: seq<Bytes>, n: nat) {
    n <= |text| && ViableAt(text, stops, |text| - n)
  }

  /** The longest suffix, of length at most `n`, that could still grow into a stop. */
  function PartialStop(text: Bytes, stops: seq<Bytes>, n: nat): (r: nat)
    requires n <= |text|
    ensures r <= n
  {
    if n == 0 || CouldStop(text, stops, n) then n else PartialStop(text, stops, n - 1)
  }

  lemma {:induction false} PartialStopIsLongest(text: Bytes, stops: seq<Bytes>, n: nat)
    requires n <= |text|
    ensures var r := PartialStop(text, stops, n);
      && (r > 0 ==> CouldStop(text, stops, r))
      && forall m: nat | r < m <= n :: !CouldStop(text, stops, m)
  {
    if !(n == 0 || CouldStop(text, stops, n)) { PartialStopIsLongest(text, stops, n - 1); }
  }

  method PartialStopSuffix(text: Bytes, stops: seq<Bytes>) returns (hold: nat)
    ensures hold == PartialStop(text, stops, |text|)
  {
    var maxStop: nat := 0;
    for n := 0 to |stops|
      invariant forall k | 0 <= k < n :: |stops[k]| <= maxStop
    {
      if |stops[n]| > maxStop { maxStop := |stops[n]|; }
    }
    var length := if |text| < maxStop then |text| else maxStop;
    SkipLong(text, stops, length);
    while length > 0
      invariant 0 <= length <= |text|
      invariant PartialStop(text, stops, |text|) == PartialStop(text, stops, length)
    {
      var suffix := text[|text| - length..];
      for n := 0 to |stops|
        invariant forall k | 0 <= k < n :: !TailBegins(text, |text| - length, stops[k])
      {
        SuffixBegins(text, |text| - length, stops[n]);
        if |stops[n]| > |suffix| && stops[n][..|suffix|] == suffix { return length; }
      }
      length := length - 1;
    }
    return 0;
  }

  lemma {:induction false} SuffixBegins(text: Bytes, p: nat, stop: Bytes)
    requires p <= |text|
    ensures TailBegins(text, p, stop) <==>
      |stop| > |text[p..]| && stop[..|text[p..]|] == text[p..]
  {
    if |stop| > |text| - p && stop[..|text| - p] == text[p..] {
      assert forall j | p <= j < |text| :: text[j] == text[p..][j - p] == stop[j - p];
    }
  }

  /** Suffixes at least as long as every stop need not be looked at. */
  lemma {:induction false} SkipLong(text: Bytes, stops: seq<Bytes>, n: nat)
    requires n <= |text|
    requires n < |text| ==> forall k | 0 <= k < |stops| :: |stops[k]| <= n
    ensures PartialStop(text, stops, |text|) == PartialStop(text, stops, n)
  {
    PartialStopIsLongest(text, stops, |text|);
    PartialStopUnique(text, stops, n, PartialStop(text, stops, |text|));
  }

  lemma {:induction false} PartialStopUnique(text: Bytes, stops: seq<Bytes>, n: nat, r: nat)
    requires r <= n <= |text|
    requires r > 0 ==> CouldStop(text, stops, r)
    requires forall m: nat | r < m <= n :: !CouldStop(text, stops, m)
    ensures PartialStop(text, stops, n) == r
  {
    if n > r { PartialStopUnique(text, stops, n - 1, r); }
  }

  // ---------------------------------------------------------------- the buffer

  datatype Step = Step(visible: Bytes, stopped: bool, held: Bytes)

  /** What one `append` shows and what it keeps back, given what was held before. */
  function Feed(stops: seq<Bytes>, before: Bytes, text: Bytes): (r: Step)
    ensures r.stopped <==> HasStop(before + text, stops)
    ensures !r.stopped ==> before + text == r.visible + r.held && HeldBack(before + text, stops, |r.visible|)
    ensures r.stopped ==> r.held == []
  {
    FoundIfAny(before + text, stops);
    var held := before + text;
    var stop := FirstStop(held, stops);
    if stop.Some? then Step(Trim(held[..stop.value]), true, [])
    else
      var hold := Hold(stops, held);
      Step(held[..|held| - hold], false, held[|held| - hold..])
  }

  /** What follows position `p` is the beginning of a stop or of a character, and may go on. */
  predicate Doubtful(text: Bytes, stops: seq<Bytes>, p: nat) { ViableAt(text, stops, p) || UnfinishedAt(text, p) }

  /** All of the text is shown up to the first place where it is doubtful. */
  ghost predicate HeldBack(text: Bytes, stops: seq<Bytes>, shown: nat) {
    && shown <= |text| && (shown == |text| || Doubtful(text, stops, shown))
    && forall p: nat | p < shown && p < |text| :: !Doubtful(text, stops, p)
  }

  lemma {:induction false} HeldFromFirstDoubt(text: Bytes, stops: seq<Bytes>)
    ensures var (a, b) := (PartialStop(text, stops, |text|), IncompleteSuffix(text));
      HeldBack(text, stops, |text| - if a < b then b else a)
  {
    var (a, b) := (PartialStop(text, stops, |text|), IncompleteSuffix(text));
    PartialStopIsLongest(text, stops, |text|);
    if b > 0 { ScanFindsUnfinished(text, |text| - b); }
    forall p: nat | p < |text| - (if a < b then b else a) ensures !Doubtful(text, stops, p) {
      assert !CouldStop(text, stops, |text| - p);
      ScanFindsUnfinished(text, p);
    }
  }

  /** No more is held than what the first doubtful place needs. */
  function Hold(stops: seq<Bytes>, held: Bytes): (n: nat)
    ensures n <= |held| && HeldBack(held, stops, |held| - n)
  {
    HeldFromFirstDoubt(held, stops);
    var (a, b) := (PartialStop(held, stops, |held|), IncompleteSuffix(held));
    if a < b then b else a
  }

  class StopBuffer {
    var stops: seq<Bytes>
    var held: Bytes

    constructor (stops: seq<Bytes>)
      ensures this.stops == stops && held == []
    {
      this.stops, held := stops, [];
    }

    method Reset(newStops: seq<Bytes>)
      modifies this
      ensures stops == newStops && held == []
    {
      stops := newStops;
      held := [];
    }

    method Append(text: Bytes) returns (visible: Bytes, stopComplete: bool)
      modifies this`held
      ensures Step(visible, stopComplete, held) == Feed(stops, old(held), text)
      ensures stopComplete <==> HasStop(old(held) + text, stops)
      ensures !stopComplete ==> old(held) + text == visible + held && HeldBack(visible + held, stops, |visible|)
    {
      held := held + text;
      if stops != [] {
        assert held == old(held) + text;
        var stopIndex := FindStop(held, stops);
        if stopIndex.Some? {
          visible := held[..stopIndex.value];
          var cut := Utf8IncompleteSuffix(visible);
          visible := visible[..|visible| - cut];
          held := [];
          return visible, true;
        }
        var stopHold := PartialStopSuffix(held, stops);
        var utf8Hold := Utf8IncompleteSuffix(held);
        var hold := if stopHold < utf8Hold then utf8Hold else stopHold;
        visible := held[..|held| - hold];
        held := held[|visible|..];
        return visible, false;
      }
      var hold := Utf8IncompleteSuffix(held);
      NoStopsHoldNothing(held);
      visible := held[..|held| - hold];
      held := held[|visible|..];
      return visible, false;
    }

    method Finish() returns (visible: Bytes)
      modifies this`held
      ensures visible == Trim(old(held)) && held == []
    {
      var cut := Utf8IncompleteSuffix(held);
      visible := held[..|held| - cut];
      held := [];
    }
  }

  lemma {:induction false} NoStopsHoldNothing(text: Bytes)
    ensures PartialStop(text, [], |text|) == 0
  {
    PartialStopUnique(text, [], |text|, 0);
  }

  // ---------------------------------------------------------------- whole streams

  function Flatten(chunks: seq<Bytes>): Bytes {
    if chunks == [] then [] else chunks[0] + Flatten(chunks[1..])
  }

  /** Every piece of text released while `chunks` arrive one after the other: appends until a
      stop completes, and the tail that `finish` flushes. */
  function Released(stops: seq<Bytes>, held: Bytes, chunks: seq<Bytes>): (pieces: seq<Bytes>)
    ensures pieces != []
    decreases |chunks|
  {
    if chunks == [] then [Trim(held)]
    else
      var step := Feed(stops, held, chunks[0]);
      if step.stopped then [step.visible, []]
      else [step.visible] + Released(stops, step.held, chunks[1..])
  }

  function Stream(stops: seq<Bytes>, chunks: seq<Bytes>): Bytes {
    Flatten(Released(stops, [], chunks))
  }

  /** A request's use of its buffer: append pieces until a stop completes, then flush. */
  method RunStream(stops: seq<Bytes>, chunks: seq<Bytes>) returns (output: Bytes)
    ensures output == Stream(stops, chunks)
  {
    var buffer := new StopBuffer(stops);
    output := [];
    var n := 0;
    var stopped := false;
    while n < |chunks| && !stopped
      invariant 0 <= n <= |chunks| && buffer.stops == stops
      invariant !stopped ==> Stream(stops, chunks) == output + Flatten(Released(stops, buffer.held, chunks[n..]))
      invariant stopped ==> buffer.held == [] && Stream(stops, chunks) == output
    {
      var visible;
      ghost var rest := chunks[n..];
      ghost var before := buffer.held;
      visible, stopped := buffer.Append(chunks[n]);
      OutputAfterStep(stops, output, before, rest);
      assert rest[1..] == chunks[n + 1..];
      output := output + visible;
      n := n + 1;
    }
    if !stopped {
      OutputAtEnd(stops, output, buffer.held);
      assert chunks[n..] == [];
    }
    var tail := buffer.Finish();
    assert stopped ==> tail == [];
    output := output + tail;
  }

  lemma {:induction false} ReleasedStep(stops: seq<Bytes>, held: Bytes, chunks: seq<Bytes>)
    requires chunks != []
    ensures var step := Feed(stops, held, chunks[0]);
      Flatten(Released(stops, held, chunks)) ==
        if step.stopped then step.visible
        else step.visible + Flatten(Released(stops, step.held, chunks[1..]))
  {
    var step := Feed(stops, held, chunks[0]);
    if step.stopped {
      var pieces := [step.visible, []];
      assert pieces[1..] == [[]] && Flatten([[]]) == [] + Flatten([]) == [];
    } else {
      var rest := Released(stops, step.held, chunks[1..]);
      assert ([step.visible] + rest)[1..] == rest;
    }
  }

  lemma {:induction false} OutputAfterStep(stops: seq<Bytes>, released: Bytes, held: Bytes, chunks: seq<Bytes>)
    requires chunks != []
    ensures var step := Feed(stops, held, chunks[0]);
      released + Flatten(Released(stops, held, chunks)) ==
        if step.stopped then released + step.visible
        else (released + step.visible) + Flatten(Released(stops, step.held, chunks[1..]))
  {
    hide Feed, Released, Flatten;
    ReleasedStep(stops, held, chunks);
    var step := Feed(stops, held, chunks[0]);
    if !step.stopped {
      var rest := Flatten(Released(stops, step.held, chunks[1..]));
      assert released + (step.visible + rest) == (released + step.visible) + rest;
    }
  }

  lemma {:induction false} OutputAtEnd(stops: seq<Bytes>, released: Bytes, held: Bytes)
    ensures released + Flatten(Released(stops, held, [])) == released + Trim(held)
  {
    assert [Trim(held)][1..] == [];
    assert Flatten([Trim(held)]) == Trim(held) + Flatten([]);
  }
}

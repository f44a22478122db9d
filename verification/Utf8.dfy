/** Byte-level UTF-8 as the stop buffer sees it: which bytes lead a character, how many bytes the
    lead asks for, and how long the unfinished character at the end of a text is. The shape used
    here (a lead byte followed by the right number of continuation bytes) contains every text that
    is well-formed by section 3 of RFC 3629, so what holds for it holds for those texts. */
module Utf8 {

  type Bytes = seq<bv8>

  predicate Continuation(b: bv8) { b & 0xC0 == 0x80 }

  /** Length of the character that `lead` starts; 0 when `lead` cannot start one. */
  function Need(lead: bv8): (n: nat)
    ensures n <= 4
    ensures Continuation(lead) ==> n == 0
  {
    if lead & 0x80 == 0 then 1
    else if lead & 0xE0 == 0xC0 then 2
    else if lead & 0xF0 == 0xE0 then 3
    else if lead & 0xF8 == 0xF0 then 4
    else 0
  }

  /** A whole character starts at `i`. */
  predicate CharacterAt(s: Bytes, i: nat) {
    && i < |s|
    && 0 < Need(s[i]) <= |s| - i
    && forall j | i < j < i + Need(s[i]) :: Continuation(s[j])
  }

  /** From `i` on there is a non-empty proper beginning of one character and nothing else. */
  predicate UnfinishedAt(s: Bytes, i: nat) {
    && i < |s|
    && |s| - i < Need(s[i])
    && forall j | i < j < |s| :: Continuation(s[j])
  }

  predicate WholeFrom(s: Bytes, i: nat)
    decreases |s| - i
  {
    i == |s| || (CharacterAt(s, i) && WholeFrom(s, i + Need(s[i])))
  }

  /** Whole characters followed by at most one unfinished character. */
  predicate PartialFrom(s: Bytes, i: nat)
    decreases |s| - i
  {
    i == |s| || UnfinishedAt(s, i) || (CharacterAt(s, i) && PartialFrom(s, i + Need(s[i])))
  }

  /** What is left once every whole character from `i` on is taken away. */
  function TrailingFrom(s: Bytes, i: nat): (n: nat)
    requires i <= |s|
    ensures n <= |s| - i
    decreases |s| - i
  {
    if CharacterAt(s, i) then TrailingFrom(s, i + Need(s[i])) else |s| - i
  }

  predicate Whole(s: Bytes) { WholeFrom(s, 0) }

  predicate Partial(s: Bytes) { PartialFrom(s, 0) }

  function Trailing(s: Bytes): (n: nat) ensures n <= |s| { TrailingFrom(s, 0) }

  lemma {:induction false} WholeIsPartial(s: Bytes, i: nat := 0)
    requires WholeFrom(s, i)
    ensures i <= |s| && PartialFrom(s, i) && TrailingFrom(s, i) == 0
    decreases |s| - i
  {
    if i != |s| { WholeIsPartial(s, i + Need(s[i])); }
  }

  lemma {:induction false} CharacterShift(a: Bytes, b: Bytes, i: nat)
    ensures CharacterAt(a + b, |a| + i) == CharacterAt(b, i)
    ensures UnfinishedAt(a + b, |a| + i) == UnfinishedAt(b, i)
  {
    assert forall j | 0 <= j < |b| :: (a + b)[|a| + j] == b[j];
    assert forall j | |a| <= j < |a + b| :: (a + b)[j] == b[j - |a|];
  }

  lemma {:induction false} Shift(a: Bytes, b: Bytes, i: nat)
    requires i <= |b|
    ensures WholeFrom(a + b, |a| + i) == WholeFrom(b, i)
    ensures PartialFrom(a + b, |a| + i) == PartialFrom(b, i)
    ensures TrailingFrom(a + b, |a| + i) == TrailingFrom(b, i)
    decreases |b| - i
  {
    CharacterShift(a, b, i);
    if CharacterAt(b, i) { Shift(a, b, i + Need(b[i])); }
  }

  lemma {:induction false} CharacterInPrefix(a: Bytes, b: Bytes, i: nat)
    requires CharacterAt(a, i)
    ensures CharacterAt(a + b, i) && (a + b)[i] == a[i]
  {
    assert forall j | 0 <= j < |a| :: (a + b)[j] == a[j];
  }

  /** Splitting after whole characters changes neither side. */
  lemma {:induction false} AfterWhole(a: Bytes, b: Bytes, i: nat := 0)
    requires WholeFrom(a, i)
    ensures i <= |a|
    ensures PartialFrom(a + b, i) == Partial(b)
    ensures WholeFrom(a + b, i) == Whole(b)
    ensures TrailingFrom(a + b, i) == Trailing(b)
    decreases |a| - i
  {
    if i == |a| {
      Shift(a, b, 0);
    } else {
      CharacterInPrefix(a, b, i);
      AfterWhole(a, b, i + Need(a[i]));
    }
  }

  /** `Partial` is exactly "some continuation makes it whole". */
  lemma {:induction false} PartialIffPrefix(s: Bytes)
    ensures Partial(s) <==> exists rest :: Whole(s + rest)
  {
    if Partial(s) {
      var rest := Completion(s, 0);
    }
    if rest :| Whole(s + rest) {
      PrefixIsPartial(s, rest, 0);
    }
  }

  lemma {:induction false} Completion(s: Bytes, i: nat) returns (rest: Bytes)
    requires PartialFrom(s, i)
    ensures WholeFrom(s + rest, i)
    decreases |s| - i
  {
    if i == |s| {
      rest := [];
    } else if UnfinishedAt(s, i) {
      var filler: bv8 := 0x80;
      rest := seq(Need(s[i]) - (|s| - i), _ => filler);
      var all := s + rest;
      assert forall j | i < j < |all| :: all[j] == if j < |s| then s[j] else filler;
      assert CharacterAt(all, i);
    } else {
      rest := Completion(s, i + Need(s[i]));
      CharacterInPrefix(s, rest, i);
    }
  }

  lemma {:induction false} PrefixIsPartial(s: Bytes, rest: Bytes, i: nat)
    requires i <= |s| && WholeFrom(s + rest, i)
    ensures PartialFrom(s, i)
    decreases |s| - i
  {
    if i < |s| {
      assert forall j | 0 <= j < |s| :: (s + rest)[j] == s[j];
      if i + Need(s[i]) <= |s| {
        PrefixIsPartial(s, rest, i + Need(s[i]));
      } else {
        assert UnfinishedAt(s, i);
      }
    }
  }

  /** A byte that is not a continuation byte starts a character, so what precedes it is whole. */
  lemma {:induction false} Boundary(s: Bytes, k: nat, i: nat := 0)
    requires PartialFrom(s, i) && i <= k < |s| && !Continuation(s[k])
    ensures WholeFrom(s[..k], i)
    decreases |s| - i
  {
    if i < k {
      var n := Need(s[i]);
      assert CharacterAt(s, i) && i + n <= k;
      assert forall j | 0 <= j < k :: s[..k][j] == s[j];
      Boundary(s, k, i + n);
    }
  }

  lemma {:induction false} TrailingSplit(s: Bytes, i: nat := 0)
    requires PartialFrom(s, i)
    ensures i <= |s| && TrailingFrom(s, i) < 4
    ensures WholeFrom(s[..|s| - TrailingFrom(s, i)], i)
    ensures TrailingFrom(s, i) > 0 ==> UnfinishedAt(s, |s| - TrailingFrom(s, i))
    decreases |s| - i
  {
    if CharacterAt(s, i) {
      TrailingSplit(s, i + Need(s[i]));
      var k := |s| - TrailingFrom(s, i);
      assert forall j | 0 <= j < k :: s[..k][j] == s[j];
    }
  }

  /** How many of the last `cap` bytes, counted from the end, are continuation bytes in a row. */
  function TrailingContinuations(s: Bytes, cap: nat): (n: nat)
    ensures n <= cap && n <= |s|
  {
    if cap == 0 || s == [] || !Continuation(s[|s| - 1]) then 0
    else 1 + TrailingContinuations(s[..|s| - 1], cap - 1)
  }

  /** `n` is what the scan of at most `cap` bytes finds. */
  ghost predicate ContinuationRun(s: Bytes, cap: nat, n: nat) {
    && n <= cap && n <= |s|
    && (forall i | |s| - n <= i < |s| :: Continuation(s[i]))
    && (n < cap && n < |s| ==> !Continuation(s[|s| - 1 - n]))
  }

  lemma {:induction false} ScanMeasuresRun(s: Bytes, cap: nat, n: nat)
    ensures ContinuationRun(s, cap, n) <==> n == TrailingContinuations(s, cap)
  {
    if cap > 0 && s != [] && Continuation(s[|s| - 1]) {
      if n > 0 { ScanMeasuresRun(s[..|s| - 1], cap - 1, n - 1); }
    }
  }

  /** The native scan: look at no more than four bytes from the end. */
  function IncompleteSuffix(s: Bytes): (n: nat)
    ensures n <= |s| && n < 4
  {
    var cont := TrailingContinuations(s, 3);
    if cont >= |s| then 0
    else if cont + 1 < Need(s[|s| - 1 - cont]) then cont + 1 else 0
  }

  /** On any bytes the scan finds the unfinished character at the end, if there is one. */
  lemma {:induction false} ScanFindsUnfinished(s: Bytes, p: nat)
    requires p < |s|
    ensures UnfinishedAt(s, p) <==> IncompleteSuffix(s) == |s| - p
  {
    var cont := TrailingContinuations(s, 3);
    ScanMeasuresRun(s, 3, cont);
    if UnfinishedAt(s, p) { ScanMeasuresRun(s, 3, |s| - p - 1); }
  }

  method Utf8IncompleteSuffix(text: Bytes) returns (n: nat)
    ensures n == IncompleteSuffix(text)
    ensures Partial(text) ==> n == Trailing(text)
  {
    var size := |text|;
    var cont := 0;
    while cont < 3 && cont < size && text[size - 1 - cont] & 0xC0 == 0x80
      invariant 0 <= cont <= 3 && cont <= size
      invariant forall i | size - cont <= i < size :: Continuation(text[i])
    {
      cont := cont + 1;
    }
    ScanMeasuresRun(text, 3, cont);
    if Partial(text) { ScanFindsTrailing(text); }
    if cont >= size { return 0; }
    var lead := text[size - 1 - cont];
    var need := 0;
    if lead & 0x80 == 0 { need := 1; }
    else if lead & 0xE0 == 0xC0 { need := 2; }
    else if lead & 0xF0 == 0xE0 { need := 3; }
    else if lead & 0xF8 == 0xF0 { need := 4; }
    else { return 0; }
    var have := cont + 1;
    return if have < need then have else 0;
  }

  /** The bounded scan finds exactly the unfinished character of every prefix of a valid text. */
  lemma {:induction false} ScanFindsTrailing(s: Bytes, i: nat := 0)
    requires PartialFrom(s, i)
    ensures i <= |s| && (i < |s| || i == 0 ==> IncompleteSuffix(s) == TrailingFrom(s, i))
    decreases |s| - i
  {
    if UnfinishedAt(s, i) {
      ScanMeasuresRun(s, 3, |s| - i - 1);
    } else if i < |s| {
      var next := i + Need(s[i]);
      ScanFindsTrailing(s, next);
      if next == |s| { ScanMeasuresRun(s, 3, next - i - 1); }
    }
  }

  /** Text with the unfinished character at its end removed. */
  function Trim(s: Bytes): (r: Bytes)
    ensures r <= s && |s| - |r| < 4
  {
    s[..|s| - IncompleteSuffix(s)]
  }

  lemma {:induction false} TrimOfWhole(s: Bytes)
    requires Whole(s)
    ensures Trim(s) == s
  {
    WholeIsPartial(s);
    ScanFindsTrailing(s);
  }
}

/** The bounded cache-event log over an abstract set of text files: crash recovery, trimming,
    retention and paging. Which lines are valid records is an oracle. */
module EventLog {

  import opened Common

  function CharBytes(c: char): nat {
    if c < '\U{0080}' then 1 else if c < '\U{0800}' then 2 else if c < '\U{10000}' then 3 else 4
  }

  /** Length of a text once encoded. */
  function ByteLength(s: string): nat {
    if s == [] then 0 else ByteLength(s[..|s| - 1]) + CharBytes(s[|s| - 1])
  }

  lemma {:induction false} ByteLengthSum(a: string, b: string)
    ensures ByteLength(a + b) == ByteLength(a) + ByteLength(b)
  {
    if b == [] {
      assert a + b == a;
    } else {
      ByteLengthSum(a, b[..|b| - 1]);
      assert (a + b)[..|a + b| - 1] == a + b[..|b| - 1];
    }
  }

  lemma {:induction false} ByteLengthAtLeast(s: string)
    ensures ByteLength(s) >= |s|
  {
    if s != [] { ByteLengthAtLeast(s[..|s| - 1]); }
  }

  // ---------------------------------------------------------------- recovery

  /** Characters that end a run of `.` in the recovery pattern. */
  predicate Terminator(c: char) { c == '\n' || Separator(c) }

  predicate Separator(c: char) { c == '\r' || c == '\U{2028}' || c == '\U{2029}' }

  function RunEnd(c: string, s: nat): (e: nat)
    requires s <= |c|
    ensures s <= e <= |c|
    decreases |c| - s
  {
    if s == |c| || Terminator(c[s]) then s else RunEnd(c, s + 1)
  }

  /** The pattern, a run of `.` and then a line feed or the end, matches at `s`. */
  predicate MatchesAt(c: string, s: nat)
    requires s <= |c|
  {
    RunEnd(c, s) == |c| || c[RunEnd(c, s)] == '\n'
  }

  /** Where the next match begins when the search starts at `i`. */
  function MatchStart(c: string, i: nat): (s: nat)
    requires i <= |c|
    ensures i <= s <= |c| && MatchesAt(c, s)
    decreases |c| - i
  {
    if MatchesAt(c, i) then i else MatchStart(c, i + 1)
  }

  /** Bytes of the records accepted from `i` on. */
  function Recovered(valid: string -> bool, c: string, i: nat): nat
    requires i <= |c|
    decreases |c| - i
  {
    var s := MatchStart(c, i);
    var e := RunEnd(c, s);
    if e == |c| || !valid(c[s..e + 1]) then 0
    else ByteLength(c[s..e + 1]) + Recovered(valid, c, e + 1)
  }

  /** The next match of the pattern, as an explicit search. */
  method NextMatch(content: string, i: nat) returns (s: nat, e: nat)
    requires i <= |content|
    ensures s == MatchStart(content, i) && e == RunEnd(content, s)
  {
    s, e := i, RunEnd(content, i);
    while !(e == |content| || content[e] == '\n')
      invariant i <= s <= |content| && e == RunEnd(content, s)
      invariant MatchStart(content, i) == MatchStart(content, s)
      decreases |content| - s
    {
      s := s + 1;
      e := RunEnd(content, s);
    }
  }

  lemma {:induction false} RecoveredStep(valid: string -> bool, c: string, i: nat)
    requires i <= |c|
    ensures var s := MatchStart(c, i); var e := RunEnd(c, s);
      Recovered(valid, c, i) ==
        if e == |c| || !valid(c[s..e + 1]) then 0
        else ByteLength(c[s..e + 1]) + Recovered(valid, c, e + 1)
  {
  }

  method RecoverTail(valid: string -> bool, content: string) returns (validBytes: nat)
    ensures validBytes == Recovered(valid, content, 0)
  {
    validBytes := 0;
    var i := 0;
    while true
      invariant 0 <= i <= |content|
      invariant Recovered(valid, content, 0) == validBytes + Recovered(valid, content, i)
      decreases |content| - i
    {
      var s, e := NextMatch(content, i);
      RecoveredStep(valid, content, i);
      if e == |content| { break; }
      var line := content[s..e + 1];
      if !valid(line) { break; }
      validBytes := validBytes + ByteLength(line);
      i := e + 1;
    }
  }

  /** One complete record: a valid line with its line feed at the end and nowhere else. */
  predicate Record(valid: string -> bool, r: string) {
    r != [] && r[|r| - 1] == '\n' && valid(r) && forall j | 0 <= j < |r| - 1 :: r[j] != '\n'
  }

  predicate Records(valid: string -> bool, rs: seq<string>) {
    forall k | 0 <= k < |rs| :: Record(valid, rs[k])
  }

  function Concat(rs: seq<string>): string {
    if rs == [] then [] else rs[0] + Concat(rs[1..])
  }

  /** A line that a crash cut short. */
  predicate Torn(tail: string) { forall j | 0 <= j < |tail| :: tail[j] != '\n' }

  predicate Clean(r: string) { forall j | 0 <= j < |r| :: !Separator(r[j]) }

  lemma {:induction false} RunEndShift(p: string, c: string, s: nat)
    requires s <= |c|
    ensures RunEnd(p + c, |p| + s) == |p| + RunEnd(c, s)
    ensures MatchesAt(p + c, |p| + s) == MatchesAt(c, s)
    decreases |c| - s
  {
    if s < |c| && !Terminator(c[s]) { RunEndShift(p, c, s + 1); }
  }

  lemma {:induction false} MatchShift(p: string, c: string, i: nat)
    requires i <= |c|
    ensures MatchStart(p + c, |p| + i) == |p| + MatchStart(c, i)
    decreases |c| - i
  {
    RunEndShift(p, c, i);
    if !MatchesAt(c, i) { MatchShift(p, c, i + 1); }
  }

  lemma {:induction false} SliceShift(p: string, c: string, a: nat, b: nat)
    requires a <= b <= |c|
    ensures (p + c)[|p| + a..|p| + b] == c[a..b]
  {
  }

  /** What the search sees does not depend on what stands before it. */
  lemma {:induction false} LineShift(p: string, c: string, d: string, i: nat)
    requires d == p + c && i <= |c|
    ensures var (s, e) := (MatchStart(c, i), RunEnd(c, MatchStart(c, i)));
      && MatchStart(d, |p| + i) == |p| + s && RunEnd(d, |p| + s) == |p| + e
      && (e < |c| ==> d[|p| + s..|p| + e + 1] == c[s..e + 1])
  {
    var s := MatchStart(c, i);
    MatchShift(p, c, i);
    RunEndShift(p, c, s);
    if RunEnd(c, s) < |c| { SliceShift(p, c, s, RunEnd(c, s) + 1); }
  }

  /** The first record that recovery looks at from `i` on, and where the next one begins: nothing if the
      line is not complete or not valid. */
  function NextRecord(valid: string -> bool, c: string, i: nat): (r: Option<(string, nat)>)
    requires i <= |c|
    ensures r.Some? ==> i < r.value.1 <= |c|
  {
    var s := MatchStart(c, i);
    var e := RunEnd(c, s);
    if e == |c| || !valid(c[s..e + 1]) then None else Some((c[s..e + 1], e + 1))
  }

  lemma {:induction false} RecoveredNext(valid: string -> bool, c: string, i: nat)
    requires i <= |c|
    ensures var r := NextRecord(valid, c, i);
      Recovered(valid, c, i) == if r.None? then 0 else ByteLength(r.value.0) + Recovered(valid, c, r.value.1)
  {
    RecoveredStep(valid, c, i);
  }

  lemma {:induction false} NextShift(valid: string -> bool, p: string, c: string, d: string, i: nat)
    requires d == p + c && i <= |c|
    ensures var (r, q) := (NextRecord(valid, c, i), NextRecord(valid, d, |p| + i));
      q == if r.None? then None else Some((r.value.0, |p| + r.value.1))
  {
    LineShift(p, c, d, i);
  }

  lemma {:induction false} RecoveredShift(valid: string -> bool, p: string, c: string, d: string, i: nat)
    requires d == p + c && i <= |c|
    ensures Recovered(valid, d, |p| + i) == Recovered(valid, c, i)
    decreases |c| - i
  {
    hide NextRecord, Recovered;
    var r := NextRecord(valid, c, i);
    NextShift(valid, p, c, d, i);
    RecoveredNext(valid, c, i);
    RecoveredNext(valid, d, |p| + i);
    if r.Some? { RecoveredShift(valid, p, c, d, r.value.1); }
  }

  lemma {:induction false} RunToLineFeed(c: string, s: nat, e: nat)
    requires s <= e < |c| && c[e] == '\n' && forall j | s <= j < e :: !Terminator(c[j])
    ensures RunEnd(c, s) == e
    decreases e - s
  {
    if s < e { RunToLineFeed(c, s + 1, e); }
  }

  lemma {:induction false} RunStopsInside(c: string, s: nat, e: nat)
    requires s <= e < |c| && Terminator(c[e])
    ensures RunEnd(c, s) <= e
    ensures RunEnd(c, s) == e ==> forall j | s <= j < e :: !Terminator(c[j])
    ensures Terminator(c[RunEnd(c, s)])
    decreases e - s
  {
    if s < e && !Terminator(c[s]) { RunStopsInside(c, s + 1, e); }
  }

  /** Within a line that ends at `e`, the match starts after the last separator. */
  lemma {:induction false} MatchInLine(c: string, i: nat, e: nat)
    requires i <= e < |c| && c[e] == '\n' && forall j | i <= j < e :: c[j] != '\n'
    ensures MatchStart(c, i) <= e && RunEnd(c, MatchStart(c, i)) == e
    ensures MatchStart(c, i) == i <==> forall j | i <= j < e :: !Separator(c[j])
    decreases e - i
  {
    RunStopsInside(c, i, e);
    if forall j | i <= j < e :: !Separator(c[j]) {
      RunToLineFeed(c, i, e);
    } else {
      assert !MatchesAt(c, i);
      MatchInLine(c, i + 1, e);
    }
  }

  /** The line that recovery sees of the first record: all of it if it is clean, else a shorter end. */
  lemma {:induction false} FirstLine(valid: string -> bool, r: string, rest: string)
    requires Record(valid, r)
    ensures var s := MatchStart(r + rest, 0);
      s < |r| && RunEnd(r + rest, s) == |r| - 1 && (r + rest)[s..|r|] == r[s..]
    ensures MatchStart(r + rest, 0) == 0 <==> Clean(r)
  {
    var c, e := r + rest, |r| - 1;
    assert forall j | 0 <= j < |r| :: c[j] == r[j];
    MatchInLine(c, 0, e);
    assert c[MatchStart(c, 0)..e + 1] == r[MatchStart(c, 0)..];
    assert Clean(r) <==> forall j | 0 <= j < e :: !Separator(c[j]);
  }

  lemma {:induction false} ShorterEnd(r: string, s: nat)
    requires s < |r|
    ensures ByteLength(r[s..]) <= ByteLength(r)
    ensures s > 0 ==> ByteLength(r[s..]) < ByteLength(r)
  {
    assert r == r[..s] + r[s..];
    ByteLengthSum(r[..s], r[s..]);
    ByteLengthAtLeast(r[..s]);
  }

  lemma {:induction false} RecoverLine(valid: string -> bool, r: string, rest: string, c: string)
    requires Record(valid, r) && c == r + rest
    ensures MatchStart(c, 0) < |r|
    ensures Recovered(valid, c, 0) ==
      var line := r[MatchStart(c, 0)..]; if valid(line) then ByteLength(line) + Recovered(valid, c, |r|) else 0
  {
    FirstRecord(valid, r, rest, c);
    RecoveredNext(valid, c, 0);
  }

  lemma {:induction false} FirstRecord(valid: string -> bool, r: string, rest: string, c: string)
    requires Record(valid, r) && c == r + rest
    ensures MatchStart(c, 0) < |r|
    ensures var line := r[MatchStart(c, 0)..]; NextRecord(valid, c, 0) == if valid(line) then Some((line, |r|)) else None
  {
    FirstLine(valid, r, rest);
  }

  /** Recovery takes the first record whole, or less than it. */
  lemma {:induction false} RecoverFirst(valid: string -> bool, r: string, rest: string)
    requires Record(valid, r)
    ensures Clean(r) ==> Recovered(valid, r + rest, 0) == ByteLength(r) + Recovered(valid, rest, 0)
    ensures !Clean(r) ==> Recovered(valid, r + rest, 0) < ByteLength(r) + Recovered(valid, rest, 0)
  {
    hide Recovered, RunEnd, MatchStart, Clean;
    FirstLine(valid, r, rest);
    var s := MatchStart(r + rest, 0);
    var end := r[s..];
    assert s == 0 ==> end == r;
    var (later, all) := (Recovered(valid, r + rest, |r|), Recovered(valid, r + rest, 0));
    assert later == Recovered(valid, rest, 0) by { RecoveredShift(valid, r, rest, r + rest, 0); }
    assert all == if valid(end) then ByteLength(end) + later else 0 by { RecoverLine(valid, r, rest, r + rest); }
    ShorterEnd(r, s);
    ByteLengthAtLeast(r);
  }

  lemma {:induction false} NothingInTail(valid: string -> bool, tail: string, i: nat)
    requires Torn(tail) && i <= |tail|
    ensures Recovered(valid, tail, i) == 0
  {
    var e := RunEnd(tail, MatchStart(tail, i));
  }

  /** After a crash in mid-append, recovery keeps exactly the complete records before it, if and only
      if none of them contains a carriage return or a Unicode line or paragraph separator. */
  lemma {:induction false} RecoveryKeepsCompleteRecords(valid: string -> bool, rs: seq<string>, tail: string)
    requires Records(valid, rs) && Torn(tail)
    ensures Recovered(valid, Concat(rs) + tail, 0) <= ByteLength(Concat(rs))
    ensures Recovered(valid, Concat(rs) + tail, 0) == ByteLength(Concat(rs))
      <==> forall k | 0 <= k < |rs| :: Clean(rs[k])
  {
    if rs == [] {
      assert Concat(rs) + tail == tail;
      NothingInTail(valid, tail, 0);
    } else {
      var more := Concat(rs[1..]);
      assert Concat(rs) + tail == rs[0] + (more + tail);
      assert Records(valid, rs[1..]);
      RecoveryKeepsCompleteRecords(valid, rs[1..], tail);
      RecoverFirst(valid, rs[0], more + tail);
      ByteLengthSum(rs[0], more);
      assert (forall k | 0 <= k < |rs| :: Clean(rs[k])) <==>
        Clean(rs[0]) && forall k | 0 <= k < |rs[1..]| :: Clean(rs[1..][k]) by { CleanSplit(rs); }
    }
  }

  lemma {:induction false} CleanSplit(rs: seq<string>)
    requires rs != []
    ensures (forall k | 0 <= k < |rs| :: Clean(rs[k])) <==>
      Clean(rs[0]) && forall k | 0 <= k < |rs[1..]| :: Clean(rs[1..][k])
  {
    if Clean(rs[0]) && forall k | 0 <= k < |rs[1..]| :: Clean(rs[1..][k]) {
      forall k | 0 <= k < |rs| ensures Clean(rs[k]) {
        if k > 0 { assert rs[k] == rs[1..][k - 1]; }
      }
    }
  }

  /** Where the last run without separators before `e` begins. */
  function CleanFrom(r: string, e: nat): (s: nat)
    requires e <= |r|
    ensures s <= e
  {
    if e == 0 || Separator(r[e - 1]) then e else CleanFrom(r, e - 1)
  }

  /** What recovery sees of a record: all of it, or only what follows its last separator. */
  function Seen(r: string): (line: string)
    requires r != []
    ensures line != []
  {
    r[CleanFrom(r, |r| - 1)..]
  }

  lemma {:induction false} CleanFromMeans(r: string, e: nat, i: nat)
    requires i <= e <= |r|
    ensures CleanFrom(r, e) <= i <==> forall j | i <= j < e :: !Separator(r[j])
  {
    if !(e == 0 || Separator(r[e - 1])) {
      if i < e { CleanFromMeans(r, e - 1, i); }
    }
  }

  lemma {:induction false} CleanFromPrefix(r: string, rest: string, e: nat)
    requires e <= |r|
    ensures CleanFrom(r + rest, e) == CleanFrom(r, e)
  {
    if !(e == 0 || Separator(r[e - 1])) { CleanFromPrefix(r, rest, e - 1); }
  }

  lemma {:induction false} MatchIsCleanFrom(c: string, i: nat, e: nat)
    requires i <= e < |c| && c[e] == '\n' && forall j | i <= j < e :: c[j] != '\n'
    ensures MatchStart(c, i) == if CleanFrom(c, e) <= i then i else CleanFrom(c, e)
    decreases e - i
  {
    MatchInLine(c, i, e);
    CleanFromMeans(c, e, i);
    if CleanFrom(c, e) > i {
      assert !MatchesAt(c, i) by { RunStopsInside(c, i, e); RunEndBeforeSeparator(c, i, e); }
      MatchIsCleanFrom(c, i + 1, e);
    }
  }

  lemma {:induction false} RunEndBeforeSeparator(c: string, i: nat, e: nat)
    requires i <= e < |c| && c[e] == '\n' && forall j | i <= j < e :: c[j] != '\n'
    requires exists j :: i <= j < e && Separator(c[j])
    ensures RunEnd(c, i) < e && Separator(c[RunEnd(c, i)])
    decreases e - i
  {
    if !Terminator(c[i]) { RunEndBeforeSeparator(c, i + 1, e); }
  }

  lemma {:induction false} SeenIsMatched(valid: string -> bool, r: string, rest: string)
    requires Record(valid, r)
    ensures Seen(r) == r[CleanFrom(r, |r| - 1)..] && MatchStart(r + rest, 0) == CleanFrom(r, |r| - 1)
    ensures Clean(r) <==> Seen(r) == r
  {
    var (c, e) := (r + rest, |r| - 1);
    assert forall j | 0 <= j < |r| :: c[j] == r[j];
    MatchIsCleanFrom(c, 0, e);
    CleanFromPrefix(r, rest, e);
    CleanFromMeans(r, e, 0);
    assert Clean(r) <==> forall j | 0 <= j < e :: !Separator(r[j]);
  }

  /** What recovery counts of these records: it goes on as long as what it sees of them is valid. */
  function RecoveredOf(valid: string -> bool, rs: seq<string>): nat
    requires Records(valid, rs)
  {
    if rs == [] then 0
    else if valid(Seen(rs[0])) then ByteLength(Seen(rs[0])) + RecoveredOf(valid, rs[1..])
    else 0
  }

  /** For any records, with separators or without, and a crash in mid-append. */
  lemma {:induction false} RecoveredExactly(valid: string -> bool, rs: seq<string>, tail: string)
    requires Records(valid, rs) && Torn(tail)
    ensures Recovered(valid, Concat(rs) + tail, 0) == RecoveredOf(valid, rs)
  {
    if rs == [] {
      assert Concat(rs) + tail == tail;
      NothingInTail(valid, tail, 0);
    } else {
      var rest := Concat(rs[1..]) + tail;
      assert Concat(rs) + tail == rs[0] + rest;
      RecoveredExactly(valid, rs[1..], tail);
      RecoverSeen(valid, rs[0], rest);
    }
  }

  lemma {:induction false} RecoverSeen(valid: string -> bool, r: string, rest: string)
    requires Record(valid, r)
    ensures Recovered(valid, r + rest, 0) == if valid(Seen(r)) then ByteLength(Seen(r)) + Recovered(valid, rest, 0) else 0
  {
    hide ByteLength, MatchStart, RunEnd;
    RecoverLine(valid, r, rest, r + rest);
    SeenIsMatched(valid, r, rest);
    RecoveredShift(valid, r, rest, r + rest, 0);
  }

  /** A record with a separator whose rest is not a record, as that of a JSON object never is, takes all
      later records with it: exactly the records before it are kept. */
  lemma {:induction false} RecoveryStopsAtSeparator(valid: string -> bool, rs: seq<string>, tail: string, k: nat)
    requires Records(valid, rs) && Torn(tail) && k < |rs|
    requires (forall j | 0 <= j < k :: Clean(rs[j])) && !Clean(rs[k]) && !valid(Seen(rs[k]))
    ensures RecoveredOf(valid, rs) == ByteLength(Concat(rs[..k]))
    ensures TakeBytes(Concat(rs) + tail, RecoveredOf(valid, rs)) == Concat(rs[..k])
  {
    hide RecoveredOf, Concat, TakeBytes, Clean, Seen, ByteLength;
    CountedBefore(valid, rs, k);
    ConcatSum(rs[..k], rs[k..]);
    assert rs == rs[..k] + rs[k..];
    assert Concat(rs) + tail == Concat(rs[..k]) + (Concat(rs[k..]) + tail);
    TakeBytesOfPrefix(Concat(rs[..k]), Concat(rs[k..]) + tail);
  }

  lemma {:induction false} CountedBefore(valid: string -> bool, rs: seq<string>, k: nat)
    requires Records(valid, rs) && k < |rs|
    requires (forall j | 0 <= j < k :: Clean(rs[j])) && !valid(Seen(rs[k]))
    ensures RecoveredOf(valid, rs) == ByteLength(Concat(rs[..k]))
  {
    if k > 0 {
      CountedBefore(valid, rs[1..], k - 1);
      CountedFirst(valid, rs, k);
    }
  }

  lemma {:induction false} CountedFirst(valid: string -> bool, rs: seq<string>, k: nat)
    requires Records(valid, rs) && 0 < k <= |rs| && Clean(rs[0])
    ensures RecoveredOf(valid, rs) == ByteLength(rs[0]) + RecoveredOf(valid, rs[1..])
    ensures ByteLength(Concat(rs[..k])) == ByteLength(rs[0]) + ByteLength(Concat(rs[1..][..k - 1]))
  {
    hide Concat, ByteLength, Seen, Clean;
    SeenIsMatched(valid, rs[0], "");
    FirstOfTaken(rs, k);
    ByteLengthSum(rs[0], Concat(rs[1..][..k - 1]));
  }

  lemma {:induction false} FirstOfTaken(rs: seq<string>, k: nat)
    requires 0 < k <= |rs|
    ensures Concat(rs[..k]) == rs[0] + Concat(rs[1..][..k - 1])
  {
    var (taken, rest) := (rs[..k], rs[1..][..k - 1]);
    assert |taken[1..]| == |rest| && forall j | 0 <= j < |rest| :: taken[1..][j] == rest[j];
    assert taken[1..] == rest;
  }

  lemma {:induction false} ConcatSum(a: seq<string>, b: seq<string>)
    ensures Concat(a + b) == Concat(a) + Concat(b)
  {
    if a == [] {
      assert a + b == b;
    } else {
      assert (a + b)[1..] == a[1..] + b;
      ConcatSum(a[1..], b);
    }
  }

  /** Any record with a separator in it, whose part after the last separator is no record. JSON leaves U+2028
      as it is within a string, so `{"requestId":"a\U2028b","timestamp":1,"model":"m","schemaVersion":2,
      "source":"persisted"}` with that character is one: what follows it begins inside a string literal. Nothing
      of it is kept, and nothing that comes after it. */
  lemma {:induction false} LineSeparatorLosesRecord(valid: string -> bool, before: seq<string>, a: string, sep: char, b: string,
                                                    later: seq<string>, tail: string)
    requires Separator(sep) && Clean(b) && Torn(a) && Torn(b) && Torn(tail)
    requires valid(a + [sep] + b + "\n") && !valid(b + "\n")
    requires Records(valid, before) && Records(valid, later) && forall k | 0 <= k < |before| :: Clean(before[k])
    ensures var r := a + [sep] + b + "\n";
      && Record(valid, r) && Seen(r) == b + "\n"
      && Recovered(valid, Concat(before + [r] + later) + tail, 0) == ByteLength(Concat(before))
  {
    var r := a + [sep] + b + "\n";
    var rs := before + [r] + later;
    SeenAfterSeparator(a, sep, b);
    assert Record(valid, r);
    assert forall k | 0 <= k < |rs| ::
      rs[k] == if k < |before| then before[k] else if k == |before| then r else later[k - |before| - 1];
    assert rs[..|before|] == before;
    RecoveredExactly(valid, rs, tail);
    RecoveryStopsAtSeparator(valid, rs, tail, |before|);
  }

  lemma {:induction false} SeenAfterSeparator(a: string, sep: char, b: string)
    requires Separator(sep) && Clean(b)
    ensures var r := a + [sep] + b + "\n"; Seen(r) == b + "\n" && !Clean(r)
  {
    var r := a + [sep] + b + "\n";
    var (s, e) := (|a| + 1, |r| - 1);
    assert r[|a|] == sep && r[s..] == b + "\n";
    assert forall j | s <= j < e :: r[j] == b[j - s];
    CleanFromMeans(r, e, s);
    CleanFromMeans(r, e, |a|);
  }

  // ---------------------------------------------------------------- trimming

  /** Bytes of lines that are written back with a line feed each. */
  function LinesBytes(lines: seq<string>): nat {
    if lines == [] then 0 else ByteLength(lines[0]) + 1 + LinesBytes(lines[1..])
  }

  function JoinLines(lines: seq<string>): string {
    if lines == [] then "" else lines[0] + "\n" + JoinLines(lines[1..])
  }

  lemma {:induction false} JoinedBytes(lines: seq<string>)
    ensures ByteLength(JoinLines(lines)) == LinesBytes(lines)
  {
    if lines != [] {
      JoinedBytes(lines[1..]);
      ByteLengthSum(lines[0] + "\n", JoinLines(lines[1..]));
      ByteLengthSum(lines[0], "\n");
      assert ByteLength("\n") == ByteLength("\n"[..0]) + 1;
    }
  }

  /** `lines[k..]` is the longest suffix of `lines` that fits. */
  ghost predicate LongestFit(lines: seq<string>, k: nat, maxBytes: nat) {
    && k <= |lines|
    && LinesBytes(lines[k..]) <= maxBytes
    && forall j: nat | j < k :: LinesBytes(lines[j..]) > maxBytes
  }

  /** `after` holds the longest suffix of the lines of `before` that fits. */
  ghost predicate TrimmedTo(before: string, after: string, maxBytes: nat) {
    var lines := SplitLines(before);
    exists k: nat :: LongestFit(lines, k, maxBytes) && after == JoinLines(lines[k..])
  }

  lemma {:induction false} LongerCostsMore(lines: seq<string>, j: nat, k: nat)
    requires j <= k <= |lines|
    ensures LinesBytes(lines[j..]) >= LinesBytes(lines[k..])
    decreases k - j
  {
    if j < k {
      assert lines[j..][1..] == lines[j + 1..];
      LongerCostsMore(lines, j + 1, k);
    }
  }

  /** The non-empty lines of a text. */
  function SplitLines(text: string): seq<string> { SplitFrom(text, 0, 0) }

  function SplitFrom(text: string, start: nat, i: nat): seq<string>
    requires start <= i <= |text|
    decreases |text| - i
  {
    if i == |text| then (if start < i then [text[start..i]] else [])
    else if text[i] == '\n' then (if start < i then [text[start..i]] else []) + SplitFrom(text, i + 1, i + 1)
    else SplitFrom(text, start, i + 1)
  }

  /** The longest beginning of a text that takes at most `n` bytes. */
  function TakeBytes(s: string, n: nat): string {
    if ByteLength(s) <= n then s else TakeBytes(s[..|s| - 1], n)
  }

  lemma {:induction false} TakeBytesOfPrefix(a: string, b: string)
    ensures TakeBytes(a + b, ByteLength(a)) == a
  {
    ByteLengthSum(a, b);
    ByteLengthAtLeast(b);
    if b == [] {
      assert a + b == a;
    } else {
      assert (a + b)[..|a + b| - 1] == a + b[..|b| - 1];
      TakeBytesOfPrefix(a, b[..|b| - 1]);
    }
  }

  /** Empty, or ended by a line feed. */
  predicate LineEnded(text: string) { text == "" || text[|text| - 1] == '\n' }

  predicate EndsWith(text: string, end: string) { |end| <= |text| && text[|text| - |end|..] == end }

  lemma {:induction false} LastLineRun(c: string, start: nat, i: nat)
    requires start < |c| - 1 && start <= i < |c| && c[|c| - 1] == '\n'
    requires forall j | start <= j < |c| - 1 :: c[j] != '\n'
    ensures SplitFrom(c, start, i) == [c[start..|c| - 1]]
    decreases |c| - i
  {
    if i == |c| - 1 {
      assert SplitFrom(c, i + 1, i + 1) == [];
    } else {
      LastLineRun(c, start, i + 1);
    }
  }

  lemma {:induction false} SplitStep(c: string, start: nat, i: nat)
    requires start <= i < |c|
    ensures c[i] == '\n' ==>
      SplitFrom(c, start, i) == (if start < i then [c[start..i]] else []) + SplitFrom(c, i + 1, i + 1)
    ensures c[i] != '\n' ==> SplitFrom(c, start, i) == SplitFrom(c, start, i + 1)
  {
  }

  lemma {:induction false} LastLine(c: string, p: nat, start: nat, i: nat)
    requires p < |c| - 1 && start <= i <= p && (i == p ==> start == p) && (p > 0 ==> c[p - 1] == '\n')
    requires c[|c| - 1] == '\n' && forall j | p <= j < |c| - 1 :: c[j] != '\n'
    ensures var lines := SplitFrom(c, start, i);
      lines != [] && lines[|lines| - 1] == c[p..|c| - 1]
    decreases |c| - i
  {
    hide SplitFrom;
    SplitStep(c, start, i);
    if i == p { LastLineRun(c, p, p); }
    else if c[i] == '\n' { LastLine(c, p, i + 1, i + 1); }
    else { LastLine(c, p, start, i + 1); }
  }

  lemma {:induction false} AppendedIsLastLine(before: string, text: string)
    requires LineEnded(before) && Torn(text) && text != ""
    ensures var lines := SplitLines(before + (text + "\n"));
      lines != [] && lines[|lines| - 1] == text
  {
    var c := before + (text + "\n");
    assert forall j | |before| <= j < |c| - 1 :: c[j] == text[j - |before|];
    assert c[|before|..|c| - 1] == text;
    LastLine(c, |before|, 0, 0);
  }

  lemma {:induction false} JoinedEnd(lines: seq<string>)
    ensures LineEnded(JoinLines(lines))
    ensures lines != [] ==> EndsWith(JoinLines(lines), lines[|lines| - 1] + "\n")
  {
    if lines != [] {
      var rest := JoinLines(lines[1..]);
      JoinedEnd(lines[1..]);
      if lines[1..] != [] {
        var end := lines[|lines| - 1] + "\n";
        var all := lines[0] + "\n" + rest;
        assert all[|all| - |end|..] == rest[|rest| - |end|..];
      }
    }
  }

  /** Trimming keeps the last line if that line alone fits. */
  lemma {:induction false} TrimKeepsLast(lines: seq<string>, k: nat, maxBytes: nat)
    requires lines != [] && LongestFit(lines, k, maxBytes)
    requires ByteLength(lines[|lines| - 1]) + 1 <= maxBytes
    ensures k < |lines| && lines[k..][|lines[k..]| - 1] == lines[|lines| - 1]
  {
    var n := |lines| - 1;
    assert lines[n..] == [lines[n]] && [lines[n]][1..] == [];
    assert LinesBytes(lines[n..]) == ByteLength(lines[n]) + 1 + LinesBytes([]);
  }

  lemma {:induction false} LastLineSurvives(before: string, text: string, after: string, maxBytes: nat)
    requires LineEnded(before) && Torn(text) && text != "" && TrimmedTo(before + (text + "\n"), after, maxBytes)
    ensures LineEnded(after) && (ByteLength(text) + 1 <= maxBytes ==> EndsWith(after, text + "\n"))
  {
    var lines := SplitLines(before + (text + "\n"));
    var k: nat :| LongestFit(lines, k, maxBytes) && after == JoinLines(lines[k..]);
    JoinedEnd(lines[k..]);
    AppendedIsLastLine(before, text);
    if ByteLength(text) + 1 <= maxBytes { TrimKeepsLast(lines, k, maxBytes); }
  }

  // ---------------------------------------------------------------- recovering a file

  /** What recovery leaves of a file. */
  function Recovery(valid: string -> bool, content: string): string { TakeBytes(content, Recovered(valid, content, 0)) }

  /** Of complete records and a torn one, recovery keeps the bytes that it counts; these are all complete records, if
      they are clean. */
  ghost predicate RecoveredAs(valid: string -> bool, content: string, kept: string) {
    forall rs, tail | content == Concat(rs) + tail && Records(valid, rs) && Torn(tail) ::
      kept == TakeBytes(content, RecoveredOf(valid, rs)) && (AllClean(rs) ==> kept == Concat(rs))
  }

  predicate AllClean(rs: seq<string>) { forall k | 0 <= k < |rs| :: Clean(rs[k]) }

  lemma {:induction false} RecoveredIs(valid: string -> bool, content: string)
    ensures RecoveredAs(valid, content, Recovery(valid, content))
  {
    forall rs, tail | content == Concat(rs) + tail && Records(valid, rs) && Torn(tail)
      ensures Recovery(valid, content) == TakeBytes(content, RecoveredOf(valid, rs))
      ensures AllClean(rs) ==> Recovery(valid, content) == Concat(rs)
    {
      RecoveredExactly(valid, rs, tail);
      if AllClean(rs) {
        RecoveryKeepsCompleteRecords(valid, rs, tail);
        TakeBytesOfPrefix(Concat(rs), tail);
      }
    }
  }

  lemma {:induction false} AllBytes(content: string)
    ensures TakeBytes(content, ByteLength(content)) == content
  {
    assert content + [] == content;
    TakeBytesOfPrefix(content, []);
  }

  // ---------------------------------------------------------------- paging

  datatype Page<+T> = Page(items: seq<T>, nextCursor: Option<nat>)

  /** The events that pass the filters, newest first. */
  function Filtered<T>(events: seq<T>, keep: T -> bool): seq<T> {
    if events == [] then []
    else
      var last := |events| - 1;
      (if keep(events[last]) then [events[last]] else []) + Filtered(events[..last], keep)
  }

  /** One page, as long as asked for, from 1 to 200, unless it is the last; a cursor that does not parse counts as 0,
      so it is modelled as an integer. */
  function PageAt<T>(filtered: seq<T>, limit: int, cursor: Option<int>): (page: Page<T>)
    ensures |page.items| <= 200
    ensures page.nextCursor.Some? ==> page.items != [] && page.nextCursor.value < |filtered|
    ensures 1 <= limit ==> |page.items| <= limit
    ensures page.nextCursor.Some? ==> |page.items| == limit || (|page.items| == 1 > limit) || (|page.items| == 200 < limit)
  {
    var capped := if limit < 1 then 1 else if limit > 200 then 200 else limit;
    var offset := if cursor.None? || cursor.value < 0 then 0 else cursor.value;
    var n := |filtered|;
    var items := if offset >= n then [] else filtered[offset..if offset + capped > n then n else offset + capped];
    var next := offset + |items|;
    Page(items, if next < n then Some(next) else None)
  }

  function List<T>(events: seq<T>, keep: T -> bool, limit: int, cursor: Option<int>): Page<T> {
    PageAt(Filtered(events, keep), limit, cursor)
  }

  function Offset(cursor: Option<nat>): nat { if cursor.Some? then cursor.value else 0 }

  /** What a client collects that asks for a page and then follows every cursor it is given. */
  function CollectedFrom<T>(filtered: seq<T>, limit: int, cursor: Option<nat>): seq<T>
    decreases |filtered| - Offset(cursor)
  {
    var page := PageAt(filtered, limit, cursor);
    page.items + if page.nextCursor.None? then [] else CollectedFrom(filtered, limit, page.nextCursor)
  }

  function Collected<T>(events: seq<T>, keep: T -> bool, limit: int): seq<T> {
    CollectedFrom(Filtered(events, keep), limit, None)
  }

  lemma {:induction false} PageIsSlice<T>(filtered: seq<T>, limit: int, cursor: Option<nat>)
    requires Offset(cursor) <= |filtered|
    ensures var page := PageAt(filtered, limit, cursor);
      page.items == if page.nextCursor.Some? then filtered[Offset(cursor)..page.nextCursor.value]
        else filtered[Offset(cursor)..]
  {
  }

  lemma {:induction false} Glue<T>(s: seq<T>, i: nat, j: nat)
    requires i <= j <= |s|
    ensures s[i..j] + s[j..] == s[i..]
  {
  }

  lemma {:induction false} CollectedIsRest<T>(filtered: seq<T>, limit: int, cursor: Option<nat>)
    requires Offset(cursor) <= |filtered|
    ensures CollectedFrom(filtered, limit, cursor) == filtered[Offset(cursor)..]
    decreases |filtered| - Offset(cursor)
  {
    var page := PageAt(filtered, limit, cursor);
    PageIsSlice(filtered, limit, cursor);
    if page.nextCursor.Some? {
      CollectedIsRest(filtered, limit, page.nextCursor);
      Glue(filtered, Offset(cursor), page.nextCursor.value);
    }
  }

  lemma {:induction false} NoneFiltered<T>(keep: T -> bool)
    ensures Filtered<T>([], keep) == []
  {
  }

  lemma {:induction false} FilteredHoldsEach<T>(events: seq<T>, keep: T -> bool, e: T)
    ensures multiset(Filtered(events, keep))[e] == if keep(e) then multiset(events)[e] else 0
  {
    hide Filtered;
    if events == [] {
      NoneFiltered(keep);
    } else {
      var last := |events| - 1;
      FilteredHoldsEach(events[..last], keep, e);
      assert events == events[..last] + [events[last]];
      OneMoreFiltered(events, keep);
    }
  }

  lemma {:induction false} OneMoreFiltered<T>(events: seq<T>, keep: T -> bool)
    requires events != []
    ensures var (init, x) := (events[..|events| - 1], events[|events| - 1]);
      && multiset(events) == multiset(init) + multiset{x}
      && multiset(Filtered(events, keep)) == multiset(Filtered(init, keep)) + if keep(x) then multiset{x} else multiset{}
  {
    var (init, x) := (events[..|events| - 1], events[|events| - 1]);
    assert events == init + [x];
    var first := if keep(x) then [x] else [];
    assert Filtered(events, keep) == first + Filtered(init, keep);
  }

  /** Following the cursors over an unchanged store yields every event that passes the filters exactly
      as often as it was recorded, newest first, whatever the page limit. */
  lemma {:induction false} PagesCoverTheLog<T>(events: seq<T>, keep: T -> bool, limit: int, e: T)
    ensures Collected(events, keep, limit) == Filtered(events, keep)
    ensures multiset(Collected(events, keep, limit))[e] == if keep(e) then multiset(events)[e] else 0
  {
    CollectedIsRest(Filtered(events, keep), limit, None);
    FilteredHoldsEach(events, keep, e);
  }

  // ---------------------------------------------------------------- the store

  /** A file of the log: when it was last written, and what is in it. Rotated segments are kept oldest first. */
  datatype Segment = Segment(modified: int, content: string)

  function SegmentsBytes(segments: seq<Segment>): nat {
    if segments == [] then 0 else ByteLength(segments[0].content) + SegmentsBytes(segments[1..])
  }

  lemma {:induction false} DropOldest(files: seq<Segment>, n: nat)
    requires n < |files|
    ensures SegmentsBytes(files[n..]) == ByteLength(files[n].content) + SegmentsBytes(files[n + 1..])
  {
    assert files[n..][1..] == files[n + 1..];
  }

  lemma {:induction false} SegmentsBytesSum(a: seq<Segment>, b: seq<Segment>)
    ensures SegmentsBytes(a + b) == SegmentsBytes(a) + SegmentsBytes(b)
  {
    if a == [] {
      assert a + b == b;
    } else {
      SegmentsBytesSum(a[1..], b);
      assert (a + b)[1..] == a[1..] + b;
    }
  }

  /** The files that are not aged, in order. */
  function Younger(segments: seq<Segment>, cutoff: int): seq<Segment> {
    if segments == [] then []
    else (if segments[0].modified < cutoff then [] else [segments[0]]) + Younger(segments[1..], cutoff)
  }

  /** Exactly the files that were written before the cutoff are aged. */
  lemma {:induction false} YoungerAreKept(segments: seq<Segment>, cutoff: int, f: Segment)
    ensures multiset(Younger(segments, cutoff))[f] == if f.modified >= cutoff then multiset(segments)[f] else 0
  {
    if segments != [] {
      YoungerAreKept(segments[1..], cutoff, f);
      assert segments == [segments[0]] + segments[1..];
    }
  }

  predicate InAgeOrder(files: seq<Segment>) { forall i, j | 0 <= i < j < |files| :: files[i].modified <= files[j].modified }

  predicate NoneAged(files: seq<Segment>, cutoff: int) { forall i | 0 <= i < |files| :: files[i].modified >= cutoff }

  /** Among files in order of age, the aged ones are the first ones. */
  lemma {:induction false} AgedAreFirst(files: seq<Segment>, cutoff: int)
    requires InAgeOrder(files)
    ensures IsSuffix(Younger(files, cutoff), files)
    ensures files != [] && files[0].modified >= cutoff ==> Younger(files, cutoff) == files
  {
    if files != [] {
      var (rest, young) := (files[1..], Younger(files[1..], cutoff));
      AgedAreFirst(rest, cutoff);
      if files[0].modified >= cutoff {
        assert young == rest;
        assert [files[0]] + rest == files;
      } else {
        assert Younger(files, cutoff) == young;
        assert IsSuffix(rest, files);
        SuffixTwice(young, rest, files);
      }
    }
  }

  lemma {:induction false} NobodyIsAged(files: seq<Segment>, cutoff: int)
    requires NoneAged(files, cutoff)
    ensures Younger(files, cutoff) == files
  {
    if files != [] { NobodyIsAged(files[1..], cutoff); }
  }

  /** Only as many of the oldest files are gone as the limit required. */
  ghost predicate OldestDropped(files: seq<Segment>, currentBytes: nat, kept: seq<Segment>, maxBytes: nat) {
    && |kept| <= |files|
    && var k := |files| - |kept|;
      && kept == files[k..]
      && (forall j: nat | j < k :: SegmentsBytes(files[j..]) + currentBytes > maxBytes)
      && (kept != [] ==> SegmentsBytes(kept) + currentBytes <= maxBytes)
  }

  // ---------------------------------------------------------------- what the log holds

  predicate IsSuffix<T(==)>(a: seq<T>, b: seq<T>) { |a| <= |b| && b[|b| - |a|..] == a }

  lemma {:induction false} SuffixTwice<T>(a: seq<T>, b: seq<T>, c: seq<T>)
    requires IsSuffix(a, b) && IsSuffix(b, c)
    ensures IsSuffix(a, c)
  {
    assert c[|c| - |b|..][|b| - |a|..] == c[|c| - |a|..];
  }

  lemma {:induction false} SuffixBefore<T>(a: seq<T>, b: seq<T>, c: seq<T>)
    requires IsSuffix(a, b)
    ensures IsSuffix(a + c, b + c) && IsSuffix(c, b + c)
  {
    assert b + c == b[..|b| - |a|] + (a + c);
  }

  /** The lines of all files, in order: this is what is read. */
  function Logged(files: seq<Segment>): seq<string> {
    if files == [] then [] else SplitLines(files[0].content) + Logged(files[1..])
  }

  /** Everything that is in the files. */
  function Contents(files: seq<Segment>): string {
    if files == [] then "" else files[0].content + Contents(files[1..])
  }

  lemma {:induction false} LoggedSum(a: seq<Segment>, b: seq<Segment>)
    ensures Logged(a + b) == Logged(a) + Logged(b)
  {
    hide SplitLines;
    if a == [] {
      assert a + b == b && [] + Logged(b) == Logged(b);
    } else {
      LoggedSum(a[1..], b);
      assert (a + b)[1..] == a[1..] + b && (a + b)[0] == a[0];
      Regroup(SplitLines(a[0].content), Logged(a[1..]), Logged(b));
    }
  }

  lemma {:induction false} ContentsSum(a: seq<Segment>, b: seq<Segment>)
    ensures Contents(a + b) == Contents(a) + Contents(b)
  {
    if a == [] {
      assert a + b == b && "" + Contents(b) == Contents(b);
    } else {
      ContentsSum(a[1..], b);
      assert (a + b)[1..] == a[1..] + b && (a + b)[0] == a[0];
      Regroup(a[0].content, Contents(a[1..]), Contents(b));
    }
  }

  lemma {:induction false} Regroup<T>(a: seq<T>, b: seq<T>, c: seq<T>)
    ensures a + (b + c) == a + b + c
  {
  }

  lemma {:induction false} LoggedOne(f: Segment)
    ensures Logged([f]) == SplitLines(f.content) && Contents([f]) == f.content
  {
    assert [f][1..] == [];
  }

  lemma {:induction false} LoggedSuffix(a: seq<Segment>, b: seq<Segment>)
    requires IsSuffix(a, b)
    ensures IsSuffix(Logged(a), Logged(b))
  {
    var n := |b| - |a|;
    assert b == b[..n] + a;
    LoggedSum(b[..n], a);
  }

  predicate IsLine(line: string) { line != "" && Torn(line) }

  lemma {:induction false} SplitIntoLines(text: string, start: nat, i: nat)
    requires start <= i <= |text| && Torn(text[start..i])
    ensures forall k | 0 <= k < |SplitFrom(text, start, i)| :: IsLine(SplitFrom(text, start, i)[k])
    decreases |text| - i
  {
    if i < |text| {
      if text[i] == '\n' {
        SplitIntoLines(text, i + 1, i + 1);
      } else {
        assert text[start..i + 1] == text[start..i] + [text[i]];
        SplitIntoLines(text, start, i + 1);
      }
    }
  }

  /** Splitting goes on behind complete lines as from the start. */
  lemma {:induction false} SplitBehind(a: string, b: string, start: nat, i: nat)
    requires start <= i <= |a| && LineEnded(a) && (i == |a| ==> start == i)
    ensures SplitFrom(a + b, start, i) == SplitFrom(a, start, i) + SplitFrom(b, 0, 0)
    decreases |a| - i
  {
    if i == |a| {
      SplitShift(a, b, 0, 0);
      assert SplitFrom(a, i, i) == [];
    } else {
      assert (a + b)[i] == a[i] && (a + b)[start..i] == a[start..i];
      if a[i] == '\n' { SplitBehind(a, b, i + 1, i + 1); } else { SplitBehind(a, b, start, i + 1); }
    }
  }

  lemma {:induction false} SplitShift(a: string, b: string, start: nat, i: nat)
    requires start <= i <= |b|
    ensures SplitFrom(a + b, |a| + start, |a| + i) == SplitFrom(b, start, i)
    decreases |b| - i
  {
    assert (a + b)[|a| + start..|a| + i] == b[start..i];
    if i < |b| {
      if b[i] == '\n' { SplitShift(a, b, i + 1, i + 1); } else { SplitShift(a, b, start, i + 1); }
    }
  }

  lemma {:induction false} SplitSum(a: string, b: string)
    requires LineEnded(a)
    ensures SplitLines(a + b) == SplitLines(a) + SplitLines(b)
  {
    SplitBehind(a, b, 0, 0);
  }

  lemma {:induction false} SplitOne(line: string)
    requires IsLine(line)
    ensures SplitLines(line + "\n") == [line] && SplitLines(line) == [line]
  {
    LastLineRun(line + "\n", 0, 0);
    assert (line + "\n")[..|line|] == line;
    OpenLineRun(line, 0);
  }

  lemma {:induction false} OpenLineRun(line: string, i: nat)
    requires i <= |line| && IsLine(line)
    ensures SplitFrom(line, 0, i) == [line]
    decreases |line| - i
  {
    if i < |line| { OpenLineRun(line, i + 1); } else { assert line[0..i] == line; }
  }

  /** Lines that are joined are split into the same lines again. */
  lemma {:induction false} SplitJoined(lines: seq<string>)
    requires forall k | 0 <= k < |lines| :: IsLine(lines[k])
    ensures SplitLines(JoinLines(lines)) == lines
  {
    if lines != [] {
      SplitJoined(lines[1..]);
      SplitOne(lines[0]);
      SplitSum(lines[0] + "\n", JoinLines(lines[1..]));
    }
  }

  /** What is left after trimming are the last ones of the lines there were. */
  lemma {:induction false} TrimmedIsSuffix(before: string, after: string, maxBytes: nat)
    requires TrimmedTo(before, after, maxBytes)
    ensures IsSuffix(SplitLines(after), SplitLines(before))
  {
    var lines := SplitLines(before);
    var k: nat :| LongestFit(lines, k, maxBytes) && after == JoinLines(lines[k..]);
    SplitIntoLines(before, 0, 0);
    SplitJoined(lines[k..]);
  }

  /** Retention: aged files go, then the oldest files as far as needed, then the first lines of the current one. */
  ghost predicate Retained(rotated: seq<Segment>, current: Segment, rotated': seq<Segment>, current': Segment,
                           cutoff: int, maxBytes: nat) {
    && OldestDropped(Younger(rotated, cutoff), ByteLength(current.content), rotated', maxBytes)
    && (rotated' != [] || ByteLength(current.content) <= maxBytes ==> current' == current)
    && (current' != current ==> TrimmedTo(current.content, current'.content, maxBytes))
  }

  /** Whatever retention leaves is a suffix of what the files hold that are not aged. */
  lemma {:induction false} RetainedIsSuffix(rotated: seq<Segment>, current: Segment, rotated': seq<Segment>, current': Segment,
                                            cutoff: int, maxBytes: nat)
    requires Retained(rotated, current, rotated', current', cutoff, maxBytes)
    ensures IsSuffix(Logged(rotated' + [current']), Logged(Younger(rotated, cutoff) + [current]))
    ensures NoneAged(rotated, cutoff) && SegmentsBytes(rotated) + ByteLength(current.content) <= maxBytes ==>
      rotated' == rotated && current' == current
  {
    var young := Younger(rotated, cutoff);
    LoggedSum(rotated', [current']);
    LoggedSum(young, [current]);
    LoggedOne(current);
    LoggedOne(current');
    LoggedSuffix(rotated', young);
    if current' == current {
      SuffixBefore(Logged(rotated'), Logged(young), SplitLines(current.content));
    } else {
      TrimmedIsSuffix(current.content, current'.content, maxBytes);
      SuffixBefore([], Logged(young), SplitLines(current.content));
      assert Logged(rotated' + [current']) == SplitLines(current'.content);
      SuffixTwice(Logged(rotated' + [current']), SplitLines(current.content), Logged(young + [current]));
    }
    if NoneAged(rotated, cutoff) && SegmentsBytes(rotated) + ByteLength(current.content) <= maxBytes {
      NobodyIsAged(rotated, cutoff);
      assert young[0..] == young;
    }
  }

  function FilesOf(rotated: seq<Segment>, current: Option<Segment>): seq<Segment> {
    rotated + if current.Some? then [current.value] else []
  }

  /** The files once a line is written: it goes to the end of the current file, unless that would grow too long and
      becomes the youngest segment instead. */
  function Written(rotated: seq<Segment>, current: Option<Segment>, line: string, segmentBytes: nat, now: int):
      (seq<Segment>, Segment)
  {
    match current
    case None => (rotated, Segment(now, line))
    case Some(f) =>
      if f.content != "" && ByteLength(f.content) + ByteLength(line) > segmentBytes then (rotated + [f], Segment(now, line))
      else (rotated, Segment(now, f.content + line))
  }

  predicate NotAfter(files: seq<Segment>, now: int) { forall i | 0 <= i < |files| :: files[i].modified <= now }

  lemma {:induction false} SplitTogether(rotated: seq<Segment>, current: Segment)
    ensures Logged(rotated + [current]) == Logged(rotated) + SplitLines(current.content)
    ensures Contents(rotated + [current]) == Contents(rotated) + current.content
    ensures SegmentsBytes(rotated + [current]) == SegmentsBytes(rotated) + ByteLength(current.content)
  {
    LoggedSum(rotated, [current]);
    ContentsSum(rotated, [current]);
    SegmentsBytesSum(rotated, [current]);
    LoggedOne(current);
  }

  /** Writing a line adds it at the end of the log, and nothing else happens to it. */
  lemma {:induction false} WrittenAppends(rotated: seq<Segment>, current: Option<Segment>, text: string, segmentBytes: nat,
                                          now: int)
    requires IsLine(text) && (current.Some? ==> LineEnded(current.value.content))
    ensures var (files, line) := (FilesOf(rotated, current), text + "\n");
      var (r, c) := Written(rotated, current, line, segmentBytes, now);
      && Logged(r + [c]) == Logged(files) + [text] && Contents(r + [c]) == Contents(files) + line
      && SegmentsBytes(r + [c]) == SegmentsBytes(files) + ByteLength(line)
  {
    hide SplitLines, LineEnded;
    var (files, line) := (FilesOf(rotated, current), text + "\n");
    var (r, c) := Written(rotated, current, line, segmentBytes, now);
    SplitOne(text);
    SplitTogether(r, c);
    if current.None? {
      assert files == rotated;
    } else {
      var content := current.value.content;
      SplitTogether(rotated, current.value);
      if r == rotated {
        SplitSum(content, line);
        ByteLengthSum(content, line);
        Regroup(Logged(rotated), SplitLines(content), [text]);
        Regroup(Contents(rotated), content, line);
      }
    }
  }

  lemma {:induction false} WrittenInOrder(rotated: seq<Segment>, current: Option<Segment>, line: string, segmentBytes: nat,
                                          now: int)
    requires InAgeOrder(FilesOf(rotated, current))
    ensures var (r, c) := Written(rotated, current, line, segmentBytes, now);
      InAgeOrder(r) && (NotAfter(FilesOf(rotated, current), now) ==> InAgeOrder(r + [c]))
  {
    var files := FilesOf(rotated, current);
    assert forall i | 0 <= i < |rotated| :: files[i] == rotated[i];
  }

  lemma {:induction false} SumOfFiles(rotated: seq<Segment>, current: Option<Segment>)
    ensures SegmentsBytes(FilesOf(rotated, current))
      == SegmentsBytes(rotated) + if current.Some? then ByteLength(current.value.content) else 0
  {
    if current.Some? { SplitTogether(rotated, current.value); } else { assert rotated + [] == rotated; }
  }

  /** What an append leaves of the log. */
  lemma {:induction false} AppendKeeps(rotated: seq<Segment>, current: Option<Segment>, rotated': seq<Segment>, current': Segment,
                                       text: string, segmentBytes: nat, now: int, cutoff: int, maxBytes: nat)
    requires IsLine(text) && (current.Some? ==> LineEnded(current.value.content))
    requires var (r, c) := Written(rotated, current, text + "\n", segmentBytes, now);
      && Retained(r, c, rotated', current', cutoff, maxBytes) && (current' == c || current'.modified == now)
    ensures var (files, files') := (FilesOf(rotated, current), rotated' + [current']);
      var (r, c) := Written(rotated, current, text + "\n", segmentBytes, now);
      && current'.modified == now && IsSuffix(Logged(files'), Logged(Younger(r, cutoff) + [c]))
      && (NoneAged(r, cutoff) && SegmentsBytes(files) + ByteLength(text) + 1 <= maxBytes ==>
        Logged(files') == Logged(files) + [text] && Contents(files') == Contents(files) + (text + "\n"))
      && (InAgeOrder(files) ==> IsSuffix(Logged(files'), Logged(files) + [text]))
      && (InAgeOrder(files) && NotAfter(files, now) ==> InAgeOrder(files'))
    ensures LineEnded(current'.content) && (ByteLength(text) + 1 <= maxBytes ==> EndsWith(current'.content, text + "\n"))
    ensures ByteLength(current'.content) <= segmentBytes || ByteLength(current'.content) <= ByteLength(text) + 1
  {
    hide SplitLines, LineEnded, EndsWith, TrimmedTo, NoneAged, InAgeOrder, NotAfter, IsSuffix, Logged, Contents, Younger, Retained;
    var (files, files', line) := (FilesOf(rotated, current), rotated' + [current'], text + "\n");
    var (r, c) := Written(rotated, current, line, segmentBytes, now);
    LineBytes(text);
    WrittenAppends(rotated, current, text, segmentBytes, now);
    SplitTogether(r, c);
    RetainedIsSuffix(r, c, rotated', current', cutoff, maxBytes);
    RetainedLastLine(rotated, current, rotated', current', text, segmentBytes, now, cutoff, maxBytes);
    if InAgeOrder(files) {
      WrittenInOrder(rotated, current, line, segmentBytes, now);
      RetainedInOrder(r, c, rotated', current', cutoff, maxBytes);
      SuffixTwice(Logged(files'), Logged(Younger(r, cutoff) + [c]), Logged(r + [c]));
    }
  }

  lemma {:induction false} LineBytes(text: string)
    ensures ByteLength(text + "\n") == ByteLength(text) + 1
  {
    assert (text + "\n")[..|text|] == text;
  }

  lemma {:induction false} RetainedInOrder(r: seq<Segment>, c: Segment, rotated': seq<Segment>, current': Segment,
                                           cutoff: int, maxBytes: nat)
    requires Retained(r, c, rotated', current', cutoff, maxBytes) && current'.modified == c.modified
    requires InAgeOrder(r)
    ensures IsSuffix(Logged(Younger(r, cutoff) + [c]), Logged(r + [c]))
    ensures InAgeOrder(r + [c]) ==> InAgeOrder(rotated' + [current'])
  {
    hide Logged, TrimmedTo, Younger, InAgeOrder, IsSuffix;
    AgedAreFirst(r, cutoff);
    SuffixBefore(Younger(r, cutoff), r, [c]);
    LoggedSuffix(Younger(r, cutoff) + [c], r + [c]);
    assert IsSuffix(rotated', Younger(r, cutoff)) by { DroppedIsSuffix(r, c, rotated', current', cutoff, maxBytes); }
    SuffixTwice(rotated', Younger(r, cutoff), r);
    if InAgeOrder(r + [c]) { SuffixInOrder(rotated', r, current', c); }
  }

  lemma {:induction false} DroppedIsSuffix(r: seq<Segment>, c: Segment, rotated': seq<Segment>, current': Segment,
                                           cutoff: int, maxBytes: nat)
    requires Retained(r, c, rotated', current', cutoff, maxBytes)
    ensures IsSuffix(rotated', Younger(r, cutoff))
  {
  }

  lemma {:induction false} SuffixInOrder(a: seq<Segment>, b: seq<Segment>, x: Segment, y: Segment)
    requires IsSuffix(a, b) && InAgeOrder(b + [y]) && x.modified == y.modified
    ensures InAgeOrder(a + [x])
  {
    var (n, longer) := (|b| - |a|, b + [y]);
    assert forall i | 0 <= i < |a| :: a[i] == b[n + i];
    forall i, j | 0 <= i < j < |a + [x]| ensures (a + [x])[i].modified <= (a + [x])[j].modified {
      assert longer[n + i].modified <= longer[n + j].modified;
    }
  }

  lemma {:induction false} RetainedLastLine(rotated: seq<Segment>, current: Option<Segment>, rotated': seq<Segment>, current': Segment,
                                            text: string, segmentBytes: nat, now: int, cutoff: int, maxBytes: nat)
    requires IsLine(text) && (current.Some? ==> LineEnded(current.value.content))
    requires var (r, c) := Written(rotated, current, text + "\n", segmentBytes, now);
      Retained(r, c, rotated', current', cutoff, maxBytes)
    ensures LineEnded(current'.content) && (ByteLength(text) + 1 <= maxBytes ==> EndsWith(current'.content, text + "\n"))
    ensures ByteLength(current'.content) <= segmentBytes || ByteLength(current'.content) <= ByteLength(text) + 1
  {
    hide TrimmedTo, OldestDropped, Younger;
    var (r, c) := Written(rotated, current, text + "\n", segmentBytes, now);
    var before := if r == rotated && current.Some? then current.value.content else "";
    assert c.content == before + (text + "\n");
    LineBytes(text);
    ByteLengthSum(before, text + "\n");
    if current' != c {
      LastLineSurvives(before, text, current'.content, maxBytes);
      TrimmedIsShorter(c.content, current'.content, maxBytes);
    }
  }

  lemma {:induction false} TrimmedIsShorter(before: string, after: string, maxBytes: nat)
    requires TrimmedTo(before, after, maxBytes)
    ensures ByteLength(after) <= maxBytes
  {
    var lines := SplitLines(before);
    var k: nat :| LongestFit(lines, k, maxBytes) && after == JoinLines(lines[k..]);
    JoinedBytes(lines[k..]);
  }

  class CacheEventStore {
    const maxBytes: nat
    const maxAgeMs: nat
    const segmentBytes: nat
    var rotated: seq<Segment>
    var current: Option<Segment>

    constructor (maxBytes: nat, maxAgeMs: nat, segmentBytes: nat, rotated: seq<Segment>, current: Option<Segment>)
      ensures this.rotated == rotated && this.current == current
      ensures this.maxBytes == maxBytes && this.maxAgeMs == maxAgeMs && this.segmentBytes == segmentBytes
    {
      this.maxBytes, this.maxAgeMs, this.segmentBytes := maxBytes, maxAgeMs, segmentBytes;
      this.rotated, this.current := rotated, current;
    }

    function CurrentBytes(): nat
      reads this`current
    {
      if current.Some? then ByteLength(current.value.content) else 0
    }

    function Files(): seq<Segment>
      reads this`current, this`rotated
    {
      FilesOf(rotated, current)
    }

    function TotalBytes(): nat
      reads this`current, this`rotated
    {
      SegmentsBytes(rotated) + CurrentBytes()
    }

    /** Cuts the current file back to the records that recovery accepts. */
    method RecoverCurrentTail(valid: string -> bool, now: int)
      modifies this`current
      ensures current.Some? == old(current).Some? && (current == old(current) || current.value.modified == now)
      ensures current.Some? ==>
        && current.value.content == Recovery(valid, old(current).value.content)
        && RecoveredAs(valid, old(current).value.content, current.value.content)
    {
      if current.None? { return; }
      var content := current.value.content;
      var validBytes := RecoverTail(valid, content);
      RecoveredIs(valid, content);
      AllBytes(content);
      if validBytes != ByteLength(content) { current := Some(Segment(now, TakeBytes(content, validBytes))); }
    }

    /** Keeps the longest suffix of lines that fits. */
    method TrimCurrentToBytes(now: int)
      requires current.Some?
      modifies this`current
      ensures current.Some? && CurrentBytes() <= maxBytes && current.value.modified == now
      ensures TrimmedTo(old(current).value.content, current.value.content, maxBytes)
    {
      var lines := SplitLines(current.value.content);
      var kept: seq<string> := [];
      var size := 0;
      var index := |lines|;
      while index > 0
        invariant 0 <= index <= |lines|
        invariant kept == lines[index..] && size == LinesBytes(kept) <= maxBytes
      {
        var bytes := ByteLength(lines[index - 1]) + 1;
        assert lines[index - 1..] == [lines[index - 1]] + kept;
        assert ([lines[index - 1]] + kept)[1..] == kept;
        if size + bytes > maxBytes { break; }
        kept := [lines[index - 1]] + kept;
        size := size + bytes;
        index := index - 1;
      }
      forall j: nat | j < index ensures LinesBytes(lines[j..]) > maxBytes {
        LongerCostsMore(lines, j, index - 1);
      }
      assert LongestFit(lines, index, maxBytes);
      JoinedBytes(kept);
      current := Some(Segment(now, JoinLines(kept)));
    }

    /** Drops the oldest files until the rest fits beside the current one. */
    method DropOld(files: seq<Segment>, currentBytes: nat) returns (kept: seq<Segment>)
      ensures OldestDropped(files, currentBytes, kept, maxBytes)
    {
      var total := SegmentsBytes(files) + currentBytes;
      var n: nat := 0;
      while n < |files| && total > maxBytes
        invariant n <= |files| && total == SegmentsBytes(files[n..]) + currentBytes
        invariant forall j: nat | j < n :: SegmentsBytes(files[j..]) + currentBytes > maxBytes
      {
        DropOldest(files, n);
        total := total - ByteLength(files[n].content);
        n := n + 1;
      }
      kept := files[n..];
    }

    /** Drops aged segments, then the oldest ones until the rest fits, then old lines of the current
        file. */
    method EnforceRetention(now: int)
      modifies this`rotated, this`current
      ensures TotalBytes() <= maxBytes && (old(current).None? ==> current.None?)
      ensures NoneAged(rotated, now - maxAgeMs)
      ensures OldestDropped(Younger(old(rotated), now - maxAgeMs), old(CurrentBytes()), rotated, maxBytes)
      ensures old(current).Some? ==>
        && current.Some?
        && Retained(old(rotated), old(current).value, rotated, current.value, now - maxAgeMs, maxBytes)
      ensures current == old(current) || current.value.modified == now
    {
      var young := Younger(rotated, now - maxAgeMs);
      forall f | f in young ensures f.modified >= now - maxAgeMs { YoungerAreKept(rotated, now - maxAgeMs, f); }
      rotated := DropOld(young, CurrentBytes());
      if SegmentsBytes(rotated) + CurrentBytes() > maxBytes && current.Some? { TrimCurrentToBytes(now); }
    }

    /** Appends one record, rotating the current file first if it would grow too long. What is read afterwards are
        the last ones of the records that were there before, and the new one; all of them, if no segment is aged and
        all of it fits. The record just written survives retention unless it alone is over the limit. */
    method Append(text: string, now: int)
      requires Torn(text) && text != "" && (current.Some? ==> LineEnded(current.value.content))
      modifies this`rotated, this`current
      ensures TotalBytes() <= maxBytes && NoneAged(rotated, now - maxAgeMs)
      ensures current.Some? && LineEnded(current.value.content) && current.value.modified == now
      ensures ByteLength(text) + 1 <= maxBytes ==> EndsWith(current.value.content, text + "\n")
      ensures CurrentBytes() <= segmentBytes || CurrentBytes() <= ByteLength(text) + 1
      ensures var (r, c) := Written(old(rotated), old(current), text + "\n", segmentBytes, now);
        && Retained(r, c, rotated, current.value, now - maxAgeMs, maxBytes)
        && IsSuffix(Logged(Files()), Logged(Younger(r, now - maxAgeMs) + [c]))
        && (NoneAged(r, now - maxAgeMs) && old(TotalBytes()) + ByteLength(text) + 1 <= maxBytes ==>
          && Logged(Files()) == old(Logged(Files())) + [text]
          && Contents(Files()) == old(Contents(Files())) + (text + "\n"))
      ensures InAgeOrder(old(Files())) ==> IsSuffix(Logged(Files()), old(Logged(Files())) + [text])
      ensures InAgeOrder(old(Files())) && NotAfter(old(Files()), now) ==> InAgeOrder(Files())
    {
      hide Retained, Written, SplitLines, LineEnded, EndsWith, TrimmedTo, OldestDropped, NoneAged, InAgeOrder, NotAfter, IsSuffix,
        Logged, Contents, Younger, SegmentsBytes, ByteLength;
      SumOfFiles(rotated, current);
      Write(text + "\n", now);
      EnforceRetention(now);
      AppendKeeps(old(rotated), old(current), rotated, current.value, text, segmentBytes, now, now - maxAgeMs, maxBytes);
    }

    /** The line goes to the end of the current file, which is rotated first if it would grow too long. */
    method Write(line: string, now: int)
      modifies this`rotated, this`current
      ensures current.Some? && (rotated, current.value) == Written(old(rotated), old(current), line, segmentBytes, now)
    {
      if current.Some? && CurrentBytes() + ByteLength(line) > segmentBytes { RotateCurrent(); }
      var before := if current.Some? then current.value.content else "";
      assert before == "" ==> before + line == line;
      current := Some(Segment(now, before + line));
    }

    method RotateCurrent()
      modifies this`rotated, this`current
      ensures old(current).None? || old(current).value.content == "" ==> rotated == old(rotated) && current == old(current)
      ensures old(current).Some? && old(current).value.content != "" ==>
        current.None? && rotated == old(rotated) + [old(current).value]
    {
      if current.None? || current.value.content == "" { return; }
      rotated := rotated + [current.value];
      current := None;
    }
  }
}

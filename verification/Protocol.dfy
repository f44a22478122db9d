/** The worker's protocol writer: numbered events per request, and nothing after a terminal one. */
module Protocol {

  import opened Common
  import opened Utf8

  /** Request ids are strings in the worker; here only their identity counts, and that one is empty. */
  type Id = nat

  const NO_ID: Id := 0

  datatype Kind =
    | Accepted
    | Started
    | Text(text: Bytes)
    | Progress
    | Completed(content: Option<Bytes>)
    | Failed

  datatype Line = Line(id: Id, kind: Kind, sequence: nat)

  predicate Terminal(k: Kind) { k.Completed? || k.Failed? }

  /** The events of one request, in order. */
  function LinesOf(output: seq<Line>, id: Id): seq<Line> {
    if output == [] then []
    else
      var last := output[|output| - 1];
      LinesOf(output[..|output| - 1], id) + if last.id == id then [last] else []
  }

  lemma {:induction false} LinesOfOneMore(output: seq<Line>, l: Line, id: Id)
    ensures LinesOf(output + [l], id) == LinesOf(output, id) + if l.id == id then [l] else []
  {
    assert (output + [l])[..|output|] == output;
  }

  /** All the text that was sent for a request. */
  function TextOf(lines: seq<Line>): Bytes {
    if lines == [] then []
    else
      var k := lines[|lines| - 1].kind;
      TextOf(lines[..|lines| - 1]) + if k.Text? then k.text else []
  }

  lemma {:induction false} TextOfOneMore(lines: seq<Line>, l: Line)
    ensures TextOf(lines + [l]) == TextOf(lines) + if l.kind.Text? then l.kind.text else []
  {
    assert (lines + [l])[..|lines|] == lines;
  }

  predicate Ended(lines: seq<Line>) { lines != [] && Terminal(lines[|lines| - 1].kind) }

  /** `accepted` first, numbers 0, 1, 2, ..., at most one terminal event and nothing after it; and a
      completion that carries content carries all the text that was sent. */
  predicate WellFormed(lines: seq<Line>) {
    && (lines != [] ==> lines[0].kind.Accepted?)
    && (forall k | 0 <= k < |lines| :: lines[k].sequence == k)
    && (forall k | 0 <= k < |lines| - 1 :: !Terminal(lines[k].kind))
    && (Ended(lines) ==>
      var end := lines[|lines| - 1].kind;
      end.Completed? && end.content.Some? ==> end.content.value == TextOf(lines))
  }

  /** An event that may follow these. */
  predicate MayFollow(lines: seq<Line>, kind: Kind) {
    && !Ended(lines) && (kind.Accepted? <==> lines == [])
    && (kind.Completed? && kind.content.Some? ==> kind.content.value == TextOf(lines))
  }

  lemma {:induction false} OneMoreEvent(lines: seq<Line>, l: Line)
    requires WellFormed(lines) && MayFollow(lines, l.kind) && l.sequence == |lines|
    ensures WellFormed(lines + [l]) && Ended(lines + [l]) == Terminal(l.kind)
  {
    TextOfOneMore(lines, l);
  }

  /** What the writer knows of a request agrees with what it has written. */
  predicate Agrees(output: seq<Line>, sequences: map<Id, nat>, terminals: set<Id>, id: Id) {
    var lines := LinesOf(output, id);
    && WellFormed(lines)
    && (id in sequences <==> lines != []) && (id in sequences ==> sequences[id] == |lines|)
    && (id in terminals <==> Ended(lines))
  }

  lemma {:induction false} AgreesMeans(output: seq<Line>, sequences: map<Id, nat>, terminals: set<Id>, id: Id)
    requires AllAgree(output, sequences, terminals)
    ensures (id in sequences <==> LinesOf(output, id) != []) && (id in terminals <==> Ended(LinesOf(output, id)))
  {
    assert Agrees(output, sequences, terminals, id);
  }

  lemma {:induction false} AgreesAfter(output: seq<Line>, sequences: map<Id, nat>, terminals: set<Id>, l: Line, id: Id)
    requires Agrees(output, sequences, terminals, id)
    requires l.id == id ==> MayFollow(LinesOf(output, id), l.kind) && l.sequence == |LinesOf(output, id)|
    ensures LinesOf(output + [l], id) == if l.id == id then LinesOf(output, id) + [l] else LinesOf(output, id)
    ensures Agrees(output + [l], sequences[l.id := l.sequence + 1], if Terminal(l.kind) then terminals + {l.id} else terminals, id)
  {
    hide WellFormed, TextOf;
    LinesOfOneMore(output, l, id);
    if l.id == id { OneMoreEvent(LinesOf(output, id), l); }
  }

  ghost predicate AllAgree(output: seq<Line>, sequences: map<Id, nat>, terminals: set<Id>) {
    forall id :: Agrees(output, sequences, terminals, id)
  }

  ghost predicate OthersSame(before: seq<Line>, after: seq<Line>, id: Id) {
    forall other | other != id :: LinesOf(after, other) == LinesOf(before, other)
  }

  lemma {:induction false} AllAgreeAfter(output: seq<Line>, sequences: map<Id, nat>, terminals: set<Id>, l: Line)
    requires AllAgree(output, sequences, terminals)
    requires MayFollow(LinesOf(output, l.id), l.kind) && l.sequence == |LinesOf(output, l.id)|
    ensures LinesOf(output + [l], l.id) == LinesOf(output, l.id) + [l] && OthersSame(output, output + [l], l.id)
    ensures AllAgree(output + [l], sequences[l.id := l.sequence + 1], if Terminal(l.kind) then terminals + {l.id} else terminals)
  {
    AgreesAfter(output, sequences, terminals, l, l.id);
    forall other
      ensures Agrees(output + [l], sequences[l.id := l.sequence + 1], if Terminal(l.kind) then terminals + {l.id} else terminals, other)
      ensures other != l.id ==> LinesOf(output + [l], other) == LinesOf(output, other)
    {
      AgreesAfter(output, sequences, terminals, l, other);
    }
  }

  class ProtocolWriter {
    var sequences: map<Id, nat>
    var terminals: set<Id>
    ghost var output: seq<Line>

    constructor ()
      ensures Valid() && output == [] && sequences == map[]
    {
      sequences, terminals, output := map[], {}, [];
    }

    ghost predicate Valid()
      reads this
    {
      NO_ID !in sequences && AllAgree(output, sequences, terminals)
    }

    /** Writes one event, unless the request has ended. */
    method Scoped(id: Id, kind: Kind) returns (written: bool)
      requires Valid()
      requires id !in terminals ==> MayFollow(LinesOf(output, id), kind)
      modifies this
      ensures Valid() && (written <==> id != NO_ID && id !in old(terminals))
      ensures !written ==> output == old(output) && sequences == old(sequences) && terminals == old(terminals)
      ensures written ==> LinesOf(output, id) == LinesOf(old(output), id) + [Line(id, kind, |LinesOf(old(output), id)|)]
      ensures written ==> sequences.Keys == old(sequences).Keys + {id}
      ensures written ==> terminals == if Terminal(kind) then old(terminals) + {id} else old(terminals)
      ensures OthersSame(old(output), output, id)
    {
      assert Agrees(output, sequences, terminals, id);
      if id == NO_ID || id in terminals { return false; }
      var next := if id in sequences then sequences[id] else 0;
      ghost var l := Line(id, kind, next);
      AllAgreeAfter(output, sequences, terminals, l);
      sequences := sequences[id := next + 1];
      output := output + [l];
      terminals := if Terminal(kind) then terminals + {id} else terminals;
      return true;
    }

    /** The first event of a request; a second `accepted` for the same request is refused. */
    method Accept(id: Id) returns (written: bool)
      requires Valid()
      modifies this
      ensures Valid() && (written <==> id != NO_ID && id !in old(sequences))
      ensures !written ==> output == old(output) && sequences == old(sequences) && terminals == old(terminals)
      ensures written ==> sequences.Keys == old(sequences).Keys + {id} && terminals == old(terminals)
      ensures written ==> LinesOf(output, id) == [Line(id, Accepted, 0)]
      ensures OthersSame(old(output), output, id)
    {
      assert Agrees(output, sequences, terminals, id);
      if id in sequences || id in terminals { return false; }
      written := Scoped(id, Accepted);
    }
  }
}

/** The worker's loop: requests come in, scheduler events go out as protocol events. Loading a model and
    the number of lines that are ready at each poll are arbitrary. */
module Workers {

  import opened Common
  import opened Utf8
  import P = Protocol
  import S = Schedulers

  type Id = P.Id

  datatype Command =
    | Shutdown
    | Cancel(target: Id)
    | SetMaxActive(requested: int)
    | Unload
    | Load(model: nat)
    | Generate(wanted: Option<nat>, priority: Priority, wellTyped: bool)

  /** A line of input: empty, malformed (with the empty id when none can be read), or a request. */
  datatype Line = Blank | Malformed(readable: Id) | Request(id: Id, command: Command)

  /** What a round of the loop meets: how many lines are ready, and whether it crashes. */
  datatype Round = Round(ready: nat, crash: bool)

  function AllReady(rounds: seq<Round>): nat {
    if rounds == [] then 0 else AllReady(rounds[..|rounds| - 1]) + rounds[|rounds| - 1].ready
  }

  predicate NoCrash(rounds: seq<Round>) { forall k | 0 <= k < |rounds| :: !rounds[k].crash }

  function Upto(n: nat, most: nat): nat { if n < most then n else most }

  predicate StopsAt(read: seq<Line>) {
    read != [] && read[|read| - 1].Request? && read[|read| - 1].command.Shutdown?
  }

  predicate Asks(l: Line, id: Id) { l.Request? && l.id == id && id != P.NO_ID }

  /** Once these events are told, a request is unfinished for the scheduler at most once, and only after it
      was accepted; and if it was accepted and has not ended, once. */
  predicate Tracked(accepted: set<Id>, ended: set<Id>, w: seq<S.Waiting>, a: seq<S.Running>, told: seq<S.Event>, id: Id) {
    var n := S.Live(w, a, id) - S.Finished(told, id);
    && n <= 1 && (n == 1 ==> id in accepted)
    && (id in accepted && id !in ended ==> n == 1)
  }

  /** All but one that is being answered. */
  ghost predicate AllTracked(accepted: set<Id>, ended: set<Id>, w: seq<S.Waiting>, a: seq<S.Running>, told: seq<S.Event>,
                             pending: Option<Id>)
  {
    forall id: Id | pending != Some(id) :: Tracked(accepted, ended, w, a, told, id)
  }

  lemma {:induction false} TrackedAfterEvent(accepted: set<Id>, ended: set<Id>, w: seq<S.Waiting>, a: seq<S.Running>,
                                             events: seq<S.Event>, k: nat, w': seq<S.Waiting>, a': seq<S.Running>, pending: Option<Id>)
    requires S.Reports(w, a, events, w', a') && k < |events|
    requires AllTracked(accepted, ended, w, a, events[..k], pending)
    requires pending.Some? ==> S.Live(w, a, pending.value) == 0
    ensures !events[k].Topology? ==> events[k].id in accepted
    ensures AllTracked(accepted, if S.Ends(events[k]) then ended + {events[k].id} else ended, w, a, events[..k + 1], pending)
  {
    var e := events[k];
    var after := if S.Ends(e) then ended + {e.id} else ended;
    forall id: Id
      ensures S.About(e, id) ==> pending != Some(id) && id in accepted
      ensures pending != Some(id) ==> Tracked(accepted, after, w, a, events[..k + 1], id)
    {
      assert S.Leads(S.Live(w, a, id), events, S.Live(w', a', id), id);
      S.ConsistentAt(S.Live(w, a, id), events, id, k);
      assert pending != Some(id) ==> Tracked(accepted, ended, w, a, events[..k], id);
    }
    assert !e.Topology? ==> S.About(e, e.id);
  }

  lemma {:induction false} TrackedAfterAll(accepted: set<Id>, ended: set<Id>, w: seq<S.Waiting>, a: seq<S.Running>,
                                           events: seq<S.Event>, w': seq<S.Waiting>, a': seq<S.Running>, pending: Option<Id>)
    requires S.Reports(w, a, events, w', a') && AllTracked(accepted, ended, w, a, events, pending)
    ensures AllTracked(accepted, ended, w', a', [], pending)
  {
    forall id: Id | pending != Some(id) ensures Tracked(accepted, ended, w', a', [], id) {
      assert S.Leads(S.Live(w, a, id), events, S.Live(w', a', id), id);
      assert Tracked(accepted, ended, w, a, events, id);
    }
  }

  /** A new request, which the scheduler does not know yet. */
  lemma {:induction false} TrackedAfterAccept(accepted: set<Id>, ended: set<Id>, w: seq<S.Waiting>, a: seq<S.Running>, id: Id)
    requires AllTracked(accepted, ended, w, a, [], None) && id !in accepted
    ensures S.Live(w, a, id) == 0 && AllTracked(accepted + {id}, ended, w, a, [], Some(id))
  {
    assert Tracked(accepted, ended, w, a, [], id);
    forall other | other != id ensures Tracked(accepted + {id}, ended, w, a, [], other) {
      assert Tracked(accepted, ended, w, a, [], other);
    }
  }

  lemma {:induction false} TrackedAfterAnswer(accepted: set<Id>, ended: set<Id>, w: seq<S.Waiting>, a: seq<S.Running>, id: Id)
    requires AllTracked(accepted, ended, w, a, [], Some(id)) && S.Live(w, a, id) <= 1 && id in accepted
    ensures AllTracked(accepted, ended + {id}, w, a, [], None)
  {
    forall other: Id ensures Tracked(accepted, ended + {id}, w, a, [], other) {
      assert other != id ==> Tracked(accepted, ended, w, a, [], other);
    }
  }

  lemma {:induction false} TrackedAfterEnqueue(accepted: set<Id>, ended: set<Id>, w: seq<S.Waiting>, a: seq<S.Running>, id: Id,
                                               w': seq<S.Waiting>)
    requires AllTracked(accepted, ended, w, a, [], Some(id)) && S.Live(w, a, id) == 0 && id in accepted
    requires forall other :: S.Live(w', a, other) == S.Live(w, a, other) + if other == id then 1 else 0
    ensures AllTracked(accepted, ended, w', a, [], None)
  {
    forall other: Id ensures Tracked(accepted, ended, w', a, [], other) {
      assert S.Live(w', a, other) == S.Live(w, a, other) + if other == id then 1 else 0;
      assert other != id ==> Tracked(accepted, ended, w, a, [], other);
    }
  }

  /** A stream with one more event, unless it has ended. */
  function Append(lines: seq<P.Line>, kind: P.Kind, id: Id): seq<P.Line> {
    if P.Ended(lines) then lines else lines + [P.Line(id, kind, |lines|)]
  }

  function AppendCompletion(lines: seq<P.Line>, cancelled: bool, tail: Bytes, id: Id): seq<P.Line> {
    if cancelled then Append(lines, P.Completed(None), id)
    else
      var text := if tail == [] then lines else Append(lines, P.Text(tail), id);
      Append(text, P.Completed(Some(P.TextOf(text))), id)
  }

  /** What an event of the scheduler adds to the stream of its request. */
  function Written(lines: seq<P.Line>, e: S.Event): seq<P.Line> {
    match e
    case Started(id) => Append(lines, P.Started, id)
    case QueuedCancelled(id) => Append(lines, P.Completed(None), id)
    case Error(id) => Append(lines, P.Failed, id)
    case Completion(id) => AppendCompletion(lines, true, [], id)
    case Topology => lines
    case Generated(id, g) =>
      match g
      case Text(text) => Append(lines, P.Text(text), id)
      case Progress => Append(lines, P.Progress, id)
      case Complete(cancelled, tail) => AppendCompletion(lines, cancelled, tail, id)
      case Failure => Append(lines, P.Failed, id)
      case Cache => lines
  }

  /** The stream of one request after all of these events. */
  function StreamAfter(lines: seq<P.Line>, events: seq<S.Event>, id: Id): seq<P.Line> {
    if events == [] then lines
    else
      var (before, e) := (StreamAfter(lines, events[..|events| - 1], id), events[|events| - 1]);
      if S.About(e, id) then Written(before, e) else before
  }

  /** The events about one request. */
  function AboutOnly(events: seq<S.Event>, id: Id): seq<S.Event> {
    if events == [] then []
    else
      var e := events[|events| - 1];
      AboutOnly(events[..|events| - 1], id) + if S.About(e, id) then [e] else []
  }

  /** The stream of a request does not depend on what is told of others. */
  lemma {:induction false} OthersDoNotMatter(lines: seq<P.Line>, events: seq<S.Event>, id: Id)
    ensures StreamAfter(lines, AboutOnly(events, id), id) == StreamAfter(lines, events, id)
  {
    if events != [] {
      var (init, e) := (events[..|events| - 1], events[|events| - 1]);
      OthersDoNotMatter(lines, init, id);
      if S.About(e, id) {
        var own := AboutOnly(init, id) + [e];
        assert own[..|own| - 1] == AboutOnly(init, id);
      } else {
        assert AboutOnly(init, id) + [] == AboutOnly(init, id);
      }
    }
  }

  lemma {:induction false} StreamOn(lines: seq<P.Line>, a: seq<S.Event>, b: seq<S.Event>, id: Id)
    ensures StreamAfter(lines, a + b, id) == StreamAfter(StreamAfter(lines, a, id), b, id)
  {
    if b == [] {
      assert a + b == a;
    } else {
      StreamOn(lines, a, b[..|b| - 1], id);
      assert (a + b)[..|a + b| - 1] == a + b[..|b| - 1];
    }
  }

  ghost predicate StreamedOne(before: seq<P.Line>, e: S.Event, after: seq<P.Line>)
    requires !e.Topology?
  {
    P.OthersSame(before, after, e.id) && P.LinesOf(after, e.id) == Written(P.LinesOf(before, e.id), e)
  }

  lemma {:induction false} NothingAbout(events: seq<S.Event>, lines: seq<P.Line>, id: Id)
    requires S.Consistent(0, events, id)
    ensures StreamAfter(lines, events, id) == lines
  {
    if events != [] { NothingAbout(events[..|events| - 1], lines, id); }
  }

  predicate Queues(command: Command) { command.Generate? && command.wellTyped }

  /** What a control request, or a generation that is not well-typed, is answered. */
  predicate MayAnswer(command: Command, active: seq<S.Running>, loaded: Option<nat>, kind: P.Kind) {
    match command
    case Shutdown | Cancel(_) => kind == P.Completed(None)
    case SetMaxActive(requested) => kind == if requested > 0 then P.Completed(None) else P.Failed
    case Unload => kind == if active != [] then P.Failed else P.Completed(None)
    case Load(model) =>
      && (kind == P.Failed || kind == P.Completed(None))
      && (active != [] && loaded.Some? && loaded != Some(model) ==> kind.Failed?)
      && (loaded == Some(model) ==> kind.Completed?)
    case Generate(_, _, wellTyped) => !wellTyped && kind == P.Failed
  }

  predicate Answered(output: seq<P.Line>, id: Id, kind: P.Kind) {
    P.LinesOf(output, id) == [P.Line(id, P.Accepted, 0), P.Line(id, kind, 1)]
  }

  ghost predicate Streamed(before: seq<P.Line>, events: seq<S.Event>, after: seq<P.Line>) {
    forall id :: P.LinesOf(after, id) == StreamAfter(P.LinesOf(before, id), events, id)
  }

  lemma {:induction false} StreamedOn(start: seq<P.Line>, events: seq<S.Event>, k: nat, before: seq<P.Line>, after: seq<P.Line>)
    requires k < |events| && Streamed(start, events[..k], before)
    requires events[k].Topology? ==> after == before
    requires !events[k].Topology? ==> StreamedOne(before, events[k], after)
    ensures Streamed(start, events[..k + 1], after)
  {
    assert events[..k + 1][..k] == events[..k];
    forall id ensures P.LinesOf(after, id) == StreamAfter(P.LinesOf(start, id), events[..k + 1], id) {
      assert P.LinesOf(before, id) == StreamAfter(P.LinesOf(start, id), events[..k], id);
    }
  }

  class Worker {
    const writer: P.ProtocolWriter
    const scheduler: S.Scheduler
    var content: map<Id, Bytes>

    constructor ()
      ensures Valid() && fresh(writer) && fresh(scheduler)
      ensures writer.output == [] && scheduler.waiting == [] && scheduler.active == []
    {
      writer := new P.ProtocolWriter();
      scheduler := new S.Scheduler();
      content := map[];
      new;
      assert forall id :: P.LinesOf(writer.output, id) == [];
    }

    function Content(id: Id): Bytes
      reads this
    {
      if id in content then content[id] else []
    }

    /** The content gathered for a request that has not ended is the text that was sent for it. */
    ghost predicate Gathered(id: Id)
      reads this, writer
    {
      id !in writer.terminals ==> Content(id) == P.TextOf(P.LinesOf(writer.output, id))
    }

    ghost predicate Writing()
      reads this, writer
    {
      writer.Valid() && forall id :: Gathered(id)
    }

    ghost predicate Valid()
      reads this, writer, scheduler
    {
      && Writing() && scheduler.Valid() && S.AllRunning(scheduler.active)
      && AllTracked(writer.sequences.Keys, writer.terminals, scheduler.waiting, scheduler.active, [], None)
    }

    // -------------------------------------------------------------- sending

    /** Any event but `accepted` and text. */
    method Send(id: Id, kind: P.Kind)
      requires Writing() && id in writer.sequences && !kind.Accepted? && !kind.Text?
      requires kind.Completed? && kind.content.Some? ==> kind.content.value == Content(id)
      modifies writer
      ensures Writing() && writer.sequences.Keys == old(writer.sequences).Keys
      ensures writer.terminals == if P.Terminal(kind) then old(writer.terminals) + {id} else old(writer.terminals)
      ensures P.LinesOf(writer.output, id) == Append(P.LinesOf(old(writer.output), id), kind, id)
      ensures P.OthersSame(old(writer.output), writer.output, id)
    {
      assert P.Agrees(writer.output, writer.sequences, writer.terminals, id) && Gathered(id);
      var written := writer.Scoped(id, kind);
      forall other ensures Gathered(other) {
        assert old(Gathered(other));
        if other == id && written {
          P.TextOfOneMore(P.LinesOf(old(writer.output), id), P.Line(id, kind, |P.LinesOf(old(writer.output), id)|));
        }
      }
    }

    method SendText(id: Id, text: Bytes)
      requires Writing() && id in writer.sequences
      modifies this`content, writer
      ensures Writing() && writer.sequences.Keys == old(writer.sequences).Keys && writer.terminals == old(writer.terminals)
      ensures P.LinesOf(writer.output, id) == Append(P.LinesOf(old(writer.output), id), P.Text(text), id)
      ensures P.OthersSame(old(writer.output), writer.output, id) && content - {id} == old(content) - {id}
    {
      hide P.LinesOf, P.TextOf, P.Ended, P.AllAgree;
      ghost var lines := P.LinesOf(writer.output, id);
      P.AgreesMeans(writer.output, writer.sequences, writer.terminals, id);
      P.TextOfOneMore(lines, P.Line(id, P.Text(text), |lines|));
      content := content[id := Content(id) + text];
      var written := writer.Scoped(id, P.Text(text));
      forall other ensures Gathered(other) { assert old(Gathered(other)); }
    }

    method Forget(id: Id)
      requires Writing() && id in writer.terminals
      modifies this`content
      ensures Writing() && content == old(content) - {id}
    {
      content := content - {id};
      forall other ensures Gathered(other) { assert old(Gathered(other)); }
    }

    /** A finished generation: its tail, then the whole content. */
    method SendCompletion(id: Id, cancelled: bool, tail: Bytes)
      requires Writing() && id in writer.sequences
      modifies this`content, writer
      ensures Writing() && writer.sequences.Keys == old(writer.sequences).Keys
      ensures writer.terminals == old(writer.terminals) + {id}
      ensures P.LinesOf(writer.output, id) == AppendCompletion(P.LinesOf(old(writer.output), id), cancelled, tail, id)
      ensures P.OthersSame(old(writer.output), writer.output, id) && content == old(content) - {id}
    {
      if cancelled {
        Send(id, P.Completed(None));
      } else {
        if tail != [] { SendText(id, tail); }
        assert P.Agrees(writer.output, writer.sequences, writer.terminals, id) && Gathered(id);
        Send(id, P.Completed(Some(Content(id))));
      }
      Forget(id);
    }

    method SendEvent(e: S.Event)
      requires Writing() && (!e.Topology? ==> e.id in writer.sequences)
      modifies this`content, writer
      ensures Writing() && writer.sequences.Keys == old(writer.sequences).Keys
      ensures writer.terminals == if S.Ends(e) then old(writer.terminals) + {e.id} else old(writer.terminals)
      ensures e.Topology? ==> writer.output == old(writer.output)
      ensures !e.Topology? ==> StreamedOne(old(writer.output), e, writer.output)
      ensures if e.Topology? then content == old(content) else content - {e.id} == old(content) - {e.id}
      ensures S.Ends(e) && !e.Error? ==> e.id !in content
    {
      match e {
        case Started(id) => Send(id, P.Started);
        case QueuedCancelled(id) =>
          Send(id, P.Completed(None));
          Forget(id);
        case Error(id) => Send(id, P.Failed);
        case Completion(id) => SendCompletion(id, true, []);
        case Topology =>
        case Generated(id, generation) =>
          match generation {
            case Text(text) => SendText(id, text);
            case Progress => Send(id, P.Progress);
            case Complete(cancelled, tail) => SendCompletion(id, cancelled, tail);
            case Failure =>
              Send(id, P.Failed);
              Forget(id);
            case Cache =>
          }
      }
    }

    /** Tells what a scheduler operation did; `pending` is a request that is being answered. */
    method SendEvents(events: seq<S.Event>, ghost w: seq<S.Waiting>, ghost a: seq<S.Running>, ghost pending: Option<Id>)
      requires Writing() && S.Reports(w, a, events, scheduler.waiting, scheduler.active)
      requires AllTracked(writer.sequences.Keys, writer.terminals, w, a, [], pending)
      requires pending.Some? ==> S.Live(w, a, pending.value) == 0
      modifies this`content, writer
      ensures Writing() && writer.sequences.Keys == old(writer.sequences).Keys
      ensures old(writer.terminals) <= writer.terminals
      ensures AllTracked(writer.sequences.Keys, writer.terminals, scheduler.waiting, scheduler.active, [], pending)
      ensures Streamed(old(writer.output), events, writer.output)
    {
      var k: nat := 0;
      while k < |events|
        invariant k <= |events| && Writing() && writer.sequences.Keys == old(writer.sequences).Keys
        invariant old(writer.terminals) <= writer.terminals
        invariant AllTracked(writer.sequences.Keys, writer.terminals, w, a, events[..k], pending)
        invariant Streamed(old(writer.output), events[..k], writer.output)
      {
        ghost var before := writer.output;
        TrackedAfterEvent(writer.sequences.Keys, writer.terminals, w, a, events, k, scheduler.waiting, scheduler.active, pending);
        SendEvent(events[k]);
        StreamedOn(old(writer.output), events, k, before, writer.output);
        k := k + 1;
      }
      assert events[..k] == events;
      TrackedAfterAll(writer.sequences.Keys, writer.terminals, w, a, events, scheduler.waiting, scheduler.active, pending);
    }

    // -------------------------------------------------------------- input

    /** One line of input. A request is accepted once; a control request is answered at once, and a
        generation is queued or refused. The answer is whether the worker goes on. */
    method Dispatch(line: Line) returns (goOn: bool, ghost answer: P.Kind)
      requires Valid()
      modifies this`content, writer, scheduler
      ensures scheduler.ticks == old(scheduler.ticks)
      ensures Valid()
      ensures !goOn ==> line.Request? && line.command.Shutdown?
      ensures writer.sequences.Keys >= old(writer.sequences).Keys && writer.terminals >= old(writer.terminals)
      ensures forall id | Asks(line, id) :: id in writer.sequences
      ensures line.Malformed? && line.readable != P.NO_ID ==> line.readable in writer.terminals
      ensures line.Request? && line.id in old(writer.sequences) ==>
        goOn && writer.output == old(writer.output) && scheduler.waiting == old(scheduler.waiting)
      ensures line.Request? && line.id != P.NO_ID && line.id !in old(writer.sequences) && !Queues(line.command) ==>
        && line.id in writer.terminals && Answered(writer.output, line.id, answer)
        && MayAnswer(line.command, old(scheduler.active), old(scheduler.loaded), answer)
      ensures line.Request? && line.id != P.NO_ID && line.id !in old(writer.sequences) && Queues(line.command) ==>
        S.Live(scheduler.waiting, scheduler.active, line.id) == 1
    {
      answer := P.Failed;
      match line {
        case Blank => return true, answer;
        case Malformed(id) =>
          if id != P.NO_ID { Refuse(id); }
          return true, answer;
        case Request(id, command) =>
          goOn, answer := Serve(id, command);
      }
    }

    /** A malformed line ends the request that it names, even one that is running. */
    method Refuse(id: Id)
      requires Valid() && id != P.NO_ID
      modifies writer
      ensures Valid() && writer.sequences.Keys == old(writer.sequences).Keys + {id}
      ensures writer.terminals == old(writer.terminals) + {id}
    {
      ghost var (accepted, ended, w, a) := (writer.sequences.Keys, writer.terminals, scheduler.waiting, scheduler.active);
      assert Tracked(accepted, ended, w, a, [], id);
      assert AllTracked(accepted + {id}, ended, w, a, [], Some(id)) by {
        forall other | other != id ensures Tracked(accepted + {id}, ended, w, a, [], other) {
          assert Tracked(accepted, ended, w, a, [], other);
        }
      }
      var written := Accept(id);
      assert writer.sequences.Keys == accepted + {id};
      Send(id, P.Failed);
      TrackedAfterAnswer(accepted + {id}, ended, w, a, id);
    }

    method Accept(id: Id) returns (written: bool)
      requires Writing()
      modifies writer
      ensures Writing() && (written <==> id != P.NO_ID && id !in old(writer.sequences))
      ensures !written ==> writer.output == old(writer.output) && writer.sequences == old(writer.sequences)
      ensures written ==> writer.sequences.Keys == old(writer.sequences).Keys + {id}
      ensures writer.terminals == old(writer.terminals) && (written ==> id !in writer.terminals)
      ensures written ==> P.LinesOf(writer.output, id) == [P.Line(id, P.Accepted, 0)]
    {
      assert P.Agrees(writer.output, writer.sequences, writer.terminals, id);
      written := writer.Accept(id);
      forall other ensures Gathered(other) {
        assert old(Gathered(other));
        if other == id && written { P.TextOfOneMore([], P.Line(id, P.Accepted, 0)); }
      }
    }

    /** A request that was accepted just now and that the scheduler does not know. */
    ghost predicate Answering(id: Id)
      reads this, writer, scheduler
    {
      && Writing() && scheduler.Valid() && S.AllRunning(scheduler.active)
      && id in writer.sequences && S.Live(scheduler.waiting, scheduler.active, id) == 0
      && P.LinesOf(writer.output, id) == [P.Line(id, P.Accepted, 0)]
      && AllTracked(writer.sequences.Keys, writer.terminals, scheduler.waiting, scheduler.active, [], Some(id))
    }

    method Answer(id: Id, kind: P.Kind)
      requires Answering(id) && (kind == P.Completed(None) || kind.Failed?)
      modifies writer
      ensures Valid() && writer.sequences.Keys == old(writer.sequences).Keys
      ensures writer.terminals == old(writer.terminals) + {id} && Answered(writer.output, id, kind)
    {
      TrackedAfterAnswer(writer.sequences.Keys, writer.terminals, scheduler.waiting, scheduler.active, id);
      Send(id, kind);
    }

    method Serve(id: Id, command: Command) returns (goOn: bool, ghost answer: P.Kind)
      requires Valid()
      modifies this`content, writer, scheduler
      ensures scheduler.ticks == old(scheduler.ticks)
      ensures Valid() && (!goOn ==> command.Shutdown?)
      ensures writer.sequences.Keys == old(writer.sequences).Keys + if id == P.NO_ID then {} else {id}
      ensures writer.terminals >= old(writer.terminals)
      ensures id in old(writer.sequences) ==>
        goOn && writer.output == old(writer.output) && scheduler.waiting == old(scheduler.waiting)
      ensures id != P.NO_ID && id !in old(writer.sequences) && Queues(command) ==>
        S.Live(scheduler.waiting, scheduler.active, id) == 1
      ensures id != P.NO_ID && id !in old(writer.sequences) && !Queues(command) ==>
        && id in writer.terminals && Answered(writer.output, id, answer)
        && MayAnswer(command, old(scheduler.active), old(scheduler.loaded), answer)
      ensures id != P.NO_ID && id !in old(writer.sequences) && command.SetMaxActive? && command.requested > 0 ==>
        1 <= scheduler.capacity.maxActive <= command.requested
    {
      answer := P.Completed(None);
      var written := Accept(id);
      if !written { return true, answer; }
      TrackedAfterAccept(old(writer.sequences).Keys, writer.terminals, scheduler.waiting, scheduler.active, id);
      goOn, answer := CarryOut(id, command);
    }

    /** What an accepted request asks for. */
    method CarryOut(id: Id, command: Command) returns (goOn: bool, ghost answer: P.Kind)
      requires Answering(id)
      modifies this`content, writer, scheduler
      ensures scheduler.ticks == old(scheduler.ticks)
      ensures Valid() && (!goOn ==> command.Shutdown?)
      ensures writer.sequences.Keys == old(writer.sequences).Keys && writer.terminals >= old(writer.terminals)
      ensures Queues(command) ==> S.Live(scheduler.waiting, scheduler.active, id) == 1
      ensures !Queues(command) ==>
        && id in writer.terminals && Answered(writer.output, id, answer)
        && MayAnswer(command, old(scheduler.active), old(scheduler.loaded), answer)
      ensures command.SetMaxActive? && command.requested > 0 ==> 1 <= scheduler.capacity.maxActive <= command.requested
    {
      hide Writing, AllTracked, Answered, S.InLine, S.OneModel, S.HasRoom, P.LinesOf, S.Live, S.AllRunning;
      goOn, answer := true, P.Completed(None);
      match command {
        case Shutdown =>
          Answer(id, P.Completed(None));
          goOn := false;
        case Cancel(target) => ServeCancel(id, target);
        case SetMaxActive(_) | Unload | Load(_) => answer := ServeModel(id, command);
        case Generate(model, priority, wellTyped) =>
          if wellTyped {
            Queue(id, model, priority);
          } else {
            answer := P.Failed;
            Answer(id, P.Failed);
          }
      }
    }

    /** A generation waits for its turn. */
    method Queue(id: Id, model: Option<nat>, priority: Priority)
      requires Answering(id)
      modifies scheduler`waiting, scheduler`next
      ensures Valid() && S.Live(scheduler.waiting, scheduler.active, id) == 1
    {
      hide S.InLine, S.OneModel, S.HasRoom;
      ghost var w := scheduler.waiting;
      scheduler.Enqueue(id, model, priority);
      TrackedAfterEnqueue(writer.sequences.Keys, writer.terminals, w, scheduler.active, id, scheduler.waiting);
    }

    /** What concerns the loaded model; nothing is unloaded, and no other model loaded, over active requests. */
    method ServeModel(id: Id, command: Command) returns (answer: P.Kind)
      requires Answering(id) && (command.SetMaxActive? || command.Unload? || command.Load?)
      modifies writer, scheduler`loaded, scheduler`capacity
      ensures Valid() && writer.sequences.Keys == old(writer.sequences).Keys
      ensures writer.terminals == old(writer.terminals) + {id} && Answered(writer.output, id, answer)
      ensures MayAnswer(command, scheduler.active, old(scheduler.loaded), answer)
      ensures command.SetMaxActive? && command.requested > 0 ==> 1 <= scheduler.capacity.maxActive <= command.requested
    {
      answer := P.Failed;
      match command {
        case SetMaxActive(requested) =>
          var ok := scheduler.SetMaxActive(requested);
          if ok { answer := P.Completed(None); }
        case Unload =>
          if scheduler.active == [] {
            scheduler.UnloadModel();
            answer := P.Completed(None);
          }
        case Load(model) =>
          if scheduler.active == [] || scheduler.loaded.None? || scheduler.loaded == Some(model) {
            assert scheduler.active != [] ==> scheduler.loaded == Some(scheduler.active[0].model);
            var ok := scheduler.LoadModel(model);
            if ok { answer := P.Completed(None); }
          }
      }
      Answer(id, answer);
    }

    method ServeCancel(id: Id, target: Id)
      requires Answering(id)
      modifies this`content, writer, scheduler`active, scheduler`waiting
      ensures Valid() && writer.sequences.Keys == old(writer.sequences).Keys
      ensures writer.terminals >= old(writer.terminals) + {id} && Answered(writer.output, id, P.Completed(None))
    {
      ghost var (w, a) := (scheduler.waiting, scheduler.active);
      var events := scheduler.Cancel(target);
      SendEvents(events, w, a, Some(id));
      assert S.Leads(S.Live(w, a, id), events, S.Live(scheduler.waiting, scheduler.active, id), id);
      NothingAbout(events, P.LinesOf(old(writer.output), id), id);
      Answer(id, P.Completed(None));
    }

    // -------------------------------------------------------------- the run

    /** Everything the scheduler knows is ended, and so is everything that was accepted. */
    method CancelEverything() returns (ghost told: seq<S.Event>)
      requires Valid()
      modifies this`content, writer, scheduler
      ensures scheduler.ticks == old(scheduler.ticks)
      ensures Valid() && writer.sequences.Keys == old(writer.sequences).Keys
      ensures forall id | id in writer.sequences :: id in writer.terminals
      ensures S.Reports(old(scheduler.waiting), old(scheduler.active), told, [], [])
      ensures Streamed(old(writer.output), told, writer.output)
    {
      ghost var (w, a) := (scheduler.waiting, scheduler.active);
      var events := scheduler.CancelAll();
      told := events;
      SendEvents(events, w, a, None);
      forall id | id in writer.sequences ensures id in writer.terminals {
        assert Tracked(writer.sequences.Keys, writer.terminals, [], [], [], id);
      }
    }

    /** One tick of the scheduler, told in order: every stream is extended by exactly what happened to its
        request. */
    method Advance() returns (ghost told: seq<S.Event>)
      requires Valid()
      modifies this`content, writer, scheduler
      ensures scheduler.ticks == old(scheduler.ticks) + 1
      ensures Valid() && writer.sequences.Keys == old(writer.sequences).Keys
      ensures S.Reports(old(scheduler.waiting), old(scheduler.active), told, scheduler.waiting, scheduler.active)
      ensures Streamed(old(writer.output), told, writer.output)
      ensures S.WithinCapacity(old(scheduler.active), scheduler.active, scheduler.capacity.(encoder := false))
    {
      ghost var (w, a) := (scheduler.waiting, scheduler.active);
      var events, _, _ := scheduler.Tick();
      told := events;
      SendEvents(events, w, a, None);
    }

    /** Everybody who asked for something in the lines that were read has been answered. */
    ghost predicate AllHeard(read: seq<Line>)
      reads writer
    {
      forall k, id | 0 <= k < |read| && Asks(read[k], id) :: id in writer.sequences
    }

    predicate Idle()
      reads scheduler
    {
      scheduler.waiting == [] && scheduler.active == []
    }

    /** An idle worker waits for a line, and then takes all those that are ready, up to a shutdown. */
    method TakeLines(input: seq<Line>, start: nat, ready: nat) returns (goOn: bool, next: nat)
      requires Valid() && start <= |input| && AllHeard(input[..start])
      modifies this`content, writer, scheduler
      ensures scheduler.ticks == old(scheduler.ticks)
      ensures Valid() && start <= next <= |input| && AllHeard(input[..next])
      ensures if goOn then next == Upto(start + (if old(Idle()) then 1 else 0) + ready, |input|)
        else StopsAt(input[..next]) || (old(Idle()) && next == start == |input|)
    {
      next := start;
      var last := Upto(start + ready, |input|);
      if scheduler.waiting == [] && scheduler.active == [] {
        if next == |input| { return false, next; }
        last := Upto(start + 1 + ready, |input|);
        goOn, next := TakeLine(input, next);
        if !goOn { return; }
      }
      while next < last
        invariant Valid() && start <= next <= last <= |input| && AllHeard(input[..next])
        invariant scheduler.ticks == old(scheduler.ticks)
      {
        goOn, next := TakeLine(input, next);
        if !goOn { return; }
      }
      goOn := true;
    }

    method TakeLine(input: seq<Line>, at: nat) returns (goOn: bool, next: nat)
      requires Valid() && at < |input| && AllHeard(input[..at])
      modifies this`content, writer, scheduler
      ensures scheduler.ticks == old(scheduler.ticks)
      ensures Valid() && next == at + 1 && AllHeard(input[..next]) && (!goOn ==> StopsAt(input[..next]))
    {
      ghost var before := input[..at];
      ghost var answer;
      goOn, answer := Dispatch(input[at]);
      next := at + 1;
      forall k, id | 0 <= k < next && Asks(input[..next][k], id) ensures id in writer.sequences {
        if k < at { assert Asks(before[k], id); }
      }
    }

    /** The whole run, watched for some rounds. It ends at a shutdown, at the end of the input, or in a crash; until
        then every line that is ready is read. Whenever it is left, every request has a well-formed stream; when it
        exits, every request that was read has been ended, exactly once. */
    method Run(input: seq<Line>, rounds: seq<Round>) returns (read: seq<Line>, exited: bool)
      requires Valid()
      modifies this`content, writer, scheduler
      ensures Valid() && read <= input
      ensures forall id :: P.WellFormed(P.LinesOf(writer.output, id))
      ensures AllHeard(read) && (exited ==> read == input || StopsAt(read))
      ensures !exited && NoCrash(rounds) ==>
        |read| >= Upto(AllReady(rounds), |input|) && scheduler.ticks == old(scheduler.ticks) + |rounds|
      ensures exited ==> forall id | id in writer.sequences :: P.Ended(P.LinesOf(writer.output, id))
      ensures forall id :: id in writer.sequences <==> P.LinesOf(writer.output, id) != []
    {
      var k, next: nat := 0, 0;
      exited := false;
      while k < |rounds| && !exited
        invariant k <= |rounds| && Valid() && next <= |input| && AllHeard(input[..next])
        invariant exited || scheduler.ticks == old(scheduler.ticks) + k
        invariant if exited then next == |input| || StopsAt(input[..next]) else next >= Upto(AllReady(rounds[..k]), |input|)
      {
        var goOn;
        goOn, next := TakeLines(input, next, rounds[k].ready);
        assert rounds[..k + 1][..k] == rounds[..k];
        if !goOn {
          exited := true;
        } else if rounds[k].crash {
          break;
        } else {
          ghost var _ := Advance();
        }
        k := k + 1;
      }
      assert rounds[..|rounds|] == rounds;
      if exited { ghost var _ := CancelEverything(); }
      read := input[..next];
      forall id
        ensures P.WellFormed(P.LinesOf(writer.output, id)) && (id in writer.sequences <==> P.LinesOf(writer.output, id) != [])
        ensures exited && id in writer.sequences ==> P.Ended(P.LinesOf(writer.output, id))
      {
        assert P.Agrees(writer.output, writer.sequences, writer.terminals, id);
      }
    }
  }
}

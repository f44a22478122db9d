/** The limiter object itself: every public operation keeps `Valid`, so what `Valid` says holds
    after any sequence of arrivals, aborts and releases. */
module FairLimiters {
  import opened Common
  import opened Limiter

  function AtLeastOne(n: nat): nat { if n < 1 then 1 else n }

  /** Rounded up: so many turns of all slots are needed for so many calls. */
  lemma {:induction false} TurnsNeeded(calls: nat, slots: nat)
    requires calls > 0 && slots > 0
    ensures var turns := (calls + slots - 1) / slots; turns >= 1 && (turns - 1) * slots < calls <= turns * slots
  {
    var n := calls + slots - 1;
    var turns := n / slots;
    assert n == turns * slots + n % slots;
    assert (turns - 1) * slots == turns * slots - slots;
  }

  lemma {:induction false} FewerTurns(turns: nat, slots: nat)
    ensures turns > 12 ==> 11 * slots <= (turns - 1) * slots
  {
  }

  class FairLimiter {
    const maxInflight: nat
    const queueDepth: nat
    var inflight: int
    var inflightByPriority: Per<int>
    var perClient: map<string, int>
    var outcomes: Per<Outcomes>
    var waiters: Per<seq<Waiter>>
    var scheduleIndex: nat
    /** The release closures handed out and not called yet. */
    var grants: map<nat, Grant>
    var nextTicket: nat
    var nextWaiter: nat

    /** Every dispatch from the queues so far. */
    ghost var log: seq<Dispatch>
    /** Calls of `Acquire`, without those that can never settle. */
    ghost var asked: Per<int>

    constructor (maxInflight: nat, queueDepth: nat)
      ensures Valid() && inflight == 0 && Queued() == 0 && log == []
      ensures this.maxInflight == maxInflight && this.queueDepth == queueDepth
    {
      this.maxInflight, this.queueDepth := maxInflight, queueDepth;
      inflight, inflightByPriority, perClient := 0, Per(0, 0, 0), map[];
      outcomes := Per(Outcomes(0, 0, 0), Outcomes(0, 0, 0), Outcomes(0, 0, 0));
      waiters, scheduleIndex := Per([], [], []), 0;
      grants, nextTicket, nextWaiter := map[], 0, 0;
      log, asked := [], Per(0, 0, 0);
    }

    function Queued(): nat
      reads this`waiters
    {
      |waiters.interactive| + |waiters.normal| + |waiters.background|
    }

    /** The counters say which grants are out. */
    ghost predicate Counted()
      reads this`grants, this`inflight, this`inflightByPriority, this`perClient, this`nextTicket
    {
      && CountsGrants(grants, inflight, inflightByPriority, perClient)
      && forall t | t in grants :: t < nextTicket
    }

    /** Past dispatches were fair, and the cursor and queues continue from them. */
    ghost predicate Fair()
      reads this`log, this`waiters, this`nextWaiter, this`scheduleIndex
    {
      && Orderly(log, waiters, nextWaiter)
      && Chained(log)
      && scheduleIndex == Cursor(log)
    }

    ghost predicate Consistent()
      reads this
    {
      && Counted() && Fair()
      && 0 <= inflight <= maxInflight
      && Queued() <= queueDepth
      && Accounted(asked, outcomes, waiters)
    }

    ghost predicate Valid()
      reads this
    {
      Consistent() && (Queued() > 0 ==> inflight == maxInflight)
    }

    method Admit(client: string, priority: Priority) returns (ticket: nat)
      requires Counted()
      modifies this`inflight, this`inflightByPriority, this`perClient, this`outcomes, this`grants, this`nextTicket
      ensures Counted()
      ensures ticket == old(nextTicket) == nextTicket - 1 && ticket !in old(grants) && grants == old(grants)[ticket := Grant(client, priority)]
      ensures inflight == old(inflight) + 1
      ensures var o := old(outcomes).Get(priority);
        outcomes == old(outcomes).Set(priority, o.(admitted := o.admitted + 1))
    {
      hide CountsGrants;
      CountAdded(grants, nextTicket, Grant(client, priority), inflight, inflightByPriority, perClient);
      var o := outcomes.Get(priority);
      inflight := inflight + 1;
      outcomes := outcomes.Set(priority, o.(admitted := o.admitted + 1));
      inflightByPriority := inflightByPriority.Set(priority, inflightByPriority.Get(priority) + 1);
      perClient := perClient[client := Count(perClient, client) + 1];
      ticket := nextTicket;
      grants := grants[ticket := Grant(client, priority)];
      nextTicket := nextTicket + 1;
    }

    method NextPriority() returns (found: bool, priority: Priority, ghost index: nat)
      requires scheduleIndex < 7
      modifies this`scheduleIndex
      ensures found <==> Queued() > 0
      ensures !found ==> scheduleIndex == old(scheduleIndex)
      ensures found ==>
        && FirstWaiting(waiters, old(scheduleIndex), index)
        && priority == ClassAt(index) && scheduleIndex == (index + 1) % 7
    {
      found, priority, index := false, Normal, 0;
      if Queued() == 0 { return; }
      var start := scheduleIndex;
      var offset := 0;
      while offset < |SCHEDULE|
        invariant 0 <= offset <= 7 && scheduleIndex == start
        invariant forall c | start <= c < start + offset :: waiters.Get(ClassAt(c)) == []
      {
        var at := (start + offset) % |SCHEDULE|;
        ScheduleRepeats(start + offset);
        priority := SCHEDULE[at];
        if |waiters.Get(priority)| > 0 {
          scheduleIndex := (at + 1) % |SCHEDULE|;
          assert ClassAt(at) == ClassAt(start + offset);
          return true, priority, at;
        }
        offset := offset + 1;
      }
      NobodyWaits(waiters, start);
    }

    /** The first waiter whose client has the fewest requests in flight. */
    method BestIndex(queue: seq<Waiter>) returns (best: nat)
      requires queue != [] && Counted()
      ensures FirstMinimum(Scores(queue, perClient), best)
    {
      best := 0;
      var bestScore := -1;
      assert forall j | 0 <= j < |queue| :: Scores(queue, perClient)[j] == Count(perClient, queue[j].client) >= 0;
      for index := 0 to |queue|
        invariant index == 0 <==> bestScore == -1
        invariant best == 0 || best < index
        invariant index > 0 ==> bestScore == Count(perClient, queue[best].client) > 0
        invariant forall j | 0 <= j < index :: bestScore <= Count(perClient, queue[j].client)
        invariant forall j | 0 <= j < best :: bestScore < Count(perClient, queue[j].client)
      {
        var score := Count(perClient, queue[index].client);
        if bestScore == -1 || score < bestScore {
          bestScore, best := score, index;
          if score == 0 { break; }
        }
      }
    }

    /** Takes the next waiter of the chosen class out of its queue. */
    method TakeBest(priority: Priority, ghost index: nat) returns (waiter: Waiter)
      requires Counted() && Orderly(log, waiters, nextWaiter) && Chained(log)
      requires FirstWaiting(waiters, Cursor(log), index)
      requires priority == ClassAt(index) && scheduleIndex == (index + 1) % 7
      modifies this`waiters, this`log
      ensures Fair() && waiter.priority == priority
      ensures |log| == |old(log)| + 1 && old(log) <= log
      ensures Faithful(log[|old(log)|], old(waiters), perClient, waiters)
      ensures log[|old(log)|].Class() == priority && waiter == log[|old(log)|].Chosen()
      ensures |waiters.Get(priority)| == |old(waiters).Get(priority)| - 1
      ensures waiters == old(waiters).Set(priority, waiters.Get(priority))
    {
      var queue := waiters.Get(priority);
      var best := BestIndex(queue);
      waiter := queue[best];
      ghost var d := Dispatch(Cursor(log), NonEmpty(waiters), index, queue, Scores(queue, perClient), best);
      assert InQueue(queue, priority, nextWaiter);
      BestHasNoElder(queue, perClient, best);
      NextInTurn(log, waiters, d);
      DispatchIsOrderly(log, waiters, nextWaiter, d);
      log := log + [d];
      waiters := waiters.Set(priority, queue[..best] + queue[best + 1..]);
    }

    /** Serves one waiter, if there is one. */
    method DispatchOne() returns (found: bool)
      requires Consistent() && inflight < maxInflight
      modifies this`inflight, this`inflightByPriority, this`perClient, this`outcomes, this`grants,
        this`nextTicket, this`waiters, this`scheduleIndex, this`log
      ensures Consistent() && old(log) <= log
      ensures found <==> old(Queued()) > 0
      ensures var served := if found then 1 else 0;
        && |log| == |old(log)| + served
        && Queued() == old(Queued()) - served
        && inflight == old(inflight) + served
      ensures StillHeld(old(grants), grants)
      ensures found ==>
        var d := log[|old(log)|];
        && Faithful(d, old(waiters), old(perClient), waiters)
        && grants == old(grants)[old(nextTicket) := Grant(d.Chosen().client, d.Class())]
      ensures nextTicket >= old(nextTicket) && (!found ==> grants == old(grants))
    {
      hide Orderly, Chained, CountsGrants, Scores, NonEmpty, FirstWaiting;
      var priority; ghost var index;
      found, priority, index := NextPriority();
      if !found { return; }
      var waiter := TakeBest(priority, index);
      DispatchIsAccounted(asked, outcomes, old(waiters), priority, waiters.Get(priority));
      var ticket := Admit(waiter.client, waiter.priority);
    }

    method DispatchNext()
      requires Consistent()
      modifies this`inflight, this`inflightByPriority, this`perClient, this`outcomes, this`grants,
        this`nextTicket, this`waiters, this`scheduleIndex, this`log
      ensures Valid() && old(log) <= log
      ensures Queued() + |log| == old(Queued()) + |old(log)|
      ensures inflight - old(inflight) == |log| - |old(log)|
      ensures StillHeld(old(grants), grants) && NewGrants(old(grants), grants, old(nextTicket))
      ensures old(inflight) == maxInflight ==>
        waiters == old(waiters) && grants == old(grants) && log == old(log) && outcomes == old(outcomes)
    {
      while inflight < maxInflight
        invariant Consistent() && old(log) <= log
        invariant Queued() + |log| == old(Queued()) + |old(log)|
        invariant inflight - old(inflight) == |log| - |old(log)|
        invariant StillHeld(old(grants), grants) && NewGrants(old(grants), grants, old(nextTicket))
        invariant nextTicket >= old(nextTicket)
        invariant old(inflight) == maxInflight ==>
          waiters == old(waiters) && grants == old(grants) && log == old(log) && outcomes == old(outcomes)
        decreases maxInflight - inflight
      {
        var found := DispatchOne();
        if !found { return; }
      }
    }

    /** A request asks for a slot. */
    method Acquire(client: string, priority: Priority, signal: Signal) returns (outcome: Outcome)
      requires Valid()
      modifies this
      ensures Valid() && log == old(log)
      ensures outcome.Admitted? <==> old(inflight) < maxInflight
      ensures outcome.Admitted? ==>
        && outcome.ticket !in old(grants) && waiters == old(waiters)
        && grants == old(grants)[outcome.ticket := Grant(client, priority)]
      ensures outcome.Rejected? <==> old(inflight) == maxInflight && old(Queued()) == queueDepth
      ensures outcome.Rejected? ==> grants == old(grants) && waiters == old(waiters) && outcome.retryAfter == RetryAfter()
      ensures outcome.NeverSettles? ==> signal == AlreadyAborted && grants == old(grants) && waiters == old(waiters)
      ensures outcome.Enqueued? ==>
        && signal != AlreadyAborted && grants == old(grants)
        && waiters == old(waiters).Set(priority, old(waiters).Get(priority) + [Waiter(outcome.id, client, priority)])
      ensures var o := old(outcomes).Get(priority);
        outcomes == old(outcomes).Set(priority, match outcome
          case Admitted(_) => o.(admitted := o.admitted + 1)
          case Rejected(_) => o.(rejected := o.rejected + 1)
          case _ => o)
      ensures asked == if outcome.NeverSettles? then old(asked) else old(asked).Set(priority, old(asked).Get(priority) + 1)
    {
      hide CountsGrants, Orderly, Chained, Accounted;
      if inflight < maxInflight && Queued() == 0 {
        SettledIsAccounted(asked, outcomes, waiters, priority,
          outcomes.Get(priority).(admitted := outcomes.Get(priority).admitted + 1));
        var ticket := Admit(client, priority);
        asked := asked.Set(priority, asked.Get(priority) + 1);
        return Admitted(ticket);
      }
      if Queued() >= queueDepth {
        var o := outcomes.Get(priority);
        SettledIsAccounted(asked, outcomes, waiters, priority, o.(rejected := o.rejected + 1));
        outcomes := outcomes.Set(priority, o.(rejected := o.rejected + 1));
        asked := asked.Set(priority, asked.Get(priority) + 1);
        return Rejected(RetryAfter());
      }
      // The abort handler runs before the waiter is queued, finds nothing, and nobody settles it.
      if signal == AlreadyAborted { return NeverSettles; }
      var id := Enqueue(client, priority);
      DispatchNext();
      return Enqueued(id);
    }

    function RetryAfter(): (seconds: nat)
      reads this`waiters
      ensures 5 <= seconds <= 60 && seconds % 5 == 0
      ensures seconds == 60 || seconds / 5 * AtLeastOne(maxInflight) >= Queued() + 1
      ensures (seconds / 5 - 1) * AtLeastOne(maxInflight) < Queued() + 1
    {
      var slots := AtLeastOne(maxInflight);
      var turns := (Queued() + 1 + slots - 1) / slots;
      TurnsNeeded(Queued() + 1, slots);
      FewerTurns(turns, slots);
      if 5 * turns < 60 then 5 * turns else 60
    }

    method Enqueue(client: string, priority: Priority) returns (id: nat)
      requires Valid() && Queued() < queueDepth && inflight == maxInflight
      modifies this`waiters, this`nextWaiter, this`asked
      ensures Valid()
      ensures waiters == old(waiters).Set(priority, old(waiters).Get(priority) + [Waiter(id, client, priority)])
      ensures asked == old(asked).Set(priority, old(asked).Get(priority) + 1)
    {
      ArrivalIsOrderly(log, waiters, nextWaiter, Waiter(nextWaiter, client, priority));
      id := nextWaiter;
      nextWaiter := nextWaiter + 1;
      asked := asked.Set(priority, asked.Get(priority) + 1);
      waiters := waiters.Set(priority, waiters.Get(priority) + [Waiter(id, client, priority)]);
    }

    ghost predicate LeftQueue(queue: seq<Waiter>, id: nat, after: seq<Waiter>) {
      exists k: nat :: k < |queue| && queue[k].id == id && after == Without(queue, k)
    }

    /** The abort listener of waiter `id`; nothing happens once it has left its queue. */
    method Abort(id: nat, priority: Priority)
      requires Valid()
      modifies this`waiters, this`outcomes
      ensures Valid()
      ensures (forall w | w in old(waiters).Get(priority) :: w.id != id) ==>
        waiters == old(waiters) && outcomes == old(outcomes)
      ensures (exists w | w in old(waiters).Get(priority) :: w.id == id) ==>
        && LeftQueue(old(waiters).Get(priority), id, waiters.Get(priority))
        && waiters == old(waiters).Set(priority, waiters.Get(priority))
        && var o := old(outcomes).Get(priority);
          outcomes == old(outcomes).Set(priority, o.(aborted := o.aborted + 1))
    {
      var queue := waiters.Get(priority);
      assert InQueue(queue, priority, nextWaiter);
      for index := 0 to |queue|
        invariant waiters == old(waiters) && outcomes == old(outcomes)
        invariant forall k | 0 <= k < index :: queue[k].id != id
      {
        if queue[index].id == id {
          assert queue[index] in old(waiters).Get(priority);
          LeavingIsOrderly(log, waiters, nextWaiter, priority, index);
          var o := outcomes.Get(priority);
          waiters := waiters.Set(priority, queue[..index] + queue[index + 1..]);
          outcomes := outcomes.Set(priority, o.(aborted := o.aborted + 1));
          return;
        }
      }
    }

    /** The release closure of a grant. Calling it again changes nothing. */
    method Release(ticket: nat)
      requires Valid()
      modifies this`inflight, this`inflightByPriority, this`perClient, this`outcomes, this`grants,
        this`nextTicket, this`waiters, this`scheduleIndex, this`log
      ensures Valid() && old(log) <= log
      ensures ticket !in old(grants) ==>
        && grants == old(grants) && log == old(log) && inflight == old(inflight)
        && waiters == old(waiters) && perClient == old(perClient)
      ensures forall t | t in old(grants) && t != ticket :: t in grants && grants[t] == old(grants)[t]
      ensures ticket in old(grants) ==> |log| == |old(log)| + if old(Queued()) > 0 then 1 else 0
      ensures ticket in old(grants) ==> ticket !in grants
    {
      if ticket !in grants { return; }
      Forget(ticket);
      DispatchNext();
    }

    method Forget(ticket: nat)
      requires Counted() && ticket in grants
      modifies this`inflight, this`inflightByPriority, this`perClient, this`grants
      ensures Counted()
      ensures grants == old(grants) - {ticket} && inflight == old(inflight) - 1 >= 0
    {
      hide CountsGrants;
      var client, priority := grants[ticket].client, grants[ticket].priority;
      CountRemoved(grants, ticket, inflight, inflightByPriority, perClient);
      inflight := inflight - 1;
      inflightByPriority := inflightByPriority.Set(priority, inflightByPriority.Get(priority) - 1);
      var count := (if client in perClient then perClient[client] else 1) - 1;
      if count <= 0 { perClient := perClient - {client}; }
      else { perClient := perClient[client := count]; }
      grants := grants - {ticket};
    }
  }
}

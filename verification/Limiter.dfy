/** Fair admission: `FairLimiter` with its bounded queues, the 4:2:1 schedule, the choice of the
    client with the fewest requests in flight, and the idempotent release of every grant. */
module Limiter {

  import opened Common

  /** One value per priority class. */
  datatype Per<T> = Per(interactive: T, normal: T, background: T) {
    function Get(p: Priority): T {
      match p case Interactive => interactive case Normal => normal case Background => background
    }
    function Set(p: Priority, x: T): Per<T> {
      match p
      case Interactive => this.(interactive := x)
      case Normal => this.(normal := x)
      case Background => this.(background := x)
    }
  }

  const SCHEDULE: seq<Priority> :=
    [Interactive, Interactive, Interactive, Interactive, Normal, Normal, Background]

  /** The class at position `c` of the endlessly repeated schedule. */
  function ClassAt(c: nat): Priority {
    if c % 7 < 4 then Interactive else if c % 7 < 6 then Normal else Background
  }

  lemma {:induction false} ScheduleRepeats(c: nat)
    ensures SCHEDULE[c % 7] == ClassAt(c)
  {
  }

  function Weight(p: Priority): nat {
    match p case Interactive => 4 case Normal => 2 case Background => 1
  }

  datatype Waiter = Waiter(id: nat, client: string, priority: Priority)
  datatype Outcomes = Outcomes(admitted: int, rejected: int, aborted: int)
  datatype Grant = Grant(client: string, priority: Priority)
  datatype Signal = NoSignal | Live | AlreadyAborted
  datatype Outcome = Admitted(ticket: nat) | Rejected(retryAfter: nat) | Enqueued(id: nat) | NeverSettles

  // ---------------------------------------------------------------- the dispatch record

  /** One dispatch from the queues: the cursor it started from, which classes had waiters, the
      schedule position it used, and the queue and in-flight scores it chose from. */
  datatype Dispatch = Dispatch(before: nat, waiting: Per<bool>, index: nat,
                               queue: seq<Waiter>, scores: seq<int>, pick: nat)
  {
    function Class(): Priority { ClassAt(index) }
    function Chosen(): Waiter requires pick < |queue| { queue[pick] }
    function After(): nat { (index + 1) % 7 }
    /** Positions the cursor moved over before the one it used. */
    function Skipped(): nat requires before < 7 && index < 7 { Distance(before, index) }
  }

  function Distance(start: nat, index: nat): nat
    requires start < 7 && index < 7
  {
    if index >= start then index - start else index + 7 - start
  }

  /** Where the record leaves the cursor. */
  function Cursor(log: seq<Dispatch>): nat { if log == [] then 0 else log[|log| - 1].After() }

  ghost predicate FirstMinimum(scores: seq<int>, pick: nat) {
    && pick < |scores|
    && (forall j | 0 <= j < |scores| :: scores[pick] <= scores[j])
    && (forall j | 0 <= j < pick :: scores[pick] < scores[j])
  }

  /** The served class is the first in schedule order that has a waiter. */
  ghost predicate InTurn(d: Dispatch) {
    && d.before < 7 && d.index < 7
    && d.waiting.Get(d.Class())
    && forall c | d.before <= c < d.before + d.Skipped() :: !d.waiting.Get(ClassAt(c))
  }

  /** The served waiter is the first one among those of its class whose client has the fewest
      requests in flight. */
  ghost predicate LeastInflight(d: Dispatch) {
    && d.index < 7 && d.pick < |d.queue| == |d.scores|
    && FirstMinimum(d.scores, d.pick)
    && d.Chosen().priority == d.Class()
  }

  /** Dispatch `k` is in turn and starts where the one before it left the cursor. */
  ghost predicate TurnAt(log: seq<Dispatch>, k: nat)
    requires k < |log|
  {
    InTurn(log[k]) && (k > 0 ==> log[k].before == log[k - 1].After())
  }

  ghost predicate Chained(log: seq<Dispatch>) { forall k | 0 <= k < |log| :: TurnAt(log, k) }

  /** How many of the dispatches `lo .. hi` served class `p`. */
  ghost function Served(log: seq<Dispatch>, p: Priority, lo: nat, hi: nat): nat
    requires lo <= hi <= |log|
  {
    if lo == hi then 0
    else Served(log, p, lo, hi - 1) + if log[hi - 1].Class() == p then 1 else 0
  }

  /** Schedule positions of class `p` among the `n` positions from `c` on. */
  ghost function Slots(p: Priority, c: nat, n: nat): nat {
    if n == 0 then 0 else Slots(p, c, n - 1) + if ClassAt(c + n - 1) == p then 1 else 0
  }

  lemma {:induction false} SlotsSplit(p: Priority, c: nat, m: nat, n: nat)
    ensures Slots(p, c, m + n) == Slots(p, c, m) + Slots(p, c + m, n)
  {
    if n > 0 { SlotsSplit(p, c, m, n - 1); }
  }

  lemma {:induction false} ClassPeriodic(c: nat, d: nat, n: nat)
    requires c % 7 == d % 7
    ensures ClassAt(c + n) == ClassAt(d + n)
  {
    ModuloSum(c, d, n);
  }

  lemma {:induction false} SlotsPeriodic(p: Priority, c: nat, d: nat, n: nat)
    requires c % 7 == d % 7
    ensures Slots(p, c, n) == Slots(p, d, n)
  {
    if n > 0 {
      ClassPeriodic(c, d, n - 1);
      SlotsPeriodic(p, c, d, n - 1);
    }
  }

  /** Every full turn of the schedule holds exactly the weight of each class. */
  lemma {:induction false} SlotsPerTurn(p: Priority, c: nat)
    ensures Slots(p, c, 7) == Weight(p)
  {
    hide Slots, Weight;
    if c == 0 {
      FirstTurn(p);
    } else {
      SlotsPerTurn(p, c - 1);
      SlotsSplit(p, c - 1, 1, 7);
      SlotsSplit(p, c - 1, 7, 1);
      SlotsPeriodic(p, c - 1, c + 6, 1);
    }
  }

  lemma {:induction false} FirstTurn(p: Priority)
    ensures Slots(p, 0, 7) == Weight(p)
  {
    assert Slots(p, 0, 3) == Slots(p, 0, 2) + (if p == Interactive then 1 else 0);
    assert Slots(p, 0, 5) == Slots(p, 0, 4) + (if p == Normal then 1 else 0);
  }

  /** While `p` always has a waiter, its schedule positions are never skipped: it is served once
      for every position of its own that the cursor passes. */
  lemma {:induction false} ServedAtEverySlot(log: seq<Dispatch>, p: Priority, lo: nat, hi: nat) returns (passed: nat)
    requires Chained(log) && lo < hi <= |log|
    requires forall k | lo <= k < hi :: log[k].waiting.Get(p)
    ensures passed >= hi - lo
    ensures Served(log, p, lo, hi) == Slots(p, log[lo].before, passed)
    ensures (log[lo].before + passed) % 7 == log[hi - 1].After() % 7
  {
    hide Slots, Served, InTurn;
    passed := LastTurn(log, p, lo, hi);
    if lo + 1 == hi {
      ServedNone(log, p, lo);
    } else {
      var before := ServedAtEverySlot(log, p, lo, hi - 1);
      assert TurnAt(log, hi - 1);
      SlotsJoin(p, log[lo].before, before, log[hi - 1].before, passed);
      passed := before + passed;
    }
  }

  lemma {:induction false} ServedNone(log: seq<Dispatch>, p: Priority, lo: nat)
    requires lo <= |log|
    ensures Served(log, p, lo, lo) == 0
  {
  }

  lemma {:induction false} LastTurn(log: seq<Dispatch>, p: Priority, lo: nat, hi: nat) returns (passed: nat)
    requires Chained(log) && lo < hi <= |log| && log[hi - 1].waiting.Get(p)
    ensures passed >= 1 && (log[hi - 1].before + passed) % 7 == log[hi - 1].After() % 7
    ensures Served(log, p, lo, hi) == Served(log, p, lo, hi - 1) + Slots(p, log[hi - 1].before, passed)
  {
    assert TurnAt(log, hi - 1);
    ServedOnce(log[hi - 1], p);
    passed := log[hi - 1].Skipped() + 1;
  }

  lemma {:induction false} SlotsJoin(p: Priority, c: nat, m: nat, d: nat, n: nat)
    requires (c + m) % 7 == d % 7
    ensures Slots(p, c, m + n) == Slots(p, c, m) + Slots(p, d, n)
    ensures (c + (m + n)) % 7 == (d + n) % 7
  {
    SlotsSplit(p, c, m, n);
    SlotsPeriodic(p, c + m, d, n);
    ModuloSum(c + m, d, n);
  }

  lemma {:induction false} ModuloSum(c: nat, d: nat, n: nat)
    requires c % 7 == d % 7
    ensures (c + n) % 7 == (d + n) % 7
  {
    var q, r := c / 7, d / 7;
    assert c + n == 7 * q + (c % 7 + n) && d + n == 7 * r + (c % 7 + n);
  }

  lemma {:induction false} ServedOnce(d: Dispatch, p: Priority)
    requires InTurn(d) && d.waiting.Get(p)
    ensures Slots(p, d.before, d.Skipped() + 1) == if d.Class() == p then 1 else 0
    ensures (d.before + d.Skipped() + 1) % 7 == d.After() % 7
  {
    SkippedHoldsNone(d, p, d.Skipped());
    assert (d.before + d.Skipped()) % 7 == d.index;
  }

  lemma {:induction false} SkippedHoldsNone(d: Dispatch, p: Priority, n: nat)
    requires InTurn(d) && d.waiting.Get(p) && n <= d.Skipped()
    ensures Slots(p, d.before, n) == 0
  {
    if n > 0 {
      SkippedHoldsNone(d, p, n - 1);
      assert !d.waiting.Get(ClassAt(d.before + n - 1));
    }
  }

  /** Weighted bounded overtaking: in any `7 * turns` consecutive dispatches at which class `p` has
      a waiter each time, `p` is served at least `Weight(p) * turns` times. */
  lemma {:induction false} WeightedShare(log: seq<Dispatch>, p: Priority, lo: nat, turns: nat)
    requires Chained(log) && lo + 7 * turns <= |log|
    requires forall k | lo <= k < lo + 7 * turns :: log[k].waiting.Get(p)
    ensures Served(log, p, lo, lo + 7 * turns) >= Weight(p) * turns
  {
    if turns > 0 {
      assert TurnAt(log, lo);
      var passed := ServedAtEverySlot(log, p, lo, lo + 7 * turns);
      SlotsSplit(p, log[lo].before, 7 * turns, passed - 7 * turns);
      SlotsOfTurns(p, log[lo].before, turns);
    }
  }

  lemma {:induction false} NoSlots(p: Priority, c: nat)
    ensures Slots(p, c, 0) == 0
  {
  }

  lemma {:induction false} SlotsOfTurns(p: Priority, c: nat, turns: nat)
    ensures Slots(p, c, 7 * turns) == Weight(p) * turns
  {
    hide Slots, Weight;
    if turns == 0 {
      NoSlots(p, c);
      assert Weight(p) * turns == 0;
    } else {
      SlotsOfTurns(p, c, turns - 1);
      SlotsSplit(p, c, 7 * (turns - 1), 7);
      SlotsPerTurn(p, c + 7 * (turns - 1));
      assert Weight(p) * turns == Weight(p) * (turns - 1) + Weight(p);
    }
  }

  // ---------------------------------------------------------------- counting what is held

  ghost function TicketsOfClass(grants: map<nat, Grant>, p: Priority): set<nat> {
    set t | t in grants && grants[t].priority == p
  }

  ghost function TicketsOfClient(grants: map<nat, Grant>, client: string): set<nat> {
    set t | t in grants && grants[t].client == client
  }

  function Count(perClient: map<string, int>, client: string): int {
    if client in perClient then perClient[client] else 0
  }

  /** The counters say exactly which unreleased grants exist. */
  ghost predicate CountsGrants(grants: map<nat, Grant>, inflight: int, byClass: Per<int>, perClient: map<string, int>) {
    && inflight == |grants|
    && (forall p: Priority :: byClass.Get(p) == |TicketsOfClass(grants, p)|)
    && (forall c: string :: Count(perClient, c) == |TicketsOfClient(grants, c)|)
    && (forall c | c in perClient :: perClient[c] > 0)
  }

  lemma {:induction false} ClassTicket(grants: map<nat, Grant>, t: nat, g: Grant, p: Priority)
    requires t !in grants
    ensures |TicketsOfClass(grants[t := g], p)| == |TicketsOfClass(grants, p)| + (if p == g.priority then 1 else 0)
  {
    assert TicketsOfClass(grants[t := g], p) == TicketsOfClass(grants, p) + if p == g.priority then {t} else {};
  }

  lemma {:induction false} ClientTicket(grants: map<nat, Grant>, t: nat, g: Grant, c: string)
    requires t !in grants
    ensures |TicketsOfClient(grants[t := g], c)| == |TicketsOfClient(grants, c)| + (if c == g.client then 1 else 0)
  {
    assert TicketsOfClient(grants[t := g], c) == TicketsOfClient(grants, c) + if c == g.client then {t} else {};
  }

  /** Counting one grant more, as `admit` does. */
  lemma {:induction false} CountAdded(grants: map<nat, Grant>, t: nat, g: Grant, inflight: int, byClass: Per<int>, perClient: map<string, int>)
    requires CountsGrants(grants, inflight, byClass, perClient) && t !in grants
    ensures CountsGrants(grants[t := g], inflight + 1, byClass.Set(g.priority, byClass.Get(g.priority) + 1),
      perClient[g.client := Count(perClient, g.client) + 1])
  {
    var client := perClient[g.client := Count(perClient, g.client) + 1];
    var cls := byClass.Set(g.priority, byClass.Get(g.priority) + 1);
    forall p: Priority ensures cls.Get(p) == |TicketsOfClass(grants[t := g], p)| {
      ClassTicket(grants, t, g, p);
    }
    forall c: string ensures Count(client, c) == |TicketsOfClient(grants[t := g], c)| {
      ClientTicket(grants, t, g, c);
    }
    assert Count(perClient, g.client) >= 0;
  }

  /** Counting one grant less, as a release does. */
  lemma {:induction false} CountRemoved(grants: map<nat, Grant>, t: nat, inflight: int, byClass: Per<int>, perClient: map<string, int>)
    requires CountsGrants(grants, inflight, byClass, perClient) && t in grants
    ensures var g := grants[t];
      var count := Count(perClient, g.client) - 1;
      CountsGrants(grants - {t}, inflight - 1, byClass.Set(g.priority, byClass.Get(g.priority) - 1),
        if count <= 0 then perClient - {g.client} else perClient[g.client := count])
    ensures inflight > 0
  {
    var g, rest := grants[t], grants - {t};
    assert rest[t := g] == grants;
    var count := Count(perClient, g.client) - 1;
    var client := if count <= 0 then perClient - {g.client} else perClient[g.client := count];
    var cls := byClass.Set(g.priority, byClass.Get(g.priority) - 1);
    forall p: Priority ensures cls.Get(p) == |TicketsOfClass(rest, p)| {
      ClassTicket(rest, t, g, p);
    }
    ClientTicket(rest, t, g, g.client);
    forall c: string ensures Count(client, c) == |TicketsOfClient(rest, c)| {
      ClientTicket(rest, t, g, c);
    }
  }

  /** Per class and per client, the counters add up to the total in flight. */
  lemma {:induction false} ClassesSum(grants: map<nat, Grant>)
    ensures |grants| == |TicketsOfClass(grants, Interactive)| + |TicketsOfClass(grants, Normal)|
      + |TicketsOfClass(grants, Background)|
  {
    var a, b, c := TicketsOfClass(grants, Interactive), TicketsOfClass(grants, Normal), TicketsOfClass(grants, Background);
    assert grants.Keys == a + b + c;
  }

  ghost function SumOver(perClient: map<string, int>, clients: seq<string>): int {
    if clients == [] then 0 else Count(perClient, clients[0]) + SumOver(perClient, clients[1..])
  }

  ghost function TicketsOfClients(grants: map<nat, Grant>, clients: seq<string>): set<nat> {
    set t | t in grants && grants[t].client in clients
  }

  lemma {:induction false} ClientsSum(grants: map<nat, Grant>, perClient: map<string, int>, clients: seq<string>)
    requires forall c: string :: Count(perClient, c) == |TicketsOfClient(grants, c)|
    requires forall i, j | 0 <= i < j < |clients| :: clients[i] != clients[j]
    ensures SumOver(perClient, clients) == |TicketsOfClients(grants, clients)|
  {
    if clients == [] {
      assert TicketsOfClients(grants, clients) == {};
    } else {
      ClientsSum(grants, perClient, clients[1..]);
      FirstClient(grants, clients);
    }
  }

  lemma {:induction false} FirstClient(grants: map<nat, Grant>, clients: seq<string>)
    requires clients != [] && forall i, j | 0 <= i < j < |clients| :: clients[i] != clients[j]
    ensures |TicketsOfClients(grants, clients)| ==
      |TicketsOfClient(grants, clients[0])| + |TicketsOfClients(grants, clients[1..])|
  {
    var first, rest := TicketsOfClient(grants, clients[0]), TicketsOfClients(grants, clients[1..]);
    assert clients[0] !in clients[1..];
    assert TicketsOfClients(grants, clients) == first + rest by {
      assert forall c :: c in clients <==> c == clients[0] || c in clients[1..];
    }
    assert first !! rest;
  }

  // ---------------------------------------------------------------- queues and first come, first served

  ghost predicate InQueue(q: seq<Waiter>, p: Priority, nextId: nat) {
    && (forall k | 0 <= k < |q| :: q[k].priority == p && q[k].id < nextId)
    && (forall j, k | 0 <= j < k < |q| :: q[j].id < q[k].id)
  }

  ghost predicate QueuesOrdered(waiters: Per<seq<Waiter>>, nextId: nat) {
    forall p: Priority :: InQueue(waiters.Get(p), p, nextId)
  }

  ghost predicate SameLine(a: Waiter, b: Waiter) { a.client == b.client && a.priority == b.priority }

  /** Of two waiters of one client in one class the one that came first was served first. */
  ghost predicate FirstCome(log: seq<Dispatch>) {
    forall i, j | 0 <= i < j < |log| :: InOrder(log, i, j)
  }

  ghost predicate InOrder(log: seq<Dispatch>, i: nat, j: nat)
    requires i < j < |log|
  {
    LeastInflight(log[i]) && LeastInflight(log[j]) && SameLine(log[i].Chosen(), log[j].Chosen()) ==>
      log[i].Chosen().id < log[j].Chosen().id
  }

  /** Everyone still waiting came after everyone of the same client and class served so far. */
  ghost predicate ServedBefore(log: seq<Dispatch>, q: seq<Waiter>, nextId: nat) {
    forall i | 0 <= i < |log| :: AheadOf(log[i], q, nextId)
  }

  ghost predicate AheadOf(d: Dispatch, q: seq<Waiter>, nextId: nat) {
    && LeastInflight(d) && d.Chosen().id < nextId
    && forall k | 0 <= k < |q| :: SameLine(d.Chosen(), q[k]) ==> d.Chosen().id < q[k].id
  }

  ghost predicate Orderly(log: seq<Dispatch>, waiters: Per<seq<Waiter>>, nextId: nat) {
    && QueuesOrdered(waiters, nextId)
    && FirstCome(log)
    && forall p: Priority :: ServedBefore(log, waiters.Get(p), nextId)
  }

  lemma {:induction false} DispatchIsOrderly(log: seq<Dispatch>, waiters: Per<seq<Waiter>>, nextId: nat, d: Dispatch)
    requires Orderly(log, waiters, nextId) && LeastInflight(d)
    requires d.queue == waiters.Get(d.Class())
    requires forall j | 0 <= j < d.pick :: d.queue[j].client != d.Chosen().client
    ensures Orderly(log + [d], waiters.Set(d.Class(), Without(d.queue, d.pick)), nextId)
  {
    var after := waiters.Set(d.Class(), Without(d.queue, d.pick));
    forall i, j | 0 <= i < j < |log + [d]|
      ensures InOrder(log + [d], i, j)
    {
      if j < |log| { assert InOrder(log, i, j); }
      else { assert ServedBefore(log, d.queue, nextId) && AheadOf(log[i], d.queue, nextId); }
    }
    forall p: Priority
      ensures InQueue(after.Get(p), p, nextId) && ServedBefore(log + [d], after.Get(p), nextId)
    {
      DispatchKeepsLine(log, waiters, nextId, d, p);
    }
  }

  /** A queue stays in order, and behind whoever was served before, when one waiter leaves. */
  lemma {:induction false} LineWithout(log: seq<Dispatch>, q: seq<Waiter>, p: Priority, nextId: nat, k: nat)
    requires InQueue(q, p, nextId) && ServedBefore(log, q, nextId) && k < |q|
    ensures InQueue(Without(q, k), p, nextId) && ServedBefore(log, Without(q, k), nextId)
  {
    hide LeastInflight;
    var rest := Without(q, k);
    assert forall j | 0 <= j < |rest| :: rest[j] == if j < k then q[j] else q[j + 1];
    forall i | 0 <= i < |log| ensures AheadOf(log[i], rest, nextId) { assert AheadOf(log[i], q, nextId); }
  }

  /** Nobody who still waits came before the waiter that was served. */
  lemma {:induction false} ServedIsAhead(d: Dispatch, q: seq<Waiter>, p: Priority, nextId: nat)
    requires LeastInflight(d) && InQueue(d.queue, d.Class(), nextId) && InQueue(q, p, nextId)
    requires forall j | 0 <= j < d.pick :: d.queue[j].client != d.Chosen().client
    requires p == d.Class() ==> q == Without(d.queue, d.pick)
    ensures AheadOf(d, q, nextId)
  {
    if p == d.Class() {
      assert forall j | 0 <= j < |q| :: q[j] == if j < d.pick then d.queue[j] else d.queue[j + 1];
    }
  }

  lemma {:induction false} DispatchKeepsLine(log: seq<Dispatch>, waiters: Per<seq<Waiter>>, nextId: nat, d: Dispatch, p: Priority)
    requires Orderly(log, waiters, nextId) && LeastInflight(d)
    requires d.queue == waiters.Get(d.Class())
    requires forall j | 0 <= j < d.pick :: d.queue[j].client != d.Chosen().client
    ensures var after := waiters.Set(d.Class(), Without(d.queue, d.pick));
      InQueue(after.Get(p), p, nextId) && ServedBefore(log + [d], after.Get(p), nextId)
  {
    hide FirstCome, InQueue, AheadOf, FirstMinimum;
    var q := waiters.Set(d.Class(), Without(d.queue, d.pick)).Get(p);
    assert InQueue(waiters.Get(p), p, nextId) && ServedBefore(log, waiters.Get(p), nextId);
    assert InQueue(d.queue, d.Class(), nextId) && ServedBefore(log, d.queue, nextId);
    LineWithout(log, d.queue, d.Class(), nextId, d.pick);
    assert InQueue(q, p, nextId) && ServedBefore(log, q, nextId);
    ServedIsAhead(d, q, p, nextId);
    forall i | 0 <= i < |log + [d]| ensures AheadOf((log + [d])[i], q, nextId) {
      if i < |log| { assert AheadOf(log[i], q, nextId); }
    }
  }

  lemma {:induction false} ArrivalIsOrderly(log: seq<Dispatch>, waiters: Per<seq<Waiter>>, nextId: nat, w: Waiter)
    requires Orderly(log, waiters, nextId) && w.id == nextId
    ensures Orderly(log, waiters.Set(w.priority, waiters.Get(w.priority) + [w]), nextId + 1)
  {
    var after := waiters.Set(w.priority, waiters.Get(w.priority) + [w]);
    forall p: Priority
      ensures InQueue(after.Get(p), p, nextId + 1) && ServedBefore(log, after.Get(p), nextId + 1)
    {
      assert InQueue(waiters.Get(p), p, nextId) && ServedBefore(log, waiters.Get(p), nextId);
      forall i | 0 <= i < |log| ensures AheadOf(log[i], after.Get(p), nextId + 1) {
        assert AheadOf(log[i], waiters.Get(p), nextId);
      }
    }
  }

  lemma {:induction false} LeavingIsOrderly(log: seq<Dispatch>, waiters: Per<seq<Waiter>>, nextId: nat, q: Priority, k: nat)
    requires Orderly(log, waiters, nextId) && k < |waiters.Get(q)|
    ensures Orderly(log, waiters.Set(q, Without(waiters.Get(q), k)), nextId)
  {
    hide FirstCome, InQueue, ServedBefore;
    var after := waiters.Set(q, Without(waiters.Get(q), k));
    forall p: Priority
      ensures InQueue(after.Get(p), p, nextId) && ServedBefore(log, after.Get(p), nextId)
    {
      assert InQueue(waiters.Get(p), p, nextId) && ServedBefore(log, waiters.Get(p), nextId);
      if p == q { LineWithout(log, waiters.Get(q), q, nextId, k); }
    }
  }

  // ---------------------------------------------------------------- one more dispatch

  function NonEmpty(waiters: Per<seq<Waiter>>): Per<bool> {
    Per(waiters.interactive != [], waiters.normal != [], waiters.background != [])
  }

  function Scores(queue: seq<Waiter>, perClient: map<string, int>): seq<int> {
    seq(|queue|, k requires 0 <= k < |queue| => Count(perClient, queue[k].client))
  }

  /** `index` is the first schedule position from `start` on whose class has a waiter. */
  ghost predicate FirstWaiting(waiters: Per<seq<Waiter>>, start: nat, index: nat) {
    && start < 7 && index < 7
    && waiters.Get(ClassAt(index)) != []
    && forall c | start <= c < start + Distance(start, index) :: waiters.Get(ClassAt(c)) == []
  }

  /** The record tells what was there, and the chosen waiter has left its queue. */
  ghost predicate Faithful(d: Dispatch, waiters: Per<seq<Waiter>>, perClient: map<string, int>, after: Per<seq<Waiter>>) {
    && d.index < 7 && d.waiting == NonEmpty(waiters) && d.queue == waiters.Get(d.Class())
    && d.scores == Scores(d.queue, perClient) && d.pick < |d.queue|
    && after == waiters.Set(d.Class(), Without(d.queue, d.pick))
  }

  lemma {:induction false} NextInTurn(log: seq<Dispatch>, waiters: Per<seq<Waiter>>, d: Dispatch)
    requires Chained(log) && FirstWaiting(waiters, Cursor(log), d.index)
    requires d.before == Cursor(log) && d.waiting == NonEmpty(waiters)
    ensures Chained(log + [d]) && Cursor(log + [d]) == d.After()
  {
    forall k | 0 <= k < |log + [d]| ensures TurnAt(log + [d], k) {
      if k < |log| { assert TurnAt(log, k); }
    }
  }

  lemma {:induction false} BestHasNoElder(queue: seq<Waiter>, perClient: map<string, int>, pick: nat)
    requires FirstMinimum(Scores(queue, perClient), pick)
    ensures pick < |queue| && forall j | 0 <= j < pick :: queue[j].client != queue[pick].client
  {
    var scores := Scores(queue, perClient);
    assert forall j | 0 <= j < |queue| :: scores[j] == Count(perClient, queue[j].client);
  }

  lemma {:induction false} NobodyWaits(waiters: Per<seq<Waiter>>, start: nat)
    requires start < 7 && forall c | start <= c < start + 7 :: waiters.Get(ClassAt(c)) == []
    ensures waiters == Per([], [], [])
  {
    var i := if start < 4 then start else 7;
    var n := if start <= 4 then 4 else 11;
    assert ClassAt(i) == Interactive && ClassAt(n) == Normal;
    assert ClassAt(6) == Background;
  }

  /** Every call that could settle was admitted, rejected or aborted, or is waiting. */
  ghost predicate Accounted(asked: Per<int>, outcomes: Per<Outcomes>, waiters: Per<seq<Waiter>>) {
    forall p: Priority :: AccountedFor(asked.Get(p), outcomes.Get(p), |waiters.Get(p)|)
  }

  ghost predicate AccountedFor(asked: int, o: Outcomes, waiting: int) {
    asked == o.admitted + o.rejected + o.aborted + waiting
  }

  /** A call that is admitted or rejected at once. */
  lemma {:induction false} SettledIsAccounted(asked: Per<int>, outcomes: Per<Outcomes>, waiters: Per<seq<Waiter>>,
                                              p: Priority, o: Outcomes)
    requires Accounted(asked, outcomes, waiters)
    requires var was := outcomes.Get(p); o.admitted + o.rejected + o.aborted == was.admitted + was.rejected + was.aborted + 1
    ensures Accounted(asked.Set(p, asked.Get(p) + 1), outcomes.Set(p, o), waiters)
  {
    var (now, after) := (asked.Set(p, asked.Get(p) + 1), outcomes.Set(p, o));
    forall q: Priority ensures AccountedFor(now.Get(q), after.Get(q), |waiters.Get(q)|) {
      assert AccountedFor(asked.Get(q), outcomes.Get(q), |waiters.Get(q)|);
    }
  }

  lemma {:induction false} DispatchIsAccounted(asked: Per<int>, outcomes: Per<Outcomes>,
                                               waiters: Per<seq<Waiter>>, p: Priority, rest: seq<Waiter>)
    requires Accounted(asked, outcomes, waiters) && |rest| == |waiters.Get(p)| - 1
    ensures var o := outcomes.Get(p);
      Accounted(asked, outcomes.Set(p, o.(admitted := o.admitted + 1)), waiters.Set(p, rest))
  {
    var o := outcomes.Get(p);
    var after := outcomes.Set(p, o.(admitted := o.admitted + 1));
    forall q: Priority
      ensures AccountedFor(asked.Get(q), after.Get(q), |waiters.Set(p, rest).Get(q)|)
    {
      assert AccountedFor(asked.Get(q), outcomes.Get(q), |waiters.Get(q)|);
    }
  }

  /** Every grant of `before` is still held. */
  ghost predicate StillHeld(before: map<nat, Grant>, after: map<nat, Grant>) {
    forall t | t in before :: t in after && after[t] == before[t]
  }

  /** Whoever holds a grant held it before or has a new ticket. */
  ghost predicate NewGrants(before: map<nat, Grant>, after: map<nat, Grant>, nextTicket: nat) {
    forall t | t in after :: t in before || t >= nextTicket
  }
}

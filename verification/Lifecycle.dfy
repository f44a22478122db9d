/** The registry of loaded models. Entries are objects that callers keep while they use them, so an
    entry can outlive its place in the map; here they are instances with a number each. The removal
    hook runs at once, the listener some time later or, if the hook fails, not at all. `pinned` always
    equals `always` and is left out. */
module Lifecycle {

  import opened Common

  type Key = string

  datatype EntryState = Warm | Active | Unloading

  /** `keepAlive` is a duration, or `None` for always. */
  datatype Instance = Instance(key: Key, keepAlive: Option<nat>, activeRequests: nat, lastUsed: int,
                               expiresAt: Option<int>, state: EntryState)
  {
    predicate Always() { keepAlive.None? }
  }

  datatype Cause = Unloaded | LastUseFinished | Expired | TimedOut | Evicted

  /** What was true when an instance left the map. */
  datatype Removal = Removal(instance: nat, activeRequests: nat, always: bool, cause: Cause)

  /** `held` counts, per instance, the usages that were begun and not finished; `uses` counts every
      load or touch after its creation. Both are history, as are the hooks. */
  datatype State = State(entries: map<Key, nat>, instances: seq<Instance>, timers: map<Key, nat>,
                         transitions: set<Key>, versions: map<Key, nat>,
                         held: seq<nat>, uses: seq<nat>,
                         removals: seq<Removal>, hooked: seq<nat>, pending: seq<nat>, listened: seq<nat>)

  datatype Snapshot = Snapshot(key: Key, idle: bool, activeRequests: nat, always: bool, lastUsed: int, version: nat)

  const NOTHING := State(map[], [], map[], {}, map[], [], [], [], [], [], [])

  predicate InMap(s: State, i: nat) {
    i < |s.instances| && s.instances[i].key in s.entries && s.entries[s.instances[i].key] == i
  }

  // ---------------------------------------------------------------- operations

  function Version(versions: map<Key, nat>, key: Key): nat { if key in versions then versions[key] else 0 }

  function Bump(s: State, key: Key): State { s.(versions := s.versions[key := Version(s.versions, key) + 1]) }

  function ExpiresAt(now: int, keepAlive: Option<nat>): Option<int> {
    if keepAlive.None? then None else Some(now + keepAlive.value)
  }

  function Put(s: State, i: nat, x: Instance): State
    requires i < |s.instances|
  {
    s.(instances := s.instances[i := x])
  }

  /** One more use of an instance, at `now`. */
  function Touch(s: State, i: nat, now: int): State
    requires i < |s.instances| == |s.uses|
  {
    var x := s.instances[i];
    var touched := Put(s, i, x.(lastUsed := now, expiresAt := ExpiresAt(now, x.keepAlive)));
    Bump(touched, x.key).(uses := s.uses[i := s.uses[i] + 1])
  }

  function ScheduleExpiry(s: State, i: nat): State
    requires i < |s.instances|
  {
    var x := s.instances[i];
    s.(timers := if x.Always() || x.expiresAt.None? then s.timers - {x.key} else s.timers[x.key := i])
  }

  function Delete(s: State, key: Key, cause: Cause): State
    requires key in s.entries ==> s.entries[key] < |s.instances|
  {
    var cleared := s.(timers := s.timers - {key}, entries := s.entries - {key},
      transitions := s.transitions - {key}, versions := s.versions - {key});
    if key !in s.entries then cleared
    else
      var i := s.entries[key];
      var x := s.instances[i];
      cleared.(removals := s.removals + [Removal(i, x.activeRequests, x.Always(), cause)],
        hooked := s.hooked + [i], pending := s.pending + [i])
  }

  /** `keepAlive` is what the caller asked for, or what is in force, or the default. */
  function Load(s: State, key: Key, requested: Option<Option<nat>>, fallback: Option<nat>, now: int): (r: (State, nat))
    requires key in s.entries ==> s.entries[key] < |s.instances|
    requires |s.uses| == |s.held| == |s.instances|
    ensures r.1 < |r.0.instances| == |r.0.uses| == |r.0.held|
  {
    var t := s.(transitions := s.transitions - {key});
    if key in s.entries then
      var i := s.entries[key];
      var x := s.instances[i];
      var keep := if requested.Some? then requested.value else x.keepAlive;
      var y := x.(keepAlive := keep, lastUsed := now, expiresAt := ExpiresAt(now, keep),
        state := if x.activeRequests > 0 then Active else Warm);
      (ScheduleExpiry(Bump(Put(t, i, y), key).(uses := s.uses[i := s.uses[i] + 1]), i), i)
    else
      var i := |s.instances|;
      var keep := if requested.Some? then requested.value else fallback;
      var y := Instance(key, keep, 0, now, ExpiresAt(now, keep), Warm);
      var added := t.(entries := s.entries[key := i], instances := s.instances + [y],
        held := s.held + [0], uses := s.uses + [0]);
      (ScheduleExpiry(Bump(added, key), i), i)
  }

  function BeginUsage(s: State, key: Key, requested: Option<Option<nat>>, fallback: Option<nat>, now: int): (r: (State, nat))
    requires key in s.entries ==> s.entries[key] < |s.instances|
    requires |s.uses| == |s.held| == |s.instances|
    ensures r.1 < |r.0.instances| == |r.0.uses| == |r.0.held|
  {
    var (t, i) := Load(s, key, requested, fallback, now);
    (Enter(t, i, now), i)
  }

  function Enter(s: State, i: nat, now: int): (t: State)
    requires i < |s.instances| == |s.uses| == |s.held|
    ensures |t.instances| == |t.uses| == |t.held| == |s.held|
  {
    var x := s.instances[i];
    var used := Put(s, i, x.(activeRequests := x.activeRequests + 1, state := Active));
    Touch(used.(held := s.held[i := s.held[i] + 1]), i, now)
  }

  function Leave(s: State, i: nat, now: int): (t: State)
    requires i < |s.instances| == |s.uses| == |s.held| && s.held[i] > 0
    ensures |t.instances| == |t.uses| == |t.held| == |s.held|
  {
    var x := s.instances[i];
    var left := Put(s, i, x.(activeRequests := if x.activeRequests > 0 then x.activeRequests - 1 else 0));
    Touch(left.(held := s.held[i := s.held[i] - 1]), i, now)
  }

  function Rest(s: State, i: nat): State
    requires i < |s.instances|
  {
    ScheduleExpiry(Put(s, i, s.instances[i].(state := Warm)), i)
  }

  predicate Sized(s: State) {
    |s.uses| == |s.held| == |s.instances| && forall key | key in s.entries :: s.entries[key] < |s.instances|
  }

  function FinishUsage(s: State, i: nat, now: int): State
    requires Sized(s) && i < |s.instances| && s.held[i] > 0
  {
    var (x, t) := (s.instances[i], Leave(s, i, now));
    if t.instances[i].activeRequests > 0 then t
    else if x.state.Unloading? then Delete(t.(transitions := t.transitions - {x.key}), x.key, LastUseFinished)
    else Rest(t, i)
  }

  function Unload(s: State, key: Key, now: int): State
    requires Sized(s)
  {
    if key !in s.entries then s
    else
      var i := s.entries[key];
      var x := s.instances[i];
      if x.activeRequests > 0 then
        Put(Bump(s.(transitions := s.transitions + {key}), key), i,
          x.(state := Unloading, keepAlive := Some(0), expiresAt := Some(now)))
      else Delete(s, key, Unloaded)
  }

  /** `expireIdle` for one key. */
  function Expire(s: State, key: Key, now: int): State
    requires Sized(s)
  {
    if key !in s.entries then s
    else
      var x := s.instances[s.entries[key]];
      if x.activeRequests > 0 || x.Always() || x.expiresAt.None? || x.expiresAt.value > now then s
      else Delete(s, key, Expired)
  }

  /** A timer goes off once. */
  function Fire(s: State, key: Key, now: int): State
    requires Sized(s) && key in s.timers && s.timers[key] < |s.instances|
  {
    var x := s.instances[s.timers[key]];
    var t := s.(timers := s.timers - {key});
    if x.activeRequests == 0 && x.expiresAt.Some? && x.expiresAt.value <= now then Delete(t, x.key, TimedOut) else t
  }

  function SnapshotOf(s: State, key: Key): Snapshot
    requires key in s.entries && s.entries[key] < |s.instances|
  {
    var x := s.instances[s.entries[key]];
    Snapshot(key, key !in s.transitions && x.activeRequests == 0, x.activeRequests, x.Always(), x.lastUsed,
      Version(s.versions, key))
  }

  predicate Unchanged(s: State, expected: Snapshot)
    requires Sized(s)
  {
    && expected.key in s.entries && expected.idle && expected.activeRequests == 0 && !expected.always
    && expected.key !in s.transitions
    && var x := s.instances[s.entries[expected.key]];
      && x.activeRequests == 0 && !x.Always() && x.state.Warm? && x.lastUsed == expected.lastUsed
      && expected.key in s.versions && s.versions[expected.key] == expected.version
  }

  /** Evicts if nothing has changed since the snapshot. */
  function TryEvictIdle(s: State, expected: Snapshot): State
    requires Sized(s)
  {
    if Unchanged(s, expected) then
      Delete(Bump(s.(transitions := s.transitions + {expected.key}), expected.key), expected.key, Evicted)
    else s
  }

  // ---------------------------------------------------------------- runs

  datatype Action =
    | DoLoad(key: Key, requested: Option<Option<nat>>)
    | DoBegin(key: Key, requested: Option<Option<nat>>)
    | DoFinish(instance: nat)
    | DoUnload(key: Key)
    | DoTransition(key: Key)
    | DoClearTransition(key: Key)
    | DoExpire(key: Key)
    | DoFire(key: Key)
    | DoEvict(expected: Snapshot)
    | DoListen(k: nat, fails: bool)

  predicate Enabled(s: State, a: Action) {
    match a
    case DoFinish(i) => i < |s.instances| && i < |s.held| && s.held[i] > 0
    case DoFire(key) => key in s.timers && s.timers[key] < |s.instances|
    case DoListen(k, _) => k < |s.pending|
    case _ => true
  }

  function Step(s: State, a: Action, fallback: Option<nat>, now: int): State
    requires Sized(s) && Enabled(s, a)
  {
    match a
    case DoLoad(key, requested) => Load(s, key, requested, fallback, now).0
    case DoBegin(key, requested) => BeginUsage(s, key, requested, fallback, now).0
    case DoFinish(i) => FinishUsage(s, i, now)
    case DoUnload(key) => Unload(s, key, now)
    case DoTransition(key) => Bump(s.(transitions := s.transitions + {key}), key)
    case DoClearTransition(key) => Bump(s.(transitions := s.transitions - {key}), key)
    case DoExpire(key) => Expire(s, key, now)
    case DoFire(key) => Fire(s, key, now)
    case DoEvict(expected) => TryEvictIdle(s, expected)
    case DoListen(k, fails) =>
      s.(pending := s.pending[..k] + s.pending[k + 1..],
        listened := if fails then s.listened else s.listened + [s.pending[k]])
  }

  // ---------------------------------------------------------------- what always holds

  predicate Versioned(versions: map<Key, nat>, key: Key) { key in versions && versions[key] > 0 }

  predicate EntryOk(s: State, key: Key)
    requires key in s.entries
  {
    s.entries[key] < |s.instances| && s.instances[s.entries[key]].key == key
    && Versioned(s.versions, key)
  }

  /** An instance in use is in the map, and its count is the number of usages that are not finished. */
  predicate InstanceOk(s: State, i: nat)
    requires |s.held| == |s.instances|
  {
    i < |s.instances| ==>
      && s.instances[i].activeRequests == s.held[i]
      && (s.held[i] > 0 ==> InMap(s, i))
      && (InMap(s, i) <==> i !in s.hooked)
      && (s.instances[i].state.Unloading? ==> !s.instances[i].Always())
  }

  predicate TimerOk(s: State, key: Key)
    requires key in s.timers
  {
    InMap(s, s.timers[key]) && s.instances[s.timers[key]].key == key && !s.instances[s.timers[key]].Always()
  }

  /** Removed only when idle, and an entry kept always only when it is unloaded explicitly. */
  predicate RemovalOk(r: Removal) { r.activeRequests == 0 && (r.always ==> r.cause.Unloaded?) }

  /** The hook runs at most once for an instance, and the listener at most once after that. */
  ghost predicate HooksOk(s: State) {
    && (forall k | 0 <= k < |s.hooked| :: s.hooked[k] < |s.instances|)
    && |s.removals| == |s.hooked| && (forall k | 0 <= k < |s.hooked| :: s.removals[k].instance == s.hooked[k])
    && (forall i: nat :: multiset(s.hooked)[i] <= 1)
    && multiset(s.pending) + multiset(s.listened) <= multiset(s.hooked)
  }

  ghost predicate Sound(s: State) {
    && Sized(s) && HooksOk(s)
    && (forall key | key in s.entries :: EntryOk(s, key))
    && (forall i: nat :: InstanceOk(s, i))
    && (forall key | key in s.timers :: TimerOk(s, key))
    && (forall k | 0 <= k < |s.removals| :: RemovalOk(s.removals[k]))
  }

  /** A state in which one instance is replaced and the maps beside it may change. */
  function With(s: State, i: nat, x: Instance, h: nat, timers: map<Key, nat>, versions: map<Key, nat>,
                transitions: set<Key>, uses: seq<nat>): State
    requires i < |s.instances| == |s.held|
  {
    s.(instances := s.instances[i := x], held := s.held[i := h], timers := timers, versions := versions,
      transitions := transitions, uses := uses)
  }

  lemma {:induction false} SameHooks(s: State, t: State)
    requires HooksOk(s) && |t.instances| == |s.instances|
    requires t.hooked == s.hooked && t.removals == s.removals && t.pending == s.pending && t.listened == s.listened
    ensures HooksOk(t)
  {
  }

  lemma {:induction false} WithIsSound(s: State, i: nat, x: Instance, h: nat, timers: map<Key, nat>, versions: map<Key, nat>,
                                       transitions: set<Key>, uses: seq<nat>)
    requires Sound(s) && i < |s.instances| && x.key == s.instances[i].key && x.activeRequests == h
    requires h > 0 ==> InMap(s, i)
    requires x.state.Unloading? ==> !x.Always()
    requires timers == s.timers || timers == s.timers - {x.key} || (timers == s.timers[x.key := i] && InMap(s, i))
    requires x.key in timers && InMap(s, i) ==> !x.Always()
    requires |uses| == |s.uses| && forall key | key in s.entries :: Versioned(versions, key)
    ensures Sound(With(s, i, x, h, timers, versions, transitions, uses))
  {
    hide HooksOk, RemovalOk;
    var t := With(s, i, x, h, timers, versions, transitions, uses);
    SameHooks(s, t);
    assert InstanceOk(s, i);
    forall j: nat ensures InMap(t, j) == InMap(s, j) && InstanceOk(t, j) { assert InstanceOk(s, j); }
    forall key | key in t.entries ensures EntryOk(t, key) { assert EntryOk(s, key); }
    forall key | key in t.timers ensures TimerOk(t, key) {
      if key in s.timers { assert TimerOk(s, key); }
    }
  }

  lemma {:induction false} OneMoreHook(s: State, i: nat)
    requires HooksOk(s) && i < |s.instances| && i !in s.hooked
    ensures forall j: nat :: multiset(s.hooked + [i])[j] <= 1
    ensures multiset(s.pending + [i]) + multiset(s.listened) <= multiset(s.hooked + [i])
  {
    assert multiset(s.hooked + [i]) == multiset(s.hooked) + multiset{i};
    assert multiset(s.pending + [i]) == multiset(s.pending) + multiset{i};
  }

  lemma {:induction false} HooksAfterDelete(s: State, key: Key, cause: Cause)
    requires HooksOk(s) && (key in s.entries ==> s.entries[key] < |s.instances| && s.entries[key] !in s.hooked)
    ensures HooksOk(Delete(s, key, cause))
  {
    if key in s.entries { OneMoreHook(s, s.entries[key]); }
  }

  lemma {:induction false} DeletedOk(s: State, key: Key, cause: Cause, j: nat)
    requires Sound(s) && (key in s.entries ==> s.instances[s.entries[key]].activeRequests == 0)
    ensures InstanceOk(Delete(s, key, cause), j)
  {
    assert InstanceOk(s, j);
    if key in s.entries { assert EntryOk(s, key) && InstanceOk(s, s.entries[key]); }
  }

  lemma {:induction false} DeleteIsSound(s: State, key: Key, cause: Cause)
    requires Sound(s)
    requires key in s.entries ==>
      var x := s.instances[s.entries[key]]; x.activeRequests == 0 && (x.Always() ==> cause.Unloaded?)
    ensures Sound(Delete(s, key, cause))
  {
    hide HooksOk;
    var t := Delete(s, key, cause);
    if key in s.entries {
      var i := s.entries[key];
      assert EntryOk(s, key) && InstanceOk(s, i);
    }
    HooksAfterDelete(s, key, cause);
    forall j: nat ensures InstanceOk(t, j) { DeletedOk(s, key, cause, j); }
    forall k | k in t.entries ensures EntryOk(t, k) { assert EntryOk(s, k); }
    forall k | k in t.timers ensures TimerOk(t, k) { assert TimerOk(s, k); }
  }

  lemma {:induction false} AddIsSound(s: State, y: Instance, timers: map<Key, nat>, versions: map<Key, nat>, transitions: set<Key>)
    requires Sound(s) && y.key !in s.entries && y.activeRequests == 0 && y.state.Warm?
    requires timers == s.timers - {y.key} || (timers == s.timers[y.key := |s.instances|] && !y.Always())
    requires Versioned(versions, y.key) && forall key | key in s.entries :: Versioned(versions, key)
    ensures Sound(s.(entries := s.entries[y.key := |s.instances|], instances := s.instances + [y], held := s.held + [0],
      uses := s.uses + [0], timers := timers, versions := versions, transitions := transitions))
  {
    var i := |s.instances|;
    var t := s.(entries := s.entries[y.key := i], instances := s.instances + [y], held := s.held + [0],
      uses := s.uses + [0], timers := timers, versions := versions, transitions := transitions);
    assert i !in s.hooked;
    forall j: nat ensures InstanceOk(t, j) { assert InstanceOk(s, j); }
    forall key | key in t.entries ensures EntryOk(t, key) { if key != y.key { assert EntryOk(s, key); } }
    forall key | key in t.timers ensures TimerOk(t, key) { if key != y.key { assert TimerOk(s, key); } }
  }

  lemma {:induction false} LoadIsSound(s: State, key: Key, requested: Option<Option<nat>>, fallback: Option<nat>, now: int)
    requires Sound(s)
    ensures var (t, i) := Load(s, key, requested, fallback, now);
      Sound(t) && InMap(t, i) && t.instances[i].key == key && !t.instances[i].state.Unloading?
  {
    if key in s.entries {
      KnownLoadIsSound(s, key, requested, fallback, now);
    } else {
      var (t, i) := Load(s, key, requested, fallback, now);
      AddIsSound(s, t.instances[i], t.timers, t.versions, t.transitions);
    }
  }

  lemma {:induction false} KnownLoadIsSound(s: State, key: Key, requested: Option<Option<nat>>, fallback: Option<nat>, now: int)
    requires Sound(s) && key in s.entries
    ensures var (t, i) := Load(s, key, requested, fallback, now);
      Sound(t) && InMap(t, i) && t.instances[i].key == key && !t.instances[i].state.Unloading?
  {
    var (t, i) := Load(s, key, requested, fallback, now);
    assert EntryOk(s, key) && InstanceOk(s, i);
    WithIsSound(s, i, t.instances[i], s.held[i], t.timers, t.versions, t.transitions, t.uses);
    assert t == With(s, i, t.instances[i], s.held[i], t.timers, t.versions, t.transitions, t.uses);
  }

  lemma {:induction false} EnterIsSound(s: State, i: nat, now: int)
    requires Sound(s) && InMap(s, i)
    ensures Sound(Enter(s, i, now)) && InMap(Enter(s, i, now), i)
  {
    var t := Enter(s, i, now);
    assert InstanceOk(s, i) && EntryOk(s, s.instances[i].key);
    assert s.instances[i].key in s.timers ==> TimerOk(s, s.instances[i].key);
    WithIsSound(s, i, t.instances[i], s.held[i] + 1, s.timers, t.versions, s.transitions, t.uses);
    assert t == With(s, i, t.instances[i], s.held[i] + 1, s.timers, t.versions, s.transitions, t.uses);
  }

  lemma {:induction false} LeaveIsSound(s: State, i: nat, now: int)
    requires Sound(s) && i < |s.instances| && s.held[i] > 0
    ensures Sound(Leave(s, i, now)) && InMap(Leave(s, i, now), i)
    ensures var (x, y) := (s.instances[i], Leave(s, i, now).instances[i]);
      y.key == x.key && y.keepAlive == x.keepAlive && y.activeRequests + 1 == x.activeRequests
  {
    var t := Leave(s, i, now);
    assert InstanceOk(s, i) && EntryOk(s, s.instances[i].key);
    assert s.instances[i].key in s.timers ==> TimerOk(s, s.instances[i].key);
    WithIsSound(s, i, t.instances[i], s.held[i] - 1, s.timers, t.versions, s.transitions, t.uses);
    assert t == With(s, i, t.instances[i], s.held[i] - 1, s.timers, t.versions, s.transitions, t.uses);
  }

  lemma {:induction false} RestIsSound(s: State, i: nat)
    requires Sound(s) && InMap(s, i)
    ensures Sound(Rest(s, i))
  {
    var t := Rest(s, i);
    assert InstanceOk(s, i) && EntryOk(s, s.instances[i].key);
    WithIsSound(s, i, t.instances[i], s.held[i], t.timers, s.versions, s.transitions, s.uses);
    assert t == With(s, i, t.instances[i], s.held[i], t.timers, s.versions, s.transitions, s.uses);
  }

  lemma {:induction false} BeginIsSound(s: State, key: Key, requested: Option<Option<nat>>, fallback: Option<nat>, now: int)
    requires Sound(s)
    ensures var (t, i) := BeginUsage(s, key, requested, fallback, now); Sound(t) && InMap(t, i)
  {
    LoadIsSound(s, key, requested, fallback, now);
    var (l, i) := Load(s, key, requested, fallback, now);
    EnterIsSound(l, i, now);
  }

  lemma {:induction false} FinishIsSound(s: State, i: nat, now: int)
    requires Sound(s) && i < |s.instances| && s.held[i] > 0
    ensures Sound(FinishUsage(s, i, now))
  {
    hide HooksOk, Leave, RemovalOk, Delete;
    var (x, t) := (s.instances[i], Leave(s, i, now));
    LeaveIsSound(s, i, now);
    assert InstanceOk(s, i);
    if t.instances[i].activeRequests == 0 {
      if x.state.Unloading? {
        BesideIsSound(t, t.timers, t.versions, t.transitions - {x.key});
        DeleteIsSound(t.(transitions := t.transitions - {x.key}), x.key, LastUseFinished);
      } else {
        RestIsSound(t, i);
      }
    }
  }

  /** Only the last usage of an instance that is unloading takes it away. */
  lemma {:induction false} FinishLeaves(s: State, i: nat, now: int)
    requires Sound(s) && i < |s.instances| && s.held[i] > 0
    ensures var (x, t) := (s.instances[i], FinishUsage(s, i, now));
      && x.activeRequests > 0 && |t.instances| == |s.instances| && t.instances[i].activeRequests == x.activeRequests - 1
      && (x.key in t.entries && t.entries[x.key] == i <==> x.activeRequests > 1 || !x.state.Unloading?)
  {
    assert InstanceOk(s, i);
  }

  lemma {:induction false} UnloadIsSound(s: State, key: Key, now: int)
    requires Sound(s)
    ensures Sound(Unload(s, key, now))
  {
    if key in s.entries {
      var (i, t) := (s.entries[key], Unload(s, key, now));
      assert EntryOk(s, key) && InstanceOk(s, i);
      if s.instances[i].activeRequests > 0 {
        WithIsSound(s, i, t.instances[i], s.held[i], s.timers, t.versions, t.transitions, s.uses);
        assert t == With(s, i, t.instances[i], s.held[i], s.timers, t.versions, t.transitions, s.uses);
      } else {
        DeleteIsSound(s, key, Unloaded);
      }
    }
  }

  /** Only the maps beside the entries change. */
  lemma {:induction false} BesideIsSound(s: State, timers: map<Key, nat>, versions: map<Key, nat>, transitions: set<Key>)
    requires Sound(s) && forall key | key in s.entries :: Versioned(versions, key)
    requires forall key | key in timers :: key in s.timers && timers[key] == s.timers[key]
    ensures Sound(s.(timers := timers, versions := versions, transitions := transitions))
  {
    var t := s.(timers := timers, versions := versions, transitions := transitions);
    forall j: nat ensures InstanceOk(t, j) { assert InstanceOk(s, j); }
    forall key | key in t.entries ensures EntryOk(t, key) { assert EntryOk(s, key); }
    forall key | key in t.timers ensures TimerOk(t, key) { assert TimerOk(s, key); }
  }

  lemma {:induction false} ExpireIsSound(s: State, key: Key, now: int)
    requires Sound(s)
    ensures Sound(Expire(s, key, now))
  {
    if key in s.entries {
      assert EntryOk(s, key);
      if Expire(s, key, now) != s { DeleteIsSound(s, key, Expired); }
    }
  }

  lemma {:induction false} FireIsSound(s: State, key: Key, now: int)
    requires Sound(s) && key in s.timers
    ensures Sound(Fire(s, key, now))
  {
    assert TimerOk(s, key);
    var t := s.(timers := s.timers - {key});
    BesideIsSound(s, t.timers, s.versions, s.transitions);
    assert t == s.(timers := t.timers, versions := s.versions, transitions := s.transitions);
    if Fire(s, key, now) != t { DeleteIsSound(t, key, TimedOut); }
  }

  lemma {:induction false} EvictIsSound(s: State, expected: Snapshot)
    requires Sound(s)
    ensures Sound(TryEvictIdle(s, expected))
  {
    if Unchanged(s, expected) {
      var t := Bump(s.(transitions := s.transitions + {expected.key}), expected.key);
      BesideIsSound(s, s.timers, t.versions, t.transitions);
      DeleteIsSound(t, expected.key, Evicted);
    }
  }

  lemma {:induction false} ListenIsSound(s: State, k: nat, fails: bool)
    requires Sound(s) && k < |s.pending|
    ensures Sound(Step(s, DoListen(k, fails), None, 0))
  {
    var t := Step(s, DoListen(k, fails), None, 0);
    assert s.pending == s.pending[..k] + [s.pending[k]] + s.pending[k + 1..];
    assert multiset(t.pending) + multiset{s.pending[k]} == multiset(s.pending);
    forall j: nat ensures InstanceOk(t, j) { assert InstanceOk(s, j); }
    forall key | key in t.entries ensures EntryOk(t, key) { assert EntryOk(s, key); }
    forall key | key in t.timers ensures TimerOk(t, key) { assert TimerOk(s, key); }
  }

  lemma {:induction false} MarkIsSound(s: State, key: Key, transitions: set<Key>)
    requires Sound(s)
    ensures Sound(Bump(s.(transitions := transitions), key))
  {
    var t := Bump(s.(transitions := transitions), key);
    forall k | k in s.entries ensures Versioned(t.versions, k) { assert EntryOk(s, k); }
    BesideIsSound(s, s.timers, t.versions, transitions);
    assert t == s.(timers := s.timers, versions := t.versions, transitions := transitions);
  }

  /** Every operation keeps the registry sound: only idle instances leave, only an explicit unload
      removes one that is kept always, and no hook runs twice. */
  lemma {:induction false} StepIsSound(s: State, a: Action, fallback: Option<nat>, now: int)
    requires Sound(s) && Enabled(s, a)
    ensures Sound(Step(s, a, fallback, now))
  {
    hide Sound, Load, BeginUsage, FinishUsage, Unload, Expire, Fire, TryEvictIdle;
    match a {
      case DoLoad(key, requested) => LoadIsSound(s, key, requested, fallback, now);
      case DoBegin(key, requested) => BeginIsSound(s, key, requested, fallback, now);
      case DoFinish(i) => FinishIsSound(s, i, now);
      case DoUnload(key) => UnloadIsSound(s, key, now);
      case DoTransition(key) => MarkIsSound(s, key, s.transitions + {key});
      case DoClearTransition(key) => MarkIsSound(s, key, s.transitions - {key});
      case DoExpire(key) => ExpireIsSound(s, key, now);
      case DoFire(key) => FireIsSound(s, key, now);
      case DoEvict(expected) => EvictIsSound(s, expected);
      case DoListen(k, fails) => ListenIsSound(s, k, fails);
    }
  }

  type Moment = (Action, Option<nat>, int)

  ghost predicate Runnable(s: State, run: seq<Moment>)
    decreases |run|
  {
    run == [] ||
    (Sized(s) && Enabled(s, run[0].0) && Runnable(Step(s, run[0].0, run[0].1, run[0].2), run[1..]))
  }

  ghost function After(s: State, run: seq<Moment>): State
    requires Runnable(s, run)
    decreases |run|
  {
    if run == [] then s else After(Step(s, run[0].0, run[0].1, run[0].2), run[1..])
  }

  /** Over every run without `cleanup`, from an empty registry or any sound one. */
  lemma {:induction false} EveryRunIsSound(s: State, run: seq<Moment>)
    requires Sound(s) && Runnable(s, run)
    ensures Sound(After(s, run))
    decreases |run|
  {
    if run != [] {
      StepIsSound(s, run[0].0, run[0].1, run[0].2);
      EveryRunIsSound(Step(s, run[0].0, run[0].1, run[0].2), run[1..]);
    }
  }

  lemma {:induction false} NothingIsSound()
    ensures Sound(NOTHING) && AllLast(NOTHING) && AllTimed(NOTHING)
  {
    assert forall i: nat :: InstanceOk(NOTHING, i);
  }

  /** What Sound says about one instance that has left. */
  lemma {:induction false} GoneForGood(s: State, i: nat)
    requires Sound(s) && i < |s.instances| && !InMap(s, i)
    ensures multiset(s.hooked)[i] == 1 && multiset(s.listened)[i] <= 1
    ensures s.held[i] == 0 && exists k :: 0 <= k < |s.removals| && s.removals[k].instance == i && RemovalOk(s.removals[k])
  {
    assert InstanceOk(s, i);
    var k :| 0 <= k < |s.hooked| && s.hooked[k] == i;
    assert s.removals[k].instance == i;
  }

  // ---------------------------------------------------------------- how long an entry is kept

  /** An entry runs out when it has not been used for as long as it is to be kept alive; one kept always never does, and
      one that is unloading is in use. */
  predicate Lasts(s: State, i: nat) {
    InMap(s, i) ==>
      var x := s.instances[i];
      match x.keepAlive
      case None => x.expiresAt.None? && !x.state.Unloading?
      case Some(duration) =>
        x.expiresAt.Some? && if x.state.Unloading? then x.activeRequests > 0 else x.expiresAt.value == x.lastUsed + duration
  }

  ghost predicate AllLast(s: State) { forall i: nat :: Lasts(s, i) }

  /** One instance has changed, others may have left. */
  lemma {:induction false} OthersLast(s: State, t: State, i: nat)
    requires AllLast(s) && Lasts(t, i)
    requires forall j: nat | j != i && InMap(t, j) :: InMap(s, j) && t.instances[j] == s.instances[j]
    ensures AllLast(t)
  {
    forall j: nat ensures Lasts(t, j) { assert Lasts(s, j); }
  }

  lemma {:induction false} LoadLasts(s: State, key: Key, requested: Option<Option<nat>>, fallback: Option<nat>, now: int)
    requires Sound(s) && AllLast(s)
    ensures var (t, i) := Load(s, key, requested, fallback, now);
      AllLast(t) && InMap(t, i) && !t.instances[i].state.Unloading?
  {
    var (t, i) := Load(s, key, requested, fallback, now);
    LoadIsSound(s, key, requested, fallback, now);
    if key in s.entries { assert EntryOk(s, key); }
    forall j: nat | j != i && InMap(t, j) ensures InMap(s, j) && t.instances[j] == s.instances[j] {
      assert EntryOk(t, t.instances[j].key);
    }
    OthersLast(s, t, i);
  }

  lemma {:induction false} EnterLasts(s: State, i: nat, now: int)
    requires Sized(s) && AllLast(s) && InMap(s, i)
    ensures AllLast(Enter(s, i, now))
  {
    assert Lasts(s, i);
    OthersLast(s, Enter(s, i, now), i);
  }

  lemma {:induction false} FinishLasts(s: State, i: nat, now: int)
    requires Sound(s) && AllLast(s) && i < |s.instances| && s.held[i] > 0
    ensures AllLast(FinishUsage(s, i, now))
  {
    var t := FinishUsage(s, i, now);
    assert InstanceOk(s, i) && Lasts(s, i);
    OthersLast(s, t, i);
  }

  lemma {:induction false} StepLasts(s: State, a: Action, fallback: Option<nat>, now: int)
    requires Sound(s) && AllLast(s) && Enabled(s, a)
    ensures AllLast(Step(s, a, fallback, now))
  {
    hide HooksOk, EntryOk, InstanceOk, TimerOk, RemovalOk, AllLast, Load, FinishUsage, Unload;
    match a {
      case DoLoad(key, requested) => LoadLasts(s, key, requested, fallback, now);
      case DoBegin(key, requested) =>
        LoadLasts(s, key, requested, fallback, now);
        LoadIsSound(s, key, requested, fallback, now);
        var (t, i) := Load(s, key, requested, fallback, now);
        EnterLasts(t, i, now);
      case DoFinish(i) => FinishLasts(s, i, now);
      case DoUnload(key) => UnloadLasts(s, key, now);
      case _ => FewerLast(s, Step(s, a, fallback, now));
    }
  }

  lemma {:induction false} UnloadLasts(s: State, key: Key, now: int)
    requires Sound(s) && AllLast(s)
    ensures AllLast(Unload(s, key, now))
  {
    if key in s.entries {
      assert EntryOk(s, key);
      OthersLast(s, Unload(s, key, now), s.entries[key]);
    }
  }

  /** Entries may have left, nothing else has changed. */
  lemma {:induction false} FewerLast(s: State, t: State)
    requires AllLast(s) && t.instances == s.instances
    requires forall key | key in t.entries :: key in s.entries && t.entries[key] == s.entries[key]
    ensures AllLast(t)
  {
    forall j: nat ensures Lasts(t, j) { assert Lasts(s, j); }
  }

  lemma {:induction false} EveryRunLasts(s: State, run: seq<Moment>)
    requires Sound(s) && AllLast(s) && Runnable(s, run)
    ensures AllLast(After(s, run))
    decreases |run|
  {
    hide Sound, AllLast, Step;
    if run != [] {
      StepIsSound(s, run[0].0, run[0].1, run[0].2);
      StepLasts(s, run[0].0, run[0].1, run[0].2);
      EveryRunLasts(Step(s, run[0].0, run[0].1, run[0].2), run[1..]);
    }
  }

  /** An idle entry that is not kept always has a timer of its own. */
  predicate Timed(s: State, i: nat) {
    InMap(s, i) && s.instances[i].activeRequests == 0 && s.instances[i].keepAlive.Some? ==>
      s.instances[i].key in s.timers && s.timers[s.instances[i].key] == i
  }

  ghost predicate AllTimed(s: State) { forall i: nat :: Timed(s, i) }

  /** A timer that goes off before its idle entry has run out. */
  predicate Early(s: State, a: Action, now: int) {
    a.DoFire? && a.key in s.timers && s.timers[a.key] < |s.instances| &&
      var x := s.instances[s.timers[a.key]]; x.activeRequests == 0 && x.expiresAt.Some? && x.expiresAt.value > now
  }

  lemma {:induction false} OthersTimed(s: State, t: State, i: nat)
    requires Sound(s) && AllTimed(s) && Timed(t, i)
    requires forall j: nat | j != i && InMap(t, j) :: InMap(s, j) && t.instances[j] == s.instances[j]
    requires forall key | key in s.timers && s.timers[key] != i && InMap(t, s.timers[key]) :: key in t.timers && t.timers[key] == s.timers[key]
    ensures AllTimed(t)
  {
    forall j: nat ensures Timed(t, j) { assert Timed(s, j); }
  }

  lemma {:induction false} LoadTimed(s: State, key: Key, requested: Option<Option<nat>>, fallback: Option<nat>, now: int)
    requires Sound(s) && AllTimed(s)
    ensures AllTimed(Load(s, key, requested, fallback, now).0)
  {
    hide HooksOk, RemovalOk, InstanceOk, AllTimed, Versioned, Load;
    var (t, i) := Load(s, key, requested, fallback, now);
    LoadIsSound(s, key, requested, fallback, now);
    LoadChanges(s, key, requested, fallback, now);
    forall j: nat | j != i && InMap(t, j) ensures InMap(s, j) && t.instances[j] == s.instances[j] {
      assert EntryOk(t, t.instances[j].key);
    }
    forall k | k in s.timers && s.timers[k] != i && InMap(t, s.timers[k]) ensures k in t.timers && t.timers[k] == s.timers[k] {
      assert TimerOk(s, k);
    }
    OthersTimed(s, t, i);
  }

  /** What a load changes: its own instance, entry and timer. */
  lemma {:induction false} LoadChanges(s: State, key: Key, requested: Option<Option<nat>>, fallback: Option<nat>, now: int)
    requires Sound(s)
    ensures var (t, i) := Load(s, key, requested, fallback, now);
      && |t.instances| >= |s.instances| && t.instances[i].key == key && t.entries == s.entries[key := i] && Timed(t, i)
      && (forall j | 0 <= j < |t.instances| && j != i :: j < |s.instances| && t.instances[j] == s.instances[j])
      && (forall k | k != key && k in s.timers :: k in t.timers && t.timers[k] == s.timers[k])
  {
    hide HooksOk, RemovalOk, InstanceOk, TimerOk;
    if key in s.entries { assert EntryOk(s, key); }
  }

  lemma {:induction false} EnterTimed(s: State, i: nat, now: int)
    requires Sound(s) && AllTimed(s) && InMap(s, i)
    ensures AllTimed(Enter(s, i, now))
  {
    OthersTimed(s, Enter(s, i, now), i);
  }

  lemma {:induction false} FinishTimed(s: State, i: nat, now: int)
    requires Sound(s) && AllLast(s) && AllTimed(s) && i < |s.instances| && s.held[i] > 0
    ensures AllTimed(FinishUsage(s, i, now))
  {
    var t := FinishUsage(s, i, now);
    assert InstanceOk(s, i) && Lasts(s, i);
    forall k | k in s.timers && s.timers[k] != i && InMap(t, s.timers[k]) ensures k in t.timers && t.timers[k] == s.timers[k] {
      assert TimerOk(s, k);
    }
    OthersTimed(s, t, i);
  }

  /** An entry leaves, with its timer. */
  lemma {:induction false} DeleteTimed(s: State, t: State, key: Key, cause: Cause)
    requires Sound(s) && AllTimed(s) && t.entries == s.entries - {key} && t.instances == s.instances
    requires t.timers == s.timers - {key}
    ensures AllTimed(t)
  {
    forall j: nat ensures Timed(t, j) { assert Timed(s, j); }
  }

  lemma {:induction false} StepTimed(s: State, a: Action, fallback: Option<nat>, now: int)
    requires Sound(s) && AllLast(s) && AllTimed(s) && Enabled(s, a) && !Early(s, a, now)
    ensures AllTimed(Step(s, a, fallback, now))
  {
    hide HooksOk, EntryOk, InstanceOk, TimerOk, RemovalOk, AllLast, AllTimed, Load, FinishUsage;
    var t := Step(s, a, fallback, now);
    match a {
      case DoLoad(key, requested) => LoadTimed(s, key, requested, fallback, now);
      case DoBegin(key, requested) =>
        LoadTimed(s, key, requested, fallback, now);
        LoadIsSound(s, key, requested, fallback, now);
        var (l, i) := Load(s, key, requested, fallback, now);
        EnterTimed(l, i, now);
      case DoFinish(i) => FinishTimed(s, i, now);
      case DoUnload(key) => UnloadTimed(s, key, now);
      case DoExpire(key) => if t != s { DeleteTimed(s, t, key, Expired); }
      case DoFire(key) => FireTimed(s, key, now);
      case DoEvict(expected) => if t != s { DeleteTimed(s, t, expected.key, Evicted); }
      case _ => SameTimed(s, t);
    }
  }

  lemma {:induction false} SameTimed(s: State, t: State)
    requires AllTimed(s) && t.entries == s.entries && t.instances == s.instances && t.timers == s.timers
    ensures AllTimed(t)
  {
    forall j: nat ensures Timed(t, j) { assert Timed(s, j); }
  }

  lemma {:induction false} UnloadTimed(s: State, key: Key, now: int)
    requires Sound(s) && AllTimed(s)
    ensures AllTimed(Unload(s, key, now))
  {
    var t := Unload(s, key, now);
    if key in s.entries {
      assert EntryOk(s, key);
      if s.instances[s.entries[key]].activeRequests > 0 {
        OthersTimed(s, t, s.entries[key]);
      } else {
        DeleteTimed(s, t, key, Unloaded);
      }
    }
  }

  lemma {:induction false} FireTimed(s: State, key: Key, now: int)
    requires Sound(s) && AllLast(s) && AllTimed(s) && Enabled(s, DoFire(key)) && !Early(s, DoFire(key), now)
    ensures AllTimed(Fire(s, key, now))
  {
    var t := Fire(s, key, now);
    assert TimerOk(s, key) && Lasts(s, s.timers[key]);
    forall j: nat ensures Timed(t, j) { assert Timed(s, j); }
  }

  /** Over every run in which no timer goes off early, an idle entry has its timer until it leaves; so one that is not
      used again is removed when it has run out. */
  lemma {:induction false} EveryRunIsTimed(s: State, run: seq<Moment>)
    requires Sound(s) && AllLast(s) && AllTimed(s) && Runnable(s, run) && NeverEarly(s, run)
    ensures AllTimed(After(s, run))
    decreases |run|
  {
    hide Sound, AllLast, AllTimed, Step;
    if run != [] {
      StepIsSound(s, run[0].0, run[0].1, run[0].2);
      StepLasts(s, run[0].0, run[0].1, run[0].2);
      StepTimed(s, run[0].0, run[0].1, run[0].2);
      EveryRunIsTimed(Step(s, run[0].0, run[0].1, run[0].2), run[1..]);
    }
  }

  ghost predicate NeverEarly(s: State, run: seq<Moment>)
    requires Runnable(s, run)
    decreases |run|
  {
    run == [] || (!Early(s, run[0].0, run[0].2) && NeverEarly(Step(s, run[0].0, run[0].1, run[0].2), run[1..]))
  }

  /** An idle entry is swept away exactly when it has not been used for its keep-alive duration, by a sweep or by its
      timer; one that is in use or kept always is not. */
  lemma {:induction false} ExpiresWhenUnused(s: State, key: Key, now: int)
    requires Sound(s) && AllLast(s) && key in s.entries
    ensures var x := s.instances[s.entries[key]];
      key !in Expire(s, key, now).entries <==>
        x.activeRequests == 0 && x.keepAlive.Some? && now >= x.lastUsed + x.keepAlive.value
    ensures key in s.timers && s.timers[key] == s.entries[key] ==>
      (key !in Fire(s, key, now).entries <==> key !in Expire(s, key, now).entries)
  {
    assert EntryOk(s, key) && Lasts(s, s.entries[key]);
  }

  // ---------------------------------------------------------------- optimistic eviction

  /** While an instance stays, its key's version grows at least as much as its uses. */
  predicate Grows(s: State, t: State, i: nat)
    requires |s.uses| == |s.instances| && |t.uses| == |t.instances| && i < |s.instances| <= |t.instances|
  {
    InMap(t, i) ==>
      && InMap(s, i) && t.instances[i].key == s.instances[i].key
      && var key := s.instances[i].key;
        t.uses[i] >= s.uses[i] && Version(t.versions, key) + s.uses[i] >= Version(s.versions, key) + t.uses[i]
  }

  lemma {:induction false} BeginGrows(s: State, key: Key, requested: Option<Option<nat>>, fallback: Option<nat>, now: int, i: nat)
    requires Sound(s) && i < |s.instances|
    ensures var t := BeginUsage(s, key, requested, fallback, now).0;
      |s.instances| <= |t.instances| && Grows(s, t, i)
  {
    LoadGrows(s, key, requested, fallback, now, i);
    LoadIsSound(s, key, requested, fallback, now);
    var (l, j) := Load(s, key, requested, fallback, now);
    EnterGrows(l, j, now, i);
  }

  lemma {:induction false} EnterGrows(s: State, j: nat, now: int, i: nat)
    requires Sound(s) && InMap(s, j) && i < |s.instances|
    ensures Grows(s, Enter(s, j, now), i)
  {
  }

  lemma {:induction false} LoadGrows(s: State, key: Key, requested: Option<Option<nat>>, fallback: Option<nat>, now: int, i: nat)
    requires Sound(s) && i < |s.instances|
    ensures var t := Load(s, key, requested, fallback, now).0;
      |s.instances| <= |t.instances| && Grows(s, t, i)
  {
    if key in s.entries { assert EntryOk(s, key); }
  }

  lemma {:induction false} FinishGrows(s: State, j: nat, now: int, i: nat)
    requires Sound(s) && i < |s.instances| && j < |s.instances| && s.held[j] > 0
    ensures var t := FinishUsage(s, j, now); |s.instances| <= |t.instances| && |t.uses| == |t.instances| && Grows(s, t, i)
  {
    assert InstanceOk(s, j);
    var l := Leave(s, j, now);
    assert Grows(s, l, i);
  }

  lemma {:induction false} StepGrows(s: State, a: Action, fallback: Option<nat>, now: int, i: nat)
    requires Sound(s) && Enabled(s, a) && i < |s.instances|
    ensures var t := Step(s, a, fallback, now);
      |s.instances| <= |t.instances| && |t.uses| == |t.instances| && Grows(s, t, i)
  {
    hide HooksOk, RemovalOk, Load, BeginUsage, FinishUsage;
    match a {
      case DoLoad(key, requested) => LoadGrows(s, key, requested, fallback, now, i);
      case DoBegin(key, requested) => BeginGrows(s, key, requested, fallback, now, i);
      case DoFinish(j) => FinishGrows(s, j, now, i);
      case DoUnload(key) => if key in s.entries { assert EntryOk(s, key); }
      case DoFire(key) => assert TimerOk(s, key);
      case DoExpire(key) =>
      case _ =>
    }
  }

  lemma {:induction false} RunGrows(s: State, run: seq<Moment>, i: nat)
    requires Sound(s) && Runnable(s, run) && i < |s.instances|
    ensures var t := After(s, run);
      |s.instances| <= |t.instances| && |t.uses| == |t.instances| && Grows(s, t, i)
    decreases |run|
  {
    if run != [] {
      StepIsSound(s, run[0].0, run[0].1, run[0].2);
      StepGrows(s, run[0].0, run[0].1, run[0].2, i);
      RunGrows(Step(s, run[0].0, run[0].1, run[0].2), run[1..], i);
    }
  }

  /** Nothing in this run happens before `from`. */
  predicate NotBefore(run: seq<Moment>, from: int) { forall k | 0 <= k < |run| :: run[k].2 >= from }

  /** Whoever is under the key now was there before or has been used since `from`. */
  predicate Since(s: State, key: Key, i: nat, from: int) {
    key in s.entries && s.entries[key] < |s.instances| ==>
      s.entries[key] == i || s.instances[s.entries[key]].lastUsed >= from
  }

  lemma {:induction false} FinishSince(s: State, j: nat, now: int, key: Key, i: nat, from: int)
    requires Sound(s) && j < |s.instances| && s.held[j] > 0 && Since(s, key, i, from) && now >= from
    ensures Since(FinishUsage(s, j, now), key, i, from)
  {
    assert InstanceOk(s, j);
    var l := Leave(s, j, now);
    assert Since(l, key, i, from);
  }

  lemma {:induction false} LoadSince(s: State, k: Key, requested: Option<Option<nat>>, fallback: Option<nat>, now: int,
                                     key: Key, i: nat, from: int)
    requires Sound(s) && Since(s, key, i, from) && now >= from
    ensures Since(Load(s, k, requested, fallback, now).0, key, i, from)
  {
    if key in s.entries { assert EntryOk(s, key); }
    if k in s.entries { assert EntryOk(s, k); }
  }

  lemma {:induction false} BeginSince(s: State, k: Key, requested: Option<Option<nat>>, fallback: Option<nat>, now: int,
                                      key: Key, i: nat, from: int)
    requires Sound(s) && Since(s, key, i, from) && now >= from
    ensures Since(BeginUsage(s, k, requested, fallback, now).0, key, i, from)
  {
    LoadSince(s, k, requested, fallback, now, key, i, from);
    EnterSince(Load(s, k, requested, fallback, now).0, Load(s, k, requested, fallback, now).1, now, key, i, from);
  }

  lemma {:induction false} EnterSince(s: State, j: nat, now: int, key: Key, i: nat, from: int)
    requires j < |s.instances| == |s.uses| == |s.held| && Since(s, key, i, from) && now >= from
    ensures Since(Enter(s, j, now), key, i, from)
  {
  }

  lemma {:induction false} StepSince(s: State, a: Action, fallback: Option<nat>, now: int, key: Key, i: nat, from: int)
    requires Sound(s) && Enabled(s, a) && Since(s, key, i, from) && now >= from
    ensures Since(Step(s, a, fallback, now), key, i, from)
  {
    match a {
      case DoLoad(k, requested) => LoadSince(s, k, requested, fallback, now, key, i, from);
      case DoBegin(k, requested) => BeginSince(s, k, requested, fallback, now, key, i, from);
      case DoFinish(j) => FinishSince(s, j, now, key, i, from);
      case DoFire(k) => assert TimerOk(s, k);
      case _ =>
    }
  }

  lemma {:induction false} RunSince(s: State, run: seq<Moment>, key: Key, i: nat, from: int)
    requires Sound(s) && Runnable(s, run) && NotBefore(run, from) && Since(s, key, i, from)
    ensures Since(After(s, run), key, i, from)
    decreases |run|
  {
    if run != [] {
      var (a, fallback, now) := run[0];
      StepIsSound(s, a, fallback, now);
      StepSince(s, a, fallback, now, key, i, from);
      RunSince(Step(s, a, fallback, now), run[1..], key, i, from);
    }
  }

  /** If after this run, in which nothing happens before `from`, an eviction with the snapshot of now goes
      ahead, then it removes the instance of the snapshot, and that was neither loaded nor touched. */
  ghost predicate EvictsItsOwn(s: State, run: seq<Moment>, key: Key, from: int)
    requires key in s.entries && Sound(s)
  {
    Runnable(s, run) && NotBefore(run, from) ==>
      var (t, i) := (After(s, run), s.entries[key]);
      Sized(t) && i < |s.uses| == |s.instances| && (Unchanged(t, SnapshotOf(s, key)) ==>
        && t.entries[key] == i && i < |t.uses| && t.uses[i] == s.uses[i]
        && !InMap(TryEvictIdle(t, SnapshotOf(s, key)), i))
  }

  /** A snapshot taken later than the last use that it shows evicts its own instance, whatever happens in
      between on a clock that does not go back. */
  lemma {:induction false} EvictedWasNotUsed(s: State, run: seq<Moment>, key: Key, from: int)
    requires Sound(s) && key in s.entries && from > SnapshotOf(s, key).lastUsed
    ensures EvictsItsOwn(s, run, key, from)
  {
    var i := s.entries[key];
    assert EntryOk(s, key);
    if Runnable(s, run) && NotBefore(run, from) {
      var t := After(s, run);
      EveryRunIsSound(s, run);
      RunSince(s, run, key, i, from);
      RunGrows(s, run, i);
      if Unchanged(t, SnapshotOf(s, key)) { assert EntryOk(t, key); }
    }
  }

  function Reloads(key: Key, n: nat, now: int): seq<Moment> {
    if n == 0 then [] else [(DoLoad(key, Some(Some(0))), None, now)] + Reloads(key, n - 1, now)
  }

  lemma {:induction false} ReloadsNotBefore(key: Key, n: nat, now: int)
    ensures NotBefore(Reloads(key, n, now), now)
  {
    if n > 0 { ReloadsNotBefore(key, n - 1, now); }
  }

  /** Loaded `n` times at `now` since it was created, and idle. */
  predicate LoadedTimes(s: State, key: Key, j: nat, now: int, n: nat) {
    && |s.uses| == |s.held| == |s.instances| && key in s.entries && s.entries[key] == j < |s.instances|
    && key !in s.transitions && key in s.versions && s.versions[key] == n
    && s.instances[j] == Instance(key, Some(0), 0, now, Some(now), Warm)
  }

  lemma {:induction false} ReloadsCount(s: State, key: Key, j: nat, now: int, m: nat, n: nat)
    requires Sound(s) && LoadedTimes(s, key, j, now, m)
    ensures Runnable(s, Reloads(key, n, now)) && LoadedTimes(After(s, Reloads(key, n, now)), key, j, now, m + n)
    decreases n
  {
    hide Step;
    if n > 0 {
      var t := OneReload(s, key, j, now, m, n);
      ReloadsCount(t, key, j, now, m + 1, n - 1);
    }
  }

  lemma {:induction false} OneReload(s: State, key: Key, j: nat, now: int, m: nat, n: nat) returns (t: State)
    requires Sound(s) && LoadedTimes(s, key, j, now, m) && n > 0
    ensures Sound(t) && LoadedTimes(t, key, j, now, m + 1)
    ensures Runnable(t, Reloads(key, n - 1, now)) ==>
      && Runnable(s, Reloads(key, n, now))
      && After(s, Reloads(key, n, now)) == After(t, Reloads(key, n - 1, now))
  {
    var load := DoLoad(key, Some(Some(0)));
    t := Step(s, load, None, now);
    StepIsSound(s, load, None, now);
    ReloadCounts(s, key, j, now, m);
    if Runnable(t, Reloads(key, n - 1, now)) { RunOneMore(s, load, None, now, Reloads(key, n - 1, now)); }
  }

  lemma {:induction false} ReloadCounts(s: State, key: Key, j: nat, now: int, m: nat)
    requires Sound(s) && LoadedTimes(s, key, j, now, m)
    ensures LoadedTimes(Step(s, DoLoad(key, Some(Some(0))), None, now), key, j, now, m + 1)
  {
  }

  lemma {:induction false} RunOneMore(s: State, a: Action, fallback: Option<nat>, now: int, rest: seq<Moment>)
    requires Sized(s) && Enabled(s, a) && Runnable(Step(s, a, fallback, now), rest)
    ensures var run := [(a, fallback, now)] + rest;
      Runnable(s, run) && After(s, run) == After(Step(s, a, fallback, now), rest)
  {
    var run := [(a, fallback, now)] + rest;
    assert run[0] == (a, fallback, now) && run[1..] == rest;
  }

  lemma {:induction false} ReloadedOnce(s: State, key: Key, now: int)
    requires Sound(s) && key in s.entries && s.entries[key] < |s.instances|
    requires s.instances[s.entries[key]].activeRequests == 0
    ensures var u := Step(s, DoUnload(key), None, now);
      Sound(u) && LoadedTimes(Step(u, DoLoad(key, Some(Some(0))), None, now), key, |s.instances|, now, 1)
  {
    UnloadIsSound(s, key, now);
  }

  /** Versions start again at 1: unload the instance and load the model as often as the snapshot's version
      says, all in the millisecond of its last use. */
  function Replay(s: State, key: Key): seq<Moment>
    requires key in s.entries && s.entries[key] < |s.instances|
  {
    var now := s.instances[s.entries[key]].lastUsed;
    [(DoUnload(key), None, now)] + Reloads(key, Version(s.versions, key), now)
  }

  lemma {:induction false} ReplayRuns(s: State, key: Key)
    requires Sound(s) && key in s.entries && Unchanged(s, SnapshotOf(s, key))
    ensures Runnable(s, Replay(s, key)) && Sound(After(s, Replay(s, key)))
    ensures LoadedTimes(After(s, Replay(s, key)), key, |s.instances|, SnapshotOf(s, key).lastUsed, Version(s.versions, key))
  {
    hide Step;
    var (now, v) := (SnapshotOf(s, key).lastUsed, Version(s.versions, key));
    assert EntryOk(s, key);
    var (u, load) := (Step(s, DoUnload(key), None, now), DoLoad(key, Some(Some(0))));
    ReloadedOnce(s, key, now);
    var t := Step(u, load, None, now);
    StepIsSound(u, load, None, now);
    ReloadsCount(t, key, |s.instances|, now, 1, v - 1);
    RunOneMore(u, load, None, now, Reloads(key, v - 1, now));
    RunOneMore(s, DoUnload(key), None, now, Reloads(key, v, now));
    EveryRunIsSound(s, Replay(s, key));
  }

  lemma {:induction false} SnapshotStillMatches(s: State, t: State, key: Key)
    requires Sound(s) && Sound(t) && key in s.entries && Unchanged(s, SnapshotOf(s, key))
    requires LoadedTimes(t, key, |s.instances|, SnapshotOf(s, key).lastUsed, Version(s.versions, key))
    ensures Unchanged(t, SnapshotOf(s, key)) && t.entries[key] != s.entries[key]
    ensures key !in TryEvictIdle(t, SnapshotOf(s, key)).entries
  {
    assert EntryOk(s, key);
  }

  /** After that the snapshot evicts an instance that it never saw. */
  lemma {:induction false} SuccessorIsEvicted(s: State, key: Key)
    requires Sound(s) && key in s.entries && Unchanged(s, SnapshotOf(s, key))
    ensures Runnable(s, Replay(s, key)) && NotBefore(Replay(s, key), SnapshotOf(s, key).lastUsed)
    ensures var t := After(s, Replay(s, key));
      && Sized(t) && Unchanged(t, SnapshotOf(s, key)) && t.entries[key] != s.entries[key]
      && key !in TryEvictIdle(t, SnapshotOf(s, key)).entries
  {
    ReplayRuns(s, key);
    ReloadsNotBefore(key, Version(s.versions, key), SnapshotOf(s, key).lastUsed);
    SnapshotStillMatches(s, After(s, Replay(s, key)), key);
  }

  /** The exact condition, for a snapshot that could evict now: every later eviction with it removes the
      instance that it shows, unused since, if and only if everything that happens after it happens later
      than the last use that it shows. A caller can see both times. */
  lemma {:induction false} EvictionIsOfTheSnapshot(s: State, key: Key, from: int)
    requires Sound(s) && key in s.entries && Unchanged(s, SnapshotOf(s, key))
    ensures (forall run :: EvictsItsOwn(s, run, key, from)) <==> from > SnapshotOf(s, key).lastUsed
  {
    if from > SnapshotOf(s, key).lastUsed {
      forall run ensures EvictsItsOwn(s, run, key, from) { EvictedWasNotUsed(s, run, key, from); }
    } else {
      SuccessorIsEvicted(s, key);
      assert !EvictsItsOwn(s, Replay(s, key), key, from);
    }
  }

  // ---------------------------------------------------------------- the manager

  /** Nobody is under the key, or an idle instance that this cause may remove. */
  predicate MayLeave(s: State, key: Key, cause: Cause)
    requires Sized(s)
  {
    key in s.entries ==> var x := s.instances[s.entries[key]]; x.activeRequests == 0 && (x.Always() ==> cause.Unloaded?)
  }

  predicate HasExpired(s: State, key: Key, now: int)
    requires Sized(s) && key in s.entries
  {
    var x := s.instances[s.entries[key]];
    x.activeRequests == 0 && !x.Always() && x.expiresAt.Some? && x.expiresAt.value <= now
  }

  class ModelLifecycleManager {
    var entries: map<Key, nat>
    var instances: seq<Instance>
    var timers: map<Key, nat>
    var residencyStates: set<Key>
    var residencyVersions: map<Key, nat>
    const fallback: Option<nat>
    ghost var past: State

    constructor (fallback: Option<nat>)
      ensures View() == NOTHING && Sound(View()) && this.fallback == fallback
    {
      entries, instances, timers, residencyStates, residencyVersions := map[], [], map[], {}, map[];
      past := NOTHING;
      this.fallback := fallback;
      new;
      NothingIsSound();
    }

    /** The fields, with the history that goes with them. */
    ghost function View(): State
      reads this
    {
      past.(entries := entries, instances := instances, timers := timers, transitions := residencyStates,
        versions := residencyVersions)
    }

    method BumpResidencyVersion(key: Key)
      modifies this`residencyVersions
      ensures View() == Bump(old(View()), key)
    {
      residencyVersions := residencyVersions[key := (if key in residencyVersions then residencyVersions[key] else 0) + 1];
    }

    method TouchEntry(i: nat, now: int)
      requires i < |instances| == |past.uses|
      modifies this
      ensures View() == Touch(old(View()), i, now)
    {
      var x := instances[i];
      instances := instances[i := x.(lastUsed := now, expiresAt := ExpiresAt(now, x.keepAlive))];
      BumpResidencyVersion(x.key);
      past := past.(uses := past.uses[i := past.uses[i] + 1]);
    }

    method Schedule(i: nat)
      requires i < |instances|
      modifies this`timers
      ensures View() == ScheduleExpiry(old(View()), i)
    {
      var x := instances[i];
      timers := timers - {x.key};
      if x.keepAlive.None? || x.expiresAt.None? { return; }
      timers := timers[x.key := i];
    }

    method DeleteEntry(key: Key, ghost cause: Cause)
      requires key in entries ==> entries[key] < |instances|
      modifies this
      ensures View() == Delete(old(View()), key, cause)
      ensures key !in entries && key !in timers && key !in residencyStates && key !in residencyVersions
      ensures old(Sound(View()) && MayLeave(View(), key, cause)) ==> Sound(View())
    {
      if Sound(View()) && MayLeave(View(), key, cause) { DeleteIsSound(View(), key, cause); }
      timers := timers - {key};
      ghost var before := entries;
      entries := entries - {key};
      residencyStates := residencyStates - {key};
      residencyVersions := residencyVersions - {key};
      if key in before {
        ghost var i := before[key];
        past := past.(removals := past.removals + [Removal(i, instances[i].activeRequests, instances[i].Always(), cause)],
          hooked := past.hooked + [i], pending := past.pending + [i]);
      }
    }

    /** Brings a known entry up to date. */
    method Refresh(i: nat, requested: Option<Option<nat>>, now: int)
      requires i < |instances| == |past.uses|
      modifies this`instances, this`past
      ensures var x := old(instances)[i]; var keep := if requested.Some? then requested.value else x.keepAlive;
        instances == old(instances)[i := x.(keepAlive := keep, lastUsed := now, expiresAt := ExpiresAt(now, keep),
          state := if x.activeRequests > 0 then Active else Warm)]
      ensures past == old(past).(uses := old(past).uses[i := old(past).uses[i] + 1])
    {
      var x := instances[i];
      var keep := if requested.Some? then requested.value else x.keepAlive;
      instances := instances[i := x.(keepAlive := keep, lastUsed := now, expiresAt := ExpiresAt(now, keep),
        state := if x.activeRequests > 0 then Active else Warm)];
      past := past.(uses := past.uses[i := past.uses[i] + 1]);
    }

    /** Every operation is its function on the fields, so the lemmas about runs apply to it. */
    method LoadModel(key: Key, requested: Option<Option<nat>>, now: int) returns (i: nat)
      requires Sound(View())
      modifies this
      ensures (View(), i) == Load(old(View()), key, requested, fallback, now) && Sound(View())
      ensures key in entries && entries[key] == i < |instances| && key !in residencyStates
      ensures instances[i].lastUsed == now && !instances[i].state.Unloading?
      ensures key in old(entries) ==> i == old(entries[key])
    {
      LoadIsSound(View(), key, requested, fallback, now);
      i := Insert(key, requested, now);
    }

    method Insert(key: Key, requested: Option<Option<nat>>, now: int) returns (i: nat)
      requires Sized(View())
      modifies this
      ensures (View(), i) == Load(old(View()), key, requested, fallback, now)
    {
      residencyStates := residencyStates - {key};
      if key in entries {
        i := entries[key];
        Refresh(i, requested, now);
        BumpResidencyVersion(key);
        Schedule(i);
      } else {
        i := |instances|;
        var keep := if requested.Some? then requested.value else fallback;
        instances := instances + [Instance(key, keep, 0, now, ExpiresAt(now, keep), Warm)];
        entries := entries[key := i];
        past := past.(held := past.held + [0], uses := past.uses + [0]);
        BumpResidencyVersion(key);
        Schedule(i);
      }
    }

    method EnterEntry(i: nat, now: int)
      requires i < |instances| == |past.uses| == |past.held|
      modifies this
      ensures View() == Enter(old(View()), i, now)
    {
      var x := instances[i];
      instances := instances[i := x.(activeRequests := x.activeRequests + 1, state := Active)];
      past := past.(held := past.held[i := past.held[i] + 1]);
      TouchEntry(i, now);
    }

    method LeaveEntry(i: nat, now: int)
      requires i < |instances| == |past.uses| == |past.held| && past.held[i] > 0
      modifies this
      ensures View() == Leave(old(View()), i, now)
    {
      var x := instances[i];
      instances := instances[i := x.(activeRequests := if x.activeRequests > 0 then x.activeRequests - 1 else 0)];
      past := past.(held := past.held[i := past.held[i] - 1]);
      TouchEntry(i, now);
    }

    method Begin(key: Key, requested: Option<Option<nat>>, now: int) returns (i: nat)
      requires Sound(View())
      modifies this
      ensures (View(), i) == BeginUsage(old(View()), key, requested, fallback, now) && Sound(View())
      ensures key in entries && entries[key] == i < |instances| && instances[i].activeRequests > 0
    {
      hide HooksOk, RemovalOk;
      BeginIsSound(View(), key, requested, fallback, now);
      i := LoadModel(key, requested, now);
      EnterEntry(i, now);
    }

    method Finish(i: nat, now: int)
      requires Sound(View()) && i < |instances| && past.held[i] > 0
      modifies this
      ensures View() == FinishUsage(old(View()), i, now) && Sound(View())
      ensures var x := old(instances)[i];
        && x.activeRequests > 0 && i < |instances| && instances[i].activeRequests == x.activeRequests - 1
        && (x.key in entries && entries[x.key] == i <==> x.activeRequests > 1 || !x.state.Unloading?)
    {
      hide HooksOk, RemovalOk;
      FinishIsSound(View(), i, now);
      FinishLeaves(View(), i, now);
      LeaveEntry(i, now);
      if instances[i].activeRequests == 0 {
        if instances[i].state.Unloading? {
          residencyStates := residencyStates - {instances[i].key};
          DeleteEntry(instances[i].key, LastUseFinished);
        } else {
          instances := instances[i := instances[i].(state := Warm)];
          Schedule(i);
        }
      }
    }

    method UnloadModel(key: Key, now: int) returns (unloaded: bool)
      requires Sound(View())
      modifies this
      ensures View() == Unload(old(View()), key, now) && Sound(View())
      ensures unloaded <==> key in old(entries) && key !in entries
    {
      UnloadIsSound(View(), key, now);
      if key !in entries { return false; }
      assert EntryOk(View(), key);
      var i := entries[key];
      var x := instances[i];
      if x.activeRequests > 0 {
        residencyStates := residencyStates + {key};
        BumpResidencyVersion(key);
        instances := instances[i := x.(state := Unloading, keepAlive := Some(0), expiresAt := Some(now))];
        return false;
      }
      DeleteEntry(key, Unloaded);
      return true;
    }

    /** Removes every expired entry and no other. */
    method ExpireIdle(now: int)
      requires Sound(View())
      modifies this
      ensures Sound(View()) && instances == old(instances)
      ensures forall key :: key in entries <==> key in old(entries) && !HasExpired(old(View()), key, now)
      ensures forall key | key in entries :: entries[key] == old(entries[key])
    {
      var keys := entries.Keys;
      while keys != {}
        invariant Sound(View()) && instances == old(instances)
        invariant keys <= old(entries).Keys
        invariant forall key :: key in entries <==>
          key in old(entries) && (key in keys || !HasExpired(old(View()), key, now))
        invariant forall key | key in entries :: entries[key] == old(entries[key])
        decreases keys
      {
        var key :| key in keys;
        keys := keys - {key};
        ExpireOne(key, now);
      }
    }

    method ExpireOne(key: Key, now: int)
      requires Sound(View()) && key in entries
      modifies this
      ensures Sound(View()) && instances == old(instances)
      ensures entries == if old(HasExpired(View(), key, now)) then old(entries) - {key} else old(entries)
    {
      assert EntryOk(View(), key);
      var x := instances[entries[key]];
      if !(x.activeRequests > 0 || x.keepAlive.None? || x.expiresAt.None?) && x.expiresAt.value <= now {
        DeleteEntry(key, Expired);
      }
    }

    /** The callback of the timer that `Schedule` set. */
    method FireTimer(key: Key, now: int)
      requires Sound(View()) && key in timers
      modifies this
      ensures View() == Fire(old(View()), key, now) && Sound(View()) && key !in timers
      ensures key in old(entries) && old(entries[key]) == old(timers[key])
      ensures key in entries <==> !HasExpired(old(View()), key, now)
    {
      FireIsSound(View(), key, now);
      assert TimerOk(View(), key);
      var x := instances[timers[key]];
      timers := timers - {key};
      if x.activeRequests == 0 && x.expiresAt.Some? && x.expiresAt.value <= now { DeleteEntry(x.key, TimedOut); }
    }

    method TryEvict(expected: Snapshot) returns (evicted: bool)
      requires Sound(View())
      modifies this
      ensures View() == TryEvictIdle(old(View()), expected) && Sound(View())
      ensures evicted <==> Unchanged(old(View()), expected)
      ensures evicted ==> expected.key !in entries
    {
      EvictIsSound(View(), expected);
      if expected.key !in entries || !expected.idle || expected.activeRequests != 0 || expected.always
        || expected.key in residencyStates { return false; }
      assert EntryOk(View(), expected.key);
      var x := instances[entries[expected.key]];
      if x.activeRequests != 0 || x.keepAlive.None? || !x.state.Warm? || x.lastUsed != expected.lastUsed
        || residencyVersions[expected.key] != expected.version { return false; }
      residencyStates := residencyStates + {expected.key};
      BumpResidencyVersion(expected.key);
      DeleteEntry(expected.key, Evicted);
      return true;
    }
  }
}

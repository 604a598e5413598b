/**
  Stale-while-refresh as a concurrent protocol. Any number of reader threads and
  refresh tasks interleave their locked sections with invalidations, clears and
  shutdown. A value remembers when its computation began and which database
  commit it read; floor is the newest commit whose invalidation has happened.
 */
module Refresh {
  import opened Wrappers
  import opened Cache

  /** Seconds an entry may be served. */
  const TTL := 3600

  datatype Origin = Inline | Background

  datatype Value = Value(began: nat, commit: nat, origin: Origin)

  /** Where a reader thread is inside the cache wrapper. */
  datatype Reader =
    | Idle
    | SawStale(key: Key)
    | Claimed(key: Key)
    | Tokened(key: Key, token: nat)
    | Refused(key: Key)
    | Waiting(key: Key)
    | Locked(key: Key)
    | Missed(key: Key)
    | Computing(key: Key, began: nat)
    | Computed(key: Key, value: Value)
    | Releasing(key: Key)

  datatype Stage = Queued | Running(began: nat) | Finished(value: Value) | Ended

  datatype Task = Task(key: Key, token: nat, stage: Stage)

  datatype Owner = ByReader(reader: nat) | ByTask(task: nat)

  /**
    floor, owners and settled are history: the newest invalidated commit, who must end each
    refresh, and the keys computed inline whose entry has not been dropped since.
   */
  datatype State = State(
    cache: Contents<Value>, registry: Registry, readers: map<nat, Reader>, locks: map<Key, nat>,
    tasks: map<nat, Task>, nextTask: nat,
    floor: nat, owners: map<Key, Owner>, settled: set<Key>)

  /** The path of a request that finds an entry. */
  datatype HitAct = Lookup(key: Key, now: int) | Claim | Token | Submit(refused: bool) | Unclaim

  /** The path of a request that finds none. */
  datatype MissAct = Acquire | Recheck(now: int) | Begin | Read(commit: nat) | Store(now: int) | Raise | Release

  /** A background refresh. */
  datatype TaskAct = Start | Query(commit: nat) | Publish(now: int) | Crash | Discard

  datatype Op =
    | Serve(reader: nat, hit: HitAct)
    | Fill(reader: nat, miss: MissAct)
    | Work(task: nat, work: TaskAct)
    | Invalidated(commit: nat)
    | Cleared
    | Stop

  const INITIAL := State(Contents(map[], 0), Registry({}, true), map[], map[], map[], 0, 0, map[], {})

  function At(s: State, reader: nat): Reader {
    if reader in s.readers then s.readers[reader] else Idle
  }

  function Go(s: State, reader: nat, next: Reader): State {
    s.(readers := s.readers[reader := next])
  }

  /** get_entry, with the history of dropped entries. */
  function Got(s: State, key: Key, now: int): State {
    var after := AfterGet(s.cache, key, now, TTL);
    s.(cache := after, settled := if key in after.items then s.settled else s.settled - {key})
  }

  // ------------------------------------------------------------ reader steps

  function StepLookup(s: State, r: nat, key: Key, now: int): State {
    if At(s, r) != Idle then s
    else match Found(s.cache, key, now, TTL)
      case None => Go(Got(s, key, now), r, Waiting(key))
      case Some(hit) => if hit.stale then Go(s, r, SawStale(key)) else s
  }

  function StepClaim(s: State, r: nat): State {
    if !At(s, r).SawStale? then s
    else
      var key := At(s, r).key;
      if key in s.registry.refreshing then Go(s, r, Idle)
      else
        Go(s, r, Claimed(key)).(
        registry := s.registry.(refreshing := s.registry.refreshing + {key}),
        owners := s.owners[key := ByReader(r)])
  }

  function StepToken(s: State, r: nat): State {
    if At(s, r).Claimed? then Go(s, r, Tokened(At(s, r).key, s.cache.generation)) else s
  }

  function StepSubmit(s: State, r: nat, refused: bool): State {
    if !At(s, r).Tokened? then s
    else
      var key := At(s, r).key;
      if s.registry.accepting && !refused then
        Go(s, r, Idle).(
        tasks := s.tasks[s.nextTask := Task(key, At(s, r).token, Queued)],
        owners := s.owners[key := ByTask(s.nextTask)],
        nextTask := s.nextTask + 1)
      else Go(s, r, Refused(key))
  }

  function EndRefresh(s: State, key: Key): State {
    s.(registry := Discarded(s.registry, key), owners := s.owners - {key})
  }

  function StepUnclaim(s: State, r: nat): State {
    if At(s, r).Refused? then EndRefresh(Go(s, r, Idle), At(s, r).key) else s
  }

  function StepAcquire(s: State, r: nat): State {
    if At(s, r).Waiting? && At(s, r).key !in s.locks then
      Go(s, r, Locked(At(s, r).key)).(locks := s.locks[At(s, r).key := r])
    else s
  }

  function StepRecheck(s: State, r: nat, now: int): State {
    if !At(s, r).Locked? then s
    else
      var key := At(s, r).key;
      if Found(s.cache, key, now, TTL).Some? then Go(s, r, Releasing(key))
      else Go(Got(s, key, now), r, Missed(key))
  }

  function StepBegin(s: State, r: nat): State {
    if At(s, r).Missed? then Go(s, r, Computing(At(s, r).key, s.cache.generation)) else s
  }

  /** The query reads one committed state, never older than what has been announced. */
  function StepRead(s: State, r: nat, commit: nat): State {
    if At(s, r).Computing? && s.floor <= commit then
      Go(s, r, Computed(At(s, r).key, Value(At(s, r).began, commit, Inline)))
    else s
  }

  function StepStore(s: State, r: nat, now: int): State {
    if !At(s, r).Computed? then s
    else
      var key := At(s, r).key;
      Go(s, r, Releasing(key)).(
      cache := AfterPut(s.cache, key, At(s, r).value, now),
      settled := s.settled + {key})
  }

  function StepRaise(s: State, r: nat): State {
    if At(s, r).Computing? then Go(s, r, Releasing(At(s, r).key)) else s
  }

  function StepRelease(s: State, r: nat): State {
    if At(s, r).Releasing? then Go(s, r, Idle).(locks := s.locks - {At(s, r).key}) else s
  }

  // -------------------------------------------------------------- task steps

  predicate AtStage(s: State, t: nat, stage: Stage) {
    t in s.tasks && s.tasks[t].stage == stage
  }

  function GoTask(s: State, t: nat, stage: Stage): State
    requires t in s.tasks
  {
    s.(tasks := s.tasks[t := s.tasks[t].(stage := stage)])
  }

  function StepStart(s: State, t: nat): State {
    if AtStage(s, t, Queued) then GoTask(s, t, Running(s.cache.generation)) else s
  }

  function StepReadTask(s: State, t: nat, commit: nat): State {
    if t in s.tasks && s.tasks[t].stage.Running? && s.floor <= commit then
      GoTask(s, t, Finished(Value(s.tasks[t].stage.began, commit, Background)))
    else s
  }

  function StepPublish(s: State, t: nat, now: int): State {
    if t in s.tasks && s.tasks[t].stage.Finished? then
      var task := s.tasks[t];
      GoTask(s, t, Ended).(cache := AfterPutIf(s.cache, task.key, task.stage.value, now, task.token))
    else s
  }

  function StepCrash(s: State, t: nat): State {
    if t in s.tasks && s.tasks[t].stage.Running? then GoTask(s, t, Ended) else s
  }

  function StepDiscard(s: State, t: nat): State {
    if AtStage(s, t, Ended) then EndRefresh(s.(tasks := s.tasks - {t}), s.tasks[t].key) else s
  }

  // ------------------------------------------------------- environment steps

  function StepInvalidated(s: State, commit: nat): State {
    if s.floor <= commit then s.(cache := AfterInvalidate(s.cache), floor := commit) else s
  }

  function StepCleared(s: State): State {
    s.(cache := AfterClear(s.cache), settled := {})
  }

  function ServeStep(s: State, r: nat, act: HitAct): State {
    match act
    case Lookup(key, now) => StepLookup(s, r, key, now)
    case Claim => StepClaim(s, r)
    case Token => StepToken(s, r)
    case Submit(refused) => StepSubmit(s, r, refused)
    case Unclaim => StepUnclaim(s, r)
  }

  function FillStep(s: State, r: nat, act: MissAct): State {
    match act
    case Acquire => StepAcquire(s, r)
    case Recheck(now) => StepRecheck(s, r, now)
    case Begin => StepBegin(s, r)
    case Read(commit) => StepRead(s, r, commit)
    case Store(now) => StepStore(s, r, now)
    case Raise => StepRaise(s, r)
    case Release => StepRelease(s, r)
  }

  function WorkStep(s: State, t: nat, act: TaskAct): State {
    match act
    case Start => StepStart(s, t)
    case Query(commit) => StepReadTask(s, t, commit)
    case Publish(now) => StepPublish(s, t, now)
    case Crash => StepCrash(s, t)
    case Discard => StepDiscard(s, t)
  }

  function Step(s: State, op: Op): State {
    match op
    case Serve(r, act) => ServeStep(s, r, act)
    case Fill(r, act) => FillStep(s, r, act)
    case Work(t, act) => WorkStep(s, t, act)
    case Invalidated(commit) => StepInvalidated(s, commit)
    case Cleared => StepCleared(s)
    case Stop => s.(registry := s.registry.(accepting := false))
  }

  function Run(ops: seq<Op>): State {
    if ops == [] then INITIAL else Step(Run(ops[..|ops| - 1]), ops[|ops| - 1])
  }

  // --------------------------------------------------------------- invariants

  /** The key a reader must still take out of the registry. */
  function Owed(reader: Reader): Option<Key> {
    match reader
    case Claimed(key) => Some(key)
    case Tokened(key, _) => Some(key)
    case Refused(key) => Some(key)
    case _ => None
  }

  /** The key whose lock a reader holds. */
  function Held(reader: Reader): Option<Key> {
    match reader
    case Locked(key) => Some(key)
    case Missed(key) => Some(key)
    case Computing(key, _) => Some(key)
    case Computed(key, _) => Some(key)
    case Releasing(key) => Some(key)
    case _ => None
  }

  /** The key a reader has found missing under its lock and has not stored yet. */
  function Filling(reader: Reader): Option<Key> {
    match reader
    case Missed(key) => Some(key)
    case Computing(key, _) => Some(key)
    case Computed(key, _) => Some(key)
    case _ => None
  }

  /** A key is being refreshed exactly while one owner, reader or task, has yet to end the refresh. */
  ghost predicate Owned(s: State) {
    && s.registry.refreshing == s.owners.Keys
    && (forall r :: r in s.readers && Owed(s.readers[r]).Some? ==>
          var key := Owed(s.readers[r]).value; key in s.owners && s.owners[key] == ByReader(r))
    && (forall t :: t in s.tasks ==>
          t < s.nextTask && s.tasks[t].key in s.owners && s.owners[s.tasks[t].key] == ByTask(t))
    && (forall key :: key in s.owners ==>
          match s.owners[key]
          case ByReader(r) => r in s.readers && Owed(s.readers[r]) == Some(key)
          case ByTask(t) => t in s.tasks && s.tasks[t].key == key)
  }

  /** A key lock is held by exactly the reader that is past acquiring it. */
  ghost predicate Exclusive(s: State) {
    && (forall r :: r in s.readers && Held(s.readers[r]).Some? ==>
          var key := Held(s.readers[r]).value; key in s.locks && s.locks[key] == r)
    && (forall key :: key in s.locks ==> s.locks[key] in s.readers && Held(s.readers[s.locks[key]]) == Some(key))
  }

  /** An inline result stays present until it is dropped, and nobody recomputes it meanwhile. */
  ghost predicate Settled(s: State) {
    && (forall key :: key in s.settled ==> key in s.cache.items)
    && (forall r :: r in s.readers && Filling(s.readers[r]).Some? ==> Filling(s.readers[r]).value !in s.settled)
  }

  /** A value of a computation that saw no invalidation reflects everything announced. */
  predicate Current(v: Value, generation: nat, floor: nat) {
    v.began == generation ==> v.commit >= floor
  }

  ghost predicate TaskOk(task: Task, generation: nat, floor: nat) {
    && task.token <= generation
    && (task.stage.Running? ==> task.token <= task.stage.began <= generation)
    && (task.stage.Finished? ==>
          && task.stage.value.origin == Background
          && task.token <= task.stage.value.began <= generation
          && Current(task.stage.value, generation, floor))
  }

  ghost predicate EntryOk(e: Entry<Value>, generation: nat, floor: nat) {
    && e.value.began <= e.generation <= generation
    && (e.value.origin == Background ==> e.value.began == e.generation)
    && Current(e.value, generation, floor)
  }

  ghost predicate ReaderOk(reader: Reader, generation: nat, floor: nat) {
    && (reader.Tokened? ==> reader.token <= generation)
    && (reader.Computing? ==> reader.began <= generation)
    && (reader.Computed? ==>
          reader.value.origin == Inline && reader.value.began <= generation && Current(reader.value, generation, floor))
  }

  /** No value claims to be newer than it is. */
  ghost predicate Fresh(s: State) {
    && (forall key :: key in s.cache.items ==> EntryOk(s.cache.items[key], s.cache.generation, s.floor))
    && (forall t :: t in s.tasks ==> TaskOk(s.tasks[t], s.cache.generation, s.floor))
    && (forall r :: r in s.readers ==> ReaderOk(s.readers[r], s.cache.generation, s.floor))
  }

  /** A move that leaves the registry and the reader's debt alone keeps ownership. */
  lemma MoveKeepsOwned(s: State, s': State, r: nat)
    requires Owned(s) && Owed(At(s, r)) == Owed(At(s', r))
    requires s'.registry.refreshing == s.registry.refreshing && s'.owners == s.owners
    requires s'.tasks == s.tasks && s'.nextTask == s.nextTask
    requires s'.readers == s.readers || s'.readers == s.readers[r := At(s', r)]
    ensures Owned(s')
  {
  }

  lemma ClaimKeepsOwned(s: State, r: nat)
    requires Owned(s)
    ensures Owned(StepClaim(s, r))
  {
    if At(s, r).SawStale? && At(s, r).key in s.registry.refreshing {
      MoveKeepsOwned(s, StepClaim(s, r), r);
    }
  }

  lemma AcceptKeepsOwned(s: State, r: nat)
    requires Owned(s) && At(s, r).Tokened? && s.registry.accepting
    ensures Owned(StepSubmit(s, r, false))
  {
  }

  lemma SubmitKeepsOwned(s: State, r: nat, refused: bool)
    requires Owned(s)
    ensures Owned(StepSubmit(s, r, refused))
  {
    hide Owned;
    if At(s, r).Tokened? && s.registry.accepting && !refused {
      AcceptKeepsOwned(s, r);
    } else {
      MoveKeepsOwned(s, StepSubmit(s, r, refused), r);
    }
  }

  lemma UnclaimKeepsOwned(s: State, r: nat)
    requires Owned(s)
    ensures Owned(StepUnclaim(s, r))
  {
  }

  lemma ServeKeepsOwned(s: State, r: nat, act: HitAct)
    requires Owned(s)
    ensures Owned(ServeStep(s, r, act))
  {
    hide Owned;
    match act {
      case Lookup(key, now) => MoveKeepsOwned(s, StepLookup(s, r, key, now), r);
      case Claim => ClaimKeepsOwned(s, r);
      case Token => MoveKeepsOwned(s, StepToken(s, r), r);
      case Submit(refused) => SubmitKeepsOwned(s, r, refused);
      case Unclaim => UnclaimKeepsOwned(s, r);
    }
  }

  lemma FillKeepsOwned(s: State, r: nat, act: MissAct)
    requires Owned(s)
    ensures Owned(FillStep(s, r, act))
  {
    hide Owned;
    MoveKeepsOwned(s, FillStep(s, r, act), r);
  }

  lemma WorkKeepsOwned(s: State, t: nat, act: TaskAct)
    requires Owned(s)
    ensures Owned(WorkStep(s, t, act))
  {
    match act {
      case Start =>
      case Query(_) =>
      case Publish(_) =>
      case Crash =>
      case Discard =>
    }
  }

  /** A move that leaves the locks and what the reader holds alone keeps exclusion. */
  lemma MoveKeepsExclusive(s: State, s': State, r: nat)
    requires Exclusive(s) && Held(At(s, r)) == Held(At(s', r)) && s'.locks == s.locks
    requires s'.readers == s.readers || s'.readers == s.readers[r := At(s', r)]
    ensures Exclusive(s')
  {
  }

  lemma ServeKeepsExclusive(s: State, r: nat, act: HitAct)
    requires Exclusive(s)
    ensures Exclusive(ServeStep(s, r, act))
  {
    hide Exclusive;
    MoveKeepsExclusive(s, ServeStep(s, r, act), r);
  }

  lemma AcquireKeepsExclusive(s: State, r: nat)
    requires Exclusive(s)
    ensures Exclusive(StepAcquire(s, r))
  {
  }

  lemma ReleaseKeepsExclusive(s: State, r: nat)
    requires Exclusive(s)
    ensures Exclusive(StepRelease(s, r))
  {
  }

  lemma FillKeepsExclusive(s: State, r: nat, act: MissAct)
    requires Exclusive(s)
    ensures Exclusive(FillStep(s, r, act))
  {
    hide Exclusive;
    match act {
      case Acquire => AcquireKeepsExclusive(s, r);
      case Release => ReleaseKeepsExclusive(s, r);
      case _ => MoveKeepsExclusive(s, FillStep(s, r, act), r);
    }
  }

  lemma WorkKeepsExclusive(s: State, t: nat, act: TaskAct)
    requires Exclusive(s)
    ensures Exclusive(WorkStep(s, t, act))
  {
    match act {
      case Start =>
      case Query(_) =>
      case Publish(_) =>
      case Crash =>
      case Discard =>
    }
  }

  lemma ServeKeepsSettled(s: State, r: nat, act: HitAct)
    requires Exclusive(s) && Settled(s)
    ensures Settled(ServeStep(s, r, act))
  {
    match act {
      case Lookup(_, _) =>
      case Claim =>
      case Token =>
      case Submit(_) =>
      case Unclaim =>
    }
  }

  lemma FillKeepsSettled(s: State, r: nat, act: MissAct)
    requires Exclusive(s) && Settled(s)
    ensures Settled(FillStep(s, r, act))
  {
    match act {
      case Acquire =>
      case Recheck(_) =>
      case Begin =>
      case Read(_) =>
      case Store(_) =>
      case Raise =>
      case Release =>
    }
  }

  lemma WorkKeepsSettled(s: State, t: nat, act: TaskAct)
    requires Exclusive(s) && Settled(s)
    ensures Settled(WorkStep(s, t, act))
  {
    match act {
      case Start =>
      case Query(_) =>
      case Publish(_) =>
      case Crash =>
      case Discard =>
    }
  }

  /** A move that touches no entry and claims no freshness keeps freshness. */
  lemma MoveKeepsFresh(s: State, s': State, r: nat)
    requires Fresh(s) && ReaderOk(At(s', r), s.cache.generation, s.floor)
    requires s'.cache.generation == s.cache.generation && s'.floor == s.floor && s'.tasks == s.tasks
    requires s'.cache.items == s.cache.items
    requires s'.readers == s.readers || s'.readers == s.readers[r := At(s', r)]
    ensures Fresh(s')
  {
  }

  lemma FreshReader(s: State, r: nat)
    requires Fresh(s)
    ensures ReaderOk(At(s, r), s.cache.generation, s.floor)
  {
  }

  lemma LookupKeepsFresh(s: State, r: nat, key: Key, now: int)
    requires Fresh(s)
    ensures Fresh(StepLookup(s, r, key, now))
  {
  }

  lemma SubmitKeepsFresh(s: State, r: nat, refused: bool)
    requires Fresh(s)
    ensures Fresh(StepSubmit(s, r, refused))
  {
  }

  lemma ServeKeepsFresh(s: State, r: nat, act: HitAct)
    requires Fresh(s)
    ensures Fresh(ServeStep(s, r, act))
  {
    FreshReader(s, r);
    hide Fresh;
    match act {
      case Lookup(key, now) => LookupKeepsFresh(s, r, key, now);
      case Submit(refused) => SubmitKeepsFresh(s, r, refused);
      case _ => MoveKeepsFresh(s, ServeStep(s, r, act), r);
    }
  }

  lemma FillKeepsFresh(s: State, r: nat, act: MissAct)
    requires Fresh(s)
    ensures Fresh(FillStep(s, r, act))
  {
    match act {
      case Acquire =>
      case Recheck(_) =>
      case Begin =>
      case Read(_) =>
      case Store(_) =>
      case Raise =>
      case Release =>
    }
  }

  lemma WorkKeepsFresh(s: State, t: nat, act: TaskAct)
    requires Fresh(s)
    ensures Fresh(WorkStep(s, t, act))
  {
    match act {
      case Start =>
      case Query(_) =>
      case Publish(_) =>
      case Crash =>
      case Discard =>
    }
  }

  ghost predicate Inv(s: State) {
    Owned(s) && Exclusive(s) && Settled(s) && Fresh(s)
  }

  lemma EnvironmentKeepsFresh(s: State, op: Op)
    requires Fresh(s) && (op.Invalidated? || op.Cleared? || op.Stop?)
    ensures Fresh(Step(s, op))
  {
  }

  lemma EnvironmentKeepsInv(s: State, op: Op)
    requires Inv(s) && (op.Invalidated? || op.Cleared? || op.Stop?)
    ensures Inv(Step(s, op))
  {
    EnvironmentKeepsFresh(s, op);
    hide Fresh;
  }

  lemma StepKeepsInv(s: State, op: Op)
    requires Inv(s)
    ensures Inv(Step(s, op))
  {
    hide Owned, Exclusive, Settled, Fresh;
    match op {
      case Serve(r, act) =>
        ServeKeepsOwned(s, r, act);
        ServeKeepsExclusive(s, r, act);
        ServeKeepsSettled(s, r, act);
        ServeKeepsFresh(s, r, act);
      case Fill(r, act) =>
        FillKeepsOwned(s, r, act);
        FillKeepsExclusive(s, r, act);
        FillKeepsSettled(s, r, act);
        FillKeepsFresh(s, r, act);
      case Work(t, act) =>
        WorkKeepsOwned(s, t, act);
        WorkKeepsExclusive(s, t, act);
        WorkKeepsSettled(s, t, act);
        WorkKeepsFresh(s, t, act);
      case _ => EnvironmentKeepsInv(s, op);
    }
  }

  /** Every interleaving keeps all of it. */
  lemma {:induction false} RunKeepsInv(ops: seq<Op>)
    ensures var s := Run(ops); Owned(s) && Exclusive(s) && Settled(s) && Fresh(s)
  {
    if ops != [] {
      RunKeepsInv(ops[..|ops| - 1]);
      StepKeepsInv(Run(ops[..|ops| - 1]), ops[|ops| - 1]);
    }
  }

  // -------------------------------------------------------------------- runs

  lemma RunPrefix(ops: seq<Op>, i: nat)
    requires i < |ops|
    ensures Run(ops[..i + 1]) == Step(Run(ops[..i]), ops[i])
  {
    assert ops[..i + 1][..i] == ops[..i];
  }

  lemma RunSnoc(ops: seq<Op>, op: Op)
    ensures Run(ops + [op]) == Step(Run(ops), op)
  {
    assert (ops + [op])[..|ops|] == ops;
  }

  // ------------------------------------------------------------ single flight

  /** No two readers compute the same key at once. */
  lemma SingleInline(ops: seq<Op>, a: nat, b: nat)
    requires Filling(At(Run(ops), a)).Some? && Filling(At(Run(ops), a)) == Filling(At(Run(ops), b))
    ensures a == b
  {
    RunKeepsInv(ops);
  }

  /** No two accepted tasks refresh the same key at once. */
  lemma SingleBackground(ops: seq<Op>, a: nat, b: nat)
    requires a in Run(ops).tasks && b in Run(ops).tasks && Run(ops).tasks[a].key == Run(ops).tasks[b].key
    ensures a == b
  {
    RunKeepsInv(ops);
  }

  ghost predicate Owns(s: State, owner: Owner, key: Key) {
    match owner
    case ByReader(r) => Owed(At(s, r)) == Some(key)
    case ByTask(t) => t in s.tasks && s.tasks[t].key == key
  }

  /** A key is registered as refreshing exactly while someone still has to end its refresh, and then one only. */
  lemma RefreshingIffOwned(ops: seq<Op>, key: Key)
    ensures key in Run(ops).registry.refreshing <==> exists owner :: Owns(Run(ops), owner, key)
    ensures forall a, b :: Owns(Run(ops), a, key) && Owns(Run(ops), b, key) ==> a == b
  {
    RunKeepsInv(ops);
    var s := Run(ops);
    if key in s.registry.refreshing {
      assert Owns(s, s.owners[key], key);
    }
  }

  /** How far the owner of a refresh is from ending it. */
  function Distance(s: State, key: Key): nat {
    if key !in s.owners then 0
    else match s.owners[key]
      case ByReader(r) => (
        match At(s, r)
        case Claimed(_) => 7
        case Tokened(_, _) => 6
        case _ => 1)
      case ByTask(t) =>
        if t !in s.tasks then 1
        else (
          match s.tasks[t].stage
          case Queued => 5
          case Running(_) => 4
          case Finished(_) => 3
          case Ended => 2)
  }

  /** A step the owner of a refresh can take. */
  function NextStep(s: State, key: Key): Op
    requires key in s.owners
  {
    match s.owners[key]
    case ByReader(r) => (
      match At(s, r)
      case Claimed(_) => Serve(r, Token)
      case Tokened(_, _) => Serve(r, Submit(false))
      case _ => Serve(r, Unclaim))
    case ByTask(t) =>
      if t !in s.tasks then Stop
      else (
        match s.tasks[t].stage
        case Queued => Work(t, Start)
        case Running(_) => Work(t, Query(s.floor))
        case Finished(_) => Work(t, Publish(0))
        case Ended => Work(t, Discard))
  }

  lemma OwnerCanStep(s: State, key: Key)
    requires Owned(s) && key in s.owners
    ensures Distance(Step(s, NextStep(s, key)), key) < Distance(s, key)
  {
  }

  /** A continuation in which nobody but the owner of one refresh acts, and only to bring its end nearer. */
  ghost predicate OwnerOnly(s: State, more: seq<Op>, key: Key)
    decreases |more|
  {
    more == [] || (key in s.owners && more[0] == NextStep(s, key) && OwnerOnly(Step(s, more[0]), more[1..], key))
  }

  /** From any state every outstanding refresh can be ended in at most seven steps of its owner alone. */
  lemma RefreshCanEnd(ops: seq<Op>, key: Key)
    ensures exists more :: |more| <= 7 && OwnerOnly(Run(ops), more, key)
                           && key !in Run(ops + more).registry.refreshing
  {
    var more := EndRefreshOf(ops, key);
  }

  lemma AtMostSeven(s: State, key: Key)
    ensures Distance(s, key) <= 7
  {
  }

  lemma {:induction false} EndRefreshOf(ops: seq<Op>, key: Key) returns (more: seq<Op>)
    ensures |more| <= Distance(Run(ops), key) <= 7 && OwnerOnly(Run(ops), more, key)
    ensures key !in Run(ops + more).registry.refreshing
    decreases Distance(Run(ops), key)
  {
    RunKeepsInv(ops);
    var s := Run(ops);
    AtMostSeven(s, key);
    hide Step, NextStep, Distance, Exclusive, Settled, Fresh;
    if key !in s.owners {
      assert ops + [] == ops;
      return [];
    }
    var op := NextStep(s, key);
    OwnerCanStep(s, key);
    RunSnoc(ops, op);
    var rest := EndRefreshOf(ops + [op], key);
    more := [op] + rest;
    assert ops + [op] + rest == ops + more && more[1..] == rest;
  }

  // --------------------------------------------------- recomputing inline

  predicate StoresInline(s: State, op: Op, key: Key) {
    op.Fill? && op.miss.Store? && At(s, op.reader).Computed? && At(s, op.reader).key == key
  }

  predicate Drops(s: State, op: Op, key: Key) {
    key in s.cache.items && key !in Step(s, op).cache.items
  }

  /** Only expiry and clearing drop an entry. */
  lemma DropsOnlyIf(s: State, op: Op, key: Key)
    requires Drops(s, op, key)
    ensures op.Cleared?
         || (op.Serve? && op.hit.Lookup? && op.hit.key == key && Expired(s.cache.items[key], op.hit.now, TTL))
         || (op.Fill? && op.miss.Recheck? && At(s, op.reader) == Locked(key)
             && Expired(s.cache.items[key], op.miss.now, TTL))
  {
    match op {
      case Serve(r, act) =>
        match act {
          case Lookup(_, _) =>
          case _ =>
        }
      case Fill(r, act) =>
        match act {
          case Recheck(_) =>
          case _ =>
        }
      case _ =>
    }
  }

  lemma StoredIsSettled(s: State, op: Op, key: Key)
    requires StoresInline(s, op, key)
    ensures key in Step(s, op).settled
  {
  }

  lemma SettledUnlessDropped(s: State, op: Op, key: Key)
    requires Settled(s) && key in s.settled && !Drops(s, op, key)
    ensures key in Step(s, op).settled
  {
    match op {
      case Serve(r, act) =>
      case Fill(r, act) =>
      case Work(t, act) =>
      case Invalidated(_) =>
      case Cleared =>
      case Stop =>
    }
  }

  /** Between an inline result and the end of a run in which its entry is not dropped, the key stays settled. */
  lemma {:induction false} StaysSettled(ops: seq<Op>, i: nat, j: nat, key: Key)
    requires i < j <= |ops| && StoresInline(Run(ops[..i]), ops[i], key)
    requires forall m :: i < m < j ==> !Drops(Run(ops[..m]), ops[m], key)
    ensures key in Run(ops[..j]).settled
  {
    hide Step, StoresInline, Drops, Owned, Exclusive, Settled, Fresh;
    var before, op := ops[..j - 1], ops[j - 1];
    assert ops[..j] == before + [op];
    RunSnoc(before, op);
    if j == i + 1 {
      StoredIsSettled(Run(before), op, key);
    } else {
      StaysSettled(ops, i, j - 1, key);
      RunKeepsInv(before);
      SettledUnlessDropped(Run(before), op, key);
    }
  }

  /** Between two inline results for one key, the first one's entry was dropped. */
  lemma SecondInlineNeedsDrop(ops: seq<Op>, i: nat, j: nat, key: Key)
    requires i < j < |ops| && StoresInline(Run(ops[..i]), ops[i], key) && StoresInline(Run(ops[..j]), ops[j], key)
    ensures exists m :: i < m < j && Drops(Run(ops[..m]), ops[m], key)
  {
    var s := Run(ops[..j]);
    RunKeepsInv(ops[..j]);
    assert Filling(At(s, ops[j].reader)) == Some(key) && key !in s.settled;
    if forall m :: i < m < j ==> !Drops(Run(ops[..m]), ops[m], key) {
      StaysSettled(ops, i, j, key);
    }
  }

  // ----------------------------------------------------------------- shutdown

  /** Once submissions are refused, no task is ever added. */
  lemma StoppedAddsNoTask(s: State, op: Op)
    requires !s.registry.accepting
    ensures !Step(s, op).registry.accepting && Step(s, op).tasks.Keys <= s.tasks.Keys
  {
    match op {
      case Serve(r, act) =>
      case Fill(r, act) =>
      case Work(t, act) =>
      case _ =>
    }
  }

  // ------------------------------------------------- the two paths, undisturbed

  /** What one request and its refresh do to a stale entry when nobody interferes. */
  function RefreshPath(r: nat, key: Key, now: int, t: nat, commit: nat, later: int): seq<Op> {
    [Serve(r, Lookup(key, now)), Serve(r, Claim), Serve(r, Token), Serve(r, Submit(false)),
     Work(t, Start), Work(t, Query(commit)), Work(t, Publish(later)), Work(t, Discard)]
  }

  /** What one request does to a missing entry when nobody interferes. */
  function FillPath(r: nat, key: Key, now: int, commit: nat, later: int): seq<Op> {
    [Serve(r, Lookup(key, now)), Fill(r, Acquire), Fill(r, Recheck(now)), Fill(r, Begin),
     Fill(r, Read(commit)), Fill(r, Store(later)), Fill(r, Release)]
  }

  function Steps(s: State, ops: seq<Op>): State {
    if ops == [] then s else Step(Steps(s, ops[..|ops| - 1]), ops[|ops| - 1])
  }

  lemma StepsPrefix(s: State, ops: seq<Op>, i: nat)
    requires i < |ops|
    ensures Steps(s, ops[..i + 1]) == Step(Steps(s, ops[..i]), ops[i])
  {
    assert ops[..i + 1][..i] == ops[..i];
  }

  lemma {:induction false} RunThenSteps(ops: seq<Op>, more: seq<Op>)
    ensures Run(ops + more) == Steps(Run(ops), more)
  {
    if more == [] {
      assert ops + more == ops;
    } else {
      var n := |more| - 1;
      assert (ops + more)[..|ops + more| - 1] == ops + more[..n];
      RunThenSteps(ops, more[..n]);
    }
  }

  lemma ServedStale(s: State, r: nat, key: Key, now: int, path: seq<Op>)
    requires At(s, r) == Idle && s.registry.accepting && key !in s.registry.refreshing && |path| == 8
    requires Found(s.cache, key, now, TTL).Some? && Found(s.cache, key, now, TTL).value.stale
    requires path[0] == Serve(r, Lookup(key, now)) && path[1] == Serve(r, Claim) && path[2] == Serve(r, Token)
    requires path[3] == Serve(r, Submit(false))
    ensures var t := Steps(s, path[..4]);
      && At(t, r) == Idle && t.cache == s.cache && t.floor == s.floor
      && t.tasks == s.tasks[s.nextTask := Task(key, s.cache.generation, Queued)]
      && t.registry.refreshing == s.registry.refreshing + {key}
  {
    assert path[..0] == [];
    StepsPrefix(s, path, 0);
    StepsPrefix(s, path, 1);
    StepsPrefix(s, path, 2);
    StepsPrefix(s, path, 3);
  }

  lemma TaskComputes(s: State, t: nat, commit: nat, path: seq<Op>)
    requires |path| == 2 && path[0] == Work(t, Start) && path[1] == Work(t, Query(commit))
    requires AtStage(s, t, Queued) && s.floor <= commit
    ensures Steps(s, path) == GoTask(s, t, Finished(Value(s.cache.generation, commit, Background)))
  {
    assert path[..0] == [] && path[..2] == path;
    StepsPrefix(s, path, 0);
    StepsPrefix(s, path, 1);
    var running := GoTask(s, t, Running(s.cache.generation));
    assert Steps(s, path[..1]) == running;
    var finished := Finished(Value(s.cache.generation, commit, Background));
    assert GoTask(running, t, finished).tasks == GoTask(s, t, finished).tasks;
  }

  lemma TaskPublishes(s: State, t: nat, later: int, path: seq<Op>)
    requires |path| == 2 && path[0] == Work(t, Publish(later)) && path[1] == Work(t, Discard)
    requires t in s.tasks && s.tasks[t].stage.Finished? && s.tasks[t].token == s.cache.generation
    ensures var u := Steps(s, path); var task := s.tasks[t];
      && u.cache == AfterPut(s.cache, task.key, task.stage.value, later)
      && u.registry == Discarded(s.registry, task.key) && u.tasks == s.tasks - {t} && u.readers == s.readers
  {
    assert path[..0] == [] && path[..2] == path;
    StepsPrefix(s, path, 0);
    StepsPrefix(s, path, 1);
  }

  lemma {:induction false} StepsSplit(s: State, a: seq<Op>, b: seq<Op>)
    ensures Steps(s, a + b) == Steps(Steps(s, a), b)
  {
    if b == [] {
      assert a + b == a;
    } else {
      var n := |b| - 1;
      assert (a + b)[..|a + b| - 1] == a + b[..n];
      StepsSplit(s, a, b[..n]);
    }
  }

  lemma TaskRuns(s: State, t: nat, commit: nat, later: int, path: seq<Op>)
    requires |path| == 4 && path[0] == Work(t, Start) && path[1] == Work(t, Query(commit))
    requires path[2] == Work(t, Publish(later)) && path[3] == Work(t, Discard)
    requires AtStage(s, t, Queued) && s.tasks[t].token == s.cache.generation && s.floor <= commit
    ensures var u := Steps(s, path); var task := s.tasks[t];
      && u.cache == AfterPut(s.cache, task.key, Value(task.token, commit, Background), later)
      && u.registry.refreshing == s.registry.refreshing - {task.key} && u.tasks == s.tasks - {t}
      && u.readers == s.readers
  {
    hide Step;
    assert path == path[..2] + path[2..];
    StepsSplit(s, path[..2], path[2..]);
    TaskComputes(s, t, commit, path[..2]);
    TaskPublishes(GoTask(s, t, Finished(Value(s.cache.generation, commit, Background))), t, later, path[2..]);
  }

  lemma NextTaskIsNew(ops: seq<Op>)
    ensures Run(ops).nextTask !in Run(ops).tasks
  {
    RunKeepsInv(ops);
  }

  /** A stale hit is answered at once and, undisturbed, replaced by a current value; nothing else changes. */
  lemma StaleHitIsRefreshed(ops: seq<Op>, r: nat, key: Key, now: int, commit: nat, later: int)
    requires var s := Run(ops);
      && At(s, r) == Idle && s.registry.accepting && key !in s.registry.refreshing && s.floor <= commit
      && Found(s.cache, key, now, TTL).Some? && Found(s.cache, key, now, TTL).value.stale
    ensures var s := Run(ops); var t := Run(ops + RefreshPath(r, key, now, s.nextTask, commit, later));
      && Found(t.cache, key, later, TTL) == Some(Hit(Value(s.cache.generation, commit, Background), false))
      && t.cache.generation == s.cache.generation && t.cache.items - {key} == s.cache.items - {key}
      && At(t, r) == Idle && t.registry.refreshing == s.registry.refreshing && t.tasks == s.tasks
  {
    hide Step;
    var s := Run(ops);
    NextTaskIsNew(ops);
    var path := RefreshPath(r, key, now, s.nextTask, commit, later);
    var first, second := path[..4], path[4..];
    assert path == first + second;
    RunThenSteps(ops, first);
    RunThenSteps(ops + first, second);
    assert ops + path == ops + first + second;
    ServedStale(s, r, key, now, path);
    TaskRuns(Run(ops + first), s.nextTask, commit, later, second);
  }

  lemma MissedUnderLock(s: State, r: nat, key: Key, now: int, path: seq<Op>)
    requires At(s, r) == Idle && key !in s.locks && Found(s.cache, key, now, TTL).None? && |path| == 3
    requires path[0] == Serve(r, Lookup(key, now)) && path[1] == Fill(r, Acquire) && path[2] == Fill(r, Recheck(now))
    ensures var t := Steps(s, path);
      && At(t, r) == Missed(key) && t.locks == s.locks[key := r] && t.tasks == s.tasks && t.floor == s.floor
      && t.cache.generation == s.cache.generation && t.cache.items == s.cache.items - {key}
  {
    assert path[..0] == [] && path[..3] == path;
    StepsPrefix(s, path, 0);
    StepsPrefix(s, path, 1);
    StepsPrefix(s, path, 2);
    assert AfterGet(s.cache, key, now, TTL).items == s.cache.items - {key};
  }

  lemma FilledUnderLock(s: State, r: nat, key: Key, commit: nat, later: int, path: seq<Op>)
    requires At(s, r) == Missed(key) && s.floor <= commit && |path| == 4
    requires path[0] == Fill(r, Begin) && path[1] == Fill(r, Read(commit))
    requires path[2] == Fill(r, Store(later)) && path[3] == Fill(r, Release)
    ensures var t := Steps(s, path);
      && At(t, r) == Idle && t.locks == s.locks - {key} && t.tasks == s.tasks
      && t.cache == AfterPut(s.cache, key, Value(s.cache.generation, commit, Inline), later)
  {
    assert path[..0] == [] && path[..4] == path;
    StepsPrefix(s, path, 0);
    StepsPrefix(s, path, 1);
    StepsPrefix(s, path, 2);
    StepsPrefix(s, path, 3);
    hide Steps;
    var computing := Step(s, path[0]);
    assert computing == Go(s, r, Computing(key, s.cache.generation));
    var computed := Step(computing, path[1]);
    assert computed == Go(computing, r, Computed(key, Value(s.cache.generation, commit, Inline)));
  }

  /** A miss is computed under the key's lock and stored; undisturbed, the next lookup finds it. */
  lemma MissIsFilled(ops: seq<Op>, r: nat, key: Key, now: int, commit: nat, later: int)
    requires var s := Run(ops);
      && At(s, r) == Idle && key !in s.locks && s.floor <= commit && Found(s.cache, key, now, TTL).None?
    ensures var s := Run(ops); var t := Run(ops + FillPath(r, key, now, commit, later));
      && Found(t.cache, key, later, TTL) == Some(Hit(Value(s.cache.generation, commit, Inline), false))
      && t.cache.items.Keys == s.cache.items.Keys + {key}
      && At(t, r) == Idle && t.locks == s.locks && t.tasks == s.tasks
  {
    hide Step;
    var s := Run(ops);
    var path := FillPath(r, key, now, commit, later);
    var first, second := path[..3], path[3..];
    assert path == first + second;
    RunThenSteps(ops, first);
    RunThenSteps(ops + first, second);
    assert ops + path == ops + first + second;
    MissedUnderLock(s, r, key, now, first);
    FilledUnderLock(Run(ops + first), r, key, commit, later, second);
    assert s.locks[key := r] - {key} == s.locks;
  }
}

/**
  What a non-stale hit is worth: every cached entry is traced back to the steps of
  the run that began, read and stored it, and its freshness is decided there.
 */
module Freshness {
  import opened Wrappers
  import opened Cache
  import opened Refresh

  /** Does a step advance the generation? */
  predicate Bumps(s: State, op: Op) {
    op.Cleared? || (op.Invalidated? && s.floor <= op.commit)
  }

  lemma GenerationStep(s: State, op: Op)
    ensures Step(s, op).cache.generation == s.cache.generation + (if Bumps(s, op) then 1 else 0)
  {
    match op {
      case Serve(r, act) =>
      case Fill(r, act) =>
      case Work(t, act) =>
      case _ =>
    }
  }

  /** Equal generations mean that nothing was invalidated or cleared in between. */
  lemma {:induction false} GenerationsTellTime(ops: seq<Op>, k: nat)
    requires k <= |ops|
    ensures Run(ops[..k]).cache.generation <= Run(ops).cache.generation
    ensures Run(ops[..k]).cache.generation == Run(ops).cache.generation
       <==> forall i :: k <= i < |ops| ==> !Bumps(Run(ops[..i]), ops[i])
  {
    hide Step, Bumps;
    var n := |ops| - 1;
    if k <= n {
      var before := ops[..n];
      assert forall i :: 0 <= i <= n ==> before[..i] == ops[..i];
      assert forall i :: 0 <= i < n ==> before[i] == ops[i];
      GenerationsTellTime(before, k);
      GenerationStep(Run(before), ops[n]);
      assert before[..n] == before;
    } else {
      assert ops[..k] == ops;
    }
  }

  /**
    In every interleaving, an entry published by the refresh path and reported non-stale began
    its computation in the current generation and reflects every announced commit.
   */
  lemma BackgroundHitIsCurrent(ops: seq<Op>, key: Key, now: int)
    requires Found(Run(ops).cache, key, now, TTL).Some?
    ensures var s := Run(ops); var hit := Found(s.cache, key, now, TTL).value;
      !hit.stale && hit.value.origin == Background ==>
        hit.value.began == s.cache.generation && hit.value.commit >= s.floor
  {
    RunKeepsInv(ops);
  }

  // ------------------------------------------------- the story of an entry

  /** The state after the first m steps of a run. */
  function StateAt(ops: seq<Op>, m: nat): State
    requires m <= |ops|
  {
    Run(ops[..m])
  }

  lemma StateStep(ops: seq<Op>, m: nat)
    requires m < |ops|
    ensures StateAt(ops, m + 1) == Step(StateAt(ops, m), ops[m])
  {
    assert ops[..m + 1][..m] == ops[..m];
  }

  predicate HasTask(s: State, t: nat, task: Task) {
    t in s.tasks && s.tasks[t] == task
  }

  predicate HasEntry(s: State, key: Key, e: Entry<Value>) {
    key in s.cache.items && s.cache.items[key] == e
  }

  /** Step i is where reader r began the inline computation for key it is still in after n steps. */
  ghost predicate BeganBy(ops: seq<Op>, n: nat, r: nat, key: Key, began: nat, i: nat)
    requires n <= |ops|
  {
    && i < n && ops[i] == Fill(r, Begin) && At(StateAt(ops, i), r) == Missed(key)
    && StateAt(ops, i).cache.generation == began
    && forall m :: i < m <= n ==> At(StateAt(ops, m), r) == Computing(key, began)
  }

  /** Steps i and b are where reader r began and read the value it still holds after n steps. */
  ghost predicate ReadBy(ops: seq<Op>, n: nat, r: nat, key: Key, v: Value, i: nat, b: nat)
    requires n <= |ops|
  {
    && b < n && BeganBy(ops, b, r, key, v.began, i) && ops[b] == Fill(r, Read(v.commit))
    && v.origin == Inline && StateAt(ops, b).floor <= v.commit
    && forall m :: b < m <= n ==> At(StateAt(ops, m), r) == Computed(key, v)
  }

  /** Steps i, b and j are where reader r began, read and stored the entry still present after n steps. */
  ghost predicate StoredBy(ops: seq<Op>, n: nat, r: nat, key: Key, e: Entry<Value>, i: nat, b: nat, j: nat)
    requires n <= |ops|
  {
    && j < n && ReadBy(ops, j, r, key, e.value, i, b) && ops[j] == Fill(r, Store(e.at))
    && StateAt(ops, j).cache.generation == e.generation
    && forall m :: j < m <= n ==> HasEntry(StateAt(ops, m), key, e)
  }

  /** Step a is where task t began the refresh of key it is still running after n steps. */
  ghost predicate StartedBy(ops: seq<Op>, n: nat, t: nat, key: Key, token: nat, began: nat, a: nat)
    requires n <= |ops|
  {
    && a < n && ops[a] == Work(t, Start) && HasTask(StateAt(ops, a), t, Task(key, token, Queued))
    && StateAt(ops, a).cache.generation == began
    && forall m :: a < m <= n ==> HasTask(StateAt(ops, m), t, Task(key, token, Running(began)))
  }

  /** Steps a and b are where task t began and queried the value it still holds after n steps. */
  ghost predicate QueriedBy(ops: seq<Op>, n: nat, t: nat, key: Key, token: nat, v: Value, a: nat, b: nat)
    requires n <= |ops|
  {
    && b < n && StartedBy(ops, b, t, key, token, v.began, a) && ops[b] == Work(t, Query(v.commit))
    && v.origin == Background && StateAt(ops, b).floor <= v.commit
    && forall m :: b < m <= n ==> HasTask(StateAt(ops, m), t, Task(key, token, Finished(v)))
  }

  /** Steps a, b and c are where task t began, queried and published the entry still present after n steps. */
  ghost predicate PublishedBy(ops: seq<Op>, n: nat, t: nat, key: Key, e: Entry<Value>, a: nat, b: nat, c: nat)
    requires n <= |ops|
  {
    && c < n && QueriedBy(ops, c, t, key, e.generation, e.value, a, b) && ops[c] == Work(t, Publish(e.at))
    && StateAt(ops, c).cache.generation == e.generation
    && forall m :: c < m <= n ==> HasEntry(StateAt(ops, m), key, e)
  }

  lemma OthersKeepReader(s: State, op: Op, r: nat)
    requires !op.Serve? && !op.Fill?
    ensures At(Step(s, op), r) == At(s, r)
  {
  }

  lemma ServedReader(s: State, q: nat, act: HitAct, r: nat)
    requires Filling(At(ServeStep(s, q, act), r)).Some?
    ensures At(s, r) == At(ServeStep(s, q, act), r)
  {
  }

  /** A reader that is computing was so before, or has just begun. */
  lemma ComputingFrom(s: State, op: Op, r: nat)
    requires At(Step(s, op), r).Computing?
    ensures var now := At(Step(s, op), r);
      At(s, r) == now || (op == Fill(r, Begin) && At(s, r) == Missed(now.key) && s.cache.generation == now.began)
  {
    match op {
      case Serve(q, act) => ServedReader(s, q, act, r);
      case Fill(_, _) =>
      case _ => OthersKeepReader(s, op, r);
    }
  }

  /** A reader that holds a value held it before, or has just read it. */
  lemma ComputedFrom(s: State, op: Op, r: nat)
    requires At(Step(s, op), r).Computed?
    ensures var now := At(Step(s, op), r); var v := now.value;
      || At(s, r) == now
      || (op == Fill(r, Read(v.commit)) && At(s, r) == Computing(now.key, v.began) && s.floor <= v.commit
          && v.origin == Inline)
  {
    match op {
      case Serve(q, act) => ServedReader(s, q, act, r);
      case Fill(_, _) =>
      case _ => OthersKeepReader(s, op, r);
    }
  }

  lemma OthersKeepTask(s: State, op: Op, t: nat)
    requires !op.Work? && t in Step(s, op).tasks && !Step(s, op).tasks[t].stage.Queued?
    ensures HasTask(s, t, Step(s, op).tasks[t])
  {
    match op {
      case Serve(_, _) =>
      case Fill(_, _) =>
      case _ =>
    }
  }

  lemma WorkedRunning(s: State, u: nat, act: TaskAct, t: nat)
    requires t in WorkStep(s, u, act).tasks && WorkStep(s, u, act).tasks[t].stage.Running?
    ensures var now := WorkStep(s, u, act).tasks[t];
      || HasTask(s, t, now)
      || (u == t && act == Start && HasTask(s, t, now.(stage := Queued)) && s.cache.generation == now.stage.began)
  {
  }

  lemma WorkedFinished(s: State, u: nat, act: TaskAct, t: nat)
    requires t in WorkStep(s, u, act).tasks && WorkStep(s, u, act).tasks[t].stage.Finished?
    ensures var now := WorkStep(s, u, act).tasks[t]; var v := now.stage.value;
      || HasTask(s, t, now)
      || (u == t && act == Query(v.commit) && HasTask(s, t, now.(stage := Running(v.began))) && s.floor <= v.commit
          && v.origin == Background)
  {
  }

  /** A task that is running was so before, or has just started. */
  lemma RunningFrom(s: State, op: Op, t: nat)
    requires t in Step(s, op).tasks && Step(s, op).tasks[t].stage.Running?
    ensures var now := Step(s, op).tasks[t];
      || HasTask(s, t, now)
      || (op == Work(t, Start) && HasTask(s, t, now.(stage := Queued)) && s.cache.generation == now.stage.began)
  {
    hide WorkStep, ServeStep, FillStep;
    if op.Work? {
      WorkedRunning(s, op.task, op.work, t);
    } else {
      OthersKeepTask(s, op, t);
    }
  }

  /** A task that holds a value held it before, or has just queried it. */
  lemma FinishedFrom(s: State, op: Op, t: nat)
    requires t in Step(s, op).tasks && Step(s, op).tasks[t].stage.Finished?
    ensures var now := Step(s, op).tasks[t]; var v := now.stage.value;
      || HasTask(s, t, now)
      || (op == Work(t, Query(v.commit)) && HasTask(s, t, now.(stage := Running(v.began))) && s.floor <= v.commit
          && v.origin == Background)
  {
    hide WorkStep, ServeStep, FillStep;
    if op.Work? {
      WorkedFinished(s, op.task, op.work, t);
    } else {
      OthersKeepTask(s, op, t);
    }
  }

  predicate StoresEntry(s: State, op: Op, key: Key, e: Entry<Value>) {
    op.Fill? && op.miss == Store(e.at) && At(s, op.reader) == Computed(key, e.value)
  }

  predicate PublishesEntry(s: State, op: Op, key: Key, e: Entry<Value>) {
    op.Work? && op.work == Publish(e.at) && HasTask(s, op.task, Task(key, e.generation, Finished(e.value)))
  }

  lemma ServedEntry(s: State, r: nat, act: HitAct, key: Key)
    requires key in ServeStep(s, r, act).cache.items
    ensures HasEntry(s, key, ServeStep(s, r, act).cache.items[key])
  {
  }

  lemma FilledEntry(s: State, r: nat, act: MissAct, key: Key)
    requires key in FillStep(s, r, act).cache.items
    ensures var e := FillStep(s, r, act).cache.items[key];
      HasEntry(s, key, e) || (StoresEntry(s, Fill(r, act), key, e) && s.cache.generation == e.generation)
  {
  }

  lemma WorkedEntry(s: State, t: nat, act: TaskAct, key: Key)
    requires key in WorkStep(s, t, act).cache.items
    ensures var e := WorkStep(s, t, act).cache.items[key];
      HasEntry(s, key, e) || (PublishesEntry(s, Work(t, act), key, e) && s.cache.generation == e.generation)
  {
  }

  /** An entry was there before, or was stored, or was published. */
  lemma EntryFrom(s: State, op: Op, key: Key)
    requires key in Step(s, op).cache.items
    ensures var e := Step(s, op).cache.items[key];
      || HasEntry(s, key, e)
      || ((StoresEntry(s, op, key, e) || PublishesEntry(s, op, key, e)) && s.cache.generation == e.generation)
  {
    hide ServeStep, FillStep, WorkStep, StoresEntry, PublishesEntry;
    match op {
      case Serve(r, act) => ServedEntry(s, r, act, key);
      case Fill(r, act) => FilledEntry(s, r, act, key);
      case Work(t, act) => WorkedEntry(s, t, act, key);
      case _ =>
    }
  }

  lemma {:induction false} BeginningOf(ops: seq<Op>, n: nat, r: nat) returns (i: nat)
    requires n <= |ops| && At(StateAt(ops, n), r).Computing?
    ensures var now := At(StateAt(ops, n), r); BeganBy(ops, n, r, now.key, now.began, i)
  {
    hide Step;
    assert n > 0;
    StateStep(ops, n - 1);
    ComputingFrom(StateAt(ops, n - 1), ops[n - 1], r);
    if At(StateAt(ops, n - 1), r) == At(StateAt(ops, n), r) {
      i := BeginningOf(ops, n - 1, r);
    } else {
      i := n - 1;
    }
  }

  lemma {:induction false} ReadingOf(ops: seq<Op>, n: nat, r: nat) returns (i: nat, b: nat)
    requires n <= |ops| && At(StateAt(ops, n), r).Computed?
    ensures var now := At(StateAt(ops, n), r); ReadBy(ops, n, r, now.key, now.value, i, b)
  {
    hide Step;
    assert n > 0;
    StateStep(ops, n - 1);
    ComputedFrom(StateAt(ops, n - 1), ops[n - 1], r);
    if At(StateAt(ops, n - 1), r) == At(StateAt(ops, n), r) {
      i, b := ReadingOf(ops, n - 1, r);
    } else {
      i := BeginningOf(ops, n - 1, r);
      b := n - 1;
    }
  }

  lemma {:induction false} StartOf(ops: seq<Op>, n: nat, t: nat) returns (a: nat)
    requires n <= |ops| && t in StateAt(ops, n).tasks && StateAt(ops, n).tasks[t].stage.Running?
    ensures var now := StateAt(ops, n).tasks[t]; StartedBy(ops, n, t, now.key, now.token, now.stage.began, a)
  {
    hide Step;
    assert n > 0;
    StateStep(ops, n - 1);
    RunningFrom(StateAt(ops, n - 1), ops[n - 1], t);
    if HasTask(StateAt(ops, n - 1), t, StateAt(ops, n).tasks[t]) {
      a := StartOf(ops, n - 1, t);
    } else {
      a := n - 1;
    }
  }

  lemma {:induction false} QueryOf(ops: seq<Op>, n: nat, t: nat) returns (a: nat, b: nat)
    requires n <= |ops| && t in StateAt(ops, n).tasks && StateAt(ops, n).tasks[t].stage.Finished?
    ensures var now := StateAt(ops, n).tasks[t]; QueriedBy(ops, n, t, now.key, now.token, now.stage.value, a, b)
  {
    hide Step;
    assert n > 0;
    StateStep(ops, n - 1);
    FinishedFrom(StateAt(ops, n - 1), ops[n - 1], t);
    if HasTask(StateAt(ops, n - 1), t, StateAt(ops, n).tasks[t]) {
      a, b := QueryOf(ops, n - 1, t);
    } else {
      a := StartOf(ops, n - 1, t);
      b := n - 1;
    }
  }

  /** How the entry of a key came about. */
  ghost predicate Told(ops: seq<Op>, n: nat, key: Key, e: Entry<Value>)
    requires n <= |ops|
  {
    || (exists r, i, b, j :: StoredBy(ops, n, r, key, e, i, b, j))
    || (exists t, a, b, c :: PublishedBy(ops, n, t, key, e, a, b, c))
  }

  lemma ToldOnward(ops: seq<Op>, n: nat, key: Key, e: Entry<Value>)
    requires n < |ops| && Told(ops, n, key, e) && HasEntry(StateAt(ops, n + 1), key, e)
    ensures Told(ops, n + 1, key, e)
  {
    hide Step, Run, ReadBy, QueriedBy;
    if r, i, b, j :| StoredBy(ops, n, r, key, e, i, b, j) {
      assert StoredBy(ops, n + 1, r, key, e, i, b, j);
    } else {
      var t, a, b, c :| PublishedBy(ops, n, t, key, e, a, b, c);
      assert PublishedBy(ops, n + 1, t, key, e, a, b, c);
    }
  }

  lemma ToldAnew(ops: seq<Op>, n: nat, key: Key, e: Entry<Value>)
    requires n < |ops| && HasEntry(StateAt(ops, n + 1), key, e) && StateAt(ops, n).cache.generation == e.generation
    requires StoresEntry(StateAt(ops, n), ops[n], key, e) || PublishesEntry(StateAt(ops, n), ops[n], key, e)
    ensures Told(ops, n + 1, key, e)
  {
    hide Step, Run, ReadBy, QueriedBy;
    if StoresEntry(StateAt(ops, n), ops[n], key, e) {
      var i, b := ReadingOf(ops, n, ops[n].reader);
      assert StoredBy(ops, n + 1, ops[n].reader, key, e, i, b, n);
    } else {
      var a, b := QueryOf(ops, n, ops[n].task);
      assert PublishedBy(ops, n + 1, ops[n].task, key, e, a, b, n);
    }
  }

  /** In every run, every entry was begun, computed and put there by one reader or one task, and not touched since. */
  lemma {:induction false} EntryHasStory(ops: seq<Op>, n: nat, key: Key)
    requires n <= |ops| && key in StateAt(ops, n).cache.items
    ensures Told(ops, n, key, StateAt(ops, n).cache.items[key])
  {
    hide Step, Told, StoresEntry, PublishesEntry;
    assert n > 0;
    StateStep(ops, n - 1);
    var e := StateAt(ops, n).cache.items[key];
    EntryFrom(StateAt(ops, n - 1), ops[n - 1], key);
    if HasEntry(StateAt(ops, n - 1), key, e) {
      EntryHasStory(ops, n - 1, key);
      ToldOnward(ops, n - 1, key, e);
    } else {
      ToldAnew(ops, n - 1, key, e);
    }
  }

  /** Nothing was invalidated or cleared from one step up to another. */
  ghost predicate Quiet(ops: seq<Op>, from: nat, to: nat)
    requires from <= to <= |ops|
  {
    forall m :: from <= m < to ==> !Bumps(StateAt(ops, m), ops[m])
  }

  lemma QuietIff(ops: seq<Op>, from: nat, to: nat)
    requires from <= to <= |ops|
    ensures StateAt(ops, from).cache.generation <= StateAt(ops, to).cache.generation
    ensures Quiet(ops, from, to) <==> StateAt(ops, from).cache.generation == StateAt(ops, to).cache.generation
  {
    hide Bumps, Run;
    var prefix := ops[..to];
    assert prefix[..from] == ops[..from] && prefix[..to] == prefix;
    assert forall m :: 0 <= m < to ==> prefix[..m] == ops[..m] && prefix[m] == ops[m];
    GenerationsTellTime(prefix, from);
    assert forall m :: from <= m < to ==> StateAt(ops, m) == Run(prefix[..m]);
  }

  /**
    The entry behind a non-stale hit of the refresh path was started for this key, queried and
    published by one task, and from its start on nothing was invalidated or cleared.
   */
  lemma BackgroundHitBeganAfterInvalidation(ops: seq<Op>, key: Key, now: int)
    requires Found(Run(ops).cache, key, now, TTL).Some?
    requires var hit := Found(Run(ops).cache, key, now, TTL).value; !hit.stale && hit.value.origin == Background
    ensures exists t, a, b, c ::
      PublishedBy(ops, |ops|, t, key, Run(ops).cache.items[key], a, b, c) && Quiet(ops, a, |ops|)
  {
    assert ops[..|ops|] == ops;
    var e := Run(ops).cache.items[key];
    BackgroundHitIsCurrent(ops, key, now);
    EntryHasStory(ops, |ops|, key);
    var t, a, b, c :| PublishedBy(ops, |ops|, t, key, e, a, b, c);
    QuietIff(ops, a, |ops|);
  }

  /** An invalidation that announces a newer commit than the one read. */
  predicate Overtakes(s: State, op: Op, commit: nat) {
    op.Invalidated? && s.floor <= op.commit && commit < op.commit
  }

  /** The commit read stays the newest announced one exactly until something overtakes it. */
  lemma {:induction false} FloorSince(ops: seq<Op>, b: nat, n: nat, commit: nat)
    requires b <= n <= |ops| && StateAt(ops, b).floor <= commit
    ensures StateAt(ops, n).floor <= commit
       <==> forall m :: b <= m < n ==> !Overtakes(StateAt(ops, m), ops[m], commit)
  {
    hide Step, Run;
    if b < n {
      FloorSince(ops, b, n - 1, commit);
      StateStep(ops, n - 1);
      FloorStep(StateAt(ops, n - 1), ops[n - 1]);
    }
  }

  lemma FloorStep(s: State, op: Op)
    ensures Step(s, op).floor == if op.Invalidated? && s.floor <= op.commit then op.commit else s.floor
  {
    match op {
      case Serve(_, _) =>
      case Fill(_, _) =>
      case Work(_, _) =>
      case _ =>
    }
  }

  /**
    When a non-stale inline hit is fresh, step by step. It began in the current generation exactly
    when nothing was invalidated or cleared between its Begin and its Store, that is, when storing
    with the generation read at Begin would have been accepted. It reflects every announced commit exactly
    when no newer commit was announced between its Read and its Store.
   */
  lemma InlineHitIsCurrentIff(ops: seq<Op>, key: Key, now: int, r: nat, i: nat, b: nat, j: nat)
    requires Found(Run(ops).cache, key, now, TTL).Some? && !Found(Run(ops).cache, key, now, TTL).value.stale
    requires StoredBy(ops, |ops|, r, key, Run(ops).cache.items[key], i, b, j)
    ensures var s := Run(ops); var v := Found(s.cache, key, now, TTL).value.value;
      && (v.began == s.cache.generation <==> Quiet(ops, i, j))
      && (v.began == s.cache.generation <==> StateAt(ops, i).cache.generation == StateAt(ops, j).cache.generation)
      && (v.commit >= s.floor <==> forall m :: b <= m < j ==> !Overtakes(StateAt(ops, m), ops[m], v.commit))
  {
    assert ops[..|ops|] == ops;
    var s := Run(ops);
    var e := s.cache.items[key];
    QuietIff(ops, i, j);
    QuietIff(ops, j, |ops|);
    FloorSince(ops, b, |ops|, e.value.commit);
    assert forall m :: j <= m < |ops| ==> !Overtakes(StateAt(ops, m), ops[m], e.value.commit) by {
      assert forall m :: j <= m < |ops| ==> !Bumps(StateAt(ops, m), ops[m]);
    }
  }

  /** Every inline hit has such a story. */
  lemma InlineHitHasStory(ops: seq<Op>, key: Key, now: int)
    requires Found(Run(ops).cache, key, now, TTL).Some?
    requires Found(Run(ops).cache, key, now, TTL).value.value.origin == Inline
    ensures exists r, i, b, j :: StoredBy(ops, |ops|, r, key, Run(ops).cache.items[key], i, b, j)
  {
    assert ops[..|ops|] == ops;
    EntryHasStory(ops, |ops|, key);
  }

  /** For any entry, however published: if its computation saw no invalidation, it is fresh. */
  lemma UninterruptedHitIsCurrent(ops: seq<Op>, key: Key, now: int)
    requires Found(Run(ops).cache, key, now, TTL).Some?
    ensures var s := Run(ops); var hit := Found(s.cache, key, now, TTL).value;
      hit.value.began == s.cache.generation ==> !hit.stale && hit.value.commit >= s.floor
  {
    RunKeepsInv(ops);
  }

  /** The query of an inline miss is overtaken by an invalidation before its result is stored. */
  const OVERTAKEN: seq<Op> := [
    Serve(0, Lookup(Key(1), 0)), Fill(0, Acquire), Fill(0, Recheck(0)), Fill(0, Begin), Fill(0, Read(0)),
    Invalidated(1), Fill(0, Store(0))]

  lemma OvertakenSoFar()
    ensures var s := Run(OVERTAKEN[..5]);
      && At(s, 0) == Computed(Key(1), Value(0, 0, Inline)) && s.cache == Contents(map[], 0) && s.floor == 0
  {
    assert OVERTAKEN[..0] == [];
    RunPrefix(OVERTAKEN, 0);
    RunPrefix(OVERTAKEN, 1);
    RunPrefix(OVERTAKEN, 2);
    assert At(Run(OVERTAKEN[..3]), 0) == Missed(Key(1));
    RunPrefix(OVERTAKEN, 3);
    RunPrefix(OVERTAKEN, 4);
  }

  /** An inline miss stamps the generation when it stores: here an outdated entry is reported non-stale. */
  lemma InlineWitness()
    ensures var s := Run(OVERTAKEN);
      Found(s.cache, Key(1), 0, TTL) == Some(Hit(Value(0, 0, Inline), false))
      && s.cache.generation == 1 && s.floor == 1
  {
    OvertakenSoFar();
    RunPrefix(OVERTAKEN, 5);
    RunPrefix(OVERTAKEN, 6);
    assert OVERTAKEN[..7] == OVERTAKEN;
  }
}

/**
  One request against the cache, from its lookup to its end: what each way it can go
  leaves behind, and why a refresh is started at all.
 */
module Requests {
  import opened Wrappers
  import opened Cache
  import opened Refresh
  import opened Freshness

  // ------------------------------------------------------- why a refresh starts

  predicate FindsStale(s: State, op: Op, r: nat, key: Key) {
    && op.Serve? && op.reader == r && op.hit.Lookup? && op.hit.key == key && At(s, r) == Idle
    && Found(s.cache, key, op.hit.now, TTL).Some? && Found(s.cache, key, op.hit.now, TTL).value.stale
  }

  lemma SawStaleFrom(s: State, op: Op, r: nat, key: Key)
    requires At(Step(s, op), r) == SawStale(key) && At(s, r) != SawStale(key)
    ensures FindsStale(s, op, r, key)
  {
    match op {
      case Serve(q, act) =>
      case Fill(q, act) =>
      case Work(t, act) =>
      case _ =>
    }
  }

  /** A reader that has seen a stale entry saw it at a lookup of its own, and has done nothing since. */
  lemma {:induction false} SawStaleAt(ops: seq<Op>, n: nat, r: nat, key: Key) returns (k: nat)
    requires n <= |ops| && At(StateAt(ops, n), r) == SawStale(key)
    ensures k < n && FindsStale(StateAt(ops, k), ops[k], r, key)
    ensures forall m :: k < m <= n ==> At(StateAt(ops, m), r) == SawStale(key)
  {
    hide Step, FindsStale;
    assert n > 0;
    StateStep(ops, n - 1);
    if At(StateAt(ops, n - 1), r) == SawStale(key) {
      k := SawStaleAt(ops, n - 1, r, key);
    } else {
      SawStaleFrom(StateAt(ops, n - 1), ops[n - 1], r, key);
      k := n - 1;
    }
  }

  lemma FillsClaimNothing(s: State, r: nat, act: MissAct)
    ensures FillStep(s, r, act).registry == s.registry && FillStep(s, r, act).tasks == s.tasks
  {
  }

  lemma WorkClaimsNothing(s: State, t: nat, act: TaskAct)
    ensures WorkStep(s, t, act).registry.refreshing <= s.registry.refreshing
    ensures WorkStep(s, t, act).tasks.Keys <= s.tasks.Keys
  {
  }

  lemma ClaimedFrom(s: State, op: Op, key: Key)
    requires key !in s.registry.refreshing && key in Step(s, op).registry.refreshing
    ensures op.Serve? && op.hit.Claim? && At(s, op.reader) == SawStale(key)
  {
    hide FillStep, WorkStep;
    match op {
      case Serve(q, act) =>
      case Fill(q, act) => FillsClaimNothing(s, q, act);
      case Work(t, act) => WorkClaimsNothing(s, t, act);
      case _ =>
    }
  }

  /**
    A key is registered as refreshing only by a reader whose own lookup has found it stale: on a fresh
    hit, or a miss, nobody ever schedules anything.
   */
  lemma RefreshFollowsStaleHit(ops: seq<Op>, n: nat, key: Key)
    requires n < |ops|
    requires key !in StateAt(ops, n).registry.refreshing && key in StateAt(ops, n + 1).registry.refreshing
    ensures ops[n].Serve? && ops[n].hit.Claim?
    ensures exists k :: 0 <= k < n && FindsStale(StateAt(ops, k), ops[k], ops[n].reader, key)
                        && forall m :: k < m <= n ==> At(StateAt(ops, m), ops[n].reader) == SawStale(key)
  {
    StateStep(ops, n);
    ClaimedFrom(StateAt(ops, n), ops[n], key);
    var k := SawStaleAt(ops, n, ops[n].reader, key);
  }

  /** A task is only ever added for a key whose refresh is registered, and registered to it. */
  lemma TaskFrom(s: State, op: Op, t: nat)
    requires t !in s.tasks && t in Step(s, op).tasks
    ensures op.Serve? && op.hit.Submit? && At(s, op.reader).Tokened? && At(s, op.reader).key == Step(s, op).tasks[t].key
  {
    hide FillStep, WorkStep;
    match op {
      case Serve(q, act) =>
      case Fill(q, act) => FillsClaimNothing(s, q, act);
      case Work(u, act) => WorkClaimsNothing(s, u, act);
      case _ =>
    }
  }

  // --------------------------------------------------------- how a request ends

  /** The only difference is where readers have been, and they are where they were. */
  ghost predicate LeavesNoTrace(s: State, t: State) {
    t.(readers := s.readers) == s && forall r :: At(t, r) == At(s, r)
  }

  /** A fresh hit is answered from the cache: nothing at all changes. */
  lemma FreshHitChangesNothing(ops: seq<Op>, r: nat, key: Key, now: int)
    requires At(Run(ops), r) == Idle
    requires Found(Run(ops).cache, key, now, TTL).Some? && !Found(Run(ops).cache, key, now, TTL).value.stale
    ensures Run(ops + [Serve(r, Lookup(key, now))]) == Run(ops)
  {
    RunSnoc(ops, Serve(r, Lookup(key, now)));
  }

  ghost predicate StaleHit(s: State, r: nat, key: Key, now: int) {
    At(s, r) == Idle && Found(s.cache, key, now, TTL).Some? && Found(s.cache, key, now, TTL).value.stale
  }

  /** A stale hit on a key that is being refreshed already schedules nothing. */
  lemma SecondStaleHitIsIdle(ops: seq<Op>, r: nat, key: Key, now: int)
    requires StaleHit(Run(ops), r, key, now) && key in Run(ops).registry.refreshing
    ensures LeavesNoTrace(Run(ops), Run(ops + [Serve(r, Lookup(key, now)), Serve(r, Refresh.Claim)]))
  {
    var path := [Serve(r, Lookup(key, now)), Serve(r, Refresh.Claim)];
    assert path[..0] == [] && path[..2] == path;
    RunThenSteps(ops, path);
    StepsPrefix(Run(ops), path, 0);
    StepsPrefix(Run(ops), path, 1);
  }

  lemma ClaimsAndTakesToken(s: State, r: nat, key: Key, now: int, path: seq<Op>)
    requires StaleHit(s, r, key, now) && key !in s.registry.refreshing && |path| >= 3
    requires path[0] == Serve(r, Lookup(key, now)) && path[1] == Serve(r, Refresh.Claim) && path[2] == Serve(r, Token)
    ensures var t := Steps(s, path[..3]);
      && At(t, r) == Tokened(key, s.cache.generation) && (forall q :: q != r ==> At(t, q) == At(s, q))
      && t.registry == s.registry.(refreshing := s.registry.refreshing + {key})
      && t.owners == s.owners[key := ByReader(r)]
      && t.(readers := s.readers, registry := s.registry, owners := s.owners) == s
  {
    assert path[..0] == [];
    StepsPrefix(s, path, 0);
    StepsPrefix(s, path, 1);
    StepsPrefix(s, path, 2);
  }

  lemma RefusedUnclaims(s: State, r: nat, key: Key, refused: bool)
    requires At(s, r).Tokened? && At(s, r).key == key && (refused || !s.registry.accepting)
    ensures var t := Step(Step(s, Serve(r, Submit(refused))), Serve(r, Unclaim));
      && At(t, r) == Idle && (forall q :: q != r ==> At(t, q) == At(s, q))
      && t.registry == Discarded(s.registry, key) && t.owners == s.owners - {key}
      && t.(readers := s.readers, registry := s.registry, owners := s.owners) == s
  {
  }

  /** A stale hit whose refresh cannot be submitted. */
  function RefusedPath(r: nat, key: Key, now: int, refused: bool): seq<Op> {
    [Serve(r, Lookup(key, now)), Serve(r, Refresh.Claim), Serve(r, Token), Serve(r, Submit(refused)), Serve(r, Unclaim)]
  }

  lemma RefusedSteps(s: State, r: nat, key: Key, now: int, refused: bool, path: seq<Op>)
    requires StaleHit(s, r, key, now) && key !in s.registry.refreshing && key !in s.owners
    requires path == RefusedPath(r, key, now, refused) && (refused || !s.registry.accepting)
    ensures LeavesNoTrace(s, Steps(s, path))
  {
    hide Step;
    ClaimsAndTakesToken(s, r, key, now, path);
    StepsPrefix(s, path, 3);
    StepsPrefix(s, path, 4);
    assert path[..5] == path;
    RefusedUnclaims(Steps(s, path[..3]), r, key, refused);
    hide Steps;
    assert s.registry.refreshing + {key} - {key} == s.registry.refreshing;
    assert s.owners[key := ByReader(r)] - {key} == s.owners;
  }

  /** A refused submission takes its claim back: the next stale hit may try again. */
  lemma RefusedIsUndone(ops: seq<Op>, r: nat, key: Key, now: int, refused: bool)
    requires StaleHit(Run(ops), r, key, now) && key !in Run(ops).registry.refreshing
    requires refused || !Run(ops).registry.accepting
    ensures LeavesNoTrace(Run(ops), Run(ops + RefusedPath(r, key, now, refused)))
  {
    RunKeepsInv(ops);
    assert key !in Run(ops).owners;
    hide Run, Owned, Exclusive, Settled, Fresh, RefusedPath, LeavesNoTrace, StaleHit;
    RunThenSteps(ops, RefusedPath(r, key, now, refused));
    RefusedSteps(Run(ops), r, key, now, refused, RefusedPath(r, key, now, refused));
  }

  lemma CrashesAndEnds(s: State, t: nat)
    requires AtStage(s, t, Queued)
    ensures var u := Step(Step(Step(s, Work(t, Refresh.Start)), Work(t, Crash)), Work(t, Refresh.Discard));
      && u.cache == s.cache && u.readers == s.readers && u.tasks == s.tasks - {t}
      && u.registry == Discarded(s.registry, s.tasks[t].key)
  {
    var running := Step(s, Work(t, Refresh.Start));
    assert running == GoTask(s, t, Running(s.cache.generation));
    var ended := Step(running, Work(t, Crash));
    assert ended == GoTask(running, t, Ended);
    assert ended.tasks - {t} == s.tasks - {t};
  }

  /** A refresh whose query fails leaves the stale entry in place and ends like any other. */
  lemma CrashKeepsStale(ops: seq<Op>, t: nat)
    requires AtStage(Run(ops), t, Queued)
    ensures var s := Run(ops); var u := Run(ops + [Work(t, Refresh.Start), Work(t, Crash), Work(t, Refresh.Discard)]);
      && u.cache == s.cache && u.readers == s.readers && u.tasks == s.tasks - {t}
      && u.registry == Discarded(s.registry, s.tasks[t].key)
  {
    var path := [Work(t, Refresh.Start), Work(t, Crash), Work(t, Refresh.Discard)];
    var s := Run(ops);
    CrashesAndEnds(s, t);
    hide Run, Step;
    assert path[..0] == [] && path[..3] == path;
    RunThenSteps(ops, path);
    StepsPrefix(s, path, 0);
    StepsPrefix(s, path, 1);
    StepsPrefix(s, path, 2);
  }

  /** A refresh overtaken by an invalidation publishes nothing. */
  lemma OvertakenPublishesNothing(ops: seq<Op>, t: nat, now: int)
    requires t in Run(ops).tasks && Run(ops).tasks[t].stage.Finished?
    requires Run(ops).tasks[t].token != Run(ops).cache.generation
    ensures Run(ops + [Work(t, Publish(now))]).cache == Run(ops).cache
  {
    RunSnoc(ops, Work(t, Publish(now)));
  }

  lemma LocksAndReleases(s: State, r: nat, key: Key, now: int)
    requires At(s, r) == Waiting(key) && key !in s.locks && Found(s.cache, key, now, TTL).Some?
    ensures var t := Step(Step(Step(s, Fill(r, Acquire)), Fill(r, Recheck(now))), Fill(r, Release));
      && At(t, r) == Idle && (forall q :: q != r ==> At(t, q) == At(s, q)) && t.(readers := s.readers) == s
  {
    var locked := Step(s, Fill(r, Acquire));
    assert locked == Go(s, r, Locked(key)).(locks := s.locks[key := r]);
    var found := Step(locked, Fill(r, Recheck(now)));
    assert found == Go(locked, r, Releasing(key));
    assert s.locks[key := r] - {key} == s.locks;
  }

  /** A reader that waited for the lock and finds the entry filled meanwhile computes nothing. */
  lemma WaiterFindsEntry(ops: seq<Op>, r: nat, key: Key, now: int)
    requires At(Run(ops), r) == Waiting(key) && key !in Run(ops).locks && Found(Run(ops).cache, key, now, TTL).Some?
    ensures var s := Run(ops); var t := Run(ops + [Fill(r, Acquire), Fill(r, Recheck(now)), Fill(r, Release)]);
      && At(t, r) == Idle && (forall q :: q != r ==> At(t, q) == At(s, q)) && t.(readers := s.readers) == s
  {
    var path := [Fill(r, Acquire), Fill(r, Recheck(now)), Fill(r, Release)];
    var s := Run(ops);
    LocksAndReleases(s, r, key, now);
    hide Run, Step;
    assert path[..0] == [] && path[..3] == path;
    RunThenSteps(ops, path);
    StepsPrefix(s, path, 0);
    StepsPrefix(s, path, 1);
    StepsPrefix(s, path, 2);
  }

  lemma RaisesAndReleases(s: State, r: nat, key: Key)
    requires At(s, r) == Missed(key)
    ensures var t := Step(Step(Step(s, Fill(r, Begin)), Fill(r, Raise)), Fill(r, Release));
      && At(t, r) == Idle && (forall q :: q != r ==> At(t, q) == At(s, q))
      && t.locks == s.locks - {key} && t.(readers := s.readers, locks := s.locks) == s
  {
    var computing := Step(s, Fill(r, Begin));
    assert computing == Go(s, r, Computing(key, s.cache.generation));
    var raised := Step(computing, Fill(r, Raise));
    assert raised == Go(computing, r, Releasing(key));
  }

  /** A computation that raises stores nothing and frees the lock. */
  lemma RaiseFreesLock(ops: seq<Op>, r: nat, key: Key)
    requires At(Run(ops), r) == Missed(key)
    ensures var s := Run(ops); var t := Run(ops + [Fill(r, Begin), Fill(r, Raise), Fill(r, Release)]);
      && At(t, r) == Idle && (forall q :: q != r ==> At(t, q) == At(s, q))
      && t.locks == s.locks - {key} && t.(readers := s.readers, locks := s.locks) == s
  {
    var path := [Fill(r, Begin), Fill(r, Raise), Fill(r, Release)];
    var s := Run(ops);
    RaisesAndReleases(s, r, key);
    hide Run, Step;
    assert path[..0] == [] && path[..3] == path;
    RunThenSteps(ops, path);
    StepsPrefix(s, path, 0);
    StepsPrefix(s, path, 1);
    StepsPrefix(s, path, 2);
  }

  /** Nobody computes a key inline while somebody else holds its lock. */
  lemma LockedOut(ops: seq<Op>, r: nat, key: Key)
    requires At(Run(ops), r) == Waiting(key) && key in Run(ops).locks
    ensures Run(ops + [Fill(r, Acquire)]) == Run(ops)
  {
    RunSnoc(ops, Fill(r, Acquire));
  }
}

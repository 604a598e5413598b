/**
  The process is its components in step with one another: what it does to the cache is a
  run of the cache protocol, what it does to the event queues a run of the broadcaster.
 */
module Components {
  import opened Wrappers
  import opened Service
  import B = Broadcast
  import R = Refresh

  /** What a step of the process asks of the cache. */
  function CacheSteps(s: State, op: Op): seq<R.Op> {
    match op
    case CacheOp(c) => if Spontaneous(c, s.commits) then [c] else []
    case Ingest(t, act) =>
      if act.Invalidate? && t in s.runs && s.runs[t].Committed? then [R.Invalidated(s.runs[t].commit)] else []
    case Teardown(act) => if act.StopRefresh? && s.phase.Unhooked? then [R.Stop] else []
    case EventOp(_) => []
  }

  /** What a step of the process asks of the broadcaster. */
  function EventSteps(s: State, op: Op): seq<B.Op> {
    match op
    case EventOp(e) => if e.Schedule? || e.ClearLoop? then [] else [e]
    case Ingest(t, act) =>
      if act == CallSoon(false) && t in s.runs && s.runs[t].Posting?
      then [B.Schedule(s.runs[t].message, s.runs[t].targets)] else []
    case Teardown(act) => if act.ClearLoop? && s.phase.Idle? then [B.ClearLoop] else []
    case CacheOp(_) => []
  }

  ghost function CacheRun(ops: seq<Op>): seq<R.Op> {
    if ops == [] then [] else CacheRun(ops[..|ops| - 1]) + CacheSteps(Run(ops[..|ops| - 1]), ops[|ops| - 1])
  }

  ghost function EventRun(ops: seq<Op>): seq<B.Op> {
    if ops == [] then [] else EventRun(ops[..|ops| - 1]) + EventSteps(Run(ops[..|ops| - 1]), ops[|ops| - 1])
  }

  lemma CacheFollows(s: State, op: Op)
    ensures Step(s, op).cache
         == var steps := CacheSteps(s, op); if steps == [] then s.cache else R.Step(s.cache, steps[0])
  {
    hide R.Step, B.Step;
    match op {
      case Ingest(t, act) =>
        match act {
          case Enter =>
          case TakeLock =>
          case Commit =>
          case Fail =>
          case Invalidate =>
          case HookRaises =>
          case Snapshot(_) =>
          case CallSoon(_) =>
          case Unlock =>
          case Leave =>
        }
      case CacheOp(_) =>
      case EventOp(_) =>
      case Teardown(_) =>
    }
  }

  lemma EventsFollow(s: State, op: Op)
    requires s.phase.Idle? ==> Step(s, Teardown(ClearLoop)).events == B.Step(s.events, B.ClearLoop)
    ensures Step(s, op).events
         == var steps := EventSteps(s, op); if steps == [] then s.events else B.Step(s.events, steps[0])
  {
    hide R.Step, B.Step;
    match op {
      case Ingest(t, act) =>
        match act {
          case Enter =>
          case TakeLock =>
          case Commit =>
          case Fail =>
          case Invalidate =>
          case HookRaises =>
          case Snapshot(_) =>
          case CallSoon(_) =>
          case Unlock =>
          case Leave =>
        }
      case CacheOp(_) =>
      case EventOp(_) =>
      case Teardown(_) =>
    }
  }

  lemma LoopCleared(s: State)
    ensures s.phase.Idle? ==> Step(s, Teardown(ClearLoop)).events == B.Step(s.events, B.ClearLoop)
  {
  }

  lemma CacheSnoc(ops: seq<R.Op>, op: R.Op)
    ensures R.Run(ops + [op]) == R.Step(R.Run(ops), op)
  {
    assert (ops + [op])[..|ops|] == ops;
  }

  lemma EventSnoc(ops: seq<B.Op>, op: B.Op)
    ensures B.Run(ops + [op]) == B.Step(B.Run(ops), op)
  {
    assert (ops + [op])[..|ops|] == ops;
  }

  lemma AtMostOne(s: State, op: Op)
    ensures |CacheSteps(s, op)| <= 1 && |EventSteps(s, op)| <= 1
  {
  }

  lemma CacheRunsOn(s: State, op: Op, before: seq<R.Op>)
    requires s.cache == R.Run(before)
    ensures Step(s, op).cache == R.Run(before + CacheSteps(s, op))
  {
    CacheFollows(s, op);
    AtMostOne(s, op);
    hide *;
    var steps := CacheSteps(s, op);
    if steps == [] {
      assert before + steps == before;
    } else {
      CacheSnoc(before, steps[0]);
      assert before + steps == before + [steps[0]];
    }
  }

  lemma EventsRunOn(s: State, op: Op, before: seq<B.Op>)
    requires s.events == B.Run(before)
    ensures Step(s, op).events == B.Run(before + EventSteps(s, op))
  {
    LoopCleared(s);
    EventsFollow(s, op);
    AtMostOne(s, op);
    hide *;
    var steps := EventSteps(s, op);
    if steps == [] {
      assert before + steps == before;
    } else {
      EventSnoc(before, steps[0]);
      assert before + steps == before + [steps[0]];
    }
  }

  /**
    Every run of the process is, for the cache, a run of the cache protocol, and for the queues a run of the
    broadcaster: whatever holds of all their runs holds here.
   */
  lemma {:induction false} ComponentsRun(ops: seq<Op>)
    ensures Run(ops).cache == R.Run(CacheRun(ops))
    ensures Run(ops).events == B.Run(EventRun(ops))
  {
    hide Step, R.Step, B.Step, CacheSteps, EventSteps;
    if ops != [] {
      var n := |ops| - 1;
      ComponentsRun(ops[..n]);
      CacheRunsOn(Run(ops[..n]), ops[n], CacheRun(ops[..n]));
      EventsRunOn(Run(ops[..n]), ops[n], EventRun(ops[..n]));
    }
  }

  /** So a subscriber of the process gets, in order, a subsequence of what was posted while it was subscribed. */
  lemma {:induction false} SubscribersAreServed(ops: seq<Op>, q: nat)
    requires q in Run(ops).events.subs
    ensures B.Op.Subscribe(q) in EventRun(ops)
    ensures q in Run(ops).events.subscribed <==> exists k :: B.SubscribedAt(EventRun(ops), q, k)
    ensures var e := Run(ops).events; var d := e.subs[q].delivered;
      && (forall i :: 0 <= i < |d| ==> d[i] < e.ran <= |e.posted| && q in e.posted[d[i]].targets)
      && forall i, j :: 0 <= i < j < |d| ==> d[i] < d[j]
  {
    hide *;
    ComponentsRun(ops);
    B.QueueIff(EventRun(ops), q);
    B.SubscribedIff(EventRun(ops), q);
    B.DeliveredInOrder(EventRun(ops), q);
  }
}

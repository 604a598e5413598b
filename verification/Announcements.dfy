/**
  What becomes of a run's outcome: every commit whose thread gets through its broadcast is
  posted to exactly the subscribers of the moment, whatever the other threads do meanwhile.
 */
module Announcements {
  import opened Wrappers
  import opened Service
  import B = Broadcast
  import C = Cache
  import R = Refresh

  // ------------------------------------------------ one ingest, undisturbed

  /** A whole ingest of thread t that commits; closed says whether the event loop is closed already. */
  function CommittingRun(t: nat, hook: RunAct, targets: seq<nat>, closed: bool): seq<Op> {
    [Ingest(t, Enter), Ingest(t, TakeLock), Ingest(t, Commit), Ingest(t, hook),
     Ingest(t, Snapshot(targets)), Ingest(t, CallSoon(closed)), Ingest(t, Unlock), Ingest(t, Leave)]
  }

  /** A whole ingest of thread t that fails. */
  function FailingRun(t: nat, targets: seq<nat>, closed: bool): seq<Op> {
    [Ingest(t, Enter), Ingest(t, TakeLock), Ingest(t, Fail),
     Ingest(t, Snapshot(targets)), Ingest(t, CallSoon(closed)), Ingest(t, Unlock), Ingest(t, Leave)]
  }

  /** An ingest of thread t that finds the run lock held. */
  function SkippedRun(t: nat): seq<Op> {
    [Ingest(t, Enter), Ingest(t, TakeLock), Ingest(t, Leave)]
  }

  predicate IsHook(act: RunAct) {
    act.Invalidate? || act.HookRaises?
  }

  /** The cache after the hook: everything in it is marked stale, or nothing happened to it. */
  function Hooked(c: R.State, hook: RunAct, commit: nat): R.State {
    if hook.Invalidate? then c.(cache := c.cache.(generation := c.cache.generation + 1), floor := commit) else c
  }

  /** The lock is held by t, which is at the given stage. */
  function Inside(s: State, t: nat, stage: Stage): State {
    s.(runs := s.runs[t := stage], runLock := Some(t), gate := s.gate.(active := s.gate.active + 1))
  }

  lemma EntersAndLocks(s: State, t: nat)
    requires t !in s.runs && !s.gate.closing && s.runLock.None?
    ensures Step(Step(s, Ingest(t, Enter)), Ingest(t, TakeLock)) == Inside(s, t, Writing)
  {
    var admitted := Step(s, Ingest(t, Enter));
    assert IsAt(admitted, t, Admitted) && admitted.runLock.None?;
  }

  lemma CommitsAndHooks(s: State, t: nat, hook: RunAct)
    requires IsHook(hook) && t !in s.runs && s.cache.floor <= s.commits
    ensures var c := s.commits + 1;
      Step(Step(Inside(s, t, Writing), Ingest(t, Commit)), Ingest(t, hook))
      == Inside(s.(commits := c, cache := Hooked(s.cache, hook, c)), t, Announcing(B.Done(c)))
  {
    var c := s.commits + 1;
    var committed := Step(Inside(s, t, Writing), Ingest(t, Commit));
    assert committed == Inside(s.(commits := c), t, Committed(c));
  }

  lemma FailsInside(s: State, t: nat)
    requires t !in s.runs
    ensures Step(Inside(s, t, Writing), Ingest(t, Fail)) == Inside(s, t, Announcing(B.RunFailed))
  {
  }

  /** The subscribers that could be told, in some order. */
  ghost predicate Listed(s: State, targets: seq<nat>) {
    s.events.subscribed <= s.events.subs.Keys && B.Lists(targets, s.events.subscribed)
  }

  function Told(e: B.State, message: B.Message, targets: seq<nat>, closed: bool): B.State {
    if closed then e else e.(posted := e.posted + [B.Post(message, targets)])
  }

  lemma TellsAll(s: State, t: nat, message: B.Message, targets: seq<nat>, closed: bool)
    requires t !in s.runs && s.events.loopSet && Listed(s, targets)
    ensures Step(Step(Inside(s, t, Announcing(message)), Ingest(t, Snapshot(targets))), Ingest(t, CallSoon(closed)))
         == Inside(s.(events := Told(s.events, message, targets, closed)), t, Unlocking)
  {
    var posting := Step(Inside(s, t, Announcing(message)), Ingest(t, Snapshot(targets)));
    assert posting == Inside(s, t, Posting(message, targets));
  }

  lemma UnlocksAndLeaves(s: State, t: nat)
    requires t !in s.runs && s.runLock.None?
    ensures Step(Step(Inside(s, t, Unlocking), Ingest(t, Unlock)), Ingest(t, Leave)) == s
  {
    var left := Step(Step(Inside(s, t, Unlocking), Ingest(t, Unlock)), Ingest(t, Leave));
    assert left.runs == s.runs;
  }

  /** Another way to write runs: step by step from a given state. */
  lemma {:induction false} FromPrefix(s: State, path: seq<Op>, i: nat)
    requires i < |path|
    ensures RunFrom(s, path[..i + 1]) == Step(RunFrom(s, path[..i]), path[i])
  {
    assert path[..i + 1] == path[..i] + [path[i]];
    Append(s, path[..i], [path[i]]);
    assert RunFrom(RunFrom(s, path[..i]), [path[i]])
        == RunFrom(Step(RunFrom(s, path[..i]), path[i]), []);
  }

  /** Whatever the cache holds is found stale. */
  ghost predicate AllMarked(c: C.Contents<R.Value>) {
    forall key, now :: C.Found(c, key, now, R.TTL).Some? ==> C.Found(c, key, now, R.TTL).value.stale
  }

  lemma HookMarksAll(s: State, hook: RunAct, commit: nat)
    requires Inv(s) && hook.Invalidate?
    ensures AllMarked(Hooked(s.cache, hook, commit).cache) && Hooked(s.cache, hook, commit).floor == commit
  {
    NoneIsNewer(s);
  }

  /**
    An ingest that commits and meets no other leaves behind its commit, the cache as its hook left it, one
    broadcast to exactly the present subscribers, and nothing else.
   */
  lemma CommittingRunEnds(ops: seq<Op>, t: nat, hook: RunAct, targets: seq<nat>, closed: bool)
    requires IsHook(hook) && Admits(Run(ops), t, targets)
    ensures var s, s' := Run(ops), Run(ops + CommittingRun(t, hook, targets, closed)); var c := s.commits + 1;
      && s' == s.(commits := c, cache := Hooked(s.cache, hook, c),
                  events := Told(s.events, B.Done(c), targets, closed))
      && (hook.Invalidate? ==> s'.cache.floor == c && AllMarked(s'.cache.cache))
  {
    hide *;
    var s := Run(ops);
    RunKeepsInv(ops);
    NoneIsNewer(s);
    ListedIfAdmitted(s, t, targets);
    if hook.Invalidate? {
      HookMarksAll(s, hook, s.commits + 1);
    }
    RunsOn(ops, CommittingRun(t, hook, targets, closed));
    CommittingSteps(s, t, hook, targets, closed, CommittingRun(t, hook, targets, closed));
  }

  lemma ListedIfAdmitted(s: State, t: nat, targets: seq<nat>)
    requires Inv(s) && Admits(s, t, targets)
    ensures Listed(s, targets)
  {
    NoneIsNewer(s);
  }

  lemma NoneIsNewer(s: State)
    requires Inv(s)
    ensures s.cache.floor <= s.commits && s.events.subscribed <= s.events.subs.Keys
    ensures forall key :: key in s.cache.cache.items ==> s.cache.cache.items[key].generation <= s.cache.cache.generation
  {
  }

  /** Snapshot, CallSoon, Unlock and Leave, from the announcement on. */
  lemma TellingSteps(s: State, t: nat, message: B.Message, targets: seq<nat>, closed: bool, path: seq<Op>)
    requires t !in s.runs && s.runLock.None? && s.events.loopSet && Listed(s, targets)
    requires path == [Ingest(t, Snapshot(targets)), Ingest(t, CallSoon(closed)), Ingest(t, Unlock), Ingest(t, Leave)]
    ensures RunFrom(Inside(s, t, Announcing(message)), path) == s.(events := Told(s.events, message, targets, closed))
  {
    TellsAll(s, t, message, targets, closed);
    UnlocksAndLeaves(s.(events := Told(s.events, message, targets, closed)), t);
    FourSteps(Inside(s, t, Announcing(message)), path);
  }

  lemma FourSteps(s: State, path: seq<Op>)
    requires |path| == 4
    ensures RunFrom(s, path) == Step(Step(Step(Step(s, path[0]), path[1]), path[2]), path[3])
  {
    hide Step;
    assert path[..0] == [] && path[..4] == path;
    FromPrefix(s, path, 0);
    FromPrefix(s, path, 1);
    FromPrefix(s, path, 2);
    FromPrefix(s, path, 3);
  }

  lemma ThreeSteps(s: State, path: seq<Op>)
    requires |path| == 3
    ensures RunFrom(s, path) == Step(Step(Step(s, path[0]), path[1]), path[2])
  {
    hide Step;
    assert path[..0] == [] && path[..3] == path;
    FromPrefix(s, path, 0);
    FromPrefix(s, path, 1);
    FromPrefix(s, path, 2);
  }

  lemma CommittingSteps(s: State, t: nat, hook: RunAct, targets: seq<nat>, closed: bool, path: seq<Op>)
    requires IsHook(hook) && Admits(s, t, targets) && Listed(s, targets) && s.cache.floor <= s.commits
    requires path == CommittingRun(t, hook, targets, closed)
    ensures var c := s.commits + 1;
      RunFrom(s, path) == s.(commits := c, cache := Hooked(s.cache, hook, c),
                             events := Told(s.events, B.Done(c), targets, closed))
  {
    var c := s.commits + 1;
    EntersAndLocks(s, t);
    CommitsAndHooks(s, t, hook);
    hide Step, Inside, Hooked, Told, Listed, B.Lists, RunFrom;
    FourSteps(s, path[..4]);
    TellingSteps(s.(commits := c, cache := Hooked(s.cache, hook, c)), t, B.Done(c), targets, closed, path[4..]);
    Append(s, path[..4], path[4..]);
    assert path[..4] + path[4..] == path;
  }

  lemma FailingSteps(s: State, t: nat, targets: seq<nat>, closed: bool, path: seq<Op>)
    requires Admits(s, t, targets) && Listed(s, targets) && path == FailingRun(t, targets, closed)
    ensures RunFrom(s, path) == s.(events := Told(s.events, B.RunFailed, targets, closed))
  {
    EntersAndLocks(s, t);
    FailsInside(s, t);
    hide Step, Inside, Told, Listed, B.Lists, RunFrom;
    ThreeSteps(s, path[..3]);
    TellingSteps(s, t, B.RunFailed, targets, closed, path[3..]);
    Append(s, path[..3], path[3..]);
    assert path[..3] + path[3..] == path;
  }

  /** A failed ingest leaves behind one broadcast of its failure, and nothing else: the cache is not touched. */
  lemma FailingRunEnds(ops: seq<Op>, t: nat, targets: seq<nat>, closed: bool)
    requires Admits(Run(ops), t, targets)
    ensures var s := Run(ops);
      Run(ops + FailingRun(t, targets, closed)) == s.(events := Told(s.events, B.RunFailed, targets, closed))
  {
    RunKeepsInv(ops);
    NoneIsNewer(Run(ops));
    assert Listed(Run(ops), targets);
    RunsOn(ops, FailingRun(t, targets, closed));
    FailingSteps(Run(ops), t, targets, closed, FailingRun(t, targets, closed));
  }

  /** An ingest of thread t that commits while no loop is set. */
  function UnhookedRun(t: nat, hook: RunAct, targets: seq<nat>): seq<Op> {
    [Ingest(t, Enter), Ingest(t, TakeLock), Ingest(t, Commit), Ingest(t, hook)]
    + [Ingest(t, Snapshot(targets)), Ingest(t, Unlock), Ingest(t, Leave)]
  }

  lemma TellsNobody(s: State, t: nat, message: B.Message, targets: seq<nat>, path: seq<Op>)
    requires t !in s.runs && s.runLock.None? && !s.events.loopSet && B.Lists(targets, s.events.subscribed)
    requires path == [Ingest(t, Snapshot(targets)), Ingest(t, Unlock), Ingest(t, Leave)]
    ensures RunFrom(Inside(s, t, Announcing(message)), path) == s
  {
    assert Step(Inside(s, t, Announcing(message)), Ingest(t, Snapshot(targets))) == Inside(s, t, Unlocking);
    UnlocksAndLeaves(s, t);
    ThreeSteps(Inside(s, t, Announcing(message)), path);
  }

  lemma UnhookedSteps(s: State, t: nat, hook: RunAct, targets: seq<nat>)
    requires IsHook(hook) && t !in s.runs && !s.gate.closing && s.runLock.None? && s.cache.floor <= s.commits
    requires !s.events.loopSet && B.Lists(targets, s.events.subscribed)
    ensures RunFrom(s, UnhookedRun(t, hook, targets))
         == s.(commits := s.commits + 1, cache := Hooked(s.cache, hook, s.commits + 1))
  {
    var c, path := s.commits + 1, UnhookedRun(t, hook, targets);
    EntersAndLocks(s, t);
    CommitsAndHooks(s, t, hook);
    hide Step, Inside, Hooked, B.Lists, RunFrom;
    FourSteps(s, path[..4]);
    TellsNobody(s.(commits := c, cache := Hooked(s.cache, hook, c)), t, B.Done(c), targets, path[4..]);
    Append(s, path[..4], path[4..]);
    assert path[..4] + path[4..] == path;
  }

  /** Without a loop the commit is as good as any, and nobody is told. */
  lemma UnhookedRunEnds(ops: seq<Op>, t: nat, hook: RunAct, targets: seq<nat>)
    requires IsHook(hook) && t !in Run(ops).runs && !Run(ops).gate.closing && Run(ops).runLock.None?
    requires !Run(ops).events.loopSet && B.Lists(targets, Run(ops).events.subscribed)
    ensures var s := Run(ops);
      Run(ops + UnhookedRun(t, hook, targets))
      == s.(commits := s.commits + 1, cache := Hooked(s.cache, hook, s.commits + 1))
  {
    hide *;
    RunKeepsInv(ops);
    NoneIsNewer(Run(ops));
    RunsOn(ops, UnhookedRun(t, hook, targets));
    UnhookedSteps(Run(ops), t, hook, targets);
  }

  /** An ingest that finds the lock held leaves nothing behind. */
  lemma SkippedRunEnds(ops: seq<Op>, t: nat)
    requires t !in Run(ops).runs && !Run(ops).gate.closing && Run(ops).runLock.Some?
    ensures Run(ops + SkippedRun(t)) == Run(ops)
  {
    var s, path := Run(ops), SkippedRun(t);
    SkippedSteps(s, t);
    RunsOn(ops, path);
    ThreeSteps(s, path);
  }

  lemma SkippedSteps(s: State, t: nat)
    requires t !in s.runs && !s.gate.closing && s.runLock.Some?
    ensures Step(Step(Step(s, Ingest(t, Enter)), Ingest(t, TakeLock)), Ingest(t, Leave)) == s
  {
    var admitted := Step(s, Ingest(t, Enter));
    assert IsAt(admitted, t, Admitted);
    var leaving := Step(admitted, Ingest(t, TakeLock));
    assert IsAt(leaving, t, Leaving);
    assert Step(leaving, Ingest(t, Leave)).runs == s.runs;
  }

  /** Once admission is closed an ingest is turned away without a trace. */
  lemma ClosedGateTurnsAway(ops: seq<Op>, t: nat)
    requires t !in Run(ops).runs && Run(ops).gate.closing
    ensures Run(ops + [Ingest(t, Enter)]) == Run(ops)
  {
    assert (ops + [Ingest(t, Enter)])[..|ops|] == ops;
  }

  // -------------------------------------------------- every commit, every run

  predicate ActsFor(op: Op, t: nat) {
    op.Ingest? && op.thread == t
  }

  lemma OthersKeepStage(s: State, op: Op, t: nat)
    requires t in s.runs && !ActsFor(op, t)
    ensures t in Step(s, op).runs && Step(s, op).runs[t] == s.runs[t]
  {
    hide R.Step, B.Step;
    match op {
      case Ingest(u, act) =>
        match act {
          case Enter =>
          case TakeLock =>
          case Commit =>
          case Fail =>
          case Invalidate =>
          case HookRaises =>
          case Snapshot(_) =>
          case CallSoon(_) =>
          case Unlock =>
          case Leave =>
        }
      case CacheOp(_) =>
      case EventOp(_) =>
      case Teardown(_) =>
    }
  }

  /** A thread that does not act stays where it is. */
  lemma {:induction false} StageStays(ops: seq<Op>, t: nat, a: nat, b: nat)
    requires a <= b <= |ops| && t in Run(ops[..a]).runs
    requires forall m :: a <= m < b ==> !ActsFor(ops[m], t)
    ensures t in Run(ops[..b]).runs && Run(ops[..b]).runs[t] == Run(ops[..a]).runs[t]
  {
    hide Step, Run;
    if a < b {
      StageStays(ops, t, a, b - 1);
      RunPrefix(ops, b - 1);
      OthersKeepStage(Run(ops[..b - 1]), ops[b - 1], t);
    }
  }

  lemma StaysAt(ops: seq<Op>, t: nat, a: nat, b: nat, stage: Stage)
    requires a <= b <= |ops| && IsAt(Run(ops[..a]), t, stage)
    requires forall m :: a <= m < b ==> !ActsFor(ops[m], t)
    ensures IsAt(Run(ops[..b]), t, stage)
  {
    StageStays(ops, t, a, b);
  }

  lemma EventKeepsQueues(e: B.State, op: B.Op)
    ensures e.subs.Keys <= B.Step(e, op).subs.Keys
  {
    match op {
      case RunCallback =>
        if e.ran < |e.posted| {
          B.CallbackKeepsKeys(e.subs, e.posted[e.ran].targets, e.ran);
        }
      case _ =>
    }
  }

  lemma QueuesStayStep(s: State, op: Op)
    ensures s.events.subs.Keys <= Step(s, op).events.subs.Keys
  {
    hide R.Step, B.Step;
    match op {
      case Ingest(t, act) =>
        if act.CallSoon? && t in s.runs && s.runs[t].Posting? {
          EventKeepsQueues(s.events, B.Schedule(s.runs[t].message, s.runs[t].targets));
        }
      case CacheOp(_) =>
      case EventOp(e) => EventKeepsQueues(s.events, e);
      case Teardown(_) =>
    }
  }

  lemma {:induction false} QueuesStay(ops: seq<Op>, a: nat, b: nat)
    requires a <= b <= |ops|
    ensures Run(ops[..a]).events.subs.Keys <= Run(ops[..b]).events.subs.Keys
  {
    hide Step, Run;
    if a < b {
      QueuesStay(ops, a, b - 1);
      RunPrefix(ops, b - 1);
      QueuesStayStep(Run(ops[..b - 1]), ops[b - 1]);
    }
  }

  /** Between from and to thread t acts only at the given steps. */
  ghost predicate ActsOnlyAt(ops: seq<Op>, t: nat, from: nat, to: nat, at: set<nat>)
    requires to <= |ops|
  {
    forall m :: from <= m < to && ActsFor(ops[m], t) ==> m in at
  }

  lemma SnapshotTaken(s: State, t: nat, targets: seq<nat>)
    requires t in s.runs && s.runs[t].Announcing? && s.events.loopSet && B.Lists(targets, s.events.subscribed)
    ensures var s' := Step(s, Ingest(t, Snapshot(targets)));
      && IsAt(s', t, Posting(s.runs[t].message, targets)) && s'.events == s.events
  {
  }

  lemma Posted(s: State, t: nat)
    requires t in s.runs && s.runs[t].Posting? && B.Distinct(s.runs[t].targets)
    requires forall q :: q in s.runs[t].targets ==> q in s.events.subs
    ensures Step(s, Ingest(t, CallSoon(false))).events.posted
         == s.events.posted + [B.Post(s.runs[t].message, s.runs[t].targets)]
  {
  }

  /** From its announcement on: Snapshot at step j with a loop set, CallSoon at step k. */
  lemma AnnouncedIsPosted(ops: seq<Op>, t: nat, message: B.Message, targets: seq<nat>, h: nat, j: nat, k: nat)
    requires h <= j < k < |ops| && IsAt(Run(ops[..h]), t, Announcing(message))
    requires ops[j] == Ingest(t, Snapshot(targets)) && ops[k] == Ingest(t, CallSoon(false))
    requires ActsOnlyAt(ops, t, h, k, {j})
    requires Run(ops[..j]).events.loopSet && B.Lists(targets, Run(ops[..j]).events.subscribed)
    ensures Run(ops[..k + 1]).events.posted == Run(ops[..k]).events.posted + [B.Post(message, targets)]
  {
    StageStays(ops, t, h, j);
    RunPrefix(ops, j);
    SnapshotTaken(Run(ops[..j]), t, targets);
    StageStays(ops, t, j + 1, k);
    RunPrefix(ops, k);
    RunKeepsInv(ops[..j]);
    NoneIsNewer(Run(ops[..j]));
    QueuesStay(ops, j, k);
    hide Run, Step, Inv;
    Posted(Run(ops[..k]), t);
  }

  lemma CommitTaken(s: State, t: nat)
    requires IsAt(s, t, Writing)
    ensures var s' := Step(s, Ingest(t, Commit)); IsAt(s', t, Committed(s.commits + 1)) && s'.commits == s.commits + 1
  {
  }

  lemma HookPassed(s: State, t: nat, hook: RunAct, c: nat)
    requires IsAt(s, t, Committed(c)) && IsHook(hook)
    ensures IsAt(Step(s, Ingest(t, hook)), t, Announcing(B.Done(c)))
  {
  }

  lemma HookHeard(ops: seq<Op>, t: nat, h: nat, c: nat)
    requires h < |ops| && IsAt(Run(ops[..h]), t, Committed(c))
    requires ops[h].Ingest? && ops[h].thread == t && IsHook(ops[h].act)
    ensures HookAt(ops, h, c, ops[h].act) && IsAt(Run(ops[..h + 1]), t, Announcing(B.Done(c)))
    ensures ops[h].act.Invalidate? ==> Run(ops[..h + 1]).cache.floor == c
  {
    hide Run, Step, Inv;
    RunPrefix(ops, h);
    HookPassed(Run(ops[..h]), t, ops[h].act, c);
    RunKeepsInv(ops[..h]);
    FloorStep(Run(ops[..h]), ops[h]);
  }

  lemma CommitReachesHook(ops: seq<Op>, t: nat, i: nat, h: nat)
    requires i < h < |ops| && IsAt(Run(ops[..i]), t, Writing) && ops[i] == Ingest(t, Commit)
    requires forall m :: i < m < h ==> !ActsFor(ops[m], t)
    ensures var c := Run(ops[..i]).commits + 1; Run(ops[..i + 1]).commits == c && IsAt(Run(ops[..h]), t, Committed(c))
  {
    hide Run, Step, IsAt;
    RunPrefix(ops, i);
    CommitTaken(Run(ops[..i]), t);
    StaysAt(ops, t, i + 1, h, Committed(Run(ops[..i]).commits + 1));
  }

  /**
    In every interleaving, a thread that commits at step i, passes the cache hook at h, takes its snapshot of
    the subscribers at j while a loop is set, and gets through to the loop at k, has posted its own commit to
    exactly those subscribers; if the hook ran, the cache heard of that commit at h.
   */
  lemma CommitIsPosted(ops: seq<Op>, t: nat, targets: seq<nat>, i: nat, h: nat, j: nat, k: nat)
    requires i < h < j < k < |ops| && IsAt(Run(ops[..i]), t, Writing)
    requires ops[i] == Ingest(t, Commit) && ops[h].Ingest? && ops[h].thread == t && IsHook(ops[h].act)
    requires ops[j] == Ingest(t, Snapshot(targets)) && ops[k] == Ingest(t, CallSoon(false))
    requires ActsOnlyAt(ops, t, i + 1, k, {h, j})
    requires Run(ops[..j]).events.loopSet && B.Lists(targets, Run(ops[..j]).events.subscribed)
    ensures var c := Run(ops[..i]).commits + 1;
      && Run(ops[..i + 1]).commits == c && HookAt(ops, h, c, ops[h].act)
      && (ops[h].act.Invalidate? ==> Run(ops[..h + 1]).cache.floor == c)
      && Run(ops[..k + 1]).events.posted == Run(ops[..k]).events.posted + [B.Post(B.Done(c), targets)]
  {
    hide Run, Step, B.Lists, IsAt, HookAt;
    var c := Run(ops[..i]).commits + 1;
    CommitReachesHook(ops, t, i, h);
    HookHeard(ops, t, h, c);
    AnnouncedIsPosted(ops, t, B.Done(c), targets, h + 1, j, k);
  }

  lemma FailTaken(s: State, t: nat)
    requires IsAt(s, t, Writing)
    ensures IsAt(Step(s, Ingest(t, Fail)), t, Announcing(B.RunFailed))
  {
  }

  /** And a thread whose run fails posts the failure, in the same way. */
  lemma FailureIsPosted(ops: seq<Op>, t: nat, targets: seq<nat>, i: nat, j: nat, k: nat)
    requires i < j < k < |ops| && IsAt(Run(ops[..i]), t, Writing) && ops[i] == Ingest(t, Fail)
    requires ops[j] == Ingest(t, Snapshot(targets)) && ops[k] == Ingest(t, CallSoon(false))
    requires ActsOnlyAt(ops, t, i + 1, k, {j})
    requires Run(ops[..j]).events.loopSet && B.Lists(targets, Run(ops[..j]).events.subscribed)
    ensures Run(ops[..k + 1]).events.posted == Run(ops[..k]).events.posted + [B.Post(B.RunFailed, targets)]
  {
    RunPrefix(ops, i);
    FailTaken(Run(ops[..i]), t);
    hide Run, Step;
    AnnouncedIsPosted(ops, t, B.RunFailed, targets, i + 1, j, k);
  }
}

/**
  The whole process: ingest threads, the response cache and its refresh tasks, the
  event queues, and teardown, interleaved step by step. Commits are numbered in the
  order in which the database accepts them.
 */
module Service {
  import opened Wrappers
  import C = Cache
  import R = Refresh
  import B = Broadcast

  // --------------------------------------------------------------- admission

  datatype Gate = Gate(active: nat, closing: bool)

  function AfterEnter(g: Gate): Gate {
    if g.closing then g else g.(active := g.active + 1)
  }

  function AfterExit(g: Gate): Gate {
    if g.active > 0 then g.(active := g.active - 1) else g
  }

  /** _IngestCoordinator: run is Enter, the ingest, and Exit in a finally block. */
  class IngestCoordinator {
    var active: nat
    var closing: bool

    function View(): Gate
      reads this
    {
      Gate(active, closing)
    }

    constructor ()
      ensures View() == Gate(0, false)
    {
      active, closing := 0, false;
    }

    method Enter() returns (admitted: bool)
      modifies this`active
      ensures admitted <==> !closing
      ensures View() == AfterEnter(old(View()))
    {
      if closing {
        return false;
      }
      active := active + 1;
      admitted := true;
    }

    method Exit()
      requires active > 0
      modifies this`active
      ensures View() == AfterExit(old(View()))
    {
      active := active - 1;
    }

    method BeginShutdown()
      modifies this`closing
      ensures View() == old(View()).(closing := true)
    {
      closing := true;
    }

    /** The condition wait_for_idle waits for. */
    method Idle() returns (idle: bool)
      ensures idle <==> View().active == 0
    {
      idle := active == 0;
    }
  }

  // -------------------------------------------------------------------- state

  /** Where an admitted ingest thread is. */
  datatype Stage =
    | Admitted
    | Writing
    | Committed(commit: nat)
    | Announcing(message: B.Message)
    | Posting(message: B.Message, targets: seq<nat>)
    | Unlocking
    | Leaving

  /** Progress of the lifespan's finally block. */
  datatype Phase = Serving | Closing | Idle | Unhooked | Refusing | Drained | Closed

  datatype State = State(
    cache: R.State, events: B.State, commits: nat,
    runs: map<nat, Stage>, runLock: Option<nat>, gate: Gate, phase: Phase)

  datatype RunAct =
    | Enter | TakeLock | Commit | Fail | Invalidate | HookRaises | Snapshot(targets: seq<nat>)
    | CallSoon(loopClosed: bool) | Unlock | Leave

  datatype TeardownAct = BeginShutdown | SeeIdle | ClearLoop | StopRefresh | SeeDrained | ClosePools

  datatype Op =
    | Ingest(thread: nat, act: RunAct)
    | CacheOp(cache: R.Op)
    | EventOp(event: B.Op)
    | Teardown(step: TeardownAct)

  const INITIAL := State(R.INITIAL, B.INITIAL, 0, map[], None, Gate(0, false), Serving)

  function Go(s: State, t: nat, next: Stage): State {
    s.(runs := s.runs[t := next])
  }

  predicate IsAt(s: State, t: nat, stage: Stage) {
    t in s.runs && s.runs[t] == stage
  }

  // --------------------------------------------------------------- run steps

  function StepEnter(s: State, t: nat): State {
    if t in s.runs || s.gate.closing then s else Go(s, t, Admitted).(gate := AfterEnter(s.gate))
  }

  /** The run lock is taken without waiting; a thread that finds it held skips its run. */
  function StepTakeLock(s: State, t: nat): State {
    if !IsAt(s, t, Admitted) then s
    else if s.runLock.None? then Go(s, t, Writing).(runLock := Some(t))
    else Go(s, t, Leaving)
  }

  function StepCommit(s: State, t: nat): State {
    if IsAt(s, t, Writing) then Go(s, t, Committed(s.commits + 1)).(commits := s.commits + 1) else s
  }

  function StepFail(s: State, t: nat): State {
    if IsAt(s, t, Writing) then Go(s, t, Announcing(B.RunFailed)) else s
  }

  function StepInvalidate(s: State, t: nat): State {
    if t in s.runs && s.runs[t].Committed? then
      var c := s.runs[t].commit;
      Go(s, t, Announcing(B.Done(c))).(cache := R.Step(s.cache, R.Invalidated(c)))
    else s
  }

  /** The invalidation raised: that is logged, and the run is announced all the same. */
  function StepHookRaises(s: State, t: nat): State {
    if t in s.runs && s.runs[t].Committed? then Go(s, t, Announcing(B.Done(s.runs[t].commit))) else s
  }

  ghost function StepSnapshot(s: State, t: nat, targets: seq<nat>): State {
    if t !in s.runs || !s.runs[t].Announcing? || !B.Lists(targets, s.events.subscribed) then s
    else if s.events.loopSet then Go(s, t, Posting(s.runs[t].message, targets))
    else Go(s, t, Unlocking)
  }

  ghost function StepCallSoon(s: State, t: nat, loopClosed: bool): State {
    if t !in s.runs || !s.runs[t].Posting? then s
    else if loopClosed then Go(s, t, Unlocking)
    else Go(s, t, Unlocking).(events := B.Step(s.events, B.Schedule(s.runs[t].message, s.runs[t].targets)))
  }

  function StepUnlock(s: State, t: nat): State {
    if IsAt(s, t, Unlocking) then Go(s, t, Leaving).(runLock := None) else s
  }

  function StepLeave(s: State, t: nat): State {
    if IsAt(s, t, Leaving) then s.(runs := s.runs - {t}, gate := AfterExit(s.gate)) else s
  }

  ghost function RunStep(s: State, t: nat, act: RunAct): State {
    match act
    case Enter => StepEnter(s, t)
    case TakeLock => StepTakeLock(s, t)
    case Commit => StepCommit(s, t)
    case Fail => StepFail(s, t)
    case Invalidate => StepInvalidate(s, t)
    case HookRaises => StepHookRaises(s, t)
    case Snapshot(targets) => StepSnapshot(s, t, targets)
    case CallSoon(loopClosed) => StepCallSoon(s, t, loopClosed)
    case Unlock => StepUnlock(s, t)
    case Leave => StepLeave(s, t)
  }

  // ------------------------------------------------------------- other steps

  /** Readers and tasks act on their own; what a query reads is the latest commit. */
  predicate Spontaneous(op: R.Op, commits: nat) {
    && !op.Invalidated? && !op.Stop?
    && (op.Fill? && op.miss.Read? ==> op.miss.commit == commits)
    && (op.Work? && op.work.Query? ==> op.work.commit == commits)
  }

  function TeardownStep(s: State, act: TeardownAct): State {
    match act
    case BeginShutdown => if s.phase.Serving? then s.(gate := s.gate.(closing := true), phase := Closing) else s
    case SeeIdle => if s.phase.Closing? && s.gate.active == 0 then s.(phase := Idle) else s
    case ClearLoop => if s.phase.Idle? then s.(events := s.events.(loopSet := false), phase := Unhooked) else s
    case StopRefresh => if s.phase.Unhooked? then s.(cache := R.Step(s.cache, R.Stop), phase := Refusing) else s
    case SeeDrained => if s.phase.Refusing? && s.cache.tasks == map[] then s.(phase := Drained) else s
    case ClosePools => if s.phase.Drained? then s.(phase := Closed) else s
  }

  ghost function Step(s: State, op: Op): State {
    match op
    case Ingest(t, act) => RunStep(s, t, act)
    case CacheOp(c) => if Spontaneous(c, s.commits) then s.(cache := R.Step(s.cache, c)) else s
    case EventOp(e) => if e.Schedule? || e.ClearLoop? then s else s.(events := B.Step(s.events, e))
    case Teardown(act) => TeardownStep(s, act)
  }

  ghost function Run(ops: seq<Op>): State {
    if ops == [] then INITIAL else Step(Run(ops[..|ops| - 1]), ops[|ops| - 1])
  }

  // --------------------------------------------------------------- invariants

  predicate InLock(stage: Stage) {
    !stage.Admitted? && !stage.Leaving?
  }

  ghost predicate Locking(s: State) {
    && (forall t :: t in s.runs && InLock(s.runs[t]) ==> s.runLock == Some(t))
    && (s.runLock.Some? ==> s.runLock.value in s.runs && InLock(s.runs[s.runLock.value]))
  }

  ghost predicate Counting(s: State) {
    s.gate.active == |s.runs|
  }

  /** What the holder of the run lock still has to announce. */
  function Holder(s: State): Stage {
    if s.runLock.Some? && s.runLock.value in s.runs then s.runs[s.runLock.value] else Leaving
  }

  ghost predicate PostedBelow(posted: seq<B.Post>, bound: nat) {
    forall i :: 0 <= i < |posted| && posted[i].message.Done? ==> posted[i].message.commit < bound
  }

  ghost predicate Ascending(posted: seq<B.Post>) {
    forall i, j :: 0 <= i < j < |posted| && posted[i].message.Done? && posted[j].message.Done? ==>
      posted[i].message.commit < posted[j].message.commit
  }

  /** The cache is never ahead of the database, and everything is announced in order. */
  ghost predicate Announced(s: State) {
    && s.cache.floor <= s.commits
    && PostedBelow(s.events.posted, s.commits + 1) && Ascending(s.events.posted)
    && (match Holder(s)
        case Committed(c) => c == s.commits && s.cache.floor < c && PostedBelow(s.events.posted, c)
        case Announcing(Done(c)) => c == s.commits && PostedBelow(s.events.posted, c)
        case Posting(Done(c), _) => c == s.commits && PostedBelow(s.events.posted, c)
        case _ => true)
  }

  function Rank(phase: Phase): nat {
    match phase
    case Serving => 0
    case Closing => 1
    case Idle => 2
    case Unhooked => 3
    case Refusing => 4
    case Drained => 5
    case Closed => 6
  }

  /** What each phase of teardown has established for good. */
  ghost predicate Secured(s: State) {
    && (Rank(s.phase) >= 1 ==> s.gate.closing)
    && (Rank(s.phase) >= 2 ==> s.runs == map[])
    && (Rank(s.phase) >= 3 ==> !s.events.loopSet)
    && (Rank(s.phase) >= 4 ==> !s.cache.registry.accepting)
    && (Rank(s.phase) >= 5 ==> s.cache.tasks == map[])
  }

  lemma RunKeepsLocking(s: State, t: nat, act: RunAct)
    requires Locking(s)
    ensures Locking(RunStep(s, t, act))
  {
    match act {
      case Enter =>
      case TakeLock =>
      case Commit =>
      case Fail =>
      case Invalidate =>
      case HookRaises =>
      case Snapshot(_) =>
      case CallSoon(_) =>
      case Unlock =>
      case Leave =>
    }
  }

  lemma MoveKeepsCount(s: State, t: nat, next: Stage)
    requires t in s.runs
    ensures |Go(s, t, next).runs| == |s.runs|
  {
    assert Go(s, t, next).runs.Keys == s.runs.Keys;
  }

  lemma EnterKeepsCounting(s: State, t: nat)
    requires Counting(s)
    ensures Counting(StepEnter(s, t))
  {
    if t !in s.runs {
      assert s.runs[t := Admitted].Keys == s.runs.Keys + {t};
    }
  }

  lemma LeaveKeepsCounting(s: State, t: nat)
    requires Counting(s)
    ensures Counting(StepLeave(s, t))
  {
    assert (s.runs - {t}).Keys == s.runs.Keys - {t};
  }

  lemma RunKeepsCounting(s: State, t: nat, act: RunAct)
    requires Counting(s)
    ensures Counting(RunStep(s, t, act))
  {
    if act.Enter? {
      EnterKeepsCounting(s, t);
    } else if act.Leave? {
      LeaveKeepsCounting(s, t);
    } else if t in s.runs {
      MoveKeepsCount(s, t, RunStep(s, t, act).runs[t]);
    }
  }

  lemma ScheduledStays(posted: seq<B.Post>, message: B.Message, targets: seq<nat>, bound: nat)
    requires Ascending(posted) && PostedBelow(posted, bound)
    requires message.Done? ==> PostedBelow(posted, message.commit) && message.commit < bound
    ensures Ascending(posted + [B.Post(message, targets)]) && PostedBelow(posted + [B.Post(message, targets)], bound)
  {
  }

  lemma RunKeepsAnnounced(s: State, t: nat, act: RunAct)
    requires Locking(s) && Announced(s)
    ensures Announced(RunStep(s, t, act))
  {
    match act {
      case Enter =>
      case TakeLock =>
      case Commit =>
      case Fail =>
      case Invalidate =>
      case HookRaises =>
      case Snapshot(_) =>
      case CallSoon(loopClosed) =>
        if t in s.runs && s.runs[t].Posting? {
          ScheduledStays(s.events.posted, s.runs[t].message, s.runs[t].targets, s.commits + 1);
        }
      case Unlock =>
      case Leave =>
    }
  }

  lemma RunKeepsSecured(s: State, t: nat, act: RunAct)
    requires Secured(s)
    ensures Secured(RunStep(s, t, act))
  {
  }

  lemma RunKeepsParts(s: State, t: nat, act: RunAct)
    requires R.Inv(s.cache) && B.Inv(s.events)
    ensures R.Inv(RunStep(s, t, act).cache) && B.Inv(RunStep(s, t, act).events)
  {
    hide R.Inv, B.Inv, R.Step, B.Step;
    if act.Invalidate? && t in s.runs && s.runs[t].Committed? {
      R.StepKeepsInv(s.cache, R.Invalidated(s.runs[t].commit));
    }
    if act.CallSoon? && t in s.runs && s.runs[t].Posting? {
      B.StepKeepsInv(s.events, B.Schedule(s.runs[t].message, s.runs[t].targets));
    }
  }

  ghost predicate Inv(s: State) {
    && R.Inv(s.cache) && B.Inv(s.events)
    && Locking(s) && Counting(s) && Announced(s) && Secured(s)
  }

  /** A reader, a refresh task or a subscriber neither invalidates, nor announces, nor undoes teardown. */
  lemma FloorStays(s: R.State, op: R.Op)
    requires !op.Invalidated?
    ensures R.Step(s, op).floor == s.floor
  {
    match op {
      case Serve(r, act) =>
      case Fill(r, act) =>
      case Work(t, act) =>
      case _ =>
    }
  }

  lemma CacheKeepsInv(s: State, op: R.Op)
    requires Inv(s) && Spontaneous(op, s.commits)
    ensures Inv(s.(cache := R.Step(s.cache, op)))
  {
    hide R.Inv, B.Inv, R.Step;
    R.StepKeepsInv(s.cache, op);
    FloorStays(s.cache, op);
    if !s.cache.registry.accepting {
      R.StoppedAddsNoTask(s.cache, op);
    }
  }

  lemma EventKeepsInv(s: State, op: B.Op)
    requires Inv(s) && !op.Schedule? && !op.ClearLoop?
    ensures Inv(s.(events := B.Step(s.events, op)))
  {
    hide R.Inv, B.Inv;
    B.StepKeepsInv(s.events, op);
  }

  lemma TeardownKeepsInv(s: State, act: TeardownAct)
    requires Inv(s)
    ensures Inv(TeardownStep(s, act))
  {
    hide R.Inv, B.Inv, R.Step;
    if act.StopRefresh? {
      R.StepKeepsInv(s.cache, R.Stop);
      FloorStays(s.cache, R.Stop);
      StopRefuses(s.cache);
    }
    if act.ClearLoop? {
      B.StepKeepsInv(s.events, B.ClearLoop);
    }
  }

  lemma StopRefuses(s: R.State)
    ensures !R.Step(s, R.Stop).registry.accepting
  {
  }

  lemma StepKeepsInv(s: State, op: Op)
    requires Inv(s)
    ensures Inv(Step(s, op))
  {
    match op {
      case Ingest(t, act) =>
        hide R.Inv, B.Inv, Locking, Counting, Announced, Secured, RunStep;
        RunKeepsParts(s, t, act);
        RunKeepsLocking(s, t, act);
        RunKeepsCounting(s, t, act);
        RunKeepsAnnounced(s, t, act);
        RunKeepsSecured(s, t, act);
      case CacheOp(c) =>
        if Spontaneous(c, s.commits) {
          CacheKeepsInv(s, c);
        }
      case EventOp(e) =>
        if !e.Schedule? && !e.ClearLoop? {
          EventKeepsInv(s, e);
        }
      case Teardown(act) => TeardownKeepsInv(s, act);
    }
  }

  /** Every interleaving of everything keeps the invariants. */
  lemma {:induction false} RunKeepsInv(ops: seq<Op>)
    ensures Inv(Run(ops))
  {
    if ops != [] {
      RunKeepsInv(ops[..|ops| - 1]);
      StepKeepsInv(Run(ops[..|ops| - 1]), ops[|ops| - 1]);
    }
  }

  // ---------------------------------------------------------------- freshness

  lemma StepFloorGrows(s: State, op: Op)
    ensures Step(s, op).cache.floor >= s.cache.floor
  {
    match op {
      case Ingest(t, act) =>
      case CacheOp(c) =>
        hide R.Step;
        if Spontaneous(c, s.commits) {
          FloorStays(s.cache, c);
        }
      case EventOp(_) =>
      case Teardown(_) =>
    }
  }

  lemma {:induction false} FloorGrows(ops: seq<Op>, more: seq<Op>)
    ensures Run(ops + more).cache.floor >= Run(ops).cache.floor
  {
    if more == [] {
      assert ops + more == ops;
    } else {
      var n := |more| - 1;
      assert (ops + more)[..|ops + more| - 1] == ops + more[..n];
      FloorGrows(ops, more[..n]);
      StepFloorGrows(Run(ops + more[..n]), more[n]);
    }
  }

  /** Step i of the run is a thread that committed c coming out of the cache hook, by the given act. */
  ghost predicate HookAt(ops: seq<Op>, i: nat, c: nat, act: RunAct) {
    i < |ops| && ops[i].Ingest? && ops[i].act == act && IsAt(Run(ops[..i]), ops[i].thread, Committed(c))
  }

  /** The cache has been invalidated for commit c or a later one. */
  ghost predicate Heard(ops: seq<Op>, c: nat) {
    exists i, k :: c <= k && HookAt(ops, i, k, Invalidate)
  }

  /** The invalidation for commit c raised. */
  ghost predicate Raised(ops: seq<Op>, c: nat) {
    exists i :: HookAt(ops, i, c, HookRaises)
  }

  /** Whether a step came out of the hook does not depend on the steps after it. */
  lemma HookStays(ops: seq<Op>, n: nat, i: nat, c: nat, act: RunAct)
    requires i < n <= |ops|
    ensures HookAt(ops, i, c, act) <==> HookAt(ops[..n], i, c, act)
  {
    assert ops[..n][..i] == ops[..i];
  }

  lemma HeardSnoc(ops: seq<Op>, c: nat)
    requires ops != []
    ensures var n := |ops| - 1;
      Heard(ops, c) <==> Heard(ops[..n], c) || exists k :: c <= k && HookAt(ops, n, k, Invalidate)
  {
    hide HookAt;
    var n := |ops| - 1;
    if Heard(ops, c) {
      var i: nat, k: nat :| c <= k && HookAt(ops, i, k, Invalidate);
      HookBound(ops, i, k, Invalidate);
      if i < n {
        HookStays(ops, n, i, k, Invalidate);
      }
    }
    if Heard(ops[..n], c) {
      var i: nat, k: nat :| c <= k && HookAt(ops[..n], i, k, Invalidate);
      HookBound(ops[..n], i, k, Invalidate);
      HookStays(ops, n, i, k, Invalidate);
    }
  }

  lemma RaisedStays(ops: seq<Op>, n: nat, c: nat)
    requires n <= |ops| && Raised(ops[..n], c)
    ensures Raised(ops, c)
  {
    hide HookAt;
    var i: nat :| HookAt(ops[..n], i, c, HookRaises);
    HookBound(ops[..n], i, c, HookRaises);
    HookStays(ops, n, i, c, HookRaises);
  }

  lemma HookBound(ops: seq<Op>, i: nat, c: nat, act: RunAct)
    requires HookAt(ops, i, c, act)
    ensures i < |ops|
  {
  }

  lemma InvalidationRaisesFloor(s: State, t: nat)
    requires Inv(s) && t in s.runs && s.runs[t].Committed?
    ensures s.cache.floor < s.runs[t].commit
  {
  }

  lemma FloorStep(s: State, op: Op)
    requires Inv(s)
    ensures Step(s, op).cache.floor
         == if op.Ingest? && op.act.Invalidate? && op.thread in s.runs && s.runs[op.thread].Committed?
            then s.runs[op.thread].commit else s.cache.floor
  {
    if op.Ingest? && op.act.Invalidate? && op.thread in s.runs && s.runs[op.thread].Committed? {
      InvalidationRaisesFloor(s, op.thread);
    }
    hide Inv;
    match op {
      case Ingest(t, act) =>
      case CacheOp(c) =>
        hide R.Step;
        if Spontaneous(c, s.commits) {
          FloorStays(s.cache, c);
        }
      case EventOp(_) =>
      case Teardown(_) =>
    }
  }

  /** The floor is the newest commit the cache has heard of. */
  lemma {:induction false} HeardIff(ops: seq<Op>, c: nat)
    requires c > 0
    ensures Heard(ops, c) <==> c <= Run(ops).cache.floor
  {
    if ops == [] {
      assert Run(ops).cache.floor == 0;
    } else {
      hide Heard, Step, Inv;
      var n := |ops| - 1;
      HeardIff(ops[..n], c);
      HeardSnoc(ops, c);
      RunKeepsInv(ops[..n]);
      FloorStep(Run(ops[..n]), ops[n]);
      if ops[n].Ingest? && ops[n].act.Invalidate? {
        var s, t := Run(ops[..n]), ops[n].thread;
        if t in s.runs && s.runs[t].Committed? {
          InvalidationRaisesFloor(s, t);
          assert HookAt(ops, n, s.runs[t].commit, Invalidate);
        }
      }
    }
  }

  /** Where a thread is between the cache hook for commit c and its broadcast. */
  predicate Telling(stage: Stage, c: nat) {
    (stage.Announcing? || stage.Posting?) && stage.message == B.Done(c)
  }

  /** Commit c is being announced or has been. */
  ghost predicate Announces(s: State, c: nat) {
    || (exists t :: t in s.runs && Telling(s.runs[t], c))
    || (exists i :: 0 <= i < |s.events.posted| && s.events.posted[i].message == B.Done(c))
  }

  predicate LeavesHook(s: State, op: Op, c: nat) {
    op.Ingest? && (op.act.Invalidate? || op.act.HookRaises?) && IsAt(s, op.thread, Committed(c))
  }

  lemma TellingStep(s: State, op: Op, t: nat, c: nat)
    requires t in Step(s, op).runs && Telling(Step(s, op).runs[t], c)
    ensures (t in s.runs && Telling(s.runs[t], c)) || LeavesHook(s, op, c)
  {
    hide R.Step, B.Step;
    match op {
      case Ingest(x, act) =>
        match act {
          case Enter =>
          case TakeLock =>
          case Commit =>
          case Fail =>
          case Invalidate =>
          case HookRaises =>
          case Snapshot(_) =>
          case CallSoon(_) =>
          case Unlock =>
          case Leave =>
        }
      case CacheOp(_) =>
      case EventOp(_) =>
      case Teardown(_) =>
    }
  }

  lemma PostedStep(s: State, op: Op, i: nat, c: nat)
    requires i < |Step(s, op).events.posted| && Step(s, op).events.posted[i].message == B.Done(c)
    ensures Announces(s, c)
  {
    hide R.Step;
    if i < |s.events.posted| {
      assert s.events.posted[i] == Step(s, op).events.posted[i];
    } else {
      assert op.Ingest? && op.act.CallSoon? && op.thread in s.runs && Telling(s.runs[op.thread], c);
    }
  }

  /** What is announced after a step was announced before, or has just left the hook. */
  lemma AnnouncesStep(s: State, op: Op, c: nat)
    requires Announces(Step(s, op), c)
    ensures Announces(s, c) || LeavesHook(s, op, c)
  {
    hide Step, Telling;
    var s' := Step(s, op);
    if t :| t in s'.runs && Telling(s'.runs[t], c) {
      TellingStep(s, op, t, c);
    } else {
      var i: nat :| i < |s'.events.posted| && s'.events.posted[i].message == B.Done(c);
      PostedStep(s, op, i, c);
    }
  }

  /** No commit is announced before its hook has run, or raised. */
  lemma {:induction false} AnnouncedLeftHook(ops: seq<Op>, c: nat)
    requires Announces(Run(ops), c)
    ensures Heard(ops, c) || Raised(ops, c)
  {
    if ops != [] {
      var n := |ops| - 1;
      AnnouncesStep(Run(ops[..n]), ops[n], c);
      HeardSnoc(ops, c);
      if Announces(Run(ops[..n]), c) {
        AnnouncedLeftHook(ops[..n], c);
        if Raised(ops[..n], c) {
          RaisedStays(ops, n, c);
        }
      } else {
        assert HookAt(ops, n, c, ops[n].act);
      }
    }
  }

  /** What the cache has heard of it never forgets. */
  lemma HeardStays(ops: seq<Op>, more: seq<Op>, c: nat)
    requires c > 0 && Heard(ops, c)
    ensures Heard(ops + more, c)
  {
    hide Heard, Run;
    HeardIff(ops, c);
    FloorGrows(ops, more);
    HeardIff(ops + more, c);
  }

  /** Every background hit reported non-stale reflects commit c or a later one. */
  ghost predicate Reflects(s: State, c: nat) {
    forall key, now :: C.Found(s.cache.cache, key, now, R.TTL).Some? ==>
      var hit := C.Found(s.cache.cache, key, now, R.TTL).value;
      !hit.stale && hit.value.origin == R.Background ==> hit.value.commit >= c
  }

  lemma HeardReflects(ops: seq<Op>, c: nat)
    requires Heard(ops, c)
    ensures Reflects(Run(ops), c)
  {
    if c > 0 {
      hide Heard, Run, B.Inv, Locking, Counting, Announced, Secured;
      RunKeepsInv(ops);
      HeardIff(ops, c);
    }
  }

  /**
    Once the ingest_done of commit c has been handed to the loop, every cache hit from then on, in
    every continuation, that is reported non-stale and was published by the refresh path reflects
    commit c or a later one, unless the invalidation for c raised. Even then it does as soon as
    a later invalidation has succeeded.
   */
  lemma AnnouncedIsReflected(ops: seq<Op>, more: seq<Op>, i: nat)
    requires i < |Run(ops).events.posted| && Run(ops).events.posted[i].message.Done?
    ensures var c := Run(ops).events.posted[i].message.commit;
      && (!Raised(ops, c) ==> Reflects(Run(ops + more), c))
      && (Heard(ops + more, c) ==> Reflects(Run(ops + more), c))
      && (Heard(ops, c) || Raised(ops, c))
  {
    var c := Run(ops).events.posted[i].message.commit;
    AnnouncedLeftHook(ops, c);
    if !Raised(ops, c) && c > 0 {
      HeardStays(ops, more, c);
    }
    if Heard(ops + more, c) {
      HeardReflects(ops + more, c);
    }
  }

  /** Nothing in the cache, or on its way there, reflects a commit that has not happened. */
  ghost predicate Known(s: R.State, commits: nat) {
    && (forall key :: key in s.cache.items ==> s.cache.items[key].value.commit <= commits)
    && (forall r :: r in s.readers && s.readers[r].Computed? ==> s.readers[r].value.commit <= commits)
    && (forall t :: t in s.tasks && s.tasks[t].stage.Finished? ==> s.tasks[t].stage.value.commit <= commits)
  }

  lemma ServeKeepsKnown(s: R.State, r: nat, act: R.HitAct, commits: nat)
    requires Known(s, commits)
    ensures Known(R.ServeStep(s, r, act), commits)
  {
  }

  lemma FillKeepsKnown(s: R.State, r: nat, act: R.MissAct, commits: nat)
    requires Known(s, commits) && (act.Read? ==> act.commit <= commits)
    ensures Known(R.FillStep(s, r, act), commits)
  {
  }

  lemma WorkKeepsKnown(s: R.State, t: nat, act: R.TaskAct, commits: nat)
    requires Known(s, commits) && (act.Query? ==> act.commit <= commits)
    ensures Known(R.WorkStep(s, t, act), commits)
  {
  }

  lemma KnownStep(s: R.State, op: R.Op, commits: nat)
    requires Known(s, commits) && (op.Invalidated? || Spontaneous(op, commits))
    ensures Known(R.Step(s, op), commits)
  {
    hide R.ServeStep, R.FillStep, R.WorkStep;
    match op {
      case Serve(r, act) => ServeKeepsKnown(s, r, act, commits);
      case Fill(r, act) => FillKeepsKnown(s, r, act, commits);
      case Work(t, act) => WorkKeepsKnown(s, t, act, commits);
      case _ =>
    }
  }

  lemma {:induction false} RunKeepsKnown(ops: seq<Op>)
    ensures Known(Run(ops).cache, Run(ops).commits)
  {
    if ops != [] {
      var n := |ops| - 1;
      var s := Run(ops[..n]);
      RunKeepsKnown(ops[..n]);
      match ops[n] {
        case Ingest(t, act) =>
          hide R.Step;
          if act.Invalidate? && t in s.runs && s.runs[t].Committed? {
            KnownStep(s.cache, R.Invalidated(s.runs[t].commit), s.commits);
          }
        case CacheOp(c) =>
          hide R.Step;
          if Spontaneous(c, s.commits) {
            KnownStep(s.cache, c, s.commits);
          }
        case EventOp(_) =>
        case Teardown(_) =>
      }
    }
  }

  /** An entry of the refresh path that is not marked stale. */
  predicate Current(c: C.Contents<R.Value>, key: C.Key) {
    key in c.items && c.items[key].generation == c.generation && c.items[key].value.origin == R.Background
  }

  lemma ReflectsIff(s: State, c: nat)
    ensures Reflects(s, c)
       <==> forall key :: Current(s.cache.cache, key) ==> s.cache.cache.items[key].value.commit >= c
  {
    if Reflects(s, c) {
      forall key | Current(s.cache.cache, key) ensures s.cache.cache.items[key].value.commit >= c {
        var now := s.cache.cache.items[key].at;
        assert C.Found(s.cache.cache, key, now, R.TTL).Some?;
      }
    }
  }

  lemma HolderKnowsCommits(s: State, t: nat)
    requires Inv(s) && t in s.runs && s.runs[t].Committed?
    ensures s.runs[t].commit == s.commits
  {
  }

  /**
    The hook decides. If it runs, the cache reflects the commit; if it raises, exactly if
    whatever the refresh path has in the cache unmarked was read after that very commit.
   */
  lemma HookDecides(ops: seq<Op>, t: nat)
    requires t in Run(ops).runs && Run(ops).runs[t].Committed?
    ensures var s := Run(ops); var c := s.runs[t].commit;
      && Reflects(Run(ops + [Ingest(t, Invalidate)]), c)
      && (Reflects(Run(ops + [Ingest(t, HookRaises)]), c)
          <==> forall key :: Current(s.cache.cache, key) ==> s.cache.cache.items[key].value.commit == c)
  {
    RunKeepsInv(ops);
    RunKeepsKnown(ops);
    var s := Run(ops);
    InvalidationRaisesFloor(s, t);
    HolderKnowsCommits(s, t);
    RunKeepsParts(s, t, Invalidate);
    RunPrefix(ops + [Ingest(t, Invalidate)], |ops|);
    RunPrefix(ops + [Ingest(t, HookRaises)], |ops|);
    assert (ops + [Ingest(t, Invalidate)])[..|ops|] == ops && (ops + [Ingest(t, HookRaises)])[..|ops|] == ops;
    assert forall op :: (ops + [op])[..|ops| + 1] == ops + [op];
    hide Run, Reflects, Locking, Counting, Announced, Secured;
    ReflectsIff(RunStep(s, t, Invalidate), s.runs[t].commit);
    ReflectsIff(RunStep(s, t, HookRaises), s.runs[t].commit);
  }

  /** Thread t runs an ingest that commits, and whose cache hook raises, up to the broadcast. */
  function LosingHook(t: nat, targets: seq<nat>): seq<Op> {
    [Ingest(t, Enter), Ingest(t, TakeLock), Ingest(t, Commit), Ingest(t, HookRaises),
     Ingest(t, Snapshot(targets)), Ingest(t, CallSoon(false))]
  }

  lemma RunPrefix(ops: seq<Op>, i: nat)
    requires i < |ops|
    ensures Run(ops[..i + 1]) == Step(Run(ops[..i]), ops[i])
  {
    assert ops[..i + 1][..i] == ops[..i];
  }

  lemma AnnouncingPosts(s: State, t: nat, targets: seq<nat>)
    requires t in s.runs && s.runs[t].Announcing? && s.events.loopSet
    requires s.events.subscribed <= s.events.subs.Keys && B.Lists(targets, s.events.subscribed)
    ensures var s' := StepCallSoon(StepSnapshot(s, t, targets), t, false);
      s'.cache == s.cache && s'.events.posted == s.events.posted + [B.Post(s.runs[t].message, targets)]
  {
  }

  /** The state admits that ingest. */
  ghost predicate Admits(s: State, t: nat, targets: seq<nat>) {
    && t !in s.runs && !s.gate.closing && s.runLock.None? && s.events.loopSet
    && B.Lists(targets, s.events.subscribed)
  }

  lemma LosesHook(s: State, t: nat) returns (s': State)
    requires t !in s.runs && !s.gate.closing && s.runLock.None?
    ensures s' == StepHookRaises(StepCommit(StepTakeLock(StepEnter(s, t), t), t), t)
    ensures IsAt(s', t, Announcing(B.Done(s.commits + 1))) && s'.events == s.events && s'.cache == s.cache
  {
    var admitted := StepEnter(s, t);
    assert IsAt(admitted, t, Admitted) && admitted.runLock.None?;
    var writing := StepTakeLock(admitted, t);
    assert IsAt(writing, t, Writing);
    var committed := StepCommit(writing, t);
    assert IsAt(committed, t, Committed(s.commits + 1));
    s' := StepHookRaises(committed, t);
  }

  /** That thread's six steps, one after the other. */
  lemma LosingSteps(s: State, t: nat, targets: seq<nat>) returns (s': State)
    requires Admits(s, t, targets) && s.events.subscribed <= s.events.subs.Keys
    ensures var ops := LosingHook(t, targets);
      s' == Step(Step(Step(Step(Step(Step(s, ops[0]), ops[1]), ops[2]), ops[3]), ops[4]), ops[5])
    ensures s'.cache == s.cache
    ensures s'.events.posted == s.events.posted + [B.Post(B.Done(s.commits + 1), targets)]
  {
    s' := LosesHook(s, t);
    AnnouncingPosts(s', t, targets);
    hide StepEnter, StepTakeLock, StepCommit, StepHookRaises, B.Lists;
    s' := StepCallSoon(StepSnapshot(s', t, targets), t, false);
  }

  lemma LosingHookRuns(ops: seq<Op>, t: nat, targets: seq<nat>)
    requires Admits(Run(ops), t, targets)
    ensures var s, s' := Run(ops), Run(ops + LosingHook(t, targets));
      && s'.cache == s.cache
      && s'.events.posted == s.events.posted + [B.Post(B.Done(s.commits + 1), targets)]
  {
    hide Run, Step, B.Lists, R.Inv, Locking, Counting, Announced, Secured;
    var all, n := ops + LosingHook(t, targets), |ops|;
    assert all[..n] == ops && all[..n + 6] == all;
    RunPrefix(all, n);
    RunPrefix(all, n + 1);
    RunPrefix(all, n + 2);
    RunPrefix(all, n + 3);
    RunPrefix(all, n + 4);
    RunPrefix(all, n + 5);
    RunKeepsInv(ops);
    var s' := LosingSteps(Run(ops), t, targets);
  }

  /** Such an ingest does no harm exactly when the refresh path has nothing unmarked in the cache. */
  lemma LostHookIff(ops: seq<Op>, t: nat, targets: seq<nat>)
    requires Admits(Run(ops), t, targets)
    ensures var s, s' := Run(ops), Run(ops + LosingHook(t, targets));
      && s'.events.posted == s.events.posted + [B.Post(B.Done(s.commits + 1), targets)]
      && (Reflects(s', s.commits + 1) <==> forall key :: !Current(s.cache.cache, key))
  {
    RunKeepsKnown(ops);
    LosingHookRuns(ops, t, targets);
    hide Run, Reflects;
    ReflectsIff(Run(ops + LosingHook(t, targets)), Run(ops).commits + 1);
  }

  /** Where an entry is fresh, one such ingest is enough to announce a commit that the entry does not reflect. */
  lemma LostHookIsVisible(ops: seq<Op>, t: nat, key: C.Key, now: int, targets: seq<nat>)
    requires var s := Run(ops);
      && Admits(s, t, targets)
      && C.Found(s.cache.cache, key, now, R.TTL).Some?
      && !C.Found(s.cache.cache, key, now, R.TTL).value.stale
      && C.Found(s.cache.cache, key, now, R.TTL).value.value.origin == R.Background
    ensures var s, s' := Run(ops), Run(ops + LosingHook(t, targets)); var c := s.commits + 1;
      && s'.events.posted == s.events.posted + [B.Post(B.Done(c), targets)]
      && C.Found(s'.cache.cache, key, now, R.TTL) == C.Found(s.cache.cache, key, now, R.TTL)
      && !Reflects(s', c)
  {
    RunKeepsKnown(ops);
    LosingHookRuns(ops, t, targets);
  }

  /** Announcements and the cache never run ahead of the database; the cache runs behind only if its hook raised. */
  lemma AnnouncedIsCommitted(ops: seq<Op>, i: nat)
    requires i < |Run(ops).events.posted| && Run(ops).events.posted[i].message.Done?
    ensures var s := Run(ops); var c := s.events.posted[i].message.commit;
      c <= s.commits && s.cache.floor <= s.commits && (c <= s.cache.floor || Raised(ops, c))
  {
    RunKeepsInv(ops);
    var c := Run(ops).events.posted[i].message.commit;
    AnnouncedLeftHook(ops, c);
    if c > 0 {
      HeardIff(ops, c);
    }
  }

  /** A subscriber sees finished runs in the order of their commits, and holds at most sixteen messages. */
  lemma CommitsArriveInOrder(ops: seq<Op>, q: nat)
    requires q in Run(ops).events.subs
    ensures |Run(ops).events.subs[q].queue| <= B.CAPACITY
    ensures var e := Run(ops).events; var d := e.subs[q].delivered;
      && (forall i :: 0 <= i < |d| ==> d[i] < |e.posted|)
      && forall i, j :: 0 <= i < j < |d| && e.posted[d[i]].message.Done? && e.posted[d[j]].message.Done? ==>
           e.posted[d[i]].message.commit < e.posted[d[j]].message.commit
  {
    RunKeepsInv(ops);
    hide Run, Locking, Counting, Secured, R.Inv;
    var e := Run(ops).events;
    B.DeliveredInvariant(e, q);
  }

  // ----------------------------------------------------------------- teardown

  /** No two ingest threads are inside a run at once. */
  lemma RunsExclude(ops: seq<Op>, a: nat, b: nat)
    requires a in Run(ops).runs && b in Run(ops).runs
    requires InLock(Run(ops).runs[a]) && InLock(Run(ops).runs[b])
    ensures a == b
  {
    RunKeepsInv(ops);
  }

  /** When the pools are closed, no admitted ingest is active and no accepted refresh is queued or running. */
  lemma ClosedIsDrained(ops: seq<Op>)
    requires Run(ops).phase == Closed || Run(ops).phase == Drained
    ensures var s := Run(ops);
      s.gate == Gate(0, true) && s.runs == map[] && s.cache.tasks == map[] && !s.cache.registry.accepting
  {
    RunKeepsInv(ops);
  }

  lemma PhaseGrows(s: State, op: Op)
    ensures Rank(Step(s, op).phase) >= Rank(s.phase)
  {
    match op {
      case Ingest(t, act) =>
      case CacheOp(_) =>
      case EventOp(_) =>
      case Teardown(_) =>
    }
  }

  lemma {:induction false} PhaseStays(ops: seq<Op>, more: seq<Op>)
    ensures Rank(Run(ops + more).phase) >= Rank(Run(ops).phase)
  {
    hide Step, Rank;
    if more == [] {
      assert ops + more == ops;
    } else {
      var n := |more| - 1;
      assert (ops + more)[..|ops + more| - 1] == ops + more[..n];
      PhaseStays(ops, more[..n]);
      PhaseGrows(Run(ops + more[..n]), more[n]);
    }
  }

  /** And nothing of either kind starts afterwards, whatever threads still race with shutdown. */
  lemma NothingStartsAfterwards(ops: seq<Op>, more: seq<Op>)
    requires Rank(Run(ops).phase) >= Rank(Drained)
    ensures var s := Run(ops + more);
      Rank(s.phase) >= Rank(Drained) && s.gate.active == 0 && s.runs == map[] && s.cache.tasks == map[]
  {
    PhaseStays(ops, more);
    hide Run, R.Inv, B.Inv, Locking, Announced;
    RunKeepsInv(ops + more);
  }

  // --------------------------------------------------- teardown can complete

  ghost function RunFrom(s: State, ops: seq<Op>): State
    decreases |ops|
  {
    if ops == [] then s else RunFrom(Step(s, ops[0]), ops[1..])
  }

  lemma {:induction false} RunsOn(ops: seq<Op>, more: seq<Op>)
    ensures Run(ops + more) == RunFrom(Run(ops), more)
    decreases |more|
  {
    if more == [] {
      assert ops + more == ops;
    } else {
      var first := ops + [more[0]];
      assert first[..|ops|] == ops;
      RunsOn(first, more[1..]);
      assert ops + more == first + more[1..];
    }
  }

  lemma {:induction false} Append(s: State, a: seq<Op>, b: seq<Op>)
    ensures RunFrom(s, a + b) == RunFrom(RunFrom(s, a), b)
    decreases |a|
  {
    if a == [] {
      assert a + b == b;
    } else {
      Append(Step(s, a[0]), a[1..], b);
      assert (a + b)[1..] == a[1..] + b;
    }
  }

  lemma {:induction false} ListingExists(subscribed: set<nat>) returns (targets: seq<nat>)
    ensures B.Lists(targets, subscribed)
    decreases subscribed
  {
    if subscribed == {} {
      return [];
    }
    var q :| q in subscribed;
    var rest := ListingExists(subscribed - {q});
    targets := rest + [q];
  }

  function Weight(stage: Stage): nat {
    match stage
    case Admitted => 7
    case Writing => 6
    case Committed(_) => 5
    case Announcing(_) => 4
    case Posting(_, _) => 3
    case Unlocking => 2
    case Leaving => 1
  }

  /** Every admitted ingest thread can take a step of its own, whatever the others do. */
  lemma RunCanStep(s: State, t: nat) returns (act: RunAct)
    requires t in s.runs
    ensures var s' := RunStep(s, t, act);
      && s'.phase == s.phase && s'.gate.closing == s.gate.closing && s'.cache.tasks == s.cache.tasks
      && (s'.runs == s.runs - {t}
          || (t in s'.runs && s'.runs == s.runs[t := s'.runs[t]] && Weight(s'.runs[t]) < Weight(s.runs[t])))
  {
    match s.runs[t] {
      case Admitted => act := TakeLock;
      case Writing => act := Fail;
      case Committed(_) => act := Invalidate;
      case Announcing(_) =>
        var targets := ListingExists(s.events.subscribed);
        act := Snapshot(targets);
      case Posting(_, _) => act := CallSoon(false);
      case Unlocking => act := Unlock;
      case Leaving => act := Leave;
    }
  }

  /** Drives one ingest thread to its end. */
  lemma {:induction false} RunCanLeave(s: State, t: nat) returns (ops: seq<Op>)
    requires t in s.runs
    ensures var s' := RunFrom(s, ops);
      s'.runs == s.runs - {t} && s'.phase == s.phase && s'.gate.closing == s.gate.closing
      && s'.cache.tasks == s.cache.tasks
    decreases Weight(s.runs[t])
  {
    hide RunStep;
    var act := RunCanStep(s, t);
    var op := Ingest(t, act);
    var s' := Step(s, op);
    assert RunFrom(s, [op]) == RunFrom(s', []);
    ops := [op];
    if t in s'.runs {
      var rest := RunCanLeave(s', t);
      Append(s, [op], rest);
      assert s'.runs - {t} == s.runs - {t};
      ops := [op] + rest;
    }
  }

  lemma {:induction false} RunsCanLeave(s: State) returns (ops: seq<Op>)
    ensures var s' := RunFrom(s, ops);
      s'.runs == map[] && s'.phase == s.phase && s'.gate.closing == s.gate.closing && s'.cache.tasks == s.cache.tasks
    decreases |s.runs|
  {
    if s.runs == map[] {
      return [];
    }
    var t :| t in s.runs;
    assert (s.runs - {t}).Keys == s.runs.Keys - {t};
    var first := RunCanLeave(s, t);
    var rest := RunsCanLeave(RunFrom(s, first));
    Append(s, first, rest);
    ops := first + rest;
  }

  function TaskWeight(stage: R.Stage): nat {
    match stage
    case Queued => 4
    case Running(_) => 3
    case Finished(_) => 2
    case Ended => 1
  }

  lemma TaskCanStep(s: State, t: nat) returns (op: R.Op)
    requires t in s.cache.tasks && s.cache.floor <= s.commits
    ensures Spontaneous(op, s.commits)
    ensures var c, c' := s.cache, R.Step(s.cache, op);
      && c'.floor == c.floor
      && (c'.tasks == c.tasks - {t}
          || (t in c'.tasks && c'.tasks == c.tasks[t := c'.tasks[t]]
              && TaskWeight(c'.tasks[t].stage) < TaskWeight(c.tasks[t].stage)))
  {
    match s.cache.tasks[t].stage {
      case Queued => op := R.Work(t, R.Start);
      case Running(_) => op := R.Work(t, R.Query(s.commits));
      case Finished(_) => op := R.Work(t, R.Publish(0));
      case Ended => op := R.Work(t, R.Discard);
    }
  }

  /** Drives one refresh task to its end. */
  lemma {:induction false} TaskCanEnd(s: State, t: nat) returns (ops: seq<Op>)
    requires t in s.cache.tasks && s.cache.floor <= s.commits
    ensures var s' := RunFrom(s, ops);
      && s'.cache.tasks == s.cache.tasks - {t} && s'.cache.floor <= s'.commits
      && s'.runs == s.runs && s'.phase == s.phase && s'.gate == s.gate
    decreases TaskWeight(s.cache.tasks[t].stage)
  {
    hide R.Step, Spontaneous;
    var c := TaskCanStep(s, t);
    var op := CacheOp(c);
    var s' := Step(s, op);
    assert RunFrom(s, [op]) == RunFrom(s', []);
    ops := [op];
    if t in s'.cache.tasks {
      var rest := TaskCanEnd(s', t);
      Append(s, [op], rest);
      assert s'.cache.tasks - {t} == s.cache.tasks - {t};
      ops := [op] + rest;
    }
  }

  lemma {:induction false} TasksCanEnd(s: State) returns (ops: seq<Op>)
    requires s.cache.floor <= s.commits
    ensures var s' := RunFrom(s, ops);
      s'.cache.tasks == map[] && s'.runs == s.runs && s'.phase == s.phase && s'.gate == s.gate
    decreases |s.cache.tasks|
  {
    if s.cache.tasks == map[] {
      return [];
    }
    var t :| t in s.cache.tasks;
    assert (s.cache.tasks - {t}).Keys == s.cache.tasks.Keys - {t};
    var first := TaskCanEnd(s, t);
    var rest := TasksCanEnd(RunFrom(s, first));
    Append(s, first, rest);
    ops := first + rest;
  }

  function NextTeardown(phase: Phase): TeardownAct {
    match phase
    case Serving => BeginShutdown
    case Closing => SeeIdle
    case Idle => ClearLoop
    case Unhooked => StopRefresh
    case Refusing => SeeDrained
    case _ => ClosePools
  }

  lemma TeardownAdvances(s: State)
    requires s.phase != Closed && Counting(s)
    requires s.phase.Closing? ==> s.runs == map[]
    requires s.phase.Refusing? ==> s.cache.tasks == map[]
    ensures Rank(TeardownStep(s, NextTeardown(s.phase)).phase) == Rank(s.phase) + 1
  {
  }

  /** Threads and tasks can always be waited out, so that the next step of teardown is taken. */
  lemma CanAdvance(ops: seq<Op>) returns (more: seq<Op>)
    requires Run(ops).phase != Closed
    ensures Rank(Run(ops + more).phase) == Rank(Run(ops).phase) + 1
  {
    hide R.Inv, B.Inv, Locking;
    var s := Run(ops);
    var waiting: seq<Op> := [];
    RunKeepsInv(ops);
    if s.phase.Closing? {
      waiting := RunsCanLeave(s);
    } else if s.phase.Refusing? {
      waiting := TasksCanEnd(s);
    }
    RunsOn(ops, waiting);
    RunKeepsInv(ops + waiting);
    var last := Teardown(NextTeardown(s.phase));
    more := waiting + [last];
    assert ops + more == ops + waiting + [last];
    assert (ops + waiting + [last])[..|ops + waiting|] == ops + waiting;
    TeardownAdvances(Run(ops + waiting));
  }

  /** From every reachable state teardown can be carried through to closing the pools. */
  lemma TeardownCanComplete(ops: seq<Op>)
    ensures exists more :: Run(ops + more).phase == Closed
  {
    var more := CompleteTeardown(ops);
  }

  lemma {:induction false} CompleteTeardown(ops: seq<Op>) returns (more: seq<Op>)
    ensures Run(ops + more).phase == Closed
    decreases 6 - Rank(Run(ops).phase)
  {
    if Run(ops).phase == Closed {
      assert ops + [] == ops;
      return [];
    }
    var first := CanAdvance(ops);
    var rest := CompleteTeardown(ops + first);
    assert ops + first + rest == ops + (first + rest);
    more := first + rest;
  }
}

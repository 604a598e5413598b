/**
  Server-sent events: a set of bounded per-subscriber queues, fed by callbacks that
  the event loop runs in the order in which broadcasts scheduled them. A queue
  holds positions in that order.
 */
module Broadcast {
  import opened Wrappers

  const CAPACITY := 16

  /** Done names the commit of the finished run. */
  datatype Message = Done(commit: nat) | RunFailed

  datatype Post = Post(message: Message, targets: seq<nat>)

  /** One subscriber's queue, with the history of what left it and what never entered it. */
  datatype Sub = Sub(queue: seq<nat>, delivered: seq<nat>, dropped: seq<nat>)

  /** posted lists the scheduled callbacks; the first ran of them have been executed. */
  datatype State = State(loopSet: bool, subscribed: set<nat>, subs: map<nat, Sub>, posted: seq<Post>, ran: nat)

  datatype Op =
    | Subscribe(q: nat)
    | Unsubscribe(q: nat)
    | Consume(q: nat)
    | Schedule(message: Message, targets: seq<nat>)
    | RunCallback
    | ClearLoop

  const INITIAL := State(true, {}, map[], [], 0)

  /** put_nowait, with QueueFull swallowed. */
  function Offer(sub: Sub, i: nat): Sub {
    if |sub.queue| < CAPACITY then sub.(queue := sub.queue + [i]) else sub.(dropped := sub.dropped + [i])
  }

  /** The callback: offers position i to each target in turn. */
  function PutAll(subs: map<nat, Sub>, targets: seq<nat>, i: nat): map<nat, Sub> {
    if targets == [] then subs
    else
      var before, q := PutAll(subs, targets[..|targets| - 1], i), targets[|targets| - 1];
      if q in before then before[q := Offer(before[q], i)] else before
  }

  ghost predicate Distinct(targets: seq<nat>) {
    forall i, j :: 0 <= i < j < |targets| ==> targets[i] != targets[j]
  }

  /** list(_subscribers), in whatever order. */
  ghost predicate Lists(targets: seq<nat>, subscribed: set<nat>) {
    Distinct(targets) && forall q :: q in targets <==> q in subscribed
  }

  function AfterConsume(s: State, q: nat): State {
    if q in s.subs && s.subs[q].queue != [] then
      var sub := s.subs[q];
      s.(subs := s.subs[q := sub.(queue := sub.queue[1..], delivered := sub.delivered + [sub.queue[0]])])
    else s
  }

  function AfterCallback(s: State): State {
    if s.ran < |s.posted| then s.(subs := PutAll(s.subs, s.posted[s.ran].targets, s.ran), ran := s.ran + 1) else s
  }

  ghost function Step(s: State, op: Op): State {
    match op
    case Subscribe(q) =>
      if q in s.subs then s else s.(subs := s.subs[q := Sub([], [], [])], subscribed := s.subscribed + {q})
    case Unsubscribe(q) => s.(subscribed := s.subscribed - {q})
    case Consume(q) => AfterConsume(s, q)
    case Schedule(message, targets) =>
      if Distinct(targets) && forall q :: q in targets ==> q in s.subs
      then s.(posted := s.posted + [Post(message, targets)]) else s
    case RunCallback => AfterCallback(s)
    case ClearLoop => s.(loopSet := false)
  }

  ghost function Run(ops: seq<Op>): State {
    if ops == [] then INITIAL else Step(Run(ops[..|ops| - 1]), ops[|ops| - 1])
  }

  // ---------------------------------------------------------------- the module

  /** The process-wide subscriber set, the queues, and the loop's callback list. */
  class Events {
    var loopSet: bool
    var subscribers: set<nat>
    var queues: map<nat, Sub>
    var callbacks: seq<Post>
    var ran: nat

    function View(): State
      reads this
    {
      State(loopSet, subscribers, queues, callbacks, ran)
    }

    constructor ()
      ensures View() == INITIAL
    {
      loopSet, subscribers, queues, callbacks, ran := true, {}, map[], [], 0;
    }

    /** q is the identity of the new queue object. */
    method Subscribe(q: nat)
      requires q !in queues
      modifies this`subscribers, this`queues
      ensures View() == Step(old(View()), Op.Subscribe(q))
    {
      queues := queues[q := Sub([], [], [])];
      subscribers := subscribers + {q};
    }

    method Unsubscribe(q: nat)
      modifies this`subscribers
      ensures View() == Step(old(View()), Op.Unsubscribe(q))
    {
      subscribers := subscribers - {q};
    }

    /** queue.get by the stream generator. */
    method Consume(q: nat) returns (i: Option<nat>)
      requires q in queues
      modifies this`queues
      ensures View() == AfterConsume(old(View()), q)
      ensures i == if old(queues)[q].queue == [] then None else Some(old(queues)[q].queue[0])
    {
      var sub := queues[q];
      if sub.queue == [] {
        return None;
      }
      i := Some(sub.queue[0]);
      queues := queues[q := sub.(queue := sub.queue[1..], delivered := sub.delivered + [sub.queue[0]])];
    }

    method ClearLoop()
      modifies this`loopSet
      ensures View() == Step(old(View()), Op.ClearLoop)
    {
      loopSet := false;
    }

    /** broadcast_threadsafe: a snapshot of the subscribers, handed to the loop. */
    method BroadcastThreadsafe(message: Message) returns (ghost targets: seq<nat>)
      requires subscribers <= queues.Keys
      modifies this`callbacks
      ensures Lists(targets, subscribers)
      ensures View() == if loopSet then Step(old(View()), Schedule(message, targets)) else old(View())
    {
      var listed := ListOf(subscribers);
      targets := listed;
      if !loopSet {
        return;
      }
      assert forall q :: q in listed ==> q in queues;
      callbacks := callbacks + [Post(message, listed)];
    }

    /** _put_all, run by the loop for the oldest scheduled broadcast. */
    method RunNext()
      requires ran < |callbacks|
      modifies this`queues, this`ran
      ensures View() == AfterCallback(old(View()))
    {
      var targets := callbacks[ran].targets;
      for k := 0 to |targets|
        invariant ran == old(ran) && queues == PutAll(old(queues), targets[..k], ran)
      {
        var q := targets[k];
        assert targets[..k + 1][..k] == targets[..k];
        if q in queues {
          if |queues[q].queue| < CAPACITY {
            queues := queues[q := queues[q].(queue := queues[q].queue + [ran])];
          } else {
            queues := queues[q := queues[q].(dropped := queues[q].dropped + [ran])];
          }
        }
      }
      assert targets[..|targets|] == targets;
      ran := ran + 1;
    }
  }

  method ListOf(subscribed: set<nat>) returns (targets: seq<nat>)
    ensures Lists(targets, subscribed)
  {
    targets := [];
    var rest := subscribed;
    while rest != {}
      invariant Distinct(targets)
      invariant forall q :: q in targets <==> q in subscribed && q !in rest
      invariant rest <= subscribed
      decreases rest
    {
      var q :| q in rest;
      targets := targets + [q];
      rest := rest - {q};
    }
  }

  // --------------------------------------------------------------- invariants

  /** What entered the queue, in order. */
  function Accepted(sub: Sub): seq<nat> {
    sub.delivered + sub.queue
  }

  ghost predicate Increasing(s: seq<nat>, bound: nat) {
    && (forall i :: 0 <= i < |s| ==> s[i] < bound)
    && (forall i, j :: 0 <= i < j < |s| ==> s[i] < s[j])
  }

  /** Of the executed broadcasts, those addressed to a subscriber were accepted or dropped, and no others. */
  ghost predicate Accounted(sub: Sub, q: nat, posted: seq<Post>, ran: nat)
    requires ran <= |posted|
  {
    forall i :: 0 <= i < ran ==>
      && (q in posted[i].targets <==> i in Accepted(sub) || i in sub.dropped)
      && !(i in Accepted(sub) && i in sub.dropped)
  }

  ghost predicate SubOk(sub: Sub, q: nat, posted: seq<Post>, ran: nat)
    requires ran <= |posted|
  {
    && |sub.queue| <= CAPACITY
    && Increasing(Accepted(sub), ran) && Increasing(sub.dropped, ran)
    && Accounted(sub, q, posted, ran)
  }

  ghost predicate Inv(s: State) {
    && s.ran <= |s.posted| && s.subscribed <= s.subs.Keys
    && (forall i :: 0 <= i < |s.posted| ==>
          Distinct(s.posted[i].targets) && forall q :: q in s.posted[i].targets ==> q in s.subs)
    && (forall q :: q in s.subs ==> SubOk(s.subs[q], q, s.posted, s.ran))
  }

  /** The callback offers the message exactly once to each of its targets and to nobody else. */
  lemma {:induction false} PutAllAt(subs: map<nat, Sub>, targets: seq<nat>, i: nat, q: nat)
    requires Distinct(targets)
    ensures PutAll(subs, targets, i).Keys == subs.Keys
    ensures q in subs ==> PutAll(subs, targets, i)[q] == if q in targets then Offer(subs[q], i) else subs[q]
  {
    if targets != [] {
      var n := |targets| - 1;
      PutAllAt(subs, targets[..n], i, q);
      PutAllAt(subs, targets[..n], i, targets[n]);
      assert targets == targets[..n] + [targets[n]];
    }
  }

  lemma OfferKeepsOk(sub: Sub, q: nat, posted: seq<Post>, ran: nat)
    requires ran < |posted| && SubOk(sub, q, posted, ran)
    ensures SubOk(if q in posted[ran].targets then Offer(sub, ran) else sub, q, posted, ran + 1)
  {
    var next := if q in posted[ran].targets then Offer(sub, ran) else sub;
    assert q in posted[ran].targets && |sub.queue| < CAPACITY ==> Accepted(next) == Accepted(sub) + [ran];
    assert !(q in posted[ran].targets && |sub.queue| < CAPACITY) ==> Accepted(next) == Accepted(sub);
  }

  lemma CallbackKeepsInv(s: State)
    requires Inv(s)
    ensures Inv(AfterCallback(s))
  {
    if s.ran < |s.posted| {
      var s' := AfterCallback(s);
      var targets := s.posted[s.ran].targets;
      PutAllAt(s.subs, targets, s.ran, 0);
      forall q | q in s'.subs ensures SubOk(s'.subs[q], q, s'.posted, s'.ran) {
        PutAllAt(s.subs, targets, s.ran, q);
        OfferKeepsOk(s.subs[q], q, s.posted, s.ran);
      }
    }
  }

  lemma ConsumeKeepsInv(s: State, q: nat)
    requires Inv(s)
    ensures Inv(AfterConsume(s, q))
  {
    if q in s.subs && s.subs[q].queue != [] {
      assert Accepted(AfterConsume(s, q).subs[q]) == Accepted(s.subs[q]);
    }
  }

  lemma ScheduleKeepsInv(s: State, message: Message, targets: seq<nat>)
    requires Inv(s)
    ensures Inv(Step(s, Schedule(message, targets)))
  {
    var s' := Step(s, Schedule(message, targets));
    forall q | q in s'.subs ensures SubOk(s'.subs[q], q, s'.posted, s'.ran) {
      assert SubOk(s.subs[q], q, s.posted, s.ran);
    }
  }

  lemma StepKeepsInv(s: State, op: Op)
    requires Inv(s)
    ensures Inv(Step(s, op))
  {
    match op {
      case Subscribe(q) =>
      case Unsubscribe(_) =>
      case Consume(q) => ConsumeKeepsInv(s, q);
      case Schedule(message, targets) => ScheduleKeepsInv(s, message, targets);
      case RunCallback => CallbackKeepsInv(s);
      case ClearLoop =>
    }
  }

  lemma {:induction false} RunKeepsInv(ops: seq<Op>)
    ensures Inv(Run(ops))
  {
    if ops != [] {
      RunKeepsInv(ops[..|ops| - 1]);
      StepKeepsInv(Run(ops[..|ops| - 1]), ops[|ops| - 1]);
    }
  }

  // ------------------------------------------------------------ consequences

  lemma DeliveredInvariant(s: State, q: nat)
    requires Inv(s) && q in s.subs
    ensures |s.subs[q].queue| <= CAPACITY
    ensures var d := s.subs[q].delivered;
      && (forall i :: 0 <= i < |d| ==> d[i] < s.ran <= |s.posted| && q in s.posted[d[i]].targets)
      && forall i, j :: 0 <= i < j < |d| ==> d[i] < d[j]
  {
    var sub := s.subs[q];
    assert SubOk(sub, q, s.posted, s.ran);
    forall i | 0 <= i < |sub.delivered|
      ensures sub.delivered[i] < s.ran && q in s.posted[sub.delivered[i]].targets
    {
      assert Accepted(sub)[i] == sub.delivered[i];
      assert sub.delivered[i] in Accepted(sub);
    }
    forall i, j | 0 <= i < j < |sub.delivered| ensures sub.delivered[i] < sub.delivered[j] {
      assert Accepted(sub)[i] == sub.delivered[i] && Accepted(sub)[j] == sub.delivered[j];
    }
  }

  /** A subscriber receives an in-order subsequence of the broadcasts addressed to it, and holds at most sixteen. */
  lemma DeliveredInOrder(ops: seq<Op>, q: nat)
    requires q in Run(ops).subs
    ensures |Run(ops).subs[q].queue| <= CAPACITY
    ensures var s := Run(ops); var d := s.subs[q].delivered;
      && (forall i :: 0 <= i < |d| ==> d[i] < s.ran <= |s.posted| && q in s.posted[d[i]].targets)
      && forall i, j :: 0 <= i < j < |d| ==> d[i] < d[j]
  {
    RunKeepsInv(ops);
    DeliveredInvariant(Run(ops), q);
  }

  predicate HasDropped(s: State, q: nat, i: nat) {
    q in s.subs && i in s.subs[q].dropped
  }

  predicate HasAccepted(s: State, q: nat, i: nat) {
    q in s.subs && i in Accepted(s.subs[q])
  }

  /** This step executes broadcast i, which is addressed to q. */
  predicate Offers(s: State, op: Op, q: nat, i: nat) {
    op.RunCallback? && i == s.ran < |s.posted| && q in s.subs && q in s.posted[i].targets
  }

  lemma CallbackOffers(s: State, q: nat, i: nat)
    requires Inv(s)
    ensures HasDropped(AfterCallback(s), q, i)
       <==> HasDropped(s, q, i) || (Offers(s, RunCallback, q, i) && |s.subs[q].queue| == CAPACITY)
    ensures HasAccepted(AfterCallback(s), q, i)
       <==> HasAccepted(s, q, i) || (Offers(s, RunCallback, q, i) && |s.subs[q].queue| < CAPACITY)
  {
    if s.ran < |s.posted| {
      PutAllAt(s.subs, s.posted[s.ran].targets, s.ran, q);
      if q in s.subs {
        assert SubOk(s.subs[q], q, s.posted, s.ran);
        assert Accepted(Offer(s.subs[q], s.ran))
            == if |s.subs[q].queue| < CAPACITY then Accepted(s.subs[q]) + [s.ran] else Accepted(s.subs[q]);
      }
    }
  }

  lemma OthersOfferNothing(s: State, op: Op, q: nat, i: nat)
    requires !op.RunCallback?
    ensures HasDropped(Step(s, op), q, i) <==> HasDropped(s, q, i)
    ensures HasAccepted(Step(s, op), q, i) <==> HasAccepted(s, q, i)
  {
    if op.Consume? && op.q in s.subs && s.subs[op.q].queue != [] {
      assert Accepted(AfterConsume(s, op.q).subs[op.q]) == Accepted(s.subs[op.q]);
    }
  }

  lemma OfferedIsNew(s: State, op: Op, q: nat, i: nat)
    requires Inv(s) && Offers(s, op, q, i)
    ensures !HasDropped(s, q, i) && !HasAccepted(s, q, i)
  {
    assert SubOk(s.subs[q], q, s.posted, s.ran);
  }

  /**
    A broadcast is dropped for a subscriber exactly by the step that executes it, is addressed to it and finds
    its queue full; it enters the queue exactly if that step finds room. No other step does either, or undoes it.
   */
  lemma DroppedIffFull(ops: seq<Op>, op: Op, q: nat, i: nat)
    ensures var s, s' := Run(ops), Run(ops + [op]);
      && (HasDropped(s', q, i) <==> HasDropped(s, q, i) || (Offers(s, op, q, i) && |s.subs[q].queue| == CAPACITY))
      && (HasAccepted(s', q, i) <==> HasAccepted(s, q, i) || (Offers(s, op, q, i) && |s.subs[q].queue| < CAPACITY))
      && (Offers(s, op, q, i) ==> !HasDropped(s, q, i) && !HasAccepted(s, q, i))
  {
    var s := Run(ops);
    assert (ops + [op])[..|ops|] == ops;
    RunKeepsInv(ops);
    hide Inv, HasDropped, HasAccepted;
    if op.RunCallback? {
      CallbackOffers(s, q, i);
    } else {
      OthersOfferNothing(s, op, q, i);
    }
    if Offers(s, op, q, i) {
      OfferedIsNew(s, op, q, i);
    }
  }

  // ------------------------------------------------------------ subscriptions

  /** Step k is where queue q was first subscribed, and it has not been unsubscribed since. */
  ghost predicate SubscribedAt(ops: seq<Op>, q: nat, k: nat) {
    && k < |ops| && ops[k] == Op.Subscribe(q)
    && (forall m :: 0 <= m < k ==> ops[m] != Op.Subscribe(q))
    && (forall m :: k < m < |ops| ==> ops[m] != Op.Unsubscribe(q))
  }

  lemma SubscriptionStep(s: State, op: Op, q: nat)
    ensures q in Step(s, op).subs <==> q in s.subs || op == Op.Subscribe(q)
    ensures q in Step(s, op).subscribed
       <==> (q in s.subscribed && op != Op.Unsubscribe(q)) || (op == Op.Subscribe(q) && q !in s.subs)
    ensures op == Op.Subscribe(q) && q !in s.subs ==> Step(s, op).subs[q] == Sub([], [], [])
  {
    if op.RunCallback? && s.ran < |s.posted| {
      CallbackKeepsKeys(s.subs, s.posted[s.ran].targets, s.ran);
    }
  }

  lemma {:induction false} CallbackKeepsKeys(subs: map<nat, Sub>, targets: seq<nat>, i: nat)
    ensures PutAll(subs, targets, i).Keys == subs.Keys
  {
    if targets != [] {
      CallbackKeepsKeys(subs, targets[..|targets| - 1], i);
    }
  }

  lemma {:induction false} QueueIff(ops: seq<Op>, q: nat)
    ensures q in Run(ops).subs <==> Op.Subscribe(q) in ops
  {
    if ops != [] {
      var n := |ops| - 1;
      QueueIff(ops[..n], q);
      SubscriptionStep(Run(ops[..n]), ops[n], q);
      hide Step;
      assert ops == ops[..n] + [ops[n]];
    }
  }

  /** A queue is offered broadcasts from its subscription until it is unsubscribed. */
  lemma {:induction false} SubscribedIff(ops: seq<Op>, q: nat)
    ensures q in Run(ops).subscribed <==> exists k :: SubscribedAt(ops, q, k)
  {
    if ops != [] {
      var n := |ops| - 1;
      SubscribedIff(ops[..n], q);
      QueueIff(ops[..n], q);
      SubscriptionStep(Run(ops[..n]), ops[n], q);
      hide Step, Run;
      assert Run(ops).subscribed == Step(Run(ops[..n]), ops[n]).subscribed by { RunsToStep(ops); }
      forall k | 0 <= k < n
        ensures SubscribedAt(ops, q, k) <==> SubscribedAt(ops[..n], q, k) && ops[n] != Op.Unsubscribe(q)
      {
      }
      assert SubscribedAt(ops, q, n) <==> ops[n] == Op.Subscribe(q) && Op.Subscribe(q) !in ops[..n];
    }
  }

  lemma RunsToStep(ops: seq<Op>)
    requires ops != []
    ensures Run(ops) == Step(Run(ops[..|ops| - 1]), ops[|ops| - 1])
  {
  }

  // ------------------------------------------------------------- consumption

  function Consuming(q: nat, n: nat): seq<Op> {
    if n == 0 then [] else Consuming(q, n - 1) + [Op.Consume(q)]
  }

  /** The queue of q after its first n messages have been delivered. */
  function Taken(s: State, q: nat, n: nat): State
    requires q in s.subs && n <= |s.subs[q].queue|
  {
    var sub := s.subs[q];
    s.(subs := s.subs[q := Sub(sub.queue[n..], sub.delivered + sub.queue[..n], sub.dropped)])
  }

  lemma NothingTaken(s: State, q: nat)
    requires q in s.subs
    ensures Taken(s, q, 0) == s
  {
    var sub := s.subs[q];
    assert sub.queue[0..] == sub.queue && sub.delivered + sub.queue[..0] == sub.delivered;
    assert s.subs[q := sub] == s.subs;
  }

  lemma TakesNext(s: State, q: nat, n: nat)
    requires q in s.subs && 0 < n <= |s.subs[q].queue|
    ensures Step(Taken(s, q, n - 1), Op.Consume(q)) == Taken(s, q, n)
  {
    var sub := s.subs[q];
    assert sub.queue[n - 1..][0] == sub.queue[n - 1] && sub.queue[n - 1..][1..] == sub.queue[n..];
    assert sub.delivered + sub.queue[..n - 1] + [sub.queue[n - 1]] == sub.delivered + sub.queue[..n];
  }

  /** Consuming delivers what is queued, oldest first, and nothing is lost: n reads deliver the first n messages. */
  lemma {:induction false} ConsumingDelivers(ops: seq<Op>, q: nat, n: nat)
    requires q in Run(ops).subs && n <= |Run(ops).subs[q].queue|
    ensures Run(ops + Consuming(q, n)) == Taken(Run(ops), q, n)
  {
    hide Step, Taken;
    if n == 0 {
      assert ops + Consuming(q, 0) == ops;
      NothingTaken(Run(ops), q);
    } else {
      var before := ops + Consuming(q, n - 1);
      ConsumingDelivers(ops, q, n - 1);
      TakesNext(Run(ops), q, n);
      assert ops + Consuming(q, n) == before + [Op.Consume(q)];
      assert (before + [Op.Consume(q)])[..|before|] == before;
    }
  }

  /** An empty queue yields nothing: the reader waits. */
  lemma EmptyQueueWaits(ops: seq<Op>, q: nat)
    requires q !in Run(ops).subs || Run(ops).subs[q].queue == []
    ensures Run(ops + [Op.Consume(q)]) == Run(ops)
  {
    assert (ops + [Op.Consume(q)])[..|ops|] == ops;
  }
}

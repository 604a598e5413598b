/**
  The login rate limiter. It keeps, per address, only the failures that were recent
  at its last look, yet what it promises is about all failures ever.
 */
module Login {

  const MAX_FAILURES := 5
  const WINDOW := 300.0

  datatype Ip = Ip(text: string)

  type Failures = map<Ip, seq<real>>

  /** failures is what the process stores; history is every failure ever recorded. */
  datatype State = State(failures: Failures, history: Failures)

  /** One POST: checked at now; if the credentials are bad, recorded at later. */
  datatype Attempt = Attempt(ip: Ip, now: real, later: real, accepted: bool)

  datatype Status = TooMany | Rejected | Accepted

  function Of(failures: Failures, ip: Ip): seq<real> {
    if ip in failures then failures[ip] else []
  }

  /** The failures that still count at an instant. */
  function Recent(times: seq<real>, now: real): seq<real> {
    if times == [] then []
    else
      var n := |times| - 1;
      Recent(times[..n], now) + if now - times[n] < WINDOW then [times[n]] else []
  }

  function Verdict(s: State, a: Attempt): Status {
    if |Recent(Of(s.failures, a.ip), a.now)| >= MAX_FAILURES then TooMany
    else if a.accepted then Accepted else Rejected
  }

  function Step(s: State, a: Attempt): State {
    var checked := Recent(Of(s.failures, a.ip), a.now);
    if Verdict(s, a).Rejected? then
      State(s.failures[a.ip := Recent(checked, a.later) + [a.later]],
            s.history[a.ip := Of(s.history, a.ip) + [a.later]])
    else s.(failures := s.failures[a.ip := checked])
  }

  function Run(attempts: seq<Attempt>): State {
    if attempts == [] then State(map[], map[])
    else Step(Run(attempts[..|attempts| - 1]), attempts[|attempts| - 1])
  }

  /** _LOGIN_FAILURES and the handler around it; history exists only for the specification. */
  class Limiter {
    var failures: Failures
    ghost var history: Failures

    ghost function View(): State
      reads this
    {
      State(failures, history)
    }

    constructor ()
      ensures View() == State(map[], map[])
    {
      failures, history := map[], map[];
    }

    /** The list comprehension both functions share. */
    method Filter(ip: Ip, now: real) returns (attempts: seq<real>)
      ensures attempts == Recent(Of(failures, ip), now)
    {
      attempts := [];
      var stored := Of(failures, ip);
      for i := 0 to |stored|
        invariant attempts == Recent(stored[..i], now)
      {
        assert stored[..i + 1][..i] == stored[..i];
        if now - stored[i] < WINDOW {
          attempts := attempts + [stored[i]];
        }
      }
      assert stored[..|stored|] == stored;
    }

    /** _check_login_rate_limit. */
    method CheckLoginRateLimit(ip: Ip, now: real) returns (limited: bool)
      modifies this`failures
      ensures failures == old(failures)[ip := Recent(Of(old(failures), ip), now)]
      ensures limited <==> |Recent(Of(old(failures), ip), now)| >= MAX_FAILURES
    {
      var attempts := Filter(ip, now);
      failures := failures[ip := attempts];
      limited := |attempts| >= MAX_FAILURES;
    }

    /** _record_login_failure. */
    method RecordLoginFailure(ip: Ip, now: real)
      modifies this
      ensures failures == old(failures)[ip := Recent(Of(old(failures), ip), now) + [now]]
      ensures history == old(history)[ip := Of(old(history), ip) + [now]]
    {
      var attempts := Filter(ip, now);
      failures := failures[ip := attempts + [now]];
      history := history[ip := Of(history, ip) + [now]];
    }

    /** login_post. */
    method LoginPost(a: Attempt) returns (status: Status)
      modifies this
      ensures status == Verdict(old(View()), a) && View() == Step(old(View()), a)
    {
      var limited := CheckLoginRateLimit(a.ip, a.now);
      if limited {
        return TooMany;
      }
      if !a.accepted {
        RecordLoginFailure(a.ip, a.later);
        return Rejected;
      }
      status := Accepted;
    }
  }

  // ------------------------------------------------------------ pruning

  /** Pruning early does not change what counts later. */
  lemma {:induction false} RecentOfRecent(times: seq<real>, early: real, late: real)
    requires early <= late
    ensures Recent(Recent(times, early), late) == Recent(times, late)
  {
    if times != [] {
      var n := |times| - 1;
      RecentOfRecent(times[..n], early, late);
      var kept := Recent(times[..n], early);
      if early - times[n] < WINDOW {
        assert (kept + [times[n]])[..|kept|] == kept;
      } else {
        assert kept + [] == kept;
      }
    }
  }

  lemma RecentSnoc(times: seq<real>, t: real, now: real)
    ensures Recent(times + [t], now) == Recent(times, now) + if now - t < WINDOW then [t] else []
  {
    assert (times + [t])[..|times|] == times;
  }

  ghost predicate Sorted(times: seq<real>) {
    forall i, j :: 0 <= i <= j < |times| ==> times[i] <= times[j]
  }

  lemma RecentIsSuffixStep(times: seq<real>, now: real, k: nat)
    requires Sorted(times) && times != [] && k < |times|
    requires var before := times[..|times| - 1];
      && Recent(before, now) == before[k..]
      && forall i :: 0 <= i < |before| ==> (now - before[i] < WINDOW <==> k <= i)
    ensures var n := |times| - 1;
      if now - times[n] < WINDOW
      then Recent(times, now) == times[k..] && forall i :: 0 <= i <= n ==> (now - times[i] < WINDOW <==> k <= i)
      else Recent(times, now) == [] && forall i :: 0 <= i <= n ==> now - times[i] >= WINDOW
  {
    var n := |times| - 1;
    var before := times[..n];
    RecentSnoc(before, times[n], now);
    assert before + [times[n]] == times;
    hide Recent;
    assert forall i :: 0 <= i < n ==> before[i] == times[i] && times[i] <= times[n];
    if now - times[n] < WINDOW {
      assert before[k..] + [times[n]] == times[k..];
    } else {
      assert n > 0 ==> now - before[n - 1] >= WINDOW;
    }
  }

  /** On a sorted history what counts is a suffix: everything from the first failure still in the window. */
  lemma {:induction false} RecentIsSuffix(times: seq<real>, now: real) returns (k: nat)
    requires Sorted(times)
    ensures k <= |times| && Recent(times, now) == times[k..]
    ensures forall i :: 0 <= i < |times| ==> (now - times[i] < WINDOW <==> k <= i)
  {
    if times == [] {
      k := 0;
    } else {
      var n := |times| - 1;
      var before := times[..n];
      k := RecentIsSuffix(before, now);
      RecentIsSuffixStep(times, now, k);
      if now - times[n] >= WINDOW {
        k := n + 1;
      }
    }
  }

  /** Everything in the list from the first time still in the window on, and nothing before it. */
  ghost predicate IsRecentSuffix(suffix: seq<real>, times: seq<real>, now: real) {
    exists k :: 0 <= k <= |times| && suffix == times[k..]
                && forall i :: 0 <= i < |times| ==> (now - times[i] < WINDOW <==> k <= i)
  }

  // ------------------------------------------------------------ every run

  /** The clock never goes back, within an attempt or between attempts. */
  ghost predicate Ordered(attempts: seq<Attempt>) {
    && (forall i :: 0 <= i < |attempts| ==> attempts[i].now <= attempts[i].later)
    && (forall i, j :: 0 <= i < j < |attempts| ==> attempts[i].later <= attempts[j].now)
  }

  ghost predicate Before(times: seq<real>, clock: real) {
    forall i :: 0 <= i < |times| ==> times[i] <= clock
  }

  ghost predicate Spaced(times: seq<real>) {
    forall i :: 0 <= i && i + MAX_FAILURES < |times| ==> times[i + MAX_FAILURES] - times[i] >= WINDOW
  }

  /** From now on the stored list counts exactly like the full history. */
  ghost predicate Faithful(stored: seq<real>, times: seq<real>, clock: real) {
    forall now :: now >= clock ==> Recent(stored, now) == Recent(times, now)
  }

  ghost predicate Good(s: State, ip: Ip, clock: real) {
    && Faithful(Of(s.failures, ip), Of(s.history, ip), clock)
    && Sorted(Of(s.history, ip)) && Before(Of(s.history, ip), clock) && Spaced(Of(s.history, ip))
  }

  lemma PruneStaysFaithful(stored: seq<real>, times: seq<real>, clock: real, now: real)
    requires Faithful(stored, times, clock) && now >= clock
    ensures Faithful(Recent(stored, now), times, now)
  {
    forall t | t >= now ensures Recent(Recent(stored, now), t) == Recent(times, t) {
      RecentOfRecent(stored, now, t);
    }
  }

  lemma RecordStaysFaithful(stored: seq<real>, times: seq<real>, clock: real, t: real)
    requires Faithful(stored, times, clock) && t >= clock
    ensures Faithful(stored + [t], times + [t], t)
  {
    forall now | now >= t ensures Recent(stored + [t], now) == Recent(times + [t], now) {
      RecentSnoc(stored, t, now);
      RecentSnoc(times, t, now);
    }
  }

  /** Fewer than five recent failures: the fifth last is out of the window. */
  lemma FifthLastIsOld(times: seq<real>, now: real)
    requires Sorted(times) && |Recent(times, now)| < MAX_FAILURES <= |times|
    ensures now - times[|times| - MAX_FAILURES] >= WINDOW
  {
    var k := RecentIsSuffix(times, now);
  }

  lemma RecordStaysSpaced(times: seq<real>, now: real, later: real)
    requires Sorted(times) && Before(times, now) && Spaced(times) && now <= later
    requires |Recent(times, now)| < MAX_FAILURES
    ensures Sorted(times + [later]) && Before(times + [later], later) && Spaced(times + [later])
  {
    if |times| >= MAX_FAILURES {
      FifthLastIsOld(times, now);
    }
  }

  lemma StepStaysGood(s: State, a: Attempt, ip: Ip, clock: real)
    requires Good(s, ip, clock) && clock <= a.now <= a.later
    ensures Good(Step(s, a), ip, a.later)
  {
    if a.ip == ip {
      var stored, times := Of(s.failures, ip), Of(s.history, ip);
      PruneStaysFaithful(stored, times, clock, a.now);
      if Verdict(s, a).Rejected? {
        PruneStaysFaithful(Recent(stored, a.now), times, a.now, a.later);
        RecordStaysFaithful(Recent(Recent(stored, a.now), a.later), times, a.later, a.later);
        assert |Recent(times, a.now)| == |Recent(stored, a.now)|;
        RecordStaysSpaced(times, a.now, a.later);
      }
    }
  }

  /** The instant of the last attempt. */
  function Clock(attempts: seq<Attempt>, first: real): real {
    if attempts == [] then first else attempts[|attempts| - 1].later
  }

  lemma {:induction false} RunStaysGood(attempts: seq<Attempt>, ip: Ip, first: real)
    requires Ordered(attempts) && (attempts != [] ==> first <= attempts[0].now)
    ensures Good(Run(attempts), ip, Clock(attempts, first))
  {
    if attempts != [] {
      var n := |attempts| - 1;
      RunStaysGood(attempts[..n], ip, first);
      StepStaysGood(Run(attempts[..n]), attempts[n], ip, Clock(attempts[..n], first));
    }
  }

  /** Over the whole history of an address, any six failures span at least the window. */
  lemma SixFailuresSpanTheWindow(attempts: seq<Attempt>, ip: Ip, i: nat, j: nat)
    requires Ordered(attempts)
    requires i + MAX_FAILURES <= j < |Of(Run(attempts).history, ip)|
    ensures Of(Run(attempts).history, ip)[j] - Of(Run(attempts).history, ip)[i] >= WINDOW
  {
    RunStaysGood(attempts, ip, if attempts == [] then 0.0 else attempts[0].now);
    var times := Of(Run(attempts).history, ip);
    assert times[i + MAX_FAILURES] - times[i] >= WINDOW && times[j] >= times[i + MAX_FAILURES];
  }

  /** Five failures at 0, a look at 300 that prunes them, and a failure with the clock back at 100. */
  function TurnedBack(i: nat): Attempt {
    if i < 5 then Attempt(Ip("a"), 0.0, 0.0, false)
    else if i == 5 then Attempt(Ip("a"), 300.0, 300.0, true)
    else Attempt(Ip("a"), 100.0, 100.0, false)
  }

  const TURNED_BACK: seq<Attempt> := seq(7, i requires 0 <= i => TurnedBack(i))

  function Zeros(n: nat): seq<real> {
    if n == 0 then [] else Zeros(n - 1) + [0.0]
  }

  lemma {:induction false} ZerosRecent(n: nat)
    ensures |Zeros(n)| == n && Recent(Zeros(n), 0.0) == Zeros(n) && Recent(Zeros(n), 300.0) == []
    ensures n > 0 ==> Zeros(n)[0] == 0.0
  {
    if n > 0 {
      ZerosRecent(n - 1);
      RecentSnoc(Zeros(n - 1), 0.0, 0.0);
      RecentSnoc(Zeros(n - 1), 0.0, 300.0);
    }
  }

  lemma {:induction false} FiveFailures(n: nat)
    requires n <= 5
    ensures var s := Run(TURNED_BACK[..n]);
      Of(s.failures, Ip("a")) == Zeros(n) && Of(s.history, Ip("a")) == Zeros(n)
  {
    hide Recent;
    if n == 0 {
      assert TURNED_BACK[..0] == [];
    } else {
      FiveFailures(n - 1);
      ZerosRecent(n - 1);
      assert TURNED_BACK[..n][..n - 1] == TURNED_BACK[..n - 1] && TURNED_BACK[n - 1] == TurnedBack(n - 1);
    }
  }

  lemma NothingRecent(now: real)
    ensures Recent([], now) == []
  {
  }

  /** Without a non-decreasing clock the promise fails: here six failures span a hundred seconds. */
  lemma ClockBackWitness()
    ensures var times := Of(Run(TURNED_BACK).history, Ip("a")); |times| == 6 && times[5] - times[0] == 100.0
  {
    hide Recent, Zeros;
    FiveFailures(5);
    ZerosRecent(5);
    NothingRecent(100.0);
    assert TURNED_BACK[..6][..5] == TURNED_BACK[..5] && TURNED_BACK[5] == TurnedBack(5);
    assert Of(Run(TURNED_BACK[..6]).failures, Ip("a")) == [] && Of(Run(TURNED_BACK[..6]).history, Ip("a")) == Zeros(5);
    assert TURNED_BACK[6] == TurnedBack(6);
  }

  /** An attempt is turned away exactly when five failures of its address, among all ever recorded, are recent. */
  lemma LimitedIff(attempts: seq<Attempt>, a: Attempt)
    requires Ordered(attempts + [a])
    ensures Verdict(Run(attempts), a).TooMany? <==> |Recent(Of(Run(attempts).history, a.ip), a.now)| >= MAX_FAILURES
  {
    var all := attempts + [a];
    assert all[|attempts|] == a;
    assert forall i :: 0 <= i < |attempts| ==> all[i] == attempts[i];
    RunStaysGood(attempts, a.ip, if attempts == [] then a.now else attempts[0].now);
  }

  /** The stored list is, at every look, the suffix of the full history that still matters. */
  lemma StoredIsSuffix(attempts: seq<Attempt>, ip: Ip, now: real)
    requires Ordered(attempts) && (attempts != [] ==> attempts[|attempts| - 1].later <= now)
    ensures IsRecentSuffix(Recent(Of(Run(attempts).failures, ip), now), Of(Run(attempts).history, ip), now)
  {
    RunStaysGood(attempts, ip, if attempts == [] then now else attempts[0].now);
    var k := RecentIsSuffix(Of(Run(attempts).history, ip), now);
  }

  // ------------------------------------------------------- the plain limiter

  /**
    When attempts of an address were rejected, said without any store: those with bad credentials
    that found fewer than five recent rejections.
   */
  function Rejections(attempts: seq<Attempt>, ip: Ip): seq<real> {
    if attempts == [] then []
    else
      var before, a := Rejections(attempts[..|attempts| - 1], ip), attempts[|attempts| - 1];
      if a.ip == ip && !a.accepted && |Recent(before, a.now)| < 5 then before + [a.later] else before
  }

  /** What the endpoint answers an attempt after these ones, said without any store. */
  function Answer(attempts: seq<Attempt>, a: Attempt): Status {
    if |Recent(Rejections(attempts, a.ip), a.now)| >= 5 then TooMany
    else if a.accepted then Accepted
    else Rejected
  }

  /** The pruned store answers every attempt, and remembers every rejection, as the plain limiter does. */
  lemma {:induction false} StoreRefinesPlain(attempts: seq<Attempt>, ip: Ip)
    requires Ordered(attempts)
    ensures Of(Run(attempts).history, ip) == Rejections(attempts, ip)
  {
    if attempts != [] {
      var n := |attempts| - 1;
      var before, a := attempts[..n], attempts[n];
      assert before + [a] == attempts;
      StoreRefinesPlain(before, ip);
      StoreRefinesPlain(before, a.ip);
      LimitedIff(before, a);
    }
  }

  lemma AnswersLikePlain(attempts: seq<Attempt>, a: Attempt)
    requires Ordered(attempts + [a])
    ensures Verdict(Run(attempts), a) == Answer(attempts, a)
  {
    var all := attempts + [a];
    assert forall i :: 0 <= i < |attempts| ==> all[i] == attempts[i];
    StoreRefinesPlain(attempts, a.ip);
    LimitedIff(attempts, a);
  }
}

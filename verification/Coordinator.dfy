/**
  The dashboard request coordinator: which response may be shown, for every
  interleaving of loads, responses, failures, ingest events and disposal.
 */
module Coordinator {
  import opened Wrappers

  datatype Selection = Selection(range: string, repository: string)

  datatype Body = Body(content: int)

  datatype Data = Data(body: Body, selection: Selection)

  datatype Phase = Loading | Refreshing | Ready | Stale | Failed

  /** One call of onStateChange. */
  datatype Notice = Notice(phase: Phase, selection: Selection, data: Option<Data>, id: nat)

  /** One call of fetchJson. */
  datatype Request = Request(id: nat, selection: Selection, bypass: bool)

  /** What a request's handlers remember. */
  datatype Pending = Pending(selection: Selection, retain: bool)

  datatype State = State(
    disposed: bool, requestId: nat, activeSelection: Option<Selection>, activeData: Option<Data>,
    controller: Option<nat>, streaming: bool,
    pending: map<nat, Pending>, aborted: set<nat>, sent: seq<Request>, notices: seq<Notice>,
    results: map<nat, Option<Data>>)

  datatype Op =
    | Load(raw: Option<Selection>, retain: bool, bypass: bool)
    | Resolve(id: nat, body: Body)
    | Reject(id: nat, abortError: bool)
    | Connect
    | IngestEvent
    | Dispose

  // ------------------------------------------------------------- transitions

  /** normalizeDashboardSelection: empty text counts as absent. */
  function Normalize(raw: Option<Selection>): Selection {
    Selection(
      if raw.Some? && raw.value.range != "" then raw.value.range else "30d",
      if raw.Some? then raw.value.repository else "")
  }

  function Abort(s: State): State {
    if s.controller.None? then s
    else s.(aborted := s.aborted + {s.controller.value}, controller := None)
  }

  /** The data a load may keep showing. */
  function Retained(s: State, selection: Selection, retain: bool): Option<Data> {
    if retain && s.activeData.Some? && s.activeData.value.selection == selection then s.activeData else None
  }

  /** A new request becomes the latest one and is announced. */
  function Opened(s: State, selection: Selection, retained: Option<Data>, retain: bool, bypass: bool): State {
    var id := s.requestId + 1;
    s.(
    activeSelection := Some(selection),
    activeData := retained,
    requestId := id,
    controller := Some(id),
    pending := s.pending[id := Pending(selection, retain)],
    sent := s.sent + [Request(id, selection, bypass)],
    notices := s.notices + [Notice(if retained.Some? then Refreshing else Loading, selection, retained, id)])
  }

  function AfterLoad(s: State, raw: Option<Selection>, retain: bool, bypass: bool): State {
    if s.disposed then s
    else Opened(Abort(s), Normalize(raw), Retained(s, Normalize(raw), retain), retain, bypass)
  }

  predicate Outdated(s: State, id: nat)
    requires id in s.pending
  {
    s.disposed || id != s.requestId || s.activeSelection != Some(s.pending[id].selection)
  }

  function Settle(s: State, id: nat, result: Option<Data>): State {
    s.(pending := s.pending - {id}, results := s.results[id := result])
  }

  function Release(s: State, id: nat): State {
    if s.controller == Some(id) then s.(controller := None) else s
  }

  function AfterResolve(s: State, id: nat, body: Body): State {
    if id !in s.pending then s
    else if Outdated(s, id) then Settle(s, id, None)
    else
      var selection := s.pending[id].selection;
      var data := Data(body, selection);
      Settle(Release(s, id), id, Some(data)).(
      activeData := Some(data),
      notices := s.notices + [Notice(Ready, selection, Some(data), id)])
  }

  function AfterReject(s: State, id: nat, abortError: bool): State {
    if id !in s.pending then s
    else if Outdated(s, id) || abortError then Settle(s, id, None)
    else
      var selection := s.pending[id].selection;
      var fallback := Retained(s, selection, s.pending[id].retain);
      Settle(Release(s, id), id, None).(
      activeData := fallback,
      notices := s.notices + [Notice(if fallback.Some? then Stale else Failed, selection, fallback, id)])
  }

  function AfterDispose(s: State): State {
    if s.disposed then s
    else Abort(s.(disposed := true, requestId := s.requestId + 1)).(streaming := false)
  }

  function AfterIngest(s: State): State {
    if s.streaming && s.activeSelection.Some? then AfterLoad(s, s.activeSelection, true, true) else s
  }

  function Step(s: State, op: Op): State {
    match op
    case Load(raw, retain, bypass) => AfterLoad(s, raw, retain, bypass)
    case Resolve(id, body) => AfterResolve(s, id, body)
    case Reject(id, abortError) => AfterReject(s, id, abortError)
    case Connect => if s.disposed then s else s.(streaming := true)
    case IngestEvent => AfterIngest(s)
    case Dispose => AfterDispose(s)
  }

  const INITIAL := State(false, 0, None, None, None, false, map[], {}, [], [], map[])

  function Run(ops: seq<Op>): State {
    if ops == [] then INITIAL else Step(Run(ops[..|ops| - 1]), ops[|ops| - 1])
  }

  // ---------------------------------------------------------- the coordinator

  /** createDashboardRequestCoordinator. */
  class RequestCoordinator {
    var disposed: bool
    var requestId: nat
    var activeSelection: Option<Selection>
    var activeData: Option<Data>
    var controller: Option<nat>
    var streaming: bool
    var pending: map<nat, Pending>
    var aborted: set<nat>
    var sent: seq<Request>
    var notices: seq<Notice>
    var results: map<nat, Option<Data>>

    function View(): State
      reads this
    {
      State(disposed, requestId, activeSelection, activeData, controller, streaming,
            pending, aborted, sent, notices, results)
    }

    constructor ()
      ensures View() == INITIAL
    {
      disposed, requestId, activeSelection, activeData, controller := false, 0, None, None, None;
      streaming, pending, aborted, sent, notices, results := false, map[], {}, [], [], map[];
    }

    method AbortCurrent()
      modifies this`aborted, this`controller
      ensures View() == Abort(old(View()))
    {
      if controller.None? {
        return;
      }
      aborted := aborted + {controller.value};
      controller := None;
    }

    method Load(raw: Option<Selection>, retain: bool, bypass: bool)
      modifies this
      ensures View() == AfterLoad(old(View()), raw, retain, bypass)
    {
      if disposed {
        return;
      }
      var normalized := Normalize(raw);
      var retained := Retained(View(), normalized, retain);
      AbortCurrent();
      Open(normalized, retained, retain, bypass);
    }

    /** The part of a load that starts its request. */
    method Open(selection: Selection, retained: Option<Data>, retain: bool, bypass: bool)
      modifies this
      ensures View() == Opened(old(View()), selection, retained, retain, bypass)
    {
      activeSelection := Some(selection);
      activeData := retained;
      requestId := requestId + 1;
      var current := requestId;
      notices := notices + [Notice(if retained.Some? then Refreshing else Loading, selection, retained, current)];
      controller := Some(current);
      sent := sent + [Request(current, selection, bypass)];
      pending := pending[current := Pending(selection, retain)];
    }

    /** The then-handler of one request. */
    method Resolve(id: nat, body: Body)
      modifies this
      ensures View() == AfterResolve(old(View()), id, body)
    {
      if id !in pending {
        return;
      }
      var request := pending[id];
      pending := pending - {id};
      if disposed || id != requestId || activeSelection != Some(request.selection) {
        results := results[id := None];
        return;
      }
      activeData := Some(Data(body, request.selection));
      if controller == Some(id) {
        controller := None;
      }
      notices := notices + [Notice(Ready, request.selection, activeData, id)];
      results := results[id := activeData];
    }

    /** The catch-handler of one request. */
    method Reject(id: nat, abortError: bool)
      modifies this
      ensures View() == AfterReject(old(View()), id, abortError)
    {
      if id !in pending {
        return;
      }
      var request := pending[id];
      pending := pending - {id};
      results := results[id := None];
      if disposed || id != requestId || activeSelection != Some(request.selection) || abortError {
        return;
      }
      if controller == Some(id) {
        controller := None;
      }
      var fallback :=
        if request.retain && activeData.Some? && activeData.value.selection == request.selection
        then activeData else None;
      activeData := fallback;
      notices := notices + [Notice(if fallback.Some? then Stale else Failed, request.selection, fallback, id)];
    }

    method Connect()
      modifies this`streaming
      ensures View() == Step(old(View()), Op.Connect)
    {
      if disposed {
        return;
      }
      streaming := true;
    }

    /** The listeners for ingest_done and ingest_failed, which do the same. */
    method OnIngest()
      modifies this
      ensures View() == AfterIngest(old(View()))
      ensures old(streaming && activeSelection.Some? && !disposed) ==>
        && requestId == old(requestId) + 1
        && sent == old(sent) + [Request(requestId, Normalize(old(activeSelection)), true)]
        && |notices| == old(|notices|) + 1
        && pending == old(pending)[requestId := Pending(Normalize(old(activeSelection)), true)]
      ensures !old(streaming && activeSelection.Some? && !disposed) ==> View() == old(View())
    {
      if streaming && activeSelection.Some? {
        Load(activeSelection, true, true);
      }
    }

    method Dispose()
      modifies this
      ensures View() == AfterDispose(old(View()))
    {
      if disposed {
        return;
      }
      disposed := true;
      requestId := requestId + 1;
      AbortCurrent();
      streaming := false;
    }
  }

  // --------------------------------------------------------------- invariants

  predicate Opens(n: Notice) {
    n.phase.Loading? || n.phase.Refreshing?
  }

  /** The closing notice that may follow an opening one. */
  predicate Closes(opening: Notice, closing: Notice) {
    && closing.id == opening.id && closing.selection == opening.selection
    && (match closing.phase
        case Ready => closing.data.Some?
        case Stale => opening.phase.Refreshing? && closing.data == opening.data
        case Failed => opening.phase.Loading? && closing.data.None?
        case _ => false)
  }

  /** Data is shown only under the selection it was loaded for. */
  ghost predicate Truthful(n: Notice) {
    && (n.data.Some? ==> n.data.value.selection == n.selection)
    && (n.phase.Refreshing? || n.phase.Ready? || n.phase.Stale? <==> n.data.Some?)
  }

  /** What may follow one notice. */
  ghost predicate Follows(before: Notice, next: Notice) {
    if Opens(next) then
      before.id < next.id && (next.phase.Refreshing? ==> next.data == before.data && next.selection == before.selection)
    else
      Opens(before) && Closes(before, next)
  }

  /**
    Openings carry ever larger ids; a closing notice directly follows the opening of the same
    request; a refresh goes on showing what was shown.
   */
  ghost predicate History(notices: seq<Notice>, latest: nat) {
    && (forall i :: 0 <= i < |notices| ==> Truthful(notices[i]) && 0 < notices[i].id <= latest)
    && (notices != [] ==> notices[0].phase.Loading?)
    && (forall i :: 0 < i < |notices| ==> Follows(notices[i - 1], notices[i]))
  }

  function Last(notices: seq<Notice>): Notice
    requires notices != []
  {
    notices[|notices| - 1]
  }

  /** The fields say what the last notice said. */
  ghost predicate ShowsLast(s: State) {
    if s.notices == [] then s.activeSelection.None? && s.activeData.None?
    else s.activeSelection == Some(Last(s.notices).selection) && s.activeData == Last(s.notices).data
  }

  /** While the latest request is in flight, the last notice is its opening. */
  ghost predicate CurrentInFlight(s: State)
    requires s.requestId in s.pending
  {
    var p := s.pending[s.requestId];
    && !s.disposed && s.controller == Some(s.requestId) && s.notices != []
    && Opens(Last(s.notices)) && Last(s.notices).id == s.requestId && Last(s.notices).selection == p.selection
    && (s.activeData.Some? ==> p.retain)
  }

  /** Every request but the latest has been aborted or has settled; each settles at most once. */
  ghost predicate Bookkeeping(s: State) {
    && (forall id :: id in s.pending ==> id <= s.requestId && (id < s.requestId ==> id in s.aborted))
    && (s.controller.Some? ==> s.controller.value == s.requestId)
    && (s.disposed ==> s.controller.None? && s.requestId !in s.pending && !s.streaming)
    && |s.sent| == s.requestId - (if s.disposed then 1 else 0)
    && (forall i :: 0 <= i < |s.sent| ==> s.sent[i].id == i + 1)
    && (forall id :: id in s.pending || id in s.results ==> 1 <= id <= |s.sent|)
    && (forall id :: 1 <= id <= |s.sent| ==> (id in s.pending <==> id !in s.results))
  }

  ghost predicate Inv(s: State) {
    && History(s.notices, s.requestId) && ShowsLast(s) && Bookkeeping(s)
    && (s.requestId in s.pending ==> CurrentInFlight(s))
  }

  lemma HistorySnoc(notices: seq<Notice>, latest: nat, n: Notice, id: nat)
    requires History(notices, latest) && latest <= id && Truthful(n) && 0 < n.id <= id
    requires if notices == [] then n.phase.Loading? else Follows(Last(notices), n)
    ensures History(notices + [n], id)
  {
    var all := notices + [n];
    forall i | 0 < i < |all| ensures Follows(all[i - 1], all[i]) {
      assert all[i - 1] == notices[i - 1];
      assert i < |notices| ==> all[i] == notices[i];
    }
  }

  /** What the last notice shows, if it was for this selection. */
  function Shown(notices: seq<Notice>, selection: Selection): Option<Data> {
    if notices != [] && Last(notices).selection == selection then Last(notices).data else None
  }

  lemma RetainedIsShown(s: State, selection: Selection, retain: bool)
    requires ShowsLast(s) && History(s.notices, s.requestId)
    ensures Retained(s, selection, retain) == if retain then Shown(s.notices, selection) else None
  {
  }

  lemma LoadKeepsHistory(s: State, raw: Option<Selection>, retain: bool, bypass: bool)
    requires History(s.notices, s.requestId) && ShowsLast(s) && !s.disposed
    ensures var t := AfterLoad(s, raw, retain, bypass); History(t.notices, t.requestId) && ShowsLast(t)
  {
    var t := AfterLoad(s, raw, retain, bypass);
    RetainedIsShown(s, Normalize(raw), retain);
    hide Normalize, Retained;
    HistorySnoc(s.notices, s.requestId, Last(t.notices), s.requestId + 1);
  }

  lemma LoadKeepsBookkeeping(s: State, raw: Option<Selection>, retain: bool, bypass: bool)
    requires Bookkeeping(s) && (s.requestId in s.pending ==> s.controller == Some(s.requestId)) && !s.disposed
    ensures Bookkeeping(AfterLoad(s, raw, retain, bypass))
  {
    hide Normalize, Retained;
  }

  lemma LoadIsInFlight(s: State, raw: Option<Selection>, retain: bool, bypass: bool)
    requires !s.disposed
    ensures var t := AfterLoad(s, raw, retain, bypass); t.requestId in t.pending && CurrentInFlight(t)
  {
    hide Normalize;
  }

  lemma LoadKeepsInv(s: State, raw: Option<Selection>, retain: bool, bypass: bool)
    requires Inv(s)
    ensures Inv(AfterLoad(s, raw, retain, bypass))
  {
    if !s.disposed {
      LoadKeepsHistory(s, raw, retain, bypass);
      LoadKeepsBookkeeping(s, raw, retain, bypass);
      LoadIsInFlight(s, raw, retain, bypass);
      hide History, Bookkeeping, ShowsLast, CurrentInFlight, Opened;
    }
  }

  lemma ResolveKeepsInv(s: State, id: nat, body: Body)
    requires Inv(s)
    ensures Inv(AfterResolve(s, id, body))
  {
    if id in s.pending && !Outdated(s, id) {
      var s' := AfterResolve(s, id, body);
      HistorySnoc(s.notices, s.requestId, Last(s'.notices), s.requestId);
    }
  }

  lemma RejectKeepsInv(s: State, id: nat, abortError: bool)
    requires Inv(s)
    ensures Inv(AfterReject(s, id, abortError))
  {
    if id in s.pending && !Outdated(s, id) && !abortError {
      var s' := AfterReject(s, id, abortError);
      HistorySnoc(s.notices, s.requestId, Last(s'.notices), s.requestId);
    }
  }

  lemma HistoryOfMore(notices: seq<Notice>, latest: nat)
    requires History(notices, latest)
    ensures History(notices, latest + 1)
  {
  }

  lemma DisposeKeepsBookkeeping(s: State)
    requires Bookkeeping(s) && (s.requestId in s.pending ==> s.controller == Some(s.requestId))
    ensures var t := AfterDispose(s); Bookkeeping(t) && (t.requestId !in t.pending || t == s)
  {
  }

  lemma DisposeKeepsInv(s: State)
    requires Inv(s)
    ensures Inv(AfterDispose(s))
  {
    if !s.disposed {
      DisposeKeepsBookkeeping(s);
      HistoryOfMore(s.notices, s.requestId);
      hide History, Bookkeeping;
    }
  }

  lemma StepKeepsInv(s: State, op: Op)
    requires Inv(s)
    ensures Inv(Step(s, op))
  {
    match op {
      case Load(raw, retain, bypass) => LoadKeepsInv(s, raw, retain, bypass);
      case Resolve(id, body) => ResolveKeepsInv(s, id, body);
      case Reject(id, abortError) => RejectKeepsInv(s, id, abortError);
      case Connect =>
      case IngestEvent => LoadKeepsInv(s, s.activeSelection, true, true);
      case Dispose => DisposeKeepsInv(s);
    }
  }

  /** Every interleaving keeps the invariant. */
  lemma {:induction false} RunKeepsInv(ops: seq<Op>)
    ensures Inv(Run(ops))
  {
    if ops != [] {
      RunKeepsInv(ops[..|ops| - 1]);
      StepKeepsInv(Run(ops[..|ops| - 1]), ops[|ops| - 1]);
    }
  }

  // ------------------------------------------------------------ consequences

  lemma {:induction false} IdsBetween(notices: seq<Notice>, latest: nat, i: nat, j: nat)
    requires History(notices, latest) && i < j < |notices|
    ensures notices[i].id <= notices[j].id
    ensures Opens(notices[j]) || i < j - 1 ==> notices[i].id < notices[j].id
  {
    assert Follows(notices[j - 1], notices[j]);
    if i < j - 1 {
      IdsBetween(notices, latest, i, j - 1);
    }
  }

  /** Ids never decrease, and no id is opened twice or closed twice. */
  lemma NotifiedInOrder(ops: seq<Op>, i: nat, j: nat)
    requires i < j < |Run(ops).notices|
    ensures var a, b := Run(ops).notices[i], Run(ops).notices[j];
      a.id <= b.id && (Opens(a) == Opens(b) ==> a.id < b.id)
  {
    RunKeepsInv(ops);
    IdsBetween(Run(ops).notices, Run(ops).requestId, i, j);
    if !Opens(Run(ops).notices[i]) && j == i + 1 {
      assert Follows(Run(ops).notices[i], Run(ops).notices[j]);
    }
  }

  lemma TruthfulHistory(notices: seq<Notice>, latest: nat, i: nat)
    requires History(notices, latest) && i < |notices|
    ensures notices[i].data.Some? ==> notices[i].data.value.selection == notices[i].selection
    ensures !Opens(notices[i]) ==> i > 0 && Opens(notices[i - 1]) && Closes(notices[i - 1], notices[i])
  {
    if i > 0 {
      assert Follows(notices[i - 1], notices[i]);
    }
  }

  /** Whatever is shown was loaded for the selection it is shown under; a closing answers the opening just before it. */
  lemma NotifiedTruthfully(ops: seq<Op>, i: nat)
    requires i < |Run(ops).notices|
    ensures var notices := Run(ops).notices;
      && (notices[i].data.Some? ==> notices[i].data.value.selection == notices[i].selection)
      && (!Opens(notices[i]) ==> i > 0 && Opens(notices[i - 1]) && Closes(notices[i - 1], notices[i]))
  {
    hide Run, History, ShowsLast, Bookkeeping, CurrentInFlight, Closes, Opens;
    RunKeepsInv(ops);
    TruthfulHistory(Run(ops).notices, Run(ops).requestId, i);
  }

  /** After dispose nothing is notified, requested or connected any more. */
  lemma {:induction false} DisposedIsSilent(ops: seq<Op>, more: seq<Op>)
    requires Run(ops).disposed
    ensures var s, t := Run(ops), Run(ops + more);
      t.disposed && t.notices == s.notices && t.sent == s.sent && !t.streaming && t.activeData == s.activeData
  {
    if more == [] {
      assert ops + more == ops;
      RunKeepsInv(ops);
    } else {
      var n := |more| - 1;
      assert (ops + more)[..|ops + more| - 1] == ops + more[..n];
      DisposedIsSilent(ops, more[..n]);
    }
  }

  /** Two of the three guards of a handler decide: the selection can only differ if the request is not the latest. */
  lemma SelectionGuardIsRedundant(ops: seq<Op>, id: nat)
    requires id in Run(ops).pending
    ensures Outdated(Run(ops), id) <==> id != Run(ops).requestId
  {
    RunKeepsInv(ops);
  }

  lemma RunSnoc(ops: seq<Op>, op: Op)
    ensures Run(ops + [op]) == Step(Run(ops), op)
  {
    assert (ops + [op])[..|ops|] == ops;
  }

  /** A response to any request but the latest changes nothing that is shown, and its promise yields nothing. */
  lemma SupersededIsSilent(ops: seq<Op>, id: nat, body: Body, abortError: bool)
    requires id != Run(ops).requestId
    ensures var s := Run(ops);
      forall t :: t in {Run(ops + [Resolve(id, body)]), Run(ops + [Reject(id, abortError)])} ==>
        && t.notices == s.notices && t.activeData == s.activeData && t.activeSelection == s.activeSelection
        && t.sent == s.sent && t.controller == s.controller && t.aborted == s.aborted
        && t.pending == s.pending - {id}
        && t.results == if id in s.pending then s.results[id := None] else s.results
  {
    RunSnoc(ops, Resolve(id, body));
    RunSnoc(ops, Reject(id, abortError));
    assert id !in Run(ops).pending ==> Run(ops).pending - {id} == Run(ops).pending;
  }

  /** The latest request's response is shown, whatever came before. */
  lemma LatestWins(ops: seq<Op>, body: Body)
    requires Run(ops).requestId in Run(ops).pending
    ensures var s := Run(ops); var t := Run(ops + [Resolve(s.requestId, body)]);
      && s.activeSelection.Some?
      && t.notices == s.notices + [Notice(Ready, s.activeSelection.value, t.activeData, s.requestId)]
      && t.activeData == Some(Data(body, s.activeSelection.value))
      && t.results == s.results[s.requestId := t.activeData] && t.pending == s.pending - {s.requestId}
      && t.controller.None? && t.sent == s.sent && t.aborted == s.aborted
  {
    RunKeepsInv(ops);
    RunSnoc(ops, Resolve(Run(ops).requestId, body));
  }

  /** A failure of the latest request keeps what its opening showed, as stale; if that was nothing, it is an error. */
  lemma LatestFails(ops: seq<Op>)
    requires Run(ops).requestId in Run(ops).pending
    ensures var s := Run(ops); var t := Run(ops + [Reject(s.requestId, false)]);
      && s.notices != [] && Opens(Last(s.notices))
      && t.notices == s.notices + [Last(s.notices).(
                                     phase := if Last(s.notices).phase.Refreshing? then Stale else Failed)]
      && t.activeData == s.activeData && t.controller.None?
      && t.results == s.results[s.requestId := None] && t.pending == s.pending - {s.requestId}
      && t.sent == s.sent && t.aborted == s.aborted
  {
    RunKeepsInv(ops);
    RunSnoc(ops, Reject(Run(ops).requestId, false));
  }

  /** An AbortError settles the request it answers, with no value, and nothing else. */
  lemma AbortedIsSilent(ops: seq<Op>, id: nat)
    requires id in Run(ops).pending
    ensures var s := Run(ops);
      Run(ops + [Reject(id, true)]) == s.(pending := s.pending - {id}, results := s.results[id := None])
  {
    RunSnoc(ops, Reject(id, true));
  }

  /** A given range is taken as it is, an empty or missing one becomes thirty days. */
  lemma NormalizedSelection(raw: Option<Selection>)
    ensures var n := Normalize(raw);
      && n.range != "" && Normalize(Some(n)) == n
      && (raw.Some? ==> (n == raw.value <==> raw.value.range != "") && n.repository == raw.value.repository)
      && ((raw.None? || raw.value.range == "") ==> n.range == "30d") && (raw.None? ==> n.repository == "")
  {
  }

  /** A load goes on showing the last data exactly when asked to and for the same selection, and sends one request. */
  lemma LoadOpens(ops: seq<Op>, raw: Option<Selection>, retain: bool, bypass: bool)
    requires !Run(ops).disposed
    ensures var s := Run(ops); var t := Run(ops + [Load(raw, retain, bypass)]);
      var id, selection := s.requestId + 1, Normalize(raw);
      var shown := if retain then Shown(s.notices, selection) else None;
      && t.notices == s.notices + [Notice(if shown.Some? then Refreshing else Loading, selection, shown, id)]
      && t.sent == s.sent + [Request(id, selection, bypass)] && |t.sent| == id
      && t.requestId == id && t.pending == s.pending[id := Pending(selection, retain)]
      && t.streaming == s.streaming && !t.disposed
  {
    hide Run, History, ShowsLast, CurrentInFlight, Normalize, Retained, Shown;
    RunKeepsInv(ops);
    RunSnoc(ops, Load(raw, retain, bypass));
    RetainedIsShown(Run(ops), Normalize(raw), retain);
  }

  /** Whatever was in flight when a load starts has been aborted. */
  lemma LoadAborts(ops: seq<Op>, raw: Option<Selection>, retain: bool, bypass: bool)
    requires !Run(ops).disposed
    ensures forall id :: id in Run(ops).pending ==> id in Run(ops + [Load(raw, retain, bypass)]).aborted
  {
    hide Run, AfterLoad, Bookkeeping, CurrentInFlight, History, ShowsLast;
    RunKeepsInv(ops);
    RunSnoc(ops, Load(raw, retain, bypass));
    OldIsAborted(Run(ops));
    LoadAbortsInFlight(Run(ops), raw, retain, bypass);
  }

  lemma OldIsAborted(s: State)
    requires Bookkeeping(s) && (s.requestId in s.pending ==> CurrentInFlight(s))
    ensures forall id :: id in s.pending ==> id in s.aborted || s.controller == Some(id)
  {
  }

  lemma LoadAbortsInFlight(s: State, raw: Option<Selection>, retain: bool, bypass: bool)
    requires !s.disposed && forall id :: id in s.pending ==> id in s.aborted || s.controller == Some(id)
    ensures forall id :: id in s.pending ==> id in AfterLoad(s, raw, retain, bypass).aborted
  {
    hide Normalize, Retained;
  }

  // ------------------------------------------------------ the ingest stream

  /** The connection stands from the first Connect on until Dispose, which is for good. */
  lemma {:induction false} StreamingIff(ops: seq<Op>)
    ensures Run(ops).disposed <==> Op.Dispose in ops
    ensures Run(ops).streaming <==> Op.Connect in ops && Op.Dispose !in ops
  {
    if ops != [] {
      var n := |ops| - 1;
      StreamingIff(ops[..n]);
      StreamStep(Run(ops[..n]), ops[n]);
      hide Step;
      assert ops == ops[..n] + [ops[n]];
    }
  }

  lemma StreamStep(s: State, op: Op)
    ensures var t := Step(s, op);
      && (t.disposed <==> s.disposed || op.Dispose?)
      && (t.streaming <==> if s.disposed then s.streaming else !op.Dispose? && (s.streaming || op.Connect?))
  {
    hide Normalize, Retained;
  }

  /** An active selection is always a normalised one. */
  lemma {:induction false} ActiveIsNormal(ops: seq<Op>)
    ensures Run(ops).activeSelection.Some? ==> Run(ops).activeSelection.value.range != ""
  {
    if ops != [] {
      var n := |ops| - 1;
      ActiveIsNormal(ops[..n]);
      SelectionStep(Run(ops[..n]), ops[n]);
    }
  }

  lemma SelectionStep(s: State, op: Op)
    ensures var t := Step(s, op);
      t.activeSelection == s.activeSelection || (t.activeSelection.Some? && t.activeSelection.value.range != "")
  {
    match op {
      case Load(raw, _, _) => NormalizedSelection(raw);
      case Resolve(_, _) =>
      case Reject(_, _) =>
      case Connect =>
      case IngestEvent => NormalizedSelection(s.activeSelection);
      case Dispose =>
    }
  }

  /**
    An ingest event on a live stream reloads the active selection past the cache: one request, and one notice
    that keeps what the last one showed.
   */
  lemma IngestReloads(ops: seq<Op>)
    requires Op.Connect in ops && Op.Dispose !in ops && Run(ops).activeSelection.Some?
    ensures var s := Run(ops); var t := Run(ops + [IngestEvent]);
      var id, selection, shown := s.requestId + 1, s.activeSelection.value, s.activeData;
      && s.notices != [] && selection == Last(s.notices).selection && shown == Last(s.notices).data
      && t.sent == s.sent + [Request(id, selection, true)] && t.requestId == id
      && t.notices == s.notices + [Notice(if shown.Some? then Refreshing else Loading, selection, shown, id)]
      && t.pending == s.pending[id := Pending(selection, true)]
      && (forall other :: other in s.pending ==> other in t.aborted)
  {
    var s := Run(ops);
    StreamingIff(ops);
    ActiveIsNormal(ops);
    NormalizedSelection(s.activeSelection);
    RunKeepsInv(ops);
    RunSnoc(ops, IngestEvent);
    LoadOpens(ops, s.activeSelection, true, true);
    LoadAborts(ops, s.activeSelection, true, true);
    RunSnoc(ops, Load(s.activeSelection, true, true));
    TruthfulHistory(s.notices, s.requestId, |s.notices| - 1);
  }

  /** Without a stream, or before any load, it changes nothing. */
  lemma IngestIsIgnored(ops: seq<Op>)
    requires Op.Connect !in ops || Op.Dispose in ops || Run(ops).activeSelection.None?
    ensures Run(ops + [IngestEvent]) == Run(ops)
  {
    StreamingIff(ops);
    RunSnoc(ops, IngestEvent);
  }

  ghost predicate ControllerOpen(s: State) {
    s.controller == if !s.disposed && s.notices != [] && Opens(Last(s.notices)) then Some(s.requestId) else None
  }

  lemma ControllerStep(s: State, op: Op)
    requires Inv(s) && ControllerOpen(s)
    ensures ControllerOpen(Step(s, op))
  {
    hide History, Normalize, Retained;
    match op {
      case Load(_, _, _) =>
      case Resolve(_, _) =>
      case Reject(_, _) =>
      case Connect =>
      case IngestEvent =>
      case Dispose =>
    }
  }

  /**
    The coordinator holds a controller exactly while its last notice is an opening; so a load or a dispose
    aborts the latest request exactly if that request has not been answered.
   */
  lemma {:induction false} ControllerIffOpen(ops: seq<Op>)
    ensures ControllerOpen(Run(ops))
  {
    if ops != [] {
      var n := |ops| - 1;
      ControllerIffOpen(ops[..n]);
      RunKeepsInv(ops[..n]);
      ControllerStep(Run(ops[..n]), ops[n]);
    }
  }

  /** What is aborted by a step: the latest request, if it is still open, by a load, a reload or the first dispose. */
  lemma AbortsExactly(ops: seq<Op>, op: Op)
    ensures var s, t := Run(ops), Run(ops + [op]);
      var supersedes := !s.disposed && (op.Load? || op.Dispose?
                                        || (op.IngestEvent? && s.streaming && s.activeSelection.Some?));
      t.aborted == s.aborted + if supersedes && s.notices != [] && Opens(Last(s.notices)) then {s.requestId} else {}
  {
    ControllerIffOpen(ops);
    RunSnoc(ops, op);
    hide Run, Normalize, Retained;
  }

  predicate Answers(op: Op, n: Notice) {
    op.Resolve? && op.id == n.id && n.data == Some(Data(op.body, n.selection))
  }

  lemma NewReadyIsAnswered(s: State, op: Op)
    requires |Step(s, op).notices| > |s.notices| && Last(Step(s, op).notices).phase.Ready?
    ensures Answers(op, Last(Step(s, op).notices))
  {
  }

  /** A ready notice shows the body its own request was resolved with. */
  lemma ReadyIsAnswered(ops: seq<Op>, i: nat)
    requires i < |Run(ops).notices| && Run(ops).notices[i].phase.Ready?
    ensures exists k :: 0 <= k < |ops| && Answers(ops[k], Run(ops).notices[i])
  {
    var k := AnswerOf(ops, i);
  }

  lemma {:induction false} AnswerOf(ops: seq<Op>, i: nat) returns (k: nat)
    requires i < |Run(ops).notices| && Run(ops).notices[i].phase.Ready?
    ensures k < |ops| && Answers(ops[k], Run(ops).notices[i])
  {
    hide Step, Answers;
    var n := |ops| - 1;
    var s := Run(ops[..n]);
    NoticesOnlyGrow(s, ops[n]);
    if i < |s.notices| {
      k := AnswerOf(ops[..n], i);
    } else {
      NewReadyIsAnswered(s, ops[n]);
      k := n;
    }
  }

  lemma NoticesOnlyGrow(s: State, op: Op)
    ensures |s.notices| <= |Step(s, op).notices| <= |s.notices| + 1 && s.notices <= Step(s, op).notices
  {
  }

  /** Whatever a notice shows was delivered by a ready notice no later than it. */
  lemma {:induction false} ShownWasReady(ops: seq<Op>, i: nat)
    requires i < |Run(ops).notices| && Run(ops).notices[i].data.Some?
    ensures exists k :: 0 <= k <= i && Run(ops).notices[k].phase.Ready?
                        && Run(ops).notices[k].data == Run(ops).notices[i].data
  {
    RunKeepsInv(ops);
    var notices := Run(ops).notices;
    if notices[i].phase.Ready? {
    } else {
      assert Follows(notices[i - 1], notices[i]);
      ShownWasReady(ops, i - 1);
    }
  }

  // --------------------------------------------------------------- closing

  /** The transport raises AbortError only for requests that were aborted. */
  ghost predicate Honest(ops: seq<Op>) {
    forall i :: 0 <= i < |ops| && ops[i].Reject? && ops[i].abortError ==> ops[i].id in Run(ops[..i]).aborted
  }

  ghost predicate AbortedOld(s: State) {
    forall id :: id in s.aborted ==> id < s.requestId
  }

  lemma StepAbortsOld(s: State, op: Op)
    requires Inv(s) && AbortedOld(s)
    ensures AbortedOld(Step(s, op))
  {
    match op {
      case Load(_, _, _) =>
      case Resolve(id, _) =>
      case Reject(id, _) =>
      case Connect =>
      case IngestEvent =>
      case Dispose =>
    }
  }

  /** No request is aborted while it is the latest. */
  lemma {:induction false} OnlyOldAreAborted(ops: seq<Op>)
    ensures AbortedOld(Run(ops))
  {
    if ops != [] {
      OnlyOldAreAborted(ops[..|ops| - 1]);
      RunKeepsInv(ops[..|ops| - 1]);
      StepAbortsOld(Run(ops[..|ops| - 1]), ops[|ops| - 1]);
    }
  }

  /** Either the latest request is in flight or its closing notice is the last one. */
  ghost predicate Closed(s: State) {
    !s.disposed && s.requestId > 0 && s.requestId !in s.pending ==>
      s.notices != [] && Last(s.notices).id == s.requestId && !Opens(Last(s.notices))
  }

  lemma StepCloses(s: State, op: Op)
    requires Inv(s) && AbortedOld(s) && Closed(s)
    requires op.Reject? && op.abortError ==> op.id in s.aborted
    ensures Closed(Step(s, op))
  {
    match op {
      case Load(_, _, _) =>
      case Resolve(id, _) =>
      case Reject(id, _) =>
      case Connect =>
      case IngestEvent =>
      case Dispose =>
    }
  }

  /** Otherwise it may not be: an AbortError for the latest request is swallowed and the view stays on its opening. */
  lemma SwallowedAbortWitness()
    ensures var s := Run([Load(None, false, false), Reject(1, true)]); !Closed(s) && s.requestId == 1
  {
    var first := [Load(None, false, false)];
    assert [Load(None, false, false), Reject(1, true)][..1] == first && first[..0] == [];
    assert Run(first) == Step(INITIAL, first[0]);
  }

  /** With an honest transport, once the latest request has settled its closing notice is out. */
  lemma {:induction false} HonestTransportCloses(ops: seq<Op>)
    requires Honest(ops)
    ensures Closed(Run(ops))
  {
    if ops != [] {
      var n := |ops| - 1;
      assert forall i :: 0 <= i < n ==> ops[..n][..i] == ops[..i];
      HonestTransportCloses(ops[..n]);
      RunKeepsInv(ops[..n]);
      OnlyOldAreAborted(ops[..n]);
      StepCloses(Run(ops[..n]), ops[n]);
    }
  }

  /** The latest request was settled by an AbortError of the transport. */
  ghost predicate Swallowed(ops: seq<Op>) {
    exists k :: 0 <= k < |ops| && SwallowedAt(ops, Run(ops).requestId, k)
  }

  ghost predicate SwallowedAt(ops: seq<Op>, id: nat, k: nat)
    requires k < |ops|
  {
    ops[k] == Reject(id, true) && id in Run(ops[..k]).pending
  }

  /** What a step does to a latest request that is still, or no longer, in flight. */
  lemma StepSettles(s: State, op: Op)
    requires Inv(s)
    ensures var t := Step(s, op); var id := s.requestId;
      && (t.requestId != id ==> t.disposed || t.requestId in t.pending)
      && (t.requestId == id && id in s.pending && id !in t.pending ==>
            if op == Reject(id, true) then t.notices == s.notices
            else t.notices != [] && Last(t.notices).id == id && !Opens(Last(t.notices)))
      && (t.requestId == id && id !in s.pending ==> t.notices == s.notices && id !in t.pending)
      && (!t.disposed ==> !s.disposed) && forall other :: other in s.results ==> other in t.results
  {
    hide History;
    match op {
      case Load(_, _, _) =>
      case Resolve(_, _) =>
      case Reject(_, _) =>
      case Connect =>
      case IngestEvent =>
      case Dispose =>
    }
  }

  lemma SwallowingSettles(s: State, id: nat)
    requires id in s.pending
    ensures id in AfterReject(s, id, true).results
  {
  }

  /** A swallowed request has a result from then on. */
  lemma {:induction false} SwallowedHasResult(ops: seq<Op>, id: nat, k: nat)
    requires k < |ops| && SwallowedAt(ops, id, k)
    ensures id in Run(ops).results
    decreases |ops|
  {
    hide Step, History, ShowsLast, Bookkeeping, CurrentInFlight;
    var n := |ops| - 1;
    if k == n {
      SwallowingStep(Run(ops[..n]), id);
    } else {
      assert ops[..n][..k] == ops[..k] && ops[..n][k] == ops[k];
      SwallowedHasResult(ops[..n], id, k);
      RunKeepsInv(ops[..n]);
      StepSettles(Run(ops[..n]), ops[n]);
    }
  }

  lemma SwallowingStep(s: State, id: nat)
    requires id in s.pending
    ensures id in Step(s, Reject(id, true)).results
  {
    SwallowingSettles(s, id);
  }

  /** One step more keeps the answer for a latest request that had settled, and fixes it for one that just did. */
  lemma SettledStep(ops: seq<Op>, op: Op)
    requires var t := Run(ops + [op]); !t.disposed && t.requestId !in t.pending && t.requestId == Run(ops).requestId
    requires Run(ops).requestId !in Run(ops).pending ==> (Closed(Run(ops)) <==> !Swallowed(ops))
    requires Inv(Run(ops)) && Run(ops).requestId > 0
    ensures Closed(Run(ops + [op])) <==> !Swallowed(ops + [op])
  {
    var all, n, s := ops + [op], |ops|, Run(ops);
    var id := s.requestId;
    assert all[..n] == ops && all[n] == op;
    StepSettles(s, op);
    assert id in s.pending ==> id !in s.results;
    hide Step, History, ShowsLast, CurrentInFlight;
    forall k | 0 <= k < n ensures SwallowedAt(all, id, k) <==> SwallowedAt(ops, id, k) {
      assert all[..k] == ops[..k];
    }
    if id in s.pending {
      forall k | 0 <= k < n ensures !SwallowedAt(ops, id, k) {
        if SwallowedAt(ops, id, k) {
          SwallowedHasResult(ops, id, k);
        }
      }
      LatestOpens(s);
      assert SwallowedAt(all, id, n) <==> op == Reject(id, true);
    } else {
      assert !SwallowedAt(all, id, n);
    }
  }

  lemma LatestOpens(s: State)
    requires Inv(s) && s.requestId in s.pending
    ensures s.notices != [] && Opens(Last(s.notices))
  {
  }

  /**
    Once the latest request of a live coordinator has settled, its closing notice is out exactly
    unless it was settled by an AbortError of the transport.
   */
  lemma {:induction false} SettledIsClosed(ops: seq<Op>)
    requires !Run(ops).disposed && Run(ops).requestId > 0 && Run(ops).requestId !in Run(ops).pending
    ensures Closed(Run(ops)) <==> !Swallowed(ops)
  {
    var n := |ops| - 1;
    var before, op := ops[..n], ops[n];
    RunKeepsInv(before);
    StepSettles(Run(before), op);
    assert ops == before + [op];
    hide Step, Closed, Swallowed, History, ShowsLast, Bookkeeping, CurrentInFlight;
    if Run(before).requestId !in Run(before).pending {
      SettledIsClosed(before);
    }
    SettledStep(before, op);
  }
}

/**
  Agreement between the status `request_approval` returns, the request row and the order row: it holds whenever at most
  one tap was accepted for the request, its database write was not lost, and no tap was accepted once the timer had
  fired; concrete schedules show that each of the three is needed.
*/
module ProtocolAgreement {
  import opened Wrappers
  import opened Decimals
  import opened Enums
  import opened Approval
  import opened Protocol
  import opened ProtocolSafety
  import ProtocolLifecycle
  import RiskGate

  // ---- The system as one request sees it ----

  /** Everything about request `r` of a run with order `o`: rows, inbox entries, its log entries and its callbacks. */
  datatype View =
    View(order: OrderId, approval: Option<ApprovalStatus>, modified: Option<int>, request: Option<RequestRow>,
         event: Option<bool>, result: Option<ApprovalStatus>, timedOut: bool, lost: bool,
         callbacks: map<CallbackId, Callback>)

  ghost function Lookup<K, V>(m: map<K, V>, key: K): Option<V> {
    if key in m then Some(m[key]) else None
  }

  ghost function CallbacksFor(callbacks: map<CallbackId, Callback>, r: RequestId): map<CallbackId, Callback> {
    map c | c in callbacks && callbacks[c].request == r :: callbacks[c]
  }

  ghost function ViewOf(s: System, r: RequestId, o: OrderId): View {
    View(o, if o in s.orders then Some(s.orders[o].approval) else None,
         if o in s.orders then s.orders[o].modified else None,
         Lookup(s.requests, r), Lookup(s.inbox.events, r), Lookup(s.inbox.results, r),
         TimedOut(r) in s.log, AnswerLost(r) in s.log, CallbacksFor(s.callbacks, r))
  }

  /** At most one tap was accepted, its write was not lost, and none was accepted once the timer had fired. */
  ghost predicate Clean(v: View) {
    && !v.lost
    && (forall c, d :: c in v.callbacks && d in v.callbacks ==> c == d)
    && (v.timedOut ==> v.callbacks == map[])
  }

  // ---- Where the rows and the inbox are while the run moves on ----

  ghost predicate Rows(v: View, status: ApprovalStatus) {
    v.approval == Some(status) && v.request == Some(RequestRow(v.order, Answered(status)))
  }

  ghost predicate Untouched(v: View) {
    v.approval.Some? && v.modified.None? && v.request == Some(RequestRow(v.order, RequestStatus.Waiting))
  }

  ghost predicate Early(v: View) {
    v.callbacks == map[] && v.event.None? && v.result.None? && !v.timedOut
  }

  ghost predicate Answering(v: View, cb: Callback) {
    match cb.at
    case Saving => Untouched(v) && v.event == Some(false) && v.result.None?
    case Notifying =>
      && Rows(v, cb.answer.status) && v.modified == cb.answer.modified
      && v.event == Some(false) && v.result.None?
    case Finished =>
      && Rows(v, cb.answer.status) && v.modified == cb.answer.modified
      && v.event == Some(true) && v.result == Some(cb.answer.status)
  }

  ghost predicate Settled(cfg: Config, v: View, run: Run, status: ApprovalStatus) {
    && v.event.None? && Rows(v, status)
    && (v.callbacks == map[] ==>
          || (status == ApprovalStatus.Timeout && v.timedOut)
          || (status == ApprovalStatus.AutoApproved && AutoSide(cfg, run)))
    && (forall c :: c in v.callbacks ==>
          v.callbacks[c].at.Finished? && v.callbacks[c].answer.status == status
            && v.modified == v.callbacks[c].answer.modified)
  }

  ghost predicate Phase(cfg: Config, v: View, run: Run) {
    if run.approval.Some? then Settled(cfg, v, run, run.approval.value)
    else
      match run.at
      case SavingAuto => Early(v) && v.approval.Some? && v.request.None? && v.modified.None?
      case SavingRequest => Early(v) && v.approval.Some? && v.request.None? && v.modified.None?
      case NotifyingAuto => Early(v) && Rows(v, ApprovalStatus.AutoApproved) && AutoSide(cfg, run)
      case Announcing => Early(v) && Untouched(v)
      case AwaitingAnswer =>
        && !v.timedOut
        && (v.callbacks == map[] ==> Untouched(v) && v.event == Some(false) && v.result.None?)
        && (forall c :: c in v.callbacks ==> Answering(v, v.callbacks[c]))
      case SavingTimeout => v.timedOut && v.approval.Some? && v.request.Some? && v.request.value.orderId == v.order
      case NotifyingTimeout => v.timedOut && Rows(v, ApprovalStatus.Timeout)
      case _ => true
  }

  /** The run that asked for `r` is in phase with its rows. */
  ghost predicate InPhase(cfg: Config, s: System, r: RequestId) {
    r in s.owner && s.owner[r] in s.runs && s.runs[s.owner[r]].order.Some? ==>
      var run := s.runs[s.owner[r]];
      var v := ViewOf(s, r, run.order.value);
      Clean(v) ==> Phase(cfg, v, run)
  }

  ghost predicate TimeoutsKnown(owner: map<RequestId, RunId>, log: seq<LogEntry>) {
    forall r :: TimedOut(r) in log ==> r in owner
  }

  ghost predicate ResultsKnown(owner: map<RequestId, RunId>, results: map<RequestId, ApprovalStatus>) {
    forall r :: r in results ==> r in owner
  }

  ghost predicate Agrees(cfg: Config, s: System) {
    && TimeoutsKnown(s.owner, s.log) && ResultsKnown(s.owner, s.inbox.results)
    && forall r :: r in s.owner ==> InPhase(cfg, s, r)
  }

  // ---- Steps of other runs, and of other requests' callbacks ----

  lemma OtherRunSameRows(s: System, t: System, run: Run, r: RequestId, o: OrderId)
    requires OrdersStep(s, t, run) && RequestsStep(s, t, run) && run.request != Some(r) && run.order != Some(o)
    requires o != s.nextOrder
    ensures Lookup(t.requests, r) == Lookup(s.requests, r) && Lookup(t.orders, o) == Lookup(s.orders, o)
  {
  }

  lemma OtherRunSameInbox(s: System, t: System, j: RunId, run: Run, r: RequestId)
    requires InboxStep(s, t, j, run) && run.request != Some(r)
    ensures Lookup(t.inbox.events, r) == Lookup(s.inbox.events, r)
    ensures Lookup(t.inbox.results, r) == Lookup(s.inbox.results, r)
  {
  }

  lemma OtherRunSameLog(s: System, t: System, j: RunId, run: Run, r: RequestId)
    requires LogStep(s, t, j, run) && run.request != Some(r)
    ensures TimedOut(r) in t.log <==> TimedOut(r) in s.log
    ensures AnswerLost(r) in t.log <==> AnswerLost(r) in s.log
  {
    LogGrows(s, t, j, run);
  }

  lemma OtherRunSameView(cfg: Config, s: System, t: System, j: RunId, r: RequestId, o: OrderId)
    requires ProtocolSafety.Safe(cfg, s) && j in s.runs && RunStep(s, t, j)
    requires r in s.owner && s.owner[r] != j && s.owner[r] in s.runs && s.runs[s.owner[r]].order == Some(o)
    ensures ViewOf(t, r, o) == ViewOf(s, r, o) && r in t.owner && t.owner[r] == s.owner[r]
  {
    assert RunSafe(cfg, s, j) && RunSafe(cfg, s, s.owner[r]);
    assert s.runs[j].request != Some(r);
    assert s.runs[j].order != Some(o) && o < s.nextOrder;
    OtherRunSameRows(s, t, s.runs[j], r, o);
    OtherRunSameInbox(s, t, j, s.runs[j], r);
    OtherRunSameLog(s, t, j, s.runs[j], r);
    assert t.orders[o] == s.orders[o] by { assert o in s.orders; assert Lookup(t.orders, o) == Lookup(s.orders, o); }
  }

  lemma OtherTapSameView(s: System, c: CallbackId, q: RequestId, tap: Tap, r: RequestId, o: OrderId)
    requires q != r
    ensures ViewOf(AcceptTap(s, c, q, tap), r, o) == ViewOf(s, r, o)
  {
    var t := AcceptTap(s, c, q, tap);
    assert CallbacksFor(t.callbacks, r) == CallbacksFor(s.callbacks, r);
  }

  lemma OtherCallbackSameView(s: System, c: CallbackId, cb: Callback, r: RequestId, o: OrderId)
    requires c in s.callbacks && s.callbacks[c].request != r && cb.request != r
    ensures ViewOf(s.(callbacks := s.callbacks[c := cb]), r, o) == ViewOf(s, r, o)
  {
    assert CallbacksFor(s.callbacks[c := cb], r) == CallbacksFor(s.callbacks, r);
  }

  lemma OtherApplySameView(s: System, q: RequestId, answer: Answer, r: RequestId, o: OrderId)
    requires q != r && (q in s.requests ==> s.requests[q].orderId != o)
    ensures ViewOf(ApplyAnswer(s, q, answer), r, o) == ViewOf(s, r, o)
  {
  }

  lemma OtherSignalSameView(s: System, q: RequestId, answer: Answer, r: RequestId, o: OrderId)
    requires q != r
    ensures ViewOf(s.(inbox := Signal(s.inbox, q, answer)), r, o) == ViewOf(s, r, o)
  {
  }

  lemma OtherAnswerSameView(s: System, c: CallbackId, reply: Reply, r: RequestId, o: OrderId)
    requires IdsSafe(s.runs, s.orders, s.nextOrder, s.owner, s.requests) && c in s.callbacks
    requires s.callbacks[c].request != r
    requires r in s.owner && s.owner[r] in s.runs && s.runs[s.owner[r]].order == Some(o)
    ensures ViewOf(ResumeAnswer(s, c, s.callbacks[c], reply), r, o) == ViewOf(s, r, o)
  {
    var cb := s.callbacks[c];
    if cb.at.Saving? && reply.Written? {
      if cb.request in s.requests { OtherOrder(s, cb.request, r); }
      if reply.applied || !reply.raised {
        OtherApplySameView(s, cb.request, cb.answer, r, o);
        OtherCallbackSameView(ApplyAnswer(s, cb.request, cb.answer), c, cb.(at := Notifying), r, o);
      } else {
        OtherCallbackSameView(Note(s, AnswerLost(cb.request)), c, cb.(at := Notifying), r, o);
      }
    } else if cb.at.Notifying? && (reply.Returned? || reply.Raised?) {
      OtherSignalSameView(s, cb.request, cb.answer, r, o);
      OtherCallbackSameView(s.(inbox := Signal(s.inbox, cb.request, cb.answer)), c, cb.(at := Finished), r, o);
    }
  }

  /** Two requests are two runs', and so two orders'. */
  lemma OtherOrder(s: System, q: RequestId, r: RequestId)
    requires IdsSafe(s.runs, s.orders, s.nextOrder, s.owner, s.requests) && q in s.requests && r in s.owner && q != r
    ensures s.owner[r] in s.runs
    ensures (s.runs[s.owner[r]].order.Some? ==> s.runs[s.owner[r]].order != Some(s.requests[q].orderId))
  {
    assert s.runs[s.owner[q]].request == Some(q) && s.runs[s.owner[r]].request == Some(r);
  }

  // ---- Steps of the run itself ----

  /** Points where a run without an answer owes its rows nothing. */
  predicate Beyond(at: Point) {
    && !at.SavingAuto? && !at.SavingRequest? && !at.NotifyingAuto? && !at.Announcing? && !at.AwaitingAnswer?
    && !at.SavingTimeout? && !at.NotifyingTimeout?
  }

  /** After a step of run `k`, its rows are in phase if they were. */
  ghost predicate StaysInPhase(cfg: Config, t: System, k: RunId, r: RequestId, o: OrderId) {
    k in t.runs && (Clean(ViewOf(t, r, o)) ==> Phase(cfg, ViewOf(t, r, o), t.runs[k]))
  }

  ghost predicate Starts(cfg: Config, s: System, k: RunId, r: RequestId, o: OrderId) {
    && k in s.runs && s.runs[k].order == Some(o) && s.runs[k].request == Some(r) && o in s.orders
    && (Clean(ViewOf(s, r, o)) ==> Phase(cfg, ViewOf(s, r, o), s.runs[k]))
  }

  /** The view as it was, and an unanswered run beyond its request. */
  lemma SameViewInPhase(cfg: Config, s: System, t: System, k: RunId, r: RequestId, o: OrderId)
    requires Starts(cfg, s, k, r, o) && k in t.runs && ViewOf(t, r, o) == ViewOf(s, r, o)
    requires t.runs[k].job == s.runs[k].job && t.runs[k].approval == s.runs[k].approval
    requires (t.runs[k].approval.None? ==> Beyond(t.runs[k].at))
    ensures StaysInPhase(cfg, t, k, r, o)
  {
  }

  lemma InsertInPhase(cfg: Config, s: System, k: RunId, r: RequestId, o: OrderId, status: RequestStatus, reply: Reply,
                      next: Point)
    requires Starts(cfg, s, k, r, o) && reply.Written? && s.runs[k].approval.None?
    requires (s.runs[k].at.SavingAuto? && status == Answered(ApprovalStatus.AutoApproved) && next == NotifyingAuto
              && AutoSide(cfg, s.runs[k]))
          || (s.runs[k].at.SavingRequest? && status.Waiting? && next == Announcing)
    ensures StaysInPhase(cfg, InsertRequest(s, k, s.runs[k], o, r, status, reply, next), k, r, o)
  {
  }

  lemma AnnounceInPhase(cfg: Config, s: System, k: RunId, r: RequestId, o: OrderId)
    requires Starts(cfg, s, k, r, o) && s.runs[k].at.Announcing? && s.runs[k].approval.None?
    ensures StaysInPhase(cfg, Announce(s, k, s.runs[k], r), k, r, o)
  {
  }

  lemma TimeoutWriteInPhase(cfg: Config, s: System, k: RunId, r: RequestId, o: OrderId, reply: Reply)
    requires Starts(cfg, s, k, r, o) && s.runs[k].at.SavingTimeout? && s.runs[k].approval.None? && reply.Written?
    ensures StaysInPhase(cfg, WriteTimeout(s, k, s.runs[k], o, r, reply), k, r, o)
  {
  }

  /** A broker call is none of the request's business. */
  lemma CallSameView(s: System, k: RunId, run: Run, quantity: int, r: RequestId, o: OrderId)
    ensures var t := CallBroker(s, k, run, quantity);
            k in t.runs && ViewOf(t, r, o) == ViewOf(s, r, o) && t.runs[k] == run.(at := t.runs[k].at)
              && Beyond(t.runs[k].at)
  {
    var t := CallBroker(s, k, run, quantity);
    if quantity > 0 {
      assert t.runs[k] == run.(at := Placing(quantity));
    } else {
      assert t.runs[k] == run.(at := Recovering);
    }
  }

  lemma ApprovalSameView(s: System, k: RunId, run: Run, status: ApprovalStatus, r: RequestId, o: OrderId)
    ensures var t := AfterApproval(s, k, run, status);
            && k in t.runs && ViewOf(t, r, o) == ViewOf(s, r, o)
            && t.runs[k].job == run.job && t.runs[k].approval == Some(status)
  {
    var approved := run.(approval := Some(status));
    if status == ApprovalStatus.Rejected || status == ApprovalStatus.Timeout || run.job.Entry? {
      assert AfterApproval(s, k, run, status).runs[k].approval == Some(status);
    } else {
      CallSameView(s, k, approved, JobQuantity(run.job), r, o);
      assert AfterApproval(s, k, run, status) == CallBroker(s, k, approved, JobQuantity(run.job));
    }
  }

  /** Whatever follows an answer keeps the rows and the callbacks. */
  lemma ApprovalSettles(cfg: Config, s: System, k: RunId, r: RequestId, o: OrderId, status: ApprovalStatus)
    requires k in s.runs && (Clean(ViewOf(s, r, o)) ==> Settled(cfg, ViewOf(s, r, o), s.runs[k], status))
    ensures StaysInPhase(cfg, AfterApproval(s, k, s.runs[k], status), k, r, o)
  {
    ApprovalSameView(s, k, s.runs[k], status, r, o);
  }

  lemma AutoSettles(cfg: Config, s: System, k: RunId, r: RequestId, o: OrderId)
    requires Starts(cfg, s, k, r, o) && s.runs[k].at.NotifyingAuto? && s.runs[k].approval.None?
    ensures StaysInPhase(cfg, AfterApproval(s, k, s.runs[k], ApprovalStatus.AutoApproved), k, r, o)
  {
    ApprovalSettles(cfg, s, k, r, o, ApprovalStatus.AutoApproved);
  }

  lemma TimeoutSettles(cfg: Config, s: System, k: RunId, r: RequestId, o: OrderId)
    requires Starts(cfg, s, k, r, o) && s.runs[k].at.NotifyingTimeout? && s.runs[k].approval.None?
    ensures StaysInPhase(cfg, AfterApproval(s.(inbox := Forget(s.inbox, r)), k, s.runs[k], ApprovalStatus.Timeout), k,
                         r, o)
  {
    ApprovalSettles(cfg, s.(inbox := Forget(s.inbox, r)), k, r, o, ApprovalStatus.Timeout);
  }

  /** A signalled run finds the one callback finished, its status stored and the rows written. */
  lemma {:induction false} AnswerSettles(cfg: Config, s: System, k: RunId, r: RequestId, o: OrderId)
    requires Starts(cfg, s, k, r, o) && s.runs[k].at.AwaitingAnswer? && s.runs[k].approval.None?
    requires InboxSafe(s.inbox, s.owner, s.log)
    ensures StaysInPhase(cfg, TakeAnswer(s, k, s.runs[k], r), k, r, o)
  {
    if r in s.inbox.events && s.inbox.events[r] {
      var v, w := ViewOf(s, r, o), ViewOf(s.(inbox := Forget(s.inbox, r)), r, o);
      var status := Response(s.inbox, r);
      if Clean(v) {
        assert v.callbacks != map[];
        var c :| c in v.callbacks;
        assert Answering(v, v.callbacks[c]);
        assert Settled(cfg, w, s.runs[k], status);
      }
      assert Clean(v) == Clean(w);
      ApprovalSettles(cfg, s.(inbox := Forget(s.inbox, r)), k, r, o, status);
    }
  }

  lemma TimerInPhase(cfg: Config, s: System, k: RunId, r: RequestId, o: OrderId)
    requires Starts(cfg, s, k, r, o) && s.runs[k].approval.None?
    ensures StaysInPhase(cfg, Next(cfg, s, TimerFires(k)), k, r, o)
  {
    var t := Next(cfg, s, TimerFires(k));
    if t != s && Clean(ViewOf(t, r, o)) {
      assert ViewOf(t, r, o).callbacks == ViewOf(s, r, o).callbacks;
      assert Clean(ViewOf(s, r, o));
    }
  }

  // ---- A callback for the request ----

  lemma TapInPhase(cfg: Config, s: System, c: CallbackId, tap: Tap, k: RunId, r: RequestId, o: OrderId)
    requires Starts(cfg, s, k, r, o)
    ensures StaysInPhase(cfg, AcceptTap(s, c, r, tap), k, r, o)
  {
    var t := AcceptTap(s, c, r, tap);
    if t != s && Clean(ViewOf(t, r, o)) {
      var v, w := ViewOf(s, r, o), ViewOf(t, r, o);
      assert c in w.callbacks && w.callbacks[c] == Callback(r, tap, Decide(tap).value, Saving);
      forall d | d in v.callbacks ensures d == c { assert d in w.callbacks; }
      assert v.callbacks == map[];
      assert Clean(v) && v.event.Some?;
    }
  }

  /** With the other callbacks out of the way, the view of the request sees this one move. */
  lemma OneCallback(s: System, t: System, c: CallbackId, r: RequestId, o: OrderId)
    requires c in s.callbacks && s.callbacks[c].request == r && c in t.callbacks && t.callbacks[c].request == r
    requires t.callbacks == s.callbacks[c := t.callbacks[c]]
    ensures ViewOf(t, r, o).callbacks == ViewOf(s, r, o).callbacks[c := t.callbacks[c]]
    ensures c in ViewOf(s, r, o).callbacks
    ensures forall d :: d in ViewOf(s, r, o).callbacks <==> d in ViewOf(t, r, o).callbacks
  {
  }

  lemma WritingInPhase(cfg: Config, s: System, c: CallbackId, k: RunId, r: RequestId, o: OrderId)
    requires Starts(cfg, s, k, r, o) && c in s.callbacks && s.callbacks[c].request == r && s.callbacks[c].at.Saving?
    ensures var t := ApplyAnswer(s, r, s.callbacks[c].answer);
            StaysInPhase(cfg, t.(callbacks := t.callbacks[c := s.callbacks[c].(at := Notifying)]), k, r, o)
  {
    var cb := s.callbacks[c];
    var a := ApplyAnswer(s, r, cb.answer);
    var t := a.(callbacks := a.callbacks[c := cb.(at := Notifying)]);
    var v, w := ViewOf(s, r, o), ViewOf(t, r, o);
    OneCallback(s, t, c, r, o);
    ApplyWritesRows(s, r, cb.answer, o);
    WrittenInPhase(cfg, v, w, s.runs[k], c, cb);
  }

  lemma WrittenInPhase(cfg: Config, v: View, w: View, run: Run, c: CallbackId, cb: Callback)
    requires Clean(v) ==> Phase(cfg, v, run)
    requires c in v.callbacks && v.callbacks[c] == cb && cb.at.Saving?
    requires w
             == v.(approval := w.approval, modified := w.modified, request := w.request,
                   callbacks := v.callbacks[c := cb.(at := Notifying)])
    requires Untouched(v) ==> Rows(w, cb.answer.status) && w.modified == cb.answer.modified
    ensures Clean(w) ==> Phase(cfg, w, run)
  {
    if Clean(w) {
      forall d, e | d in v.callbacks && e in v.callbacks ensures d == e {
        assert d in w.callbacks && e in w.callbacks;
      }
      assert Clean(v);
    }
  }

  /** The callback's transaction, on the request it knows by its row. */
  lemma ApplyWritesRows(s: System, r: RequestId, answer: Answer, o: OrderId)
    ensures var v, w := ViewOf(s, r, o), ViewOf(ApplyAnswer(s, r, answer), r, o);
            && w == v.(approval := w.approval, modified := w.modified, request := w.request)
            && (Untouched(v) ==> Rows(w, answer.status) && w.modified == answer.modified)
  {
  }

  lemma SignalInPhase(cfg: Config, s: System, c: CallbackId, k: RunId, r: RequestId, o: OrderId)
    requires Starts(cfg, s, k, r, o) && c in s.callbacks && s.callbacks[c].request == r && s.callbacks[c].at.Notifying?
    ensures var cb := s.callbacks[c];
            StaysInPhase(cfg,
                s.(inbox := Signal(s.inbox, r, cb.answer), callbacks := s.callbacks[c := cb.(at := Finished)]), k, r, o)
  {
    var cb := s.callbacks[c];
    var t := s.(inbox := Signal(s.inbox, r, cb.answer), callbacks := s.callbacks[c := cb.(at := Finished)]);
    var v, w := ViewOf(s, r, o), ViewOf(t, r, o);
    OneCallback(s, t, c, r, o);
    if Clean(w) {
      forall d, e | d in v.callbacks && e in v.callbacks ensures d == e {
        assert d in w.callbacks && e in w.callbacks;
      }
      assert Clean(v);
    }
  }

  lemma CallbackInPhase(cfg: Config, s: System, c: CallbackId, reply: Reply, k: RunId, r: RequestId, o: OrderId)
    requires Starts(cfg, s, k, r, o) && c in s.callbacks && s.callbacks[c].request == r
    ensures StaysInPhase(cfg, ResumeAnswer(s, c, s.callbacks[c], reply), k, r, o)
  {
    var cb := s.callbacks[c];
    if cb.at.Saving? && reply.Written? {
      if reply.applied || !reply.raised {
        WritingInPhase(cfg, s, c, k, r, o);
      } else {
        assert ViewOf(ResumeAnswer(s, c, cb, reply), r, o).lost;
      }
    } else if cb.at.Notifying? && (reply.Returned? || reply.Raised?) {
      SignalInPhase(cfg, s, c, k, r, o);
    }
  }

  // ---- The segments of the run, one by one ----

  /** The segment leaves the request alone, and its run beyond it. */
  ghost predicate Aside(s: System, t: System, k: RunId, r: RequestId, o: OrderId) {
    && k in s.runs && k in t.runs && ViewOf(t, r, o) == ViewOf(s, r, o) && Beyond(t.runs[k].at)
    && t.runs[k].job == s.runs[k].job && t.runs[k].approval == s.runs[k].approval
  }

  lemma OrderWriteAside(s: System, k: RunId, row: OrderRow, reply: Reply, next: Point, r: RequestId, o: OrderId)
    requires k in s.runs && o in s.orders && reply.Written? && Beyond(next)
    requires row.approval == s.orders[o].approval && row.modified == s.orders[o].modified
    ensures Aside(s, WriteOrder(s, k, s.runs[k], o, row, reply, next), k, r, o)
  {
  }

  lemma RecoverAside(s: System, k: RunId, reply: Reply, r: RequestId, o: OrderId)
    requires k in s.runs && o in s.orders && reply.Written?
    ensures Aside(s, Recover(s, k, s.runs[k], o, s.orders[o], reply), k, r, o)
  {
  }

  lemma RecordAside(s: System, k: RunId, fill: Fill, reply: Reply, r: RequestId, o: OrderId)
    requires k in s.runs && reply.Written?
    ensures Aside(s, RecordExecution(s, k, s.runs[k], o, fill, reply), k, r, o)
  {
  }

  lemma TakeFillAside(s: System, k: RunId, sent: int, reply: Reply, r: RequestId, o: OrderId)
    requires k in s.runs && reply.Broker?
    ensures Aside(s, TakeFill(s, k, s.runs[k], sent, reply), k, r, o)
  {
    var run, t := s.runs[k], TakeFill(s, k, s.runs[k], sent, reply);
    assert t.runs[k] == run.(at := t.runs[k].at);
  }

  lemma ReadOrderAside(s: System, k: RunId, row: OrderRow, r: RequestId, o: OrderId)
    requires k in s.runs
    ensures Aside(s, ReadOrder(s, k, s.runs[k], row), k, r, o)
  {
    CallSameView(s, k, s.runs[k], JobQuantity(s.runs[k].job), r, o);
  }

  lemma RecheckAside(cfg: Config, s: System, k: RunId, modified: int, state: RiskGate.PortfolioState, r: RequestId,
                     o: OrderId)
    requires k in s.runs
    ensures Aside(s, Recheck(cfg, s, k, s.runs[k], modified, state), k, r, o)
  {
    var run := s.runs[k];
    var result := RecheckResult(cfg, run, modified, state);
    CallSameView(s, k, run, RecheckedQuantity(result.adjustedQuantity, modified), r, o);
  }

  /** The run is past its request. */
  predicate Later(at: Point) {
    Beyond(at) && !BeforeRequest(at)
  }

  lemma LaterAside(cfg: Config, s: System, k: RunId, reply: Reply, r: RequestId, o: OrderId)
    requires k in s.runs && o in s.orders && Later(s.runs[k].at)
    ensures var t := ResumeRun(cfg, s, k, s.runs[k], o, reply); t == s || Aside(s, t, k, r, o)
  {
    var run, row := s.runs[k], s.orders[o];
    if AwaitsOutside(run.at) {
      if !reply.Raised? {
        if run.at.ReadingOrder? { ReadOrderAside(s, k, row, r, o); }
        else if run.at.Rechecking? {
          if reply.RiskView? { RecheckAside(cfg, s, k, run.at.modified, reply.state, r, o); }
        } else if reply.Broker? { TakeFillAside(s, k, run.at.quantity, reply, r, o); }
      }
    } else if reply.Written? {
      if run.at.Cancelling? {
        OrderWriteAside(s, k, row.(status := OrderStatus.Cancelled), reply, Done(Unsuccessful), r, o);
      } else if run.at.SavingFailure? {
        OrderWriteAside(s, k, row.(status := OrderStatus.Failed), reply, Done(Unsuccessful), r, o);
      } else if run.at.Recording? {
        RecordAside(s, k, run.at.fill, reply, r, o);
      } else if run.at.SavingFill? {
        OrderWriteAside(s, k, WithFill(row, run.at.fill), reply, Done(Executed(run.at.fill)), r, o);
      } else if run.at.Recovering? {
        RecoverAside(s, k, reply, r, o);
      }
    }
  }

  lemma AsideInPhase(cfg: Config, s: System, t: System, k: RunId, r: RequestId, o: OrderId)
    requires Starts(cfg, s, k, r, o) && (t == s || Aside(s, t, k, r, o))
    ensures StaysInPhase(cfg, t, k, r, o)
  {
    if t != s { SameViewInPhase(cfg, s, t, k, r, o); }
  }

  lemma NotifyingInPhase(cfg: Config, s: System, k: RunId, r: RequestId, o: OrderId, reply: Reply)
    requires Starts(cfg, s, k, r, o) && s.runs[k].approval.None?
    requires s.runs[k].at.NotifyingAuto? || s.runs[k].at.Announcing? || s.runs[k].at.NotifyingTimeout?
    ensures StaysInPhase(cfg, ResumeRun(cfg, s, k, s.runs[k], o, reply), k, r, o)
  {
    var run := s.runs[k];
    if reply.Raised? {
      SameViewInPhase(cfg, s, Move(s, k, run.(at := Recovering)), k, r, o);
    } else if reply.Returned? {
      if run.at.NotifyingAuto? {
        AutoSettles(cfg, s, k, r, o);
      } else if run.at.Announcing? {
        AnnounceInPhase(cfg, s, k, r, o);
      } else {
        TimeoutSettles(cfg, s, k, r, o);
      }
    }
  }

  lemma SavingInPhase(cfg: Config, s: System, k: RunId, r: RequestId, o: OrderId, reply: Reply)
    requires Starts(cfg, s, k, r, o) && s.runs[k].approval.None?
    requires (s.runs[k].at.SavingAuto? ==> AutoSide(cfg, s.runs[k]))
    requires s.runs[k].at.SavingAuto? || s.runs[k].at.SavingRequest? || s.runs[k].at.SavingTimeout?
    ensures StaysInPhase(cfg, ResumeWrite(s, k, s.runs[k], o, s.orders[o], reply), k, r, o)
  {
    var run := s.runs[k];
    if reply.Written? {
      if run.at.SavingAuto? {
        InsertInPhase(cfg, s, k, r, o, Answered(ApprovalStatus.AutoApproved), reply, NotifyingAuto);
      } else if run.at.SavingRequest? {
        InsertInPhase(cfg, s, k, r, o, RequestStatus.Waiting, reply, Announcing);
      } else {
        TimeoutWriteInPhase(cfg, s, k, r, o, reply);
      }
    }
  }

  /** The points between the request and its answer. */
  lemma AskingInPhase(cfg: Config, s: System, k: RunId, r: RequestId, o: OrderId, reply: Reply)
    requires Starts(cfg, s, k, r, o) && !Beyond(s.runs[k].at) && s.runs[k].approval.None?
    requires InboxSafe(s.inbox, s.owner, s.log) && PointSafe(cfg, s.log, k, s.runs[k])
    ensures StaysInPhase(cfg, ResumeRun(cfg, s, k, s.runs[k], o, reply), k, r, o)
  {
    if s.runs[k].at.AwaitingAnswer? {
      if reply.Returned? { AnswerSettles(cfg, s, k, r, o); }
    } else if AwaitsOutside(s.runs[k].at) {
      NotifyingInPhase(cfg, s, k, r, o, reply);
    } else {
      SavingInPhase(cfg, s, k, r, o, reply);
    }
  }

  lemma OwnResumeInPhase(cfg: Config, s: System, k: RunId, r: RequestId, o: OrderId, reply: Reply)
    requires Starts(cfg, s, k, r, o) && InboxSafe(s.inbox, s.owner, s.log) && RunSafe(cfg, s, k)
    requires ProtocolLifecycle.RunLife(s.log, k, s.runs[k])
    ensures StaysInPhase(cfg, Next(cfg, s, Resume(k, reply)), k, r, o)
  {
    if Beyond(s.runs[k].at) {
      LaterAside(cfg, s, k, reply, r, o);
      AsideInPhase(cfg, s, ResumeRun(cfg, s, k, s.runs[k], o, reply), k, r, o);
    } else {
      AskingInPhase(cfg, s, k, r, o, reply);
    }
  }

  // ---- Every event keeps every request in phase ----

  lemma ApprovalKeepsOwner(s: System, k: RunId, run: Run, status: ApprovalStatus)
    ensures AfterApproval(s, k, run, status).owner == s.owner
  {
  }

  lemma CallKeepsOwner(s: System, k: RunId, run: Run, quantity: int)
    ensures CallBroker(s, k, run, quantity).owner == s.owner
  {
  }

  lemma RecheckKeepsOwner(cfg: Config, s: System, k: RunId, run: Run, modified: int, state: RiskGate.PortfolioState)
    ensures Recheck(cfg, s, k, run, modified, state).owner == s.owner
  {
    var result := RecheckResult(cfg, run, modified, state);
    CallKeepsOwner(s, k, run, RecheckedQuantity(result.adjustedQuantity, modified));
  }

  lemma OutsideKeepsOwner(cfg: Config, s: System, k: RunId, run: Run, row: OrderRow, reply: Reply)
    requires !run.at.LoadingPortfolio?
    ensures ResumeOutside(cfg, s, k, run, row, reply).owner == s.owner
  {
    if run.at.NotifyingAuto? {
      ApprovalKeepsOwner(s, k, run, ApprovalStatus.AutoApproved);
    } else if run.at.NotifyingTimeout? {
      if run.request.Some? {
        ApprovalKeepsOwner(s.(inbox := Forget(s.inbox, run.request.value)), k, run, ApprovalStatus.Timeout);
      }
    } else if run.at.Placing? {
      if reply.Broker? { assert TakeFill(s, k, run, run.at.quantity, reply).owner == s.owner; }
    } else if run.at.Rechecking? {
      if reply.RiskView? { RecheckKeepsOwner(cfg, s, k, run, run.at.modified, reply.state); }
    } else if run.at.ReadingOrder? {
      CallKeepsOwner(s, k, run, JobQuantity(run.job));
    }
  }

  lemma OrderWriteKeepsOwner(s: System, k: RunId, run: Run, o: OrderId, row: OrderRow, reply: Reply, next: Point)
    ensures WriteOrder(s, k, run, o, row, reply, next).owner == s.owner
  {
  }

  lemma WriteKeepsOwner(s: System, k: RunId, run: Run, o: OrderId, row: OrderRow, reply: Reply)
    ensures ResumeWrite(s, k, run, o, row, reply).owner == s.owner
  {
    match run.at {
      case SavingVerdict =>
        OrderWriteKeepsOwner(s, k, run, o, row, reply, AfterVerdict(run));
      case SavingAuto =>
        if run.request.Some? {
          RequestWriteKeepsOwner(s, k, run, o, run.request.value, Answered(ApprovalStatus.AutoApproved), reply,
                                 NotifyingAuto);
        }
      case SavingRequest =>
        if run.request.Some? {
          RequestWriteKeepsOwner(s, k, run, o, run.request.value, RequestStatus.Waiting, reply, Announcing);
        }
      case SavingTimeout =>
        if run.request.Some? { assert WriteTimeout(s, k, run, o, run.request.value, reply).owner == s.owner; }
      case Cancelling =>
        OrderWriteKeepsOwner(s, k, run, o, row.(status := OrderStatus.Cancelled), reply, Done(Unsuccessful));
      case SavingFailure =>
        OrderWriteKeepsOwner(s, k, run, o, row.(status := OrderStatus.Failed), reply, Done(Unsuccessful));
      case SavingFill(fill) =>
        OrderWriteKeepsOwner(s, k, run, o, WithFill(row, fill), reply, Done(Executed(fill)));
      case _ =>
    }
  }

  lemma RequestWriteKeepsOwner(s: System, k: RunId, run: Run, o: OrderId, r: RequestId, status: RequestStatus,
                               reply: Reply, next: Point)
    ensures InsertRequest(s, k, run, o, r, status, reply, next).owner == s.owner
  {
  }

  lemma OwnerKept(cfg: Config, s: System, k: RunId, run: Run, o: OrderId, reply: Reply)
    requires o in s.orders && !run.at.LoadingPortfolio?
    ensures ResumeRun(cfg, s, k, run, o, reply).owner == s.owner
  {
    OutsideKeepsOwner(cfg, s, k, run, s.orders[o], reply);
    WriteKeepsOwner(s, k, run, o, s.orders[o], reply);
    if run.at.AwaitingAnswer? && run.request.Some? {
      ApprovalKeepsOwner(s.(inbox := Forget(s.inbox, run.request.value)), k, run, Response(s.inbox, run.request.value));
    }
  }

  /** A request the run has just made: nothing anywhere knows of it. */
  lemma RequestMade(cfg: Config, s: System, k: RunId, o: OrderId, totalValue: real, r: RequestId)
    requires r !in s.owner && Early(ViewOf(s, r, o)) && r !in s.requests
    requires k in s.runs && s.runs[k].order == Some(o) && o in s.orders && s.orders[o].modified.None?
    requires s.runs[k].approval.None?
    ensures InPhase(cfg, RequestApproval(cfg, s, k, s.runs[k], totalValue, r), r)
  {
  }

  lemma PortfolioInPhase(cfg: Config, s: System, k: RunId, o: OrderId, reply: Reply, r: RequestId)
    requires r !in s.owner && Early(ViewOf(s, r, o)) && r !in s.requests && k in s.runs
    requires s.runs[k].at.LoadingPortfolio?
    requires RunSafe(cfg, s, k) && s.runs[k].order == Some(o) && s.runs[k].approval.None?
    ensures InPhase(cfg, ResumeRun(cfg, s, k, s.runs[k], o, reply), r)
  {
    if reply.Portfolio? && reply.requestId == r { RequestMade(cfg, s, k, o, reply.totalValue, r); }
  }

  lemma NobodyKnows(cfg: Config, s: System, r: RequestId, o: OrderId)
    requires ProtocolSafety.Safe(cfg, s) && Agrees(cfg, s) && r !in s.owner
    ensures var v := ViewOf(s, r, o); Early(v) && v.request.None?
  {
    assert CallbacksFor(s.callbacks, r) == map[] by {
      forall c | c in s.callbacks ensures s.callbacks[c].request != r {
        assert CallbackSafe(s.owner, s.log, s.callbacks[c]);
      }
    }
  }

  lemma NewRequestInPhase(cfg: Config, s: System, k: RunId, reply: Reply, r: RequestId)
    requires k in s.runs && RunSafe(cfg, s, k) && r !in s.owner && r !in s.requests
    requires ProtocolLifecycle.RunLife(s.log, k, s.runs[k])
    requires s.runs[k].order.Some? ==> Early(ViewOf(s, r, s.runs[k].order.value))
    ensures InPhase(cfg, Next(cfg, s, Resume(k, reply)), r)
  {
    var run := s.runs[k];
    if !run.at.Creating? && run.order.Some? {
      if run.at.LoadingPortfolio? {
        PortfolioInPhase(cfg, s, k, run.order.value, reply, r);
      } else {
        OwnerKept(cfg, s, k, run, run.order.value, reply);
      }
    }
  }

  lemma ResumeKeepsAgreement(cfg: Config, s: System, k: RunId, reply: Reply)
    requires ProtocolSafety.Safe(cfg, s) && ProtocolLifecycle.Lives(s) && Agrees(cfg, s) && k in s.runs
    ensures Agrees(cfg, Next(cfg, s, Resume(k, reply)))
  {
    var t := Next(cfg, s, Resume(k, reply));
    if t != s {
      assert RunSafe(cfg, s, k) && ProtocolLifecycle.Life(s.orders, s.executions, s.log, k, s.runs[k]);
      ResumeIsStep(cfg, s, k, reply);
      StepKeepsKnown(cfg, s, t, k);
      forall r | r in t.owner ensures InPhase(cfg, t, r) {
        if r !in s.owner {
          NobodyKnows(cfg, s, r, s.runs[k].order.GetOr(0));
          NewRequestInPhase(cfg, s, k, reply, r);
        } else {
          assert InPhase(cfg, s, r);
          if s.owner[r] != k {
            OtherInPhase(cfg, s, t, k, r);
          } else {
            OwnInPhase(cfg, s, k, reply, r);
          }
        }
      }
    }
  }

  lemma StepKeepsKnown(cfg: Config, s: System, t: System, k: RunId)
    requires RunStep(s, t, k) && RunSafe(cfg, s, k) && TimeoutsKnown(s.owner, s.log)
    requires ResultsKnown(s.owner, s.inbox.results)
    ensures TimeoutsKnown(t.owner, t.log) && ResultsKnown(t.owner, t.inbox.results)
  {
  }

  lemma OtherInPhase(cfg: Config, s: System, t: System, j: RunId, r: RequestId)
    requires ProtocolSafety.Safe(cfg, s) && RunStep(s, t, j) && r in s.owner && s.owner[r] != j && InPhase(cfg, s, r)
    ensures InPhase(cfg, t, r)
  {
    var k := s.owner[r];
    if s.runs[k].order.Some? { OtherRunSameView(cfg, s, t, j, r, s.runs[k].order.value); }
  }

  lemma OwnInPhase(cfg: Config, s: System, k: RunId, reply: Reply, r: RequestId)
    requires ProtocolSafety.Safe(cfg, s) && k in s.runs && RunSafe(cfg, s, k)
    requires ProtocolLifecycle.RunLife(s.log, k, s.runs[k])
    requires r in s.owner && s.owner[r] == k && InPhase(cfg, s, r)
    requires RunStep(s, Next(cfg, s, Resume(k, reply)), k)
    ensures InPhase(cfg, Next(cfg, s, Resume(k, reply)), r)
  {
    assert s.runs[k].request == Some(r);
    OwnResumeInPhase(cfg, s, k, r, s.runs[k].order.value, reply);
  }

  lemma OwnTimerInPhase(cfg: Config, s: System, k: RunId, r: RequestId)
    requires k in s.runs && s.runs[k].request == Some(r) && RunSafe(cfg, s, k)
    requires ProtocolLifecycle.RunLife(s.log, k, s.runs[k])
    requires r in s.owner && s.owner[r] == k && InPhase(cfg, s, r)
    ensures InPhase(cfg, Next(cfg, s, TimerFires(k)), r)
  {
    if s.runs[k].at.AwaitingAnswer? { TimerInPhase(cfg, s, k, r, s.runs[k].order.value); }
  }

  lemma TimerKeepsAgreement(cfg: Config, s: System, k: RunId)
    requires ProtocolSafety.Safe(cfg, s) && ProtocolLifecycle.Lives(s) && Agrees(cfg, s) && k in s.runs
    ensures Agrees(cfg, Next(cfg, s, TimerFires(k)))
  {
    var t := Next(cfg, s, TimerFires(k));
    if t != s {
      assert RunSafe(cfg, s, k) && ProtocolLifecycle.Life(s.orders, s.executions, s.log, k, s.runs[k]);
      TimerIsStep(cfg, s, k);
      StepKeepsKnown(cfg, s, t, k);
      forall r | r in t.owner ensures InPhase(cfg, t, r) {
        assert InPhase(cfg, s, r);
        if s.owner[r] != k {
          OtherInPhase(cfg, s, t, k, r);
        } else {
          assert s.runs[k].request == Some(r);
          OwnTimerInPhase(cfg, s, k, r);
        }
      }
    }
  }

  /** The request has its run, and the run its order. */
  ghost predicate Owned(cfg: Config, s: System, r: RequestId) {
    r in s.owner && s.owner[r] in s.runs && s.runs[s.owner[r]].request == Some(r) && RunSafe(cfg, s, s.owner[r])
  }

  lemma OwnerOwns(cfg: Config, s: System, r: RequestId)
    requires ProtocolSafety.Safe(cfg, s) && r in s.owner
    ensures Owned(cfg, s, r)
  {
  }

  lemma TapKeepsInPhase(cfg: Config, s: System, c: CallbackId, q: RequestId, tap: Tap, r: RequestId)
    requires Owned(cfg, s, r) && InPhase(cfg, s, r)
    ensures InPhase(cfg, AcceptTap(s, c, q, tap), r)
  {
    var k := s.owner[r];
    if q != r {
      OtherTapSameView(s, c, q, tap, r, s.runs[k].order.value);
    } else {
      TapInPhase(cfg, s, c, tap, k, r, s.runs[k].order.value);
    }
  }

  lemma TapKeepsKnown(s: System, c: CallbackId, q: RequestId, tap: Tap)
    ensures var t := AcceptTap(s, c, q, tap);
            t.owner == s.owner && t.inbox == s.inbox && forall r :: TimedOut(r) in t.log <==> TimedOut(r) in s.log
  {
  }

  lemma TapKeepsAgreement(cfg: Config, s: System, c: CallbackId, q: RequestId, tap: Tap)
    requires ProtocolSafety.Safe(cfg, s) && Agrees(cfg, s)
    ensures Agrees(cfg, AcceptTap(s, c, q, tap))
  {
    var t := AcceptTap(s, c, q, tap);
    TapKeepsKnown(s, c, q, tap);
    forall r | r in t.owner ensures InPhase(cfg, t, r) {
      OwnerOwns(cfg, s, r);
      TapKeepsInPhase(cfg, s, c, q, tap, r);
    }
  }

  lemma AnswerKeepsInPhase(cfg: Config, s: System, c: CallbackId, reply: Reply, r: RequestId)
    requires ProtocolSafety.Safe(cfg, s) && c in s.callbacks && r in s.owner && InPhase(cfg, s, r)
    ensures InPhase(cfg, ResumeAnswer(s, c, s.callbacks[c], reply), r)
  {
    var k := s.owner[r];
    assert RunSafe(cfg, s, k);
    AnswerKeepsKnown(s, c, s.callbacks[c], reply);
    if s.callbacks[c].request != r {
      OtherAnswerSameView(s, c, reply, r, s.runs[k].order.value);
    } else {
      CallbackInPhase(cfg, s, c, reply, k, r, s.runs[k].order.value);
    }
  }

  lemma AnswerKeepsKnown(s: System, c: CallbackId, cb: Callback, reply: Reply)
    ensures var t := ResumeAnswer(s, c, cb, reply);
            && t.owner == s.owner && t.runs == s.runs && (forall r :: TimedOut(r) in t.log <==> TimedOut(r) in s.log)
            && (t.inbox.results == s.inbox.results
                || t.inbox.results == s.inbox.results[cb.request := cb.answer.status])
  {
  }

  lemma AnswerKeepsAgreement(cfg: Config, s: System, c: CallbackId, reply: Reply)
    requires ProtocolSafety.Safe(cfg, s) && Agrees(cfg, s) && c in s.callbacks
    ensures Agrees(cfg, ResumeAnswer(s, c, s.callbacks[c], reply))
  {
    var t := ResumeAnswer(s, c, s.callbacks[c], reply);
    assert CallbackSafe(s.owner, s.log, s.callbacks[c]);
    AnswerKeepsKnown(s, c, s.callbacks[c], reply);
    forall r | r in t.owner ensures InPhase(cfg, t, r) {
      AnswerKeepsInPhase(cfg, s, c, reply, r);
    }
  }

  lemma BeginKeepsInPhase(cfg: Config, s: System, k: RunId, run: Run, r: RequestId)
    requires r in s.owner && s.owner[r] in s.runs && k !in s.runs && InPhase(cfg, s, r)
    ensures InPhase(cfg, Move(s, k, run), r)
  {
    var asking := s.runs[s.owner[r]];
    if asking.order.Some? { assert ViewOf(Move(s, k, run), r, asking.order.value) == ViewOf(s, r, asking.order.value); }
  }

  lemma BeginKeepsAgreement(cfg: Config, s: System, k: RunId, job: Job)
    requires ProtocolSafety.Safe(cfg, s) && Agrees(cfg, s)
    ensures Agrees(cfg, Next(cfg, s, Begin(k, job)))
  {
    var t := Next(cfg, s, Begin(k, job));
    if k !in s.runs {
      forall r | r in t.owner ensures InPhase(cfg, t, r) {
        assert s.owner[r] in s.runs;
        BeginKeepsInPhase(cfg, s, k, Run(job, Creating, None, None, None, None), r);
      }
    }
  }

  lemma NextKeepsAgreement(cfg: Config, s: System, e: Event)
    requires ProtocolSafety.Safe(cfg, s) && ProtocolLifecycle.Lives(s) && Agrees(cfg, s)
    ensures Agrees(cfg, Next(cfg, s, e))
  {
    match e {
      case Begin(k, job) => BeginKeepsAgreement(cfg, s, k, job);
      case Resume(k, reply) =>
        if k in s.runs { ResumeKeepsAgreement(cfg, s, k, reply); }
      case TimerFires(k) =>
        if k in s.runs { TimerKeepsAgreement(cfg, s, k); }
      case TapArrives(c, r, tap) => TapKeepsAgreement(cfg, s, c, r, tap);
      case ResumeCallback(c, reply) =>
        if c in s.callbacks { AnswerKeepsAgreement(cfg, s, c, reply); }
    }
  }

  lemma {:induction false} AlwaysAgrees(cfg: Config, events: seq<Event>)
    ensures Agrees(cfg, After(cfg, events)) && ProtocolSafety.Safe(cfg, After(cfg, events))
  {
    ProtocolLifecycle.AlwaysLives(cfg, events);
    if events != [] {
      AlwaysAgrees(cfg, events[..|events| - 1]);
      ProtocolLifecycle.AlwaysLives(cfg, events[..|events| - 1]);
      NextKeepsAgreement(cfg, After(cfg, events[..|events| - 1]), events[|events| - 1]);
    }
  }

  // ---- The theorem ----

  /** At most one tap accepted for the request, its write not lost, none accepted once the timer had fired. */
  ghost predicate AnsweredOnceInTime(s: System, r: RequestId) {
    && AnswerLost(r) !in s.log
    && (forall c, d :: c in s.callbacks && d in s.callbacks ==>
          s.callbacks[c].request == r && s.callbacks[d].request == r ==> c == d)
    && (TimedOut(r) in s.log ==> Unanswered(s, r))
  }

  ghost predicate Unanswered(s: System, r: RequestId) {
    forall c :: c in s.callbacks ==> s.callbacks[c].request != r
  }

  /** The request row and the run's order row both show the status. */
  ghost predicate RowsShow(s: System, run: Run, r: RequestId, status: ApprovalStatus) {
    && run.order.Some? && run.order.value in s.orders && s.orders[run.order.value].approval == status
    && r in s.requests && s.requests[r] == RequestRow(run.order.value, Answered(status))
  }

  /**
    The status returned, the request row and the order row agree, then and ever after: with one tap they show its
    answer, and with none they show a timeout, unless the request was approved automatically.
  */
  lemma {:induction false} Agreement(cfg: Config, events: seq<Event>, k: RunId, r: RequestId, status: ApprovalStatus)
    requires var s := After(cfg, events);
             && k in s.runs && s.runs[k].request == Some(r) && s.runs[k].approval == Some(status)
             && AnsweredOnceInTime(s, r)
    ensures var s := After(cfg, events);
            && RowsShow(s, s.runs[k], r, status)
            && (forall c :: c in s.callbacks && s.callbacks[c].request == r ==>
                  && s.callbacks[c].answer.status == status
                  && s.orders[s.runs[k].order.value].modified == s.callbacks[c].answer.modified)
            && (Unanswered(s, r) ==>
                  || status == ApprovalStatus.Timeout
                  || (status == ApprovalStatus.AutoApproved && AutoSide(cfg, s.runs[k])))
  {
    AlwaysAgrees(cfg, events);
    var s := After(cfg, events);
    assert RunSafe(cfg, s, k);
    var v := ViewOf(s, r, s.runs[k].order.value);
    assert InPhase(cfg, s, r) && Clean(v);
    forall c | c in s.callbacks && s.callbacks[c].request == r
      ensures c in v.callbacks && v.callbacks[c] == s.callbacks[c]
    {
    }
    if Unanswered(s, r) { assert v.callbacks == map[]; }
  }

  // ---- Without its conditions it fails ----

  const SAVED := Written(true, false)

  /** A run up to its approval request, and up to its wait: run 0, order 0, request 0. */
  function Checking(job: Job): seq<Event> {
    [Begin(0, job)] + [Resume(0, SAVED)] + [Resume(0, Verdict(WebVerifyResult.Safe))] + [Resume(0, SAVED)]
  }

  function Asking(job: Job): seq<Event> {
    Checking(job) + [Resume(0, Portfolio(0.0, 0))] + [Resume(0, SAVED)] + [Resume(0, Returned)]
  }

  lemma AfterLast(cfg: Config, events: seq<Event>, e: Event)
    ensures After(cfg, events + [e]) == Next(cfg, After(cfg, events), e)
  {
    assert (events + [e])[..|events|] == events;
  }

  predicate NeedsHuman(cfg: Config, job: Job) {
    cfg.approval.humanApprovalRequired && job.Entry? && SideOf(job.decision.action) == OrderSide.Buy
  }

  predicate AtWait(run: Run, job: Job) {
    run.job == job && run.at == AwaitingAnswer && run.order == Some(0) && run.request == Some(0)
  }

  /** The wait of run 0, with nothing answered yet. */
  ghost predicate Waits(s: System, job: Job) {
    && 0 in s.runs && AtWait(s.runs[0], job)
    && 0 in s.orders && s.orders[0].modified.None?
    && 0 in s.requests && s.requests[0] == RequestRow(0, RequestStatus.Waiting)
    && (forall tap :: Accepted(0, tap) !in s.log)
    && 0 in s.inbox.events && !s.inbox.events[0] && 0 !in s.inbox.results && s.callbacks == map[]
  }

  ghost predicate Checked(s: System, job: Job) {
    && 0 in s.runs && s.runs[0] == Run(job, LoadingPortfolio, Some(0), None, Some(WebVerifyResult.Safe), None)
    && 0 in s.orders && s.orders[0].modified.None? && 0 !in s.owner && s.inbox == Initial.inbox && s.callbacks == map[]
    && (forall tap :: Accepted(0, tap) !in s.log)
  }

  lemma CheckingChecks(cfg: Config, job: Job)
    ensures Checked(After(cfg, Checking(job)), job)
  {
    var e1 := [Begin(0, job)];
    AfterLast(cfg, [], Begin(0, job));
    assert [] + [Begin(0, job)] == e1;
    AfterLast(cfg, e1, Resume(0, SAVED));
    var e2 := e1 + [Resume(0, SAVED)];
    AfterLast(cfg, e2, Resume(0, Verdict(WebVerifyResult.Safe)));
    var e3 := e2 + [Resume(0, Verdict(WebVerifyResult.Safe))];
    AfterLast(cfg, e3, Resume(0, SAVED));
  }

  lemma AskingWaits(cfg: Config, job: Job)
    requires NeedsHuman(cfg, job)
    ensures Waits(After(cfg, Asking(job)), job)
  {
    CheckingChecks(cfg, job);
    BuysNeedAHuman(cfg.approval, job.decision, 0.0);
    var e4 := Checking(job);
    AfterLast(cfg, e4, Resume(0, Portfolio(0.0, 0)));
    var e5 := e4 + [Resume(0, Portfolio(0.0, 0))];
    AfterLast(cfg, e5, Resume(0, SAVED));
    var e6 := e5 + [Resume(0, SAVED)];
    AfterLast(cfg, e6, Resume(0, Returned));
  }

  /** The timer fires, and while the timeout is being handled a tap still counts as pending: its write lands last. */
  function LateTap(job: Job): seq<Event> {
    Asking(job) + [TimerFires(0)] + [TapArrives(0, 0, Tap.Approve)]
  }

  function LateWrite(job: Job): seq<Event> {
    LateTap(job) + [Resume(0, SAVED)] + [ResumeCallback(0, SAVED)]
  }

  function LateAnswer(job: Job): seq<Event> {
    LateWrite(job) + [Resume(0, Returned)]
  }

  lemma LateTapAccepted(cfg: Config, job: Job)
    requires NeedsHuman(cfg, job)
    ensures var s := After(cfg, LateTap(job));
            && 0 in s.runs && s.runs[0].at == SavingTimeout && s.runs[0].order == Some(0)
               && s.runs[0].request == Some(0)
            && 0 in s.orders && 0 in s.requests && s.requests[0].orderId == 0
            && 0 in s.callbacks
               && s.callbacks[0] == Callback(0, Tap.Approve, Answer(ApprovalStatus.Approved, None), Saving)
  {
    AskingWaits(cfg, job);
    var e0 := Asking(job);
    AfterLast(cfg, e0, TimerFires(0));
    AfterLast(cfg, e0 + [TimerFires(0)], TapArrives(0, 0, Tap.Approve));
  }

  lemma LateWriteLands(cfg: Config, job: Job)
    requires NeedsHuman(cfg, job)
    ensures var s := After(cfg, LateWrite(job));
            && 0 in s.runs && s.runs[0].at == NotifyingTimeout && s.runs[0].order == Some(0)
               && s.runs[0].request == Some(0)
            && 0 in s.orders && s.orders[0].approval == ApprovalStatus.Approved
            && 0 in s.requests && s.requests[0] == RequestRow(0, Answered(ApprovalStatus.Approved))
  {
    LateTapAccepted(cfg, job);
    var e2 := LateTap(job);
    AfterLast(cfg, e2, Resume(0, SAVED));
    AfterLast(cfg, e2 + [Resume(0, SAVED)], ResumeCallback(0, SAVED));
  }

  lemma LateAnswerDisagrees(cfg: Config, job: Job)
    requires NeedsHuman(cfg, job)
    ensures var s := After(cfg, LateAnswer(job));
            && 0 in s.runs && s.runs[0].request == Some(0) && s.runs[0].approval == Some(ApprovalStatus.Timeout)
            && RowsShow(s, s.runs[0], 0, ApprovalStatus.Approved)
  {
    LateWriteLands(cfg, job);
    AfterLast(cfg, LateWrite(job), Resume(0, Returned));
  }

  /** Two taps: the second one's write lands last, but the first one's signal wakes the run. */
  function TwoTaps(job: Job): seq<Event> {
    Asking(job) + [TapArrives(0, 0, Tap.Approve)] + [TapArrives(1, 0, Tap.Reject)]
  }

  function TwoWrites(job: Job): seq<Event> {
    TwoTaps(job) + [ResumeCallback(0, SAVED)] + [ResumeCallback(1, SAVED)]
  }

  function TwoAnswers(job: Job): seq<Event> {
    TwoWrites(job) + [ResumeCallback(0, Returned)] + [Resume(0, Returned)]
  }

  lemma TwoTapsAccepted(cfg: Config, job: Job)
    requires NeedsHuman(cfg, job)
    ensures var s := After(cfg, TwoTaps(job));
            && 0 in s.runs && AtWait(s.runs[0], job) && 0 in s.orders
            && 0 in s.requests && s.requests[0].orderId == 0 && 0 in s.inbox.events
            && 0 in s.callbacks
               && s.callbacks[0] == Callback(0, Tap.Approve, Answer(ApprovalStatus.Approved, None), Saving)
            && 1 in s.callbacks
               && s.callbacks[1] == Callback(0, Tap.Reject, Answer(ApprovalStatus.Rejected, None), Saving)
  {
    AskingWaits(cfg, job);
    var e0 := Asking(job);
    AfterLast(cfg, e0, TapArrives(0, 0, Tap.Approve));
    AfterLast(cfg, e0 + [TapArrives(0, 0, Tap.Approve)], TapArrives(1, 0, Tap.Reject));
  }

  lemma TwoWritesLand(cfg: Config, job: Job)
    requires NeedsHuman(cfg, job)
    ensures var s := After(cfg, TwoWrites(job));
            && 0 in s.runs && AtWait(s.runs[0], job) && 0 in s.inbox.events && 0 in s.callbacks
            && s.callbacks[0] == Callback(0, Tap.Approve, Answer(ApprovalStatus.Approved, None), Notifying)
            && 0 in s.orders && s.orders[0].approval == ApprovalStatus.Rejected
            && 0 in s.requests && s.requests[0] == RequestRow(0, Answered(ApprovalStatus.Rejected))
  {
    TwoTapsAccepted(cfg, job);
    var e2 := TwoTaps(job);
    AfterLast(cfg, e2, ResumeCallback(0, SAVED));
    AfterLast(cfg, e2 + [ResumeCallback(0, SAVED)], ResumeCallback(1, SAVED));
  }

  lemma TwoAnswersDisagree(cfg: Config, job: Job)
    requires NeedsHuman(cfg, job)
    ensures var s := After(cfg, TwoAnswers(job));
            && 0 in s.runs && s.runs[0].request == Some(0) && s.runs[0].approval == Some(ApprovalStatus.Approved)
            && s.runs[0].at == ReadingOrder && RowsShow(s, s.runs[0], 0, ApprovalStatus.Rejected)
  {
    AskingWaits(cfg, job);
    TwoWritesLand(cfg, job);
    var e4 := TwoWrites(job);
    AfterLast(cfg, e4, ResumeCallback(0, Returned));
    AfterLast(cfg, e4 + [ResumeCallback(0, Returned)], Resume(0, Returned));
  }

  /** The answer's write fails: the handler swallows the error and signals all the same. */
  function LostWrite(job: Job): seq<Event> {
    Asking(job) + [TapArrives(0, 0, Tap.Approve)] + [ResumeCallback(0, Written(false, true))]
  }

  function LostAnswer(job: Job): seq<Event> {
    LostWrite(job) + [ResumeCallback(0, Returned)] + [Resume(0, Returned)]
  }

  lemma LostWriteLands(cfg: Config, job: Job)
    requires NeedsHuman(cfg, job)
    ensures var s := After(cfg, LostWrite(job));
            && 0 in s.runs && AtWait(s.runs[0], job) && 0 in s.orders && 0 in s.inbox.events
            && 0 in s.callbacks
               && s.callbacks[0] == Callback(0, Tap.Approve, Answer(ApprovalStatus.Approved, None), Notifying)
            && 0 in s.requests && s.requests[0].status == RequestStatus.Waiting
  {
    AskingWaits(cfg, job);
    var e0 := Asking(job);
    AfterLast(cfg, e0, TapArrives(0, 0, Tap.Approve));
    AfterLast(cfg, e0 + [TapArrives(0, 0, Tap.Approve)], ResumeCallback(0, Written(false, true)));
  }

  lemma LostAnswerDisagrees(cfg: Config, job: Job)
    requires NeedsHuman(cfg, job)
    ensures var s := After(cfg, LostAnswer(job));
            && 0 in s.runs && s.runs[0].request == Some(0) && s.runs[0].approval == Some(ApprovalStatus.Approved)
            && 0 in s.requests && s.requests[0].status == RequestStatus.Waiting
  {
    AskingWaits(cfg, job);
    LostWriteLands(cfg, job);
    var e2 := LostWrite(job);
    AfterLast(cfg, e2, ResumeCallback(0, Returned));
    AfterLast(cfg, e2 + [ResumeCallback(0, Returned)], Resume(0, Returned));
  }
}

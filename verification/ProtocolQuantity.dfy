/**
  The quantity a human approved. A buy under human approval goes out as asked for only on an "approve" tap, and
  otherwise with the quantity a "modify" tap named, unless the database lost an answer to the request.
*/
module ProtocolQuantity {
  import opened Wrappers
  import opened Decimals
  import opened Enums
  import opened Approval
  import opened Protocol
  import opened ProtocolSafety
  import ProtocolAgreement
  import RiskGate

  predicate HumanBuy(cfg: Config, run: Run) {
    cfg.approval.humanApprovalRequired && JobSide(run.job) == OrderSide.Buy
  }

  /** The order row behind the request carries a modified quantity. */
  predicate RowModified(orders: map<OrderId, OrderRow>, requests: map<RequestId, RequestRow>, r: RequestId) {
    r in requests && requests[r].orderId in orders && orders[requests[r].orderId].modified.Some?
  }

  /** Why a request may count as approved: a lost answer, an approve tap, or a modified quantity in the order row. */
  ghost predicate Named(s: System, r: RequestId) {
    AnswerLost(r) in s.log || Accepted(r, Tap.Approve) in s.log || RowModified(s.orders, s.requests, r)
  }

  // ---- The invariant ----

  ghost predicate Filed(s: System) {
    forall k, r :: Registered(k, r) in s.log ==> r in s.requests
  }

  ghost predicate CallbackNamed(s: System, cb: Callback) {
    !cb.at.Saving? && cb.answer.modified.Some? ==>
      AnswerLost(cb.request) in s.log || RowModified(s.orders, s.requests, cb.request)
  }

  ghost predicate CallbacksNamed(s: System) {
    forall c :: c in s.callbacks ==> CallbackNamed(s, s.callbacks[c])
  }

  ghost predicate ResultsNamed(s: System) {
    forall r :: r in s.inbox.results && s.inbox.results[r] == ApprovalStatus.Approved ==> Named(s, r)
  }

  /** Points at which the request row has been inserted and not answered by the run itself. */
  predicate Asks(at: Point) {
    at.Announcing? || at.AwaitingAnswer? || at.SavingTimeout?
  }

  ghost predicate RunNamed(cfg: Config, s: System, run: Run) {
    && (Asks(run.at) && run.request.Some? ==> run.request.value in s.requests)
    && (run.at.ReadingOrder? && HumanBuy(cfg, run) ==> run.request.Some? && Named(s, run.request.value))
  }

  ghost predicate RunsNamed(cfg: Config, s: System) {
    forall k :: k in s.runs ==> RunNamed(cfg, s, s.runs[k])
  }

  /** A call's quantity is explained by an approve tap before it, or is the quantity of a modify tap before it. */
  ghost predicate CallNamed(s: System, call: LogEntry)
    requires call.Called?
  {
    && call.run in s.runs && s.runs[call.run].request.Some?
    && var r := s.runs[call.run].request.value;
       || AnswerLost(r) in s.log
       || Before(s.log, Accepted(r, Tap.Approve), call)
       || Before(s.log, Accepted(r, Modify(Some(call.quantity))), call)
  }

  ghost predicate CallsNamed(cfg: Config, s: System) {
    forall call :: call in s.log && call.Called? && cfg.approval.humanApprovalRequired && call.side == OrderSide.Buy ==>
      CallNamed(s, call)
  }

  ghost predicate AllNamed(cfg: Config, s: System) {
    Filed(s) && CallbacksNamed(s) && ResultsNamed(s) && RunsNamed(cfg, s) && CallsNamed(cfg, s)
  }

  // ---- What no step takes back ----

  ghost predicate Persists(s: System, t: System) {
    && Extends(s.log, t.log)
    && (forall r :: r in s.requests ==> r in t.requests)
    && (forall r :: RowModified(s.orders, s.requests, r) ==> RowModified(t.orders, t.requests, r))
  }

  lemma NamedPersists(s: System, t: System, r: RequestId)
    requires Persists(s, t) && Named(s, r)
    ensures Named(t, r)
  {
  }

  lemma RunNamedPersists(cfg: Config, s: System, t: System, run: Run)
    requires Persists(s, t) && RunNamed(cfg, s, run)
    ensures RunNamed(cfg, t, run)
  {
    if run.at.ReadingOrder? && HumanBuy(cfg, run) { NamedPersists(s, t, run.request.value); }
  }

  lemma CallbackNamedPersists(s: System, t: System, cb: Callback)
    requires Persists(s, t) && CallbackNamed(s, cb)
    ensures CallbackNamed(t, cb)
  {
  }

  lemma CallNamedPersists(s: System, t: System, call: LogEntry)
    requires Persists(s, t) && call.Called? && CallNamed(s, call)
    requires call.run in t.runs && t.runs[call.run].request == s.runs[call.run].request
    ensures CallNamed(t, call)
  {
    var r := s.runs[call.run].request.value;
    if Before(s.log, Accepted(r, Tap.Approve), call) { BeforeGrows(s.log, t.log, Accepted(r, Tap.Approve), call); }
    if Before(s.log, Accepted(r, Modify(Some(call.quantity))), call) {
      BeforeGrows(s.log, t.log, Accepted(r, Modify(Some(call.quantity))), call);
    }
  }

  lemma StepPersists(cfg: Config, s: System, t: System, k: RunId)
    requires ProtocolSafety.Safe(cfg, s) && k in s.runs && RunStep(s, t, k)
    ensures Persists(s, t)
  {
    LogGrows(s, t, k, s.runs[k]);
    assert RunSafe(cfg, s, k);
    RequestsPersist(s, t, k);
    forall r | RowModified(s.orders, s.requests, r) ensures RowModified(t.orders, t.requests, r) {
      OrderPersists(s, t, s.runs[k], s.requests[r].orderId);
    }
  }

  lemma RequestsPersist(s: System, t: System, k: RunId)
    requires k in s.runs && RequestsStep(s, t, s.runs[k]) && RequestsOwned(s.runs, s.owner, s.requests)
    requires s.runs[k].request.Some? ==> s.runs[k].request.value in s.owner && s.owner[s.runs[k].request.value] == k
    ensures forall r :: r in s.requests ==> r in t.requests && t.requests[r].orderId == s.requests[r].orderId
  {
  }

  lemma OrderPersists(s: System, t: System, run: Run, o: OrderId)
    requires OrdersStep(s, t, run) && o in s.orders && OrdersBounded(s.orders, s.nextOrder)
    ensures o in t.orders && t.orders[o].modified == s.orders[o].modified
  {
  }

  // ---- Where the run that moved ends up ----

  /** Entries that need explaining come with their explanation. */
  ghost predicate NamedLands(cfg: Config, s: System, t: System, k: RunId) {
    && k in t.runs && RunNamed(cfg, t, t.runs[k])
    && (t.log != s.log ==>
          && t.log != []
          && var e := t.log[|t.log| - 1];
             && (e.Registered? ==> e.request in t.requests)
             && (e.Called? && cfg.approval.humanApprovalRequired && e.side == OrderSide.Buy ==> CallNamed(t, e)))
  }

  lemma CallNamedLands(cfg: Config, s: System, inbox: Inbox, k: RunId, run: Run, quantity: int)
    requires HumanBuy(cfg, run) && quantity > 0 ==>
               && run.request.Some?
               && (|| AnswerLost(run.request.value) in s.log || Accepted(run.request.value, Tap.Approve) in s.log
                   || Accepted(run.request.value, Modify(Some(quantity))) in s.log)
    ensures NamedLands(cfg, s, CallBroker(s.(inbox := inbox), k, run, quantity), k)
  {
    var t := CallBroker(s.(inbox := inbox), k, run, quantity);
    if quantity > 0 {
      var call := Called(k, JobSide(run.job), quantity);
      assert t.log == s.log + [call] && t.runs[k] == run.(at := Placing(quantity));
      if HumanBuy(cfg, run) {
        var r := run.request.value;
        if Accepted(r, Tap.Approve) in s.log { BeforeNew(s.log, Accepted(r, Tap.Approve), call); }
        if Accepted(r, Modify(Some(quantity))) in s.log { BeforeNew(s.log, Accepted(r, Modify(Some(quantity))), call); }
      }
    }
  }

  lemma ApprovalNamedLands(cfg: Config, s: System, inbox: Inbox, k: RunId, run: Run, status: ApprovalStatus)
    requires HumanBuy(cfg, run) && status != ApprovalStatus.Rejected && status != ApprovalStatus.Timeout ==>
               run.request.Some? && Named(s, run.request.value)
    ensures NamedLands(cfg, s, AfterApproval(s.(inbox := inbox), k, run, status), k)
  {
    if run.job.Exit? { CallNamedLands(cfg, s, inbox, k, run.(approval := Some(status)), JobQuantity(run.job)); }
  }

  lemma ReadOrderNamedLands(cfg: Config, s: System, k: RunId, o: OrderId)
    requires k in s.runs && RunNamed(cfg, s, s.runs[k]) && s.runs[k].at.ReadingOrder? && s.runs[k].order == Some(o)
    requires o in s.orders
    requires s.runs[k].request.Some? && s.runs[k].request.value in s.requests ==>
               s.requests[s.runs[k].request.value].orderId == o
    ensures NamedLands(cfg, s, ReadOrder(s, k, s.runs[k], s.orders[o]), k)
  {
    assert s.(inbox := s.inbox) == s;
    if s.orders[o].modified.None? { CallNamedLands(cfg, s, s.inbox, k, s.runs[k], JobQuantity(s.runs[k].job)); }
  }

  lemma RecheckNamedLands(cfg: Config, s: System, k: RunId, modified: int, state: RiskGate.PortfolioState)
    requires k in s.runs && PointSafe(cfg, s.log, k, s.runs[k]) && s.runs[k].at == Rechecking(modified)
    ensures NamedLands(cfg, s, Recheck(cfg, s, k, s.runs[k], modified, state), k)
  {
    assert s.(inbox := s.inbox) == s;
    RecheckKeepsQuantity(cfg, s.runs[k], modified, state);
    CallNamedLands(cfg, s, s.inbox, k, s.runs[k], modified);
  }

  lemma NotifiedNamedLands(cfg: Config, s: System, k: RunId, row: OrderRow, reply: Reply)
    requires k in s.runs && PointSafe(cfg, s.log, k, s.runs[k])
    requires (s.runs[k].at.NotifyingAuto? || s.runs[k].at.NotifyingTimeout?)
    ensures var t := ResumeOutside(cfg, s, k, s.runs[k], row, reply); t == s || NamedLands(cfg, s, t, k)
  {
    var run := s.runs[k];
    if run.at.NotifyingAuto? {
      assert s.(inbox := s.inbox) == s;
      ApprovalNamedLands(cfg, s, s.inbox, k, run, ApprovalStatus.AutoApproved);
    } else if run.request.Some? {
      ApprovalNamedLands(cfg, s, Forget(s.inbox, run.request.value), k, run, ApprovalStatus.Timeout);
    }
  }

  lemma RequestingNamedLands(cfg: Config, s: System, k: RunId, row: OrderRow, reply: Reply)
    requires k in s.runs && RunNamed(cfg, s, s.runs[k])
    requires s.runs[k].at.Verifying? || s.runs[k].at.LoadingPortfolio? || s.runs[k].at.Announcing?
    ensures var t := ResumeOutside(cfg, s, k, s.runs[k], row, reply); t == s || NamedLands(cfg, s, t, k)
  {
  }

  lemma OutsideNamedLands(cfg: Config, s: System, k: RunId, o: OrderId, reply: Reply)
    requires k in s.runs && RunSafe(cfg, s, k) && RunNamed(cfg, s, s.runs[k]) && s.runs[k].order == Some(o)
    requires o in s.orders
    requires s.runs[k].request.Some? && s.runs[k].request.value in s.requests ==>
               s.requests[s.runs[k].request.value].orderId == o
    ensures var t := ResumeOutside(cfg, s, k, s.runs[k], s.orders[o], reply); t == s || NamedLands(cfg, s, t, k)
  {
    var run := s.runs[k];
    if run.at.Verifying? || run.at.LoadingPortfolio? || run.at.Announcing? {
      RequestingNamedLands(cfg, s, k, s.orders[o], reply);
    } else if run.at.NotifyingAuto? || run.at.NotifyingTimeout? {
      NotifiedNamedLands(cfg, s, k, s.orders[o], reply);
    } else if run.at.ReadingOrder? {
      ReadOrderNamedLands(cfg, s, k, o);
    } else if run.at.Rechecking? {
      if reply.RiskView? { RecheckNamedLands(cfg, s, k, run.at.modified, reply.state); }
    }
  }

  lemma AnswerNamedLands(cfg: Config, s: System, k: RunId, r: RequestId)
    requires k in s.runs && s.runs[k].request == Some(r) && s.runs[k].at.AwaitingAnswer?
    requires RunNamed(cfg, s, s.runs[k]) && ResultsNamed(s) && InboxSafe(s.inbox, s.owner, s.log)
    ensures var t := TakeAnswer(s, k, s.runs[k], r); t == s || NamedLands(cfg, s, t, k)
  {
    var status := Response(s.inbox, r);
    if status != ApprovalStatus.Timeout { ApprovalNamedLands(cfg, s, Forget(s.inbox, r), k, s.runs[k], status); }
  }

  lemma WriteNamedLands(cfg: Config, s: System, k: RunId, o: OrderId, reply: Reply)
    requires k in s.runs && PointSafe(cfg, s.log, k, s.runs[k]) && s.runs[k].order == Some(o) && o in s.orders
    requires !AwaitsOutside(s.runs[k].at) && !s.runs[k].at.AwaitingAnswer? && !s.runs[k].at.Creating?
    ensures var t := ResumeWrite(s, k, s.runs[k], o, s.orders[o], reply); t == s || NamedLands(cfg, s, t, k)
  {
    var run := s.runs[k];
    WriteMoves(cfg, s, k, o, reply);
    if run.at.SavingRequest? && run.request.Some? {
      assert ResumeWrite(s, k, run, o, s.orders[o], reply)
          == InsertRequest(s, k, run, o, run.request.value, RequestStatus.Waiting, reply, Announcing);
    }
  }

  lemma ResumeNamedLands(cfg: Config, s: System, k: RunId, reply: Reply)
    requires k in s.runs && RunSafe(cfg, s, k) && RunNamed(cfg, s, s.runs[k])
    requires InboxSafe(s.inbox, s.owner, s.log) && ResultsNamed(s) && RequestsOwned(s.runs, s.owner, s.requests)
    ensures var t := Next(cfg, s, Resume(k, reply)); t == s || NamedLands(cfg, s, t, k)
  {
    var run := s.runs[k];
    if !run.at.Creating? && run.order.Some? {
      var o := run.order.value;
      if AwaitsOutside(run.at) {
        OutsideNamedLands(cfg, s, k, o, reply);
      } else if run.at.AwaitingAnswer? {
        if run.request.Some? { AnswerNamedLands(cfg, s, k, run.request.value); }
      } else {
        WriteNamedLands(cfg, s, k, o, reply);
      }
    }
  }

  // ---- Every event keeps it ----

  lemma CallsStayNamed(cfg: Config, s: System, t: System, k: RunId)
    requires k in s.runs && RunStep(s, t, k) && Persists(s, t) && CallsNamed(cfg, s) && NamedLands(cfg, s, t, k)
    ensures CallsNamed(cfg, t)
  {
    forall call | call in t.log && call.Called? && cfg.approval.humanApprovalRequired && call.side == OrderSide.Buy
      ensures CallNamed(t, call)
    {
      if call in s.log {
        assert CallNamed(s, call);
        CallNamedPersists(s, t, call);
      } else {
        assert call == t.log[|t.log| - 1];
      }
    }
  }

  lemma StepKeepsNamed(cfg: Config, s: System, t: System, k: RunId)
    requires ProtocolSafety.Safe(cfg, s) && AllNamed(cfg, s) && k in s.runs && RunStep(s, t, k)
    requires NamedLands(cfg, s, t, k)
    ensures AllNamed(cfg, t)
  {
    StepPersists(cfg, s, t, k);
    CallsStayNamed(cfg, s, t, k);
    forall j | j in t.runs ensures RunNamed(cfg, t, t.runs[j]) {
      if j != k { RunNamedPersists(cfg, s, t, s.runs[j]); }
    }
    forall c | c in t.callbacks ensures CallbackNamed(t, t.callbacks[c]) {
      CallbackNamedPersists(s, t, s.callbacks[c]);
    }
    ResultsStayNamed(s, t, k);
    FiledStays(cfg, s, t, k);
  }

  lemma ResultsStayNamed(s: System, t: System, k: RunId)
    requires k in s.runs && RunStep(s, t, k) && Persists(s, t) && ResultsNamed(s)
    ensures ResultsNamed(t)
  {
    forall r | r in t.inbox.results && t.inbox.results[r] == ApprovalStatus.Approved ensures Named(t, r) {
      NamedPersists(s, t, r);
    }
  }

  lemma FiledStays(cfg: Config, s: System, t: System, k: RunId)
    requires k in s.runs && RunStep(s, t, k) && Persists(s, t) && Filed(s) && NamedLands(cfg, s, t, k)
    ensures Filed(t)
  {
    forall j, r | Registered(j, r) in t.log ensures r in t.requests {
      if Registered(j, r) !in s.log { assert Registered(j, r) == t.log[|t.log| - 1]; }
    }
  }

  lemma TimerKeepsNamed(cfg: Config, s: System, k: RunId)
    requires ProtocolSafety.Safe(cfg, s) && AllNamed(cfg, s) && k in s.runs
    ensures AllNamed(cfg, Next(cfg, s, TimerFires(k)))
  {
    var t := Next(cfg, s, TimerFires(k));
    if t != s {
      TimerIsStep(cfg, s, k);
      StepKeepsNamed(cfg, s, t, k);
    }
  }

  /** Steps that touch no run and persist keep what is said of runs, calls, registrations and old callbacks. */
  lemma CallbackStepKeeps(cfg: Config, s: System, t: System, c: CallbackId)
    requires AllNamed(cfg, s) && Persists(s, t) && t.runs == s.runs
    requires forall e :: e in t.log && e !in s.log ==> CallbackEntry(e)
    requires c in t.callbacks && t.callbacks == s.callbacks[c := t.callbacks[c]] && CallbackNamed(t, t.callbacks[c])
    requires ResultsNamed(t)
    ensures AllNamed(cfg, t)
  {
    forall d | d in t.callbacks ensures CallbackNamed(t, t.callbacks[d]) {
      if d != c { CallbackNamedPersists(s, t, s.callbacks[d]); }
    }
    forall k | k in t.runs ensures RunNamed(cfg, t, t.runs[k]) {
      RunNamedPersists(cfg, s, t, s.runs[k]);
    }
    forall call | call in t.log && call.Called? && cfg.approval.humanApprovalRequired && call.side == OrderSide.Buy
      ensures CallNamed(t, call)
    {
      assert CallNamed(s, call);
      CallNamedPersists(s, t, call);
    }
  }

  lemma ResultsPersist(s: System, t: System)
    requires ResultsNamed(s) && Persists(s, t) && t.inbox == s.inbox
    ensures ResultsNamed(t)
  {
    forall r | r in t.inbox.results && t.inbox.results[r] == ApprovalStatus.Approved ensures Named(t, r) {
      NamedPersists(s, t, r);
    }
  }

  lemma TapKeepsNamed(cfg: Config, s: System, c: CallbackId, r: RequestId, tap: Tap)
    requires AllNamed(cfg, s)
    ensures AllNamed(cfg, AcceptTap(s, c, r, tap))
  {
    var t := AcceptTap(s, c, r, tap);
    if t != s {
      ResultsPersist(s, t);
      CallbackStepKeeps(cfg, s, t, c);
    }
  }

  lemma ApplyPersists(s: System, r: RequestId, answer: Answer)
    ensures var t := ApplyAnswer(s, r, answer);
            && Persists(s, t) && t.runs == s.runs && t.inbox == s.inbox && t.callbacks == s.callbacks && t.log == s.log
            && (r in s.requests && s.requests[r].orderId in s.orders && answer.modified.Some? ==>
                RowModified(t.orders, t.requests, r))
  {
  }

  lemma WritingKeepsNamed(cfg: Config, s: System, c: CallbackId)
    requires ProtocolSafety.Safe(cfg, s) && AllNamed(cfg, s) && c in s.callbacks && s.callbacks[c].at.Saving?
    ensures var t := ApplyAnswer(s, s.callbacks[c].request, s.callbacks[c].answer);
            AllNamed(cfg, t.(callbacks := t.callbacks[c := s.callbacks[c].(at := Notifying)]))
  {
    var cb := s.callbacks[c];
    var a := ApplyAnswer(s, cb.request, cb.answer);
    var t := a.(callbacks := a.callbacks[c := cb.(at := Notifying)]);
    ApplyPersists(s, cb.request, cb.answer);
    RequestFiled(cfg, s, cb);
    ResultsPersist(s, t);
    CallbackStepKeeps(cfg, s, t, c);
  }

  /** The request of a callback has its row, and the row its order. */
  lemma RequestFiled(cfg: Config, s: System, cb: Callback)
    requires ProtocolSafety.Safe(cfg, s) && Filed(s) && CallbackSafe(s.owner, s.log, cb)
    ensures cb.request in s.requests && s.requests[cb.request].orderId in s.orders
  {
    assert Registered(s.owner[cb.request], cb.request) in s.log;
    assert RunSafe(cfg, s, s.owner[cb.request]);
  }

  lemma LosingKeepsNamed(cfg: Config, s: System, c: CallbackId)
    requires AllNamed(cfg, s) && c in s.callbacks
    ensures var cb := s.callbacks[c];
            var t := Note(s, AnswerLost(cb.request));
            AllNamed(cfg, t.(callbacks := t.callbacks[c := cb.(at := Notifying)]))
  {
    var cb := s.callbacks[c];
    var t := Note(s, AnswerLost(cb.request)).(callbacks := s.callbacks[c := cb.(at := Notifying)]);
    ResultsPersist(s, t);
    CallbackStepKeeps(cfg, s, t, c);
  }

  /** What the callback stores is explained by its own tap, or by the row its write has left. */
  lemma SignalNamed(s: System, cb: Callback)
    requires ResultsNamed(s) && CallbackSafe(s.owner, s.log, cb) && CallbackNamed(s, cb) && cb.at.Notifying?
    ensures ResultsNamed(s.(inbox := Signal(s.inbox, cb.request, cb.answer)))
  {
    var t := s.(inbox := Signal(s.inbox, cb.request, cb.answer));
    assert Accepted(cb.request, cb.tap) in s.log;
    assert cb.answer.status == ApprovalStatus.Approved ==> cb.tap == Tap.Approve || cb.answer.modified.Some?;
    forall r | r in t.inbox.results && t.inbox.results[r] == ApprovalStatus.Approved ensures Named(t, r) {
      if r != cb.request { assert Named(s, r); }
    }
  }

  lemma SignalKeepsNamed(cfg: Config, s: System, c: CallbackId)
    requires ProtocolSafety.Safe(cfg, s) && AllNamed(cfg, s) && c in s.callbacks && s.callbacks[c].at.Notifying?
    ensures var cb := s.callbacks[c];
            AllNamed(cfg,
                s.(inbox := Signal(s.inbox, cb.request, cb.answer), callbacks := s.callbacks[c := cb.(at := Finished)]))
  {
    var cb := s.callbacks[c];
    var t := s.(inbox := Signal(s.inbox, cb.request, cb.answer), callbacks := s.callbacks[c := cb.(at := Finished)]);
    assert CallbackNamed(s, cb);
    SignalNamed(s, cb);
    forall r | r in t.inbox.results && t.inbox.results[r] == ApprovalStatus.Approved ensures Named(t, r) {
      assert Named(s.(inbox := Signal(s.inbox, cb.request, cb.answer)), r);
    }
    CallbackStepKeeps(cfg, s, t, c);
  }

  lemma AnswerKeepsNamed(cfg: Config, s: System, c: CallbackId, reply: Reply)
    requires ProtocolSafety.Safe(cfg, s) && AllNamed(cfg, s) && c in s.callbacks
    ensures AllNamed(cfg, ResumeAnswer(s, c, s.callbacks[c], reply))
  {
    var cb := s.callbacks[c];
    if cb.at.Saving? && reply.Written? {
      if reply.applied || !reply.raised {
        WritingKeepsNamed(cfg, s, c);
      } else {
        LosingKeepsNamed(cfg, s, c);
      }
    } else if cb.at.Notifying? && (reply.Returned? || reply.Raised?) {
      SignalKeepsNamed(cfg, s, c);
    }
  }

  lemma BeginKeepsNamed(cfg: Config, s: System, k: RunId, job: Job)
    requires AllNamed(cfg, s)
    ensures AllNamed(cfg, Next(cfg, s, Begin(k, job)))
  {
    var t := Next(cfg, s, Begin(k, job));
    if t != s {
      ResultsPersist(s, t);
      forall j | j in t.runs ensures RunNamed(cfg, t, t.runs[j]) {
        if j != k { RunNamedPersists(cfg, s, t, s.runs[j]); }
      }
      forall c | c in t.callbacks ensures CallbackNamed(t, t.callbacks[c]) {
        CallbackNamedPersists(s, t, s.callbacks[c]);
      }
      forall call | call in t.log && call.Called? && cfg.approval.humanApprovalRequired && call.side == OrderSide.Buy
        ensures CallNamed(t, call)
      {
        assert CallNamed(s, call);
        CallNamedPersists(s, t, call);
      }
    }
  }

  lemma NextKeepsNamed(cfg: Config, s: System, e: Event)
    requires ProtocolSafety.Safe(cfg, s) && AllNamed(cfg, s)
    ensures AllNamed(cfg, Next(cfg, s, e))
  {
    match e {
      case Begin(k, job) => BeginKeepsNamed(cfg, s, k, job);
      case Resume(k, reply) =>
        if k in s.runs && Next(cfg, s, e) != s { ResumeKeepsNamed(cfg, s, k, reply); }
      case TimerFires(k) =>
        if k in s.runs { TimerKeepsNamed(cfg, s, k); }
      case TapArrives(c, r, tap) => TapKeepsNamed(cfg, s, c, r, tap);
      case ResumeCallback(c, reply) =>
        if c in s.callbacks { AnswerKeepsNamed(cfg, s, c, reply); }
    }
  }

  lemma ResumeKeepsNamed(cfg: Config, s: System, k: RunId, reply: Reply)
    requires ProtocolSafety.Safe(cfg, s) && AllNamed(cfg, s) && k in s.runs && Next(cfg, s, Resume(k, reply)) != s
    ensures AllNamed(cfg, Next(cfg, s, Resume(k, reply)))
  {
    assert RunSafe(cfg, s, k) && RunNamed(cfg, s, s.runs[k]);
    ResumeIsStep(cfg, s, k, reply);
    ResumeNamedLands(cfg, s, k, reply);
    StepKeepsNamed(cfg, s, Next(cfg, s, Resume(k, reply)), k);
  }

  lemma {:induction false} AlwaysNamed(cfg: Config, events: seq<Event>)
    ensures AllNamed(cfg, After(cfg, events))
  {
    if events != [] {
      AlwaysSafe(cfg, events[..|events| - 1]);
      AlwaysNamed(cfg, events[..|events| - 1]);
      NextKeepsNamed(cfg, After(cfg, events[..|events| - 1]), events[|events| - 1]);
    }
  }

  // ---- The theorem, and what it needs ----

  /**
    A buy under human approval with no lost answer to its request: before the call an approve tap was accepted for the
    request, or the quantity sent is the one an accepted modify tap named. A lost answer need not lead to another
    quantity: the exact condition is that of `ProtocolModification.QuantityApprovedExactly`.
  */
  lemma {:induction false} QuantityApproved(cfg: Config, events: seq<Event>, call: LogEntry)
    requires call in After(cfg, events).log && call.Called?
    requires cfg.approval.humanApprovalRequired && call.side == OrderSide.Buy
    ensures var s := After(cfg, events);
            && call.run in s.runs && s.runs[call.run].request.Some?
            && var r := s.runs[call.run].request.value;
               AnswerLost(r) !in s.log ==>
                 || Before(s.log, Accepted(r, Tap.Approve), call)
                 || Before(s.log, Accepted(r, Modify(Some(call.quantity))), call)
  {
    AlwaysNamed(cfg, events);
    assert CallNamed(After(cfg, events), call);
  }

  /** A modification to one share whose write is lost: the run wakes up approved and reads an order row without it. */
  function LostModification(job: Job): seq<Event> {
    ProtocolAgreement.Asking(job) + [TapArrives(0, 0, Modify(Some(1)))] + [ResumeCallback(0, Written(false, true))]
  }

  function WokenUp(job: Job): seq<Event> {
    LostModification(job) + [ResumeCallback(0, Returned)] + [Resume(0, Returned)]
  }

  function FullCall(job: Job): seq<Event> {
    WokenUp(job) + [Resume(0, Returned)]
  }

  lemma LostModificationLands(cfg: Config, job: Job)
    requires ProtocolAgreement.NeedsHuman(cfg, job)
    ensures var s := After(cfg, LostModification(job));
            && 0 in s.runs && ProtocolAgreement.AtWait(s.runs[0], job) && 0 in s.orders && s.orders[0].modified.None?
            && 0 in s.inbox.events && 0 in s.callbacks
            && s.callbacks[0] == Callback(0, Modify(Some(1)), Answer(ApprovalStatus.Approved, Some(1)), Notifying)
            && OnlyTap(s.log, 0, Modify(Some(1)))
  {
    ProtocolAgreement.AskingWaits(cfg, job);
    var e0 := ProtocolAgreement.Asking(job);
    ProtocolAgreement.AfterLast(cfg, e0, TapArrives(0, 0, Modify(Some(1))));
    ProtocolAgreement.AfterLast(cfg, e0 + [TapArrives(0, 0, Modify(Some(1)))], ResumeCallback(0, Written(false, true)));
  }

  ghost predicate OnlyTap(log: seq<LogEntry>, r: RequestId, tap: Tap) {
    forall other :: Accepted(r, other) in log ==> other == tap
  }

  lemma LostModificationWakes(cfg: Config, job: Job)
    requires ProtocolAgreement.NeedsHuman(cfg, job)
    ensures var s := After(cfg, WokenUp(job));
            && 0 in s.runs && s.runs[0].job == job && s.runs[0].at == ReadingOrder && s.runs[0].order == Some(0)
            && 0 in s.orders && s.orders[0].modified.None? && OnlyTap(s.log, 0, Modify(Some(1)))
  {
    LostModificationLands(cfg, job);
    var e2 := LostModification(job);
    ProtocolAgreement.AfterLast(cfg, e2, ResumeCallback(0, Returned));
    ProtocolAgreement.AfterLast(cfg, e2 + [ResumeCallback(0, Returned)], Resume(0, Returned));
  }

  /** The only tap asked for one share, and the broker is asked for the full quantity. */
  lemma LostModificationBuysAll(cfg: Config, job: Job)
    requires ProtocolAgreement.NeedsHuman(cfg, job) && job.decision.quantity > 1
    ensures var s := After(cfg, FullCall(job));
            Called(0, OrderSide.Buy, job.decision.quantity) in s.log && OnlyTap(s.log, 0, Modify(Some(1)))
  {
    LostModificationWakes(cfg, job);
    ProtocolAgreement.AfterLast(cfg, WokenUp(job), Resume(0, Returned));
  }
}

/** Safety of the protocol over every schedule of runs, callbacks, timers and database failures. */
module ProtocolSafety {
  import opened Wrappers
  import opened Decimals
  import opened Enums
  import opened Approval
  import opened Protocol
  import RiskGate

  // ---- The log ----

  ghost predicate Before(log: seq<LogEntry>, a: LogEntry, b: LogEntry) {
    exists i, j :: 0 <= i < j < |log| && log[i] == a && log[j] == b
  }

  /** The second log is the first one, or the first one with one more entry. */
  ghost predicate Extends(log: seq<LogEntry>, longer: seq<LogEntry>) {
    longer == log || (|longer| == |log| + 1 && longer[..|log|] == log)
  }

  predicate Approving(tap: Tap) {
    Decide(tap).Some? && Decide(tap).value.status == ApprovalStatus.Approved
  }

  /** An approving tap for this request was accepted after the run had registered the request's event. */
  ghost predicate ApprovedFor(log: seq<LogEntry>, k: RunId, r: RequestId) {
    exists tap :: Approving(tap) && Before(log, Registered(k, r), Accepted(r, tap))
  }

  lemma BeforeGrows(log: seq<LogEntry>, longer: seq<LogEntry>, a: LogEntry, b: LogEntry)
    requires Extends(log, longer) && Before(log, a, b)
    ensures Before(longer, a, b)
  {
    var i, j :| 0 <= i < j < |log| && log[i] == a && log[j] == b;
    assert longer[i] == log[i] && longer[j] == log[j];
  }

  lemma BeforeNew(log: seq<LogEntry>, a: LogEntry, b: LogEntry)
    requires a in log
    ensures Before(log + [b], a, b)
  {
    var i :| 0 <= i < |log| && log[i] == a;
    assert (log + [b])[i] == a && (log + [b])[|log|] == b;
  }

  lemma ApprovedGrows(log: seq<LogEntry>, longer: seq<LogEntry>, k: RunId, r: RequestId)
    requires Extends(log, longer) && ApprovedFor(log, k, r)
    ensures ApprovedFor(longer, k, r)
  {
    var tap :| Approving(tap) && Before(log, Registered(k, r), Accepted(r, tap));
    BeforeGrows(log, longer, Registered(k, r), Accepted(r, tap));
  }

  // ---- One run ----

  predicate BeforeCall(at: Point) {
    !at.Placing? && !at.SavingFailure? && !at.Recording? && !at.SavingFill? && !at.Recovering? && !at.Done?
  }

  predicate BeforeRequest(at: Point) {
    at.Creating? || at.Verifying? || at.SavingVerdict? || at.LoadingPortfolio?
  }

  predicate BeforeVerdict(at: Point) {
    at.Creating? || at.Verifying? || at.SavingVerdict? || at.Cancelling? || at.Recovering? || at.Done?
  }

  /** Approval has come in, and for a buy under human approval it came from a human. */
  ghost predicate Approved(cfg: Config, log: seq<LogEntry>, k: RunId, run: Run) {
    cfg.approval.humanApprovalRequired && JobSide(run.job) == OrderSide.Buy ==>
      run.request.Some? && ApprovedFor(log, k, run.request.value)
  }

  /** What has to hold where a run is suspended. */
  ghost predicate PointSafe(cfg: Config, log: seq<LogEntry>, k: RunId, run: Run) {
    && (run.at.Creating? ==> run.order.None?)
    && (BeforeRequest(run.at) ==> run.request.None?)
    && (run.at.Creating? || run.at.Verifying? ==> run.verdict.None?)
    && (forall v :: Verified(k, v) in log ==> run.verdict == Some(v))
    && (run.at.SavingVerdict? ==> run.verdict.Some? && Verified(k, run.verdict.value) in log)
    && (!BeforeVerdict(run.at) ==> Cleared(log, k, run))
    && (run.at.SavingAuto? || run.at.NotifyingAuto? ==> AutoSide(cfg, run))
    && (run.at.ReadingOrder? || run.at.Rechecking? ==> Approved(cfg, log, k, run))
    && (run.at.Rechecking? ==>
          run.at.modified > 0 && run.request.Some? && Accepted(run.request.value, Modify(Some(run.at.modified))) in log)
    && (BeforeCall(run.at) ==> forall side, n :: Called(k, side, n) !in log)
  }

  /** Web verification came back, and not with a block. */
  ghost predicate Cleared(log: seq<LogEntry>, k: RunId, run: Run) {
    run.verdict.Some? && run.verdict.value != WebVerifyResult.Blocked && Verified(k, run.verdict.value) in log
  }

  /** A modified quantity in the run's order row comes from an accepted tap for the run's request. */
  ghost predicate RowSafe(orders: map<OrderId, OrderRow>, log: seq<LogEntry>, run: Run) {
    run.order.Some? && run.order.value in orders && orders[run.order.value].modified.Some? ==>
      var n := orders[run.order.value].modified.value;
      n > 0 && run.request.Some? && Accepted(run.request.value, Modify(Some(n))) in log
  }

  ghost predicate RunIds(orders: map<OrderId, OrderRow>, owner: map<RequestId, RunId>, k: RunId, run: Run) {
    && (run.order.Some? ==> run.order.value in orders)
    && (run.request.Some? ==> run.order.Some? && run.request.value in owner && owner[run.request.value] == k)
  }

  ghost predicate RunFits(cfg: Config, orders: map<OrderId, OrderRow>, owner: map<RequestId, RunId>, log: seq<LogEntry>,
                          k: RunId, run: Run)
  {
    RunIds(orders, owner, k, run) && RowSafe(orders, log, run) && PointSafe(cfg, log, k, run)
  }

  ghost predicate RunSafe(cfg: Config, s: System, k: RunId)
    requires k in s.runs
  {
    RunFits(cfg, s.orders, s.owner, s.log, k, s.runs[k])
  }

  ghost predicate RunsSafe(cfg: Config, orders: map<OrderId, OrderRow>, owner: map<RequestId, RunId>,
                           log: seq<LogEntry>,
                           runs: map<RunId, Run>)
  {
    forall k :: k in runs ==> RunFits(cfg, orders, owner, log, k, runs[k])
  }

  predicate AutoSide(cfg: Config, run: Run) {
    cfg.approval.humanApprovalRequired ==> JobSide(run.job) == OrderSide.Sell
  }

  // ---- The whole system ----

  ghost predicate OrdersBounded(orders: map<OrderId, OrderRow>, nextOrder: OrderId) {
    forall o :: o in orders ==> o < nextOrder
  }

  ghost predicate OrdersDistinct(runs: map<RunId, Run>) {
    forall j, k :: j in runs && k in runs && j != k && runs[j].order.Some? ==> runs[j].order != runs[k].order
  }

  ghost predicate OwnersKnown(runs: map<RunId, Run>, owner: map<RequestId, RunId>) {
    forall r :: r in owner ==> owner[r] in runs && runs[owner[r]].request == Some(r)
  }

  ghost predicate RequestsOwned(runs: map<RunId, Run>, owner: map<RequestId, RunId>,
                                requests: map<RequestId, RequestRow>)
  {
    forall r :: r in requests ==> r in owner && owner[r] in runs && runs[owner[r]].order == Some(requests[r].orderId)
  }

  ghost predicate IdsSafe(runs: map<RunId, Run>, orders: map<OrderId, OrderRow>, nextOrder: OrderId,
                          owner: map<RequestId, RunId>, requests: map<RequestId, RequestRow>)
  {
    OrdersBounded(orders, nextOrder) && OrdersDistinct(runs) && OwnersKnown(runs, owner)
      && RequestsOwned(runs, owner, requests)
  }

  ghost predicate InboxSafe(inbox: Inbox, owner: map<RequestId, RunId>, log: seq<LogEntry>) {
    && (forall r :: r in inbox.events ==> r in owner && Registered(owner[r], r) in log)
    && (forall r :: r in inbox.results ==>
          && inbox.results[r] in {ApprovalStatus.Approved, ApprovalStatus.Rejected}
          && (inbox.results[r] == ApprovalStatus.Approved ==> r in owner && ApprovedFor(log, owner[r], r)))
  }

  ghost predicate CallbackSafe(owner: map<RequestId, RunId>, log: seq<LogEntry>, cb: Callback) {
    && Decide(cb.tap) == Some(cb.answer)
    && cb.request in owner
    && Before(log, Registered(owner[cb.request], cb.request), Accepted(cb.request, cb.tap))
  }

  ghost predicate CallbacksSafe(owner: map<RequestId, RunId>, log: seq<LogEntry>, callbacks: map<CallbackId, Callback>)
  {
    forall c :: c in callbacks ==> CallbackSafe(owner, log, callbacks[c])
  }

  /** Everything that has to precede a broker call. */
  ghost predicate CallSafe(cfg: Config, log: seq<LogEntry>, runs: map<RunId, Run>, call: LogEntry)
    requires call.Called?
  {
    var k := call.run;
    && k in runs && call.side == JobSide(runs[k].job) && call.quantity > 0
    && (exists v :: v != WebVerifyResult.Blocked && Before(log, Verified(k, v), call))
    && Verified(k, WebVerifyResult.Blocked) !in log
    && (cfg.approval.humanApprovalRequired && call.side == OrderSide.Buy ==> HumanApproved(log, k, call))
    && QuantityExplained(log, runs[k], call)
  }

  /** Registration, then an approving tap for the same request, then the call. */
  ghost predicate HumanApproved(log: seq<LogEntry>, k: RunId, call: LogEntry) {
    exists r, tap ::
      Approving(tap) && Before(log, Registered(k, r), Accepted(r, tap)) && Before(log, Accepted(r, tap), call)
  }

  ghost predicate CallsSafe(cfg: Config, log: seq<LogEntry>, runs: map<RunId, Run>) {
    forall call :: call in log && call.Called? ==> CallSafe(cfg, log, runs, call)
  }

  ghost predicate CalledOnce(log: seq<LogEntry>) {
    forall i, j :: 0 <= i < j < |log| && log[i].Called? && log[j].Called? ==> log[i].run != log[j].run
  }

  ghost predicate LogKnown(log: seq<LogEntry>, runs: map<RunId, Run>) {
    forall k, v :: Verified(k, v) in log ==> k in runs
  }

  ghost predicate Safe(cfg: Config, s: System) {
    && LogKnown(s.log, s.runs) && IdsSafe(s.runs, s.orders, s.nextOrder, s.owner, s.requests)
    && InboxSafe(s.inbox, s.owner, s.log) && CallsSafe(cfg, s.log, s.runs) && CalledOnce(s.log)
    && RunsSafe(cfg, s.orders, s.owner, s.log, s.runs) && CallbacksSafe(s.owner, s.log, s.callbacks)
  }

  // ---- What one step of a run may touch ----

  /** Log entries that a run itself writes. */
  predicate OwnEntry(e: LogEntry, k: RunId, run: Run) {
    match e
    case Verified(j, _) => j == k && run.at.Verifying?
    case Registered(j, r) => j == k && run.request == Some(r)
    case TimedOut(r) => run.request == Some(r)
    case Called(j, side, n) => j == k && side == JobSide(run.job) && n > 0 && BeforeCall(run.at)
    case Reported(j, _, _, _) => j == k
    case _ => false
  }

  /** At most one order row is written: the run's own, keeping side and quantities, or a new one for its job. */
  ghost predicate OrdersStep(s: System, t: System, run: Run) {
    || (t.orders == s.orders && t.nextOrder == s.nextOrder)
    || (&& run.order.Some? && run.order.value in s.orders && run.order.value in t.orders
        && t.orders == s.orders[run.order.value := t.orders[run.order.value]]
        && t.orders[run.order.value].modified == s.orders[run.order.value].modified
        && t.orders[run.order.value].side == s.orders[run.order.value].side
        && t.orders[run.order.value].quantity == s.orders[run.order.value].quantity
        && t.nextOrder == s.nextOrder)
    || (&& run.order.None? && s.nextOrder in t.orders && t.orders == s.orders[s.nextOrder := t.orders[s.nextOrder]]
        && t.orders[s.nextOrder].modified.None? && t.nextOrder == s.nextOrder + 1
        && t.orders[s.nextOrder].side == JobSide(run.job) && t.orders[s.nextOrder].quantity == JobQuantity(run.job))
  }

  /** At most one request row is written: the run's own, pointing at its own order. */
  ghost predicate RequestsStep(s: System, t: System, run: Run) {
    || t.requests == s.requests
    || (&& run.request.Some? && run.order.Some? && run.request.value in t.requests
        && t.requests == s.requests[run.request.value := t.requests[run.request.value]]
        && (|| t.requests[run.request.value].orderId == run.order.value
            || (&& run.request.value in s.requests
                && t.requests[run.request.value].orderId == s.requests[run.request.value].orderId)))
  }

  ghost predicate InboxStep(s: System, t: System, k: RunId, run: Run) {
    || t.inbox == s.inbox
    || (run.request.Some? && t.inbox == Forget(s.inbox, run.request.value))
    || (&& run.request.Some? && t.inbox == Register(s.inbox, run.request.value)
        && t.log == s.log + [Registered(k, run.request.value)])
  }

  ghost predicate IdStep(s: System, t: System, k: RunId, run: Run, next: Run) {
    && next.job == run.job
    && (next.order == run.order
        || (run.order.None? && next.order == Some(s.nextOrder) && t.nextOrder == s.nextOrder + 1))
    && (|| (next.request == run.request && t.owner == s.owner)
        || (&& run.request.None? && run.order.Some? && next.request.Some? && next.request.value !in s.owner
            && t.owner == s.owner[next.request.value := k]))
  }

  ghost predicate LogStep(s: System, t: System, k: RunId, run: Run) {
    t.log == s.log || (|t.log| == |s.log| + 1 && t.log == s.log + [t.log[|s.log|]] && OwnEntry(t.log[|s.log|], k, run))
  }

  /** At most one execution row is added, for the run's own order. */
  ghost predicate ExecutionsStep(s: System, t: System, run: Run) {
    || t.executions == s.executions
    || (&& run.order.Some? && run.at.Recording?
        && t.executions == s.executions + [ExecutionRow(run.order.value, run.at.fill)])
  }

  ghost predicate RunStep(s: System, t: System, k: RunId) {
    && k in s.runs && k in t.runs && t.runs == s.runs[k := t.runs[k]] && t.callbacks == s.callbacks
    && ExecutionsStep(s, t, s.runs[k])
    && OrdersStep(s, t, s.runs[k]) && RequestsStep(s, t, s.runs[k])
    && InboxStep(s, t, k, s.runs[k]) && IdStep(s, t, k, s.runs[k], t.runs[k]) && LogStep(s, t, k, s.runs[k])
  }

  // ---- Every segment of a run is such a step ----

  /** A run that moved on without touching ids. */
  ghost predicate SameIds(run: Run, next: Run) {
    next.job == run.job && next.order == run.order && next.request == run.request
  }

  lemma MoveStep(s: System, k: RunId, next: Run)
    requires k in s.runs && SameIds(s.runs[k], next)
    ensures RunStep(s, Move(s, k, next), k)
  {
  }

  /** A run that moved on, with at most its inbox entries and the log changed beside it. */
  lemma QuietStep(s: System, inbox: Inbox, log: seq<LogEntry>, k: RunId, next: Run)
    requires k in s.runs && SameIds(s.runs[k], next)
    requires inbox == s.inbox || (next.request.Some? && inbox == Forget(s.inbox, next.request.value))
    requires log == s.log || exists e :: log == s.log + [e] && OwnEntry(e, k, s.runs[k])
    ensures RunStep(s, s.(runs := s.runs[k := next], inbox := inbox, log := log), k)
  {
  }

  lemma CallStep(s: System, inbox: Inbox, k: RunId, next: Run, quantity: int)
    requires k in s.runs && SameIds(s.runs[k], next) && BeforeCall(s.runs[k].at)
    requires inbox == s.inbox || (next.request.Some? && inbox == Forget(s.inbox, next.request.value))
    ensures RunStep(s, CallBroker(s.(inbox := inbox), k, next, quantity), k)
  {
    if quantity <= 0 {
      QuietStep(s, inbox, s.log, k, next.(at := Recovering));
    } else {
      var e := Called(k, JobSide(next.job), quantity);
      assert OwnEntry(e, k, s.runs[k]);
      QuietStep(s, inbox, s.log + [e], k, next.(at := Placing(quantity)));
    }
  }

  lemma ApprovalStep(s: System, inbox: Inbox, k: RunId, status: ApprovalStatus)
    requires k in s.runs && BeforeCall(s.runs[k].at)
    requires inbox == s.inbox || (s.runs[k].request.Some? && inbox == Forget(s.inbox, s.runs[k].request.value))
    ensures RunStep(s, AfterApproval(s.(inbox := inbox), k, s.runs[k], status), k)
  {
    CallStep(s, inbox, k, s.runs[k].(approval := Some(status)), JobQuantity(s.runs[k].job));
  }

  lemma VerdictStep(s: System, k: RunId, v: WebVerifyResult)
    requires k in s.runs && s.runs[k].at.Verifying?
    ensures RunStep(s, Note(Move(s, k, s.runs[k].(verdict := Some(v), at := SavingVerdict)), Verified(k, v)), k)
  {
  }

  lemma RequestStep(cfg: Config, s: System, k: RunId, totalValue: real, r: RequestId)
    requires k in s.runs && s.runs[k].order.Some? && s.runs[k].request.None? && r !in s.owner
    ensures RunStep(s, RequestApproval(cfg, s, k, s.runs[k], totalValue, r), k)
  {
  }

  lemma AnnounceStep(s: System, k: RunId, r: RequestId)
    requires k in s.runs && s.runs[k].request == Some(r)
    ensures RunStep(s, Announce(s, k, s.runs[k], r), k)
  {
  }

  lemma TakeFillStep(s: System, k: RunId, sent: int, reply: Reply)
    requires k in s.runs && reply.Broker?
    ensures RunStep(s, TakeFill(s, k, s.runs[k], sent, reply), k)
  {
    var e := Reported(k, reply.filledPrice, reply.filledQuantity, reply.commission);
    var t := TakeFill(s, k, s.runs[k], sent, reply);
    assert OwnEntry(e, k, s.runs[k]);
    QuietStep(s, s.inbox, s.log + [e], k, t.runs[k]);
    QuietStep(s, s.inbox, s.log, k, t.runs[k]);
  }

  lemma ReadOrderStep(s: System, k: RunId, row: OrderRow)
    requires k in s.runs && BeforeCall(s.runs[k].at)
    ensures RunStep(s, ReadOrder(s, k, s.runs[k], row), k)
  {
    assert s.(inbox := s.inbox) == s;
    CallStep(s, s.inbox, k, s.runs[k], JobQuantity(s.runs[k].job));
  }

  lemma RecheckStep(cfg: Config, s: System, k: RunId, modified: int, state: RiskGate.PortfolioState)
    requires k in s.runs && BeforeCall(s.runs[k].at)
    ensures RunStep(s, Recheck(cfg, s, k, s.runs[k], modified, state), k)
  {
    var run := s.runs[k];
    var result := RecheckResult(cfg, run, modified, state);
    assert s.(inbox := s.inbox) == s;
    CallStep(s, s.inbox, k, run, RecheckedQuantity(result.adjustedQuantity, modified));
    MoveStep(s, k, run.(at := Cancelling));
  }

  lemma RequestingStep(cfg: Config, s: System, k: RunId, row: OrderRow, reply: Reply)
    requires k in s.runs && RunSafe(cfg, s, k) && s.runs[k].order.Some?
    requires s.runs[k].at.Verifying? || s.runs[k].at.LoadingPortfolio? || s.runs[k].at.Announcing?
    ensures var t := ResumeOutside(cfg, s, k, s.runs[k], row, reply); t == s || RunStep(s, t, k)
  {
    var run := s.runs[k];
    if run.at.Verifying? {
      if reply.Verdict? { VerdictStep(s, k, reply.result); }
    } else if run.at.LoadingPortfolio? {
      if reply.Portfolio? && reply.requestId !in s.owner { RequestStep(cfg, s, k, reply.totalValue, reply.requestId); }
    } else if run.request.Some? {
      AnnounceStep(s, k, run.request.value);
    }
  }

  lemma NotifiedStep(cfg: Config, s: System, k: RunId, row: OrderRow, reply: Reply)
    requires k in s.runs && (s.runs[k].at.NotifyingAuto? || s.runs[k].at.NotifyingTimeout?)
    ensures var t := ResumeOutside(cfg, s, k, s.runs[k], row, reply); t == s || RunStep(s, t, k)
  {
    var run := s.runs[k];
    if run.at.NotifyingAuto? {
      assert s.(inbox := s.inbox) == s;
      ApprovalStep(s, s.inbox, k, ApprovalStatus.AutoApproved);
    } else if run.request.Some? {
      ApprovalStep(s, Forget(s.inbox, run.request.value), k, ApprovalStatus.Timeout);
    }
  }

  lemma OutsideStep(cfg: Config, s: System, k: RunId, row: OrderRow, reply: Reply)
    requires k in s.runs && RunSafe(cfg, s, k) && s.runs[k].order.Some?
    ensures var t := ResumeOutside(cfg, s, k, s.runs[k], row, reply); t == s || RunStep(s, t, k)
  {
    var run := s.runs[k];
    if run.at.Verifying? || run.at.LoadingPortfolio? || run.at.Announcing? {
      RequestingStep(cfg, s, k, row, reply);
    } else if run.at.NotifyingAuto? || run.at.NotifyingTimeout? {
      NotifiedStep(cfg, s, k, row, reply);
    } else if run.at.ReadingOrder? {
      ReadOrderStep(s, k, row);
    } else if run.at.Rechecking? {
      if reply.RiskView? { RecheckStep(cfg, s, k, run.at.modified, reply.state); }
    } else if run.at.Placing? {
      if reply.Broker? { TakeFillStep(s, k, run.at.quantity, reply); }
    }
  }

  lemma WriteOrderStep(s: System, k: RunId, o: OrderId, row: OrderRow, reply: Reply, next: Point)
    requires k in s.runs && s.runs[k].order == Some(o) && o in s.orders && row.modified == s.orders[o].modified
    requires row.side == s.orders[o].side && row.quantity == s.orders[o].quantity
    ensures var t := WriteOrder(s, k, s.runs[k], o, row, reply, next); t == s || RunStep(s, t, k)
  {
  }

  lemma InsertRequestStep(s: System, k: RunId, o: OrderId, r: RequestId, status: RequestStatus, reply: Reply,
                          next: Point)
    requires k in s.runs && s.runs[k].order == Some(o) && s.runs[k].request == Some(r) && o in s.orders
    ensures var t := InsertRequest(s, k, s.runs[k], o, r, status, reply, next); t == s || RunStep(s, t, k)
  {
  }

  lemma WriteTimeoutStep(s: System, k: RunId, o: OrderId, r: RequestId, reply: Reply)
    requires k in s.runs && s.runs[k].order == Some(o) && s.runs[k].request == Some(r) && o in s.orders
    ensures var t := WriteTimeout(s, k, s.runs[k], o, r, reply); t == s || RunStep(s, t, k)
  {
  }

  lemma RecordStep(s: System, k: RunId, o: OrderId, fill: Fill, reply: Reply)
    requires k in s.runs && s.runs[k].order == Some(o) && s.runs[k].at == Recording(fill)
    ensures var t := RecordExecution(s, k, s.runs[k], o, fill, reply); t == s || RunStep(s, t, k)
  {
  }

  lemma RecoverStep(s: System, k: RunId, o: OrderId, reply: Reply)
    requires k in s.runs && s.runs[k].order == Some(o) && o in s.orders
    ensures var t := Recover(s, k, s.runs[k], o, s.orders[o], reply); t == s || RunStep(s, t, k)
  {
  }

  lemma WriteStep(s: System, k: RunId, o: OrderId, reply: Reply)
    requires k in s.runs && s.runs[k].order == Some(o) && o in s.orders
    ensures var t := ResumeWrite(s, k, s.runs[k], o, s.orders[o], reply); t == s || RunStep(s, t, k)
  {
    var run, row := s.runs[k], s.orders[o];
    match run.at {
      case SavingVerdict =>
        WriteOrderStep(s, k, o, row, reply, AfterVerdict(run));
      case SavingAuto =>
        if run.request.Some? {
          InsertRequestStep(s, k, o, run.request.value, Answered(ApprovalStatus.AutoApproved), reply, NotifyingAuto);
        }
      case SavingRequest =>
        if run.request.Some? { InsertRequestStep(s, k, o, run.request.value, Waiting, reply, Announcing); }
      case SavingTimeout =>
        if run.request.Some? { WriteTimeoutStep(s, k, o, run.request.value, reply); }
      case Cancelling =>
        WriteOrderStep(s, k, o, row.(status := OrderStatus.Cancelled), reply, Done(Unsuccessful));
      case SavingFailure =>
        WriteOrderStep(s, k, o, row.(status := OrderStatus.Failed), reply, Done(Unsuccessful));
      case Recording(fill) =>
        RecordStep(s, k, o, fill, reply);
      case SavingFill(fill) =>
        WriteOrderStep(s, k, o, WithFill(row, fill), reply, Done(Executed(fill)));
      case Recovering =>
        RecoverStep(s, k, o, reply);
      case _ =>
    }
  }

  lemma InsertOrderStep(s: System, k: RunId, reply: Reply)
    requires k in s.runs && s.runs[k].order.None?
    ensures var t := InsertOrder(s, k, s.runs[k], reply); t == s || RunStep(s, t, k)
  {
  }

  lemma AnswerStep(s: System, k: RunId, r: RequestId)
    requires k in s.runs && s.runs[k].request == Some(r) && BeforeCall(s.runs[k].at)
    ensures var t := TakeAnswer(s, k, s.runs[k], r); t == s || RunStep(s, t, k)
  {
    ApprovalStep(s, Forget(s.inbox, r), k, Response(s.inbox, r));
    MoveStep(s, k, s.runs[k].(at := SavingTimeout));
  }

  lemma ResumeIsStep(cfg: Config, s: System, k: RunId, reply: Reply)
    requires k in s.runs && RunSafe(cfg, s, k)
    ensures var t := Next(cfg, s, Resume(k, reply)); t == s || RunStep(s, t, k)
  {
    var run := s.runs[k];
    if run.at.Creating? {
      InsertOrderStep(s, k, reply);
    } else if run.order.Some? && run.order.value in s.orders {
      if AwaitsOutside(run.at) {
        OutsideStep(cfg, s, k, s.orders[run.order.value], reply);
        MoveStep(s, k, run.(at := Recovering));
      } else if run.at.AwaitingAnswer? {
        if run.request.Some? { AnswerStep(s, k, run.request.value); }
      } else {
        WriteStep(s, k, run.order.value, reply);
      }
    }
  }

  lemma TimerIsStep(cfg: Config, s: System, k: RunId)
    requires k in s.runs
    ensures var t := Next(cfg, s, TimerFires(k)); t == s || RunStep(s, t, k)
  {
  }

  // ---- What such a step keeps ----

  lemma LogGrows(s: System, t: System, k: RunId, run: Run)
    requires LogStep(s, t, k, run)
    ensures Extends(s.log, t.log) && forall e :: e in s.log ==> e in t.log
  {
  }

  lemma ApprovedStays(cfg: Config, s: System, t: System, k: RunId, j: RunId, run: Run)
    requires Extends(s.log, t.log) && Approved(cfg, s.log, j, run)
    ensures Approved(cfg, t.log, j, run)
  {
    if run.request.Some? && ApprovedFor(s.log, j, run.request.value) {
      ApprovedGrows(s.log, t.log, j, run.request.value);
    }
  }

  /** A run that did not move stays safe as long as nobody logged for it. */
  lemma PointStays(cfg: Config, s: System, t: System, j: RunId, run: Run)
    requires PointSafe(cfg, s.log, j, run) && Extends(s.log, t.log)
    requires forall e :: e in t.log && e !in s.log ==> !e.Verified? || e.run != j
    requires forall e :: e in t.log && e !in s.log ==> !e.Called? || e.run != j
    ensures PointSafe(cfg, t.log, j, run)
  {
    assert forall e :: e in s.log ==> e in t.log;
    if run.at.ReadingOrder? || run.at.Rechecking? {
      ApprovedStays(cfg, s, t, j, j, run);
    }
  }

  lemma OtherRunKeeps(cfg: Config, s: System, t: System, k: RunId, j: RunId)
    requires IdsSafe(s.runs, s.orders, s.nextOrder, s.owner, s.requests) && k in s.runs && RunSafe(cfg, s, k)
    requires RunStep(s, t, k)
    requires j in s.runs && j != k && RunSafe(cfg, s, j)
    ensures RunSafe(cfg, t, j)
  {
    LogGrows(s, t, k, s.runs[k]);
    PointStays(cfg, s, t, j, s.runs[j]);
    if s.runs[j].order.Some? {
      assert s.runs[j].order != s.runs[k].order;
      assert s.runs[j].order.value < s.nextOrder;
      assert t.orders[s.runs[j].order.value] == s.orders[s.runs[j].order.value];
    }
  }

  lemma OwnIdsKeep(s: System, t: System, k: RunId)
    requires k in s.runs && RunIds(s.orders, s.owner, k, s.runs[k]) && RowSafe(s.orders, s.log, s.runs[k])
    requires RunStep(s, t, k)
    ensures RunIds(t.orders, t.owner, k, t.runs[k]) && RowSafe(t.orders, t.log, t.runs[k])
  {
    LogGrows(s, t, k, s.runs[k]);
  }

  lemma OrdersKeep(s: System, t: System, k: RunId)
    requires k in s.runs && OrdersBounded(s.orders, s.nextOrder) && OrdersDistinct(s.runs) && RunStep(s, t, k)
    requires forall j :: j in s.runs ==> RunIds(s.orders, s.owner, j, s.runs[j])
    ensures OrdersBounded(t.orders, t.nextOrder) && OrdersDistinct(t.runs)
  {
    forall i, j | i in t.runs && j in t.runs && i != j && t.runs[i].order.Some?
      ensures t.runs[i].order != t.runs[j].order
    {
      assert RunIds(s.orders, s.owner, i, s.runs[i]) && RunIds(s.orders, s.owner, j, s.runs[j]);
    }
  }

  lemma OwnersKeep(s: System, t: System, k: RunId)
    requires k in s.runs && OwnersKnown(s.runs, s.owner) && RequestsOwned(s.runs, s.owner, s.requests)
    requires RunIds(s.orders, s.owner, k, s.runs[k]) && RunStep(s, t, k)
    ensures OwnersKnown(t.runs, t.owner) && RequestsOwned(t.runs, t.owner, t.requests)
  {
    forall r | r in t.requests
      ensures r in t.owner && t.owner[r] in t.runs && t.runs[t.owner[r]].order == Some(t.requests[r].orderId)
    {
      assert r in s.requests || s.runs[k].request == Some(r);
    }
  }

  lemma IdsKeep(cfg: Config, s: System, t: System, k: RunId)
    requires IdsSafe(s.runs, s.orders, s.nextOrder, s.owner, s.requests) && k in s.runs && RunSafe(cfg, s, k)
    requires RunStep(s, t, k)
    requires forall j :: j in s.runs ==> RunIds(s.orders, s.owner, j, s.runs[j])
    ensures IdsSafe(t.runs, t.orders, t.nextOrder, t.owner, t.requests)
    ensures RunIds(t.orders, t.owner, k, t.runs[k]) && RowSafe(t.orders, t.log, t.runs[k])
  {
    OwnIdsKeep(s, t, k);
    OrdersKeep(s, t, k);
    OwnersKeep(s, t, k);
  }

  lemma InboxKeeps(s: System, t: System, k: RunId)
    requires k in s.runs && RunStep(s, t, k) && InboxSafe(s.inbox, s.owner, s.log)
    requires s.runs[k].request.Some? ==> s.runs[k].request.value in s.owner && s.owner[s.runs[k].request.value] == k
    ensures InboxSafe(t.inbox, t.owner, t.log)
  {
    LogGrows(s, t, k, s.runs[k]);
    forall r | r in t.inbox.results && t.inbox.results[r] == ApprovalStatus.Approved
      ensures r in t.owner && ApprovedFor(t.log, t.owner[r], r)
    {
      ApprovedGrows(s.log, t.log, s.owner[r], r);
    }
  }

  lemma CallbacksKeep(s: System, t: System, k: RunId, cb: Callback)
    requires k in s.runs && RunStep(s, t, k) && CallbackSafe(s.owner, s.log, cb)
    ensures CallbackSafe(t.owner, t.log, cb)
  {
    LogGrows(s, t, k, s.runs[k]);
    BeforeGrows(s.log, t.log, Registered(s.owner[cb.request], cb.request), Accepted(cb.request, cb.tap));
  }

  lemma HumanStays(log: seq<LogEntry>, longer: seq<LogEntry>, k: RunId, call: LogEntry)
    requires Extends(log, longer) && HumanApproved(log, k, call)
    ensures HumanApproved(longer, k, call)
  {
    var r, tap :| Approving(tap) && Before(log, Registered(k, r), Accepted(r, tap))
      && Before(log, Accepted(r, tap), call);
    BeforeGrows(log, longer, Registered(k, r), Accepted(r, tap));
    BeforeGrows(log, longer, Accepted(r, tap), call);
  }

  lemma VerdictStays(log: seq<LogEntry>, longer: seq<LogEntry>, k: RunId, call: LogEntry)
    requires Extends(log, longer)
    requires exists v :: v != WebVerifyResult.Blocked && Before(log, Verified(k, v), call)
    ensures exists v :: v != WebVerifyResult.Blocked && Before(longer, Verified(k, v), call)
  {
    var v :| v != WebVerifyResult.Blocked && Before(log, Verified(k, v), call);
    BeforeGrows(log, longer, Verified(k, v), call);
  }

  /** The quantity is the one asked for, or comes from an accepted modification of the run's own request. */
  ghost predicate QuantityExplained(log: seq<LogEntry>, run: Run, call: LogEntry)
    requires call.Called?
  {
    || call.quantity == JobQuantity(run.job)
    || (run.request.Some? && Before(log, Accepted(run.request.value, Modify(Some(call.quantity))), call))
  }

  lemma QuantityStays(log: seq<LogEntry>, longer: seq<LogEntry>, run: Run, next: Run, call: LogEntry)
    requires Extends(log, longer) && call.Called? && QuantityExplained(log, run, call)
    requires next.job == run.job && (run.request.Some? ==> next.request == run.request)
    ensures QuantityExplained(longer, next, call)
  {
    if call.quantity != JobQuantity(run.job) {
      BeforeGrows(log, longer, Accepted(run.request.value, Modify(Some(call.quantity))), call);
    }
  }

  lemma CallStays(cfg: Config, s: System, t: System, call: LogEntry)
    requires call.Called? && CallSafe(cfg, s.log, s.runs, call) && Extends(s.log, t.log)
    requires call.run in t.runs && t.runs[call.run].job == s.runs[call.run].job
    requires s.runs[call.run].request.Some? ==> t.runs[call.run].request == s.runs[call.run].request
    requires Verified(call.run, WebVerifyResult.Blocked) !in t.log
    ensures CallSafe(cfg, t.log, t.runs, call)
  {
    VerdictStays(s.log, t.log, call.run, call);
    QuantityStays(s.log, t.log, s.runs[call.run], t.runs[call.run], call);
    if HumanApproved(s.log, call.run, call) {
      HumanStays(s.log, t.log, call.run, call);
    }
  }

  // ---- Where the run itself ends up ----

  /** The step leaves its run in order, and a broker call it makes is safe. */
  ghost predicate Lands(cfg: Config, s: System, t: System, k: RunId) {
    && k in t.runs && PointSafe(cfg, t.log, k, t.runs[k])
    && (t.log != s.log && t.log != [] && t.log[|t.log| - 1].Called? ==>
        CallSafe(cfg, t.log, t.runs, t.log[|t.log| - 1]))
  }

  ghost predicate MayCall(cfg: Config, log: seq<LogEntry>, k: RunId, run: Run, quantity: int) {
    && Cleared(log, k, run) && Approved(cfg, log, k, run)
    && (quantity == JobQuantity(run.job) ||
        (run.request.Some? && Accepted(run.request.value, Modify(Some(quantity))) in log))
  }

  lemma NewCallSafe(cfg: Config, s: System, t: System, k: RunId, run: Run, quantity: int)
    requires quantity > 0 && PointSafe(cfg, s.log, k, run) && MayCall(cfg, s.log, k, run, quantity)
    requires k in t.runs && t.runs[k].job == run.job && t.runs[k].request == run.request
    requires t.log == s.log + [Called(k, JobSide(run.job), quantity)]
    ensures CallSafe(cfg, t.log, t.runs, Called(k, JobSide(run.job), quantity))
  {
    var call := Called(k, JobSide(run.job), quantity);
    BeforeNew(s.log, Verified(k, run.verdict.value), call);
    if cfg.approval.humanApprovalRequired && JobSide(run.job) == OrderSide.Buy {
      var r := run.request.value;
      var tap :| Approving(tap) && Before(s.log, Registered(k, r), Accepted(r, tap));
      BeforeGrows(s.log, t.log, Registered(k, r), Accepted(r, tap));
      BeforeNew(s.log, Accepted(r, tap), call);
    }
    if quantity != JobQuantity(run.job) {
      BeforeNew(s.log, Accepted(run.request.value, Modify(Some(quantity))), call);
    }
    assert Verified(k, WebVerifyResult.Blocked) !in s.log;
  }

  lemma CallLands(cfg: Config, s: System, inbox: Inbox, k: RunId, next: Run, quantity: int)
    requires k in s.runs && SameIds(s.runs[k], next) && next.verdict == s.runs[k].verdict
    requires PointSafe(cfg, s.log, k, s.runs[k]) && BeforeCall(s.runs[k].at)
    requires MayCall(cfg, s.log, k, s.runs[k], quantity)
    ensures Lands(cfg, s, CallBroker(s.(inbox := inbox), k, next, quantity), k)
  {
    var t := CallBroker(s.(inbox := inbox), k, next, quantity);
    if quantity > 0 {
      NewCallSafe(cfg, s, t, k, s.runs[k], quantity);
      assert forall v :: Verified(k, v) in t.log ==> Verified(k, v) in s.log;
      var v := s.runs[k].verdict.value;
      assert Verified(k, v) in t.log;
    }
  }

  /** Moving between points without logging, the verdict kept. */
  lemma QuietMoveLands(cfg: Config, s: System, t: System, k: RunId)
    requires k in s.runs && k in t.runs && PointSafe(cfg, s.log, k, s.runs[k]) && t.log == s.log
    requires SameIds(s.runs[k], t.runs[k]) && t.runs[k].verdict == s.runs[k].verdict
    requires s.runs[k].order.Some? && !t.runs[k].at.Creating? && !t.runs[k].at.Verifying?
    requires !t.runs[k].at.SavingVerdict?
    requires BeforeRequest(t.runs[k].at) ==> BeforeRequest(s.runs[k].at)
    requires !BeforeVerdict(t.runs[k].at) ==> Cleared(s.log, k, s.runs[k])
    requires t.runs[k].at.SavingAuto? || t.runs[k].at.NotifyingAuto? ==> AutoSide(cfg, s.runs[k])
    requires t.runs[k].at.ReadingOrder? ==> Approved(cfg, s.log, k, s.runs[k])
    requires !t.runs[k].at.Rechecking?
    requires BeforeCall(t.runs[k].at) ==> BeforeCall(s.runs[k].at)
    ensures Lands(cfg, s, t, k)
  {
  }

  lemma ApprovalLands(cfg: Config, s: System, inbox: Inbox, k: RunId, status: ApprovalStatus)
    requires k in s.runs && PointSafe(cfg, s.log, k, s.runs[k]) && s.runs[k].order.Some?
    requires BeforeCall(s.runs[k].at) && Cleared(s.log, k, s.runs[k])
    requires status == ApprovalStatus.Approved || status == ApprovalStatus.AutoApproved ==>
               Approved(cfg, s.log, k, s.runs[k])
    ensures Lands(cfg, s, AfterApproval(s.(inbox := inbox), k, s.runs[k], status), k)
  {
    var run := s.runs[k];
    var t := AfterApproval(s.(inbox := inbox), k, run, status);
    if status == ApprovalStatus.Rejected || status == ApprovalStatus.Timeout || run.job.Entry? {
      QuietMoveLands(cfg, s, t, k);
    } else {
      CallLands(cfg, s, inbox, k, run.(approval := Some(status)), JobQuantity(run.job));
    }
  }

  lemma VerdictLands(cfg: Config, s: System, k: RunId, v: WebVerifyResult)
    requires k in s.runs && PointSafe(cfg, s.log, k, s.runs[k]) && s.runs[k].at.Verifying? && s.runs[k].order.Some?
    ensures Lands(cfg, s, Note(Move(s, k, s.runs[k].(verdict := Some(v), at := SavingVerdict)), Verified(k, v)), k)
  {
    assert forall w :: Verified(k, w) !in s.log;
  }

  lemma AnnounceLands(cfg: Config, s: System, k: RunId, r: RequestId)
    requires k in s.runs && PointSafe(cfg, s.log, k, s.runs[k]) && s.runs[k].at.Announcing?
    ensures Lands(cfg, s, Announce(s, k, s.runs[k], r), k)
  {
    var t := Announce(s, k, s.runs[k], r);
    assert forall v :: Verified(k, v) in t.log <==> Verified(k, v) in s.log;
    assert forall side, n :: Called(k, side, n) in t.log <==> Called(k, side, n) in s.log;
  }

  lemma RequestLands(cfg: Config, s: System, k: RunId, totalValue: real, r: RequestId)
    requires k in s.runs && PointSafe(cfg, s.log, k, s.runs[k]) && s.runs[k].at.LoadingPortfolio? && r !in s.owner
    ensures Lands(cfg, s, RequestApproval(cfg, s, k, s.runs[k], totalValue, r), k)
  {
    BuysNeedAHuman(cfg.approval, DecisionOf(s.runs[k].job), totalValue);
    assert JobSide(s.runs[k].job) == SideOf(DecisionOf(s.runs[k].job).action);
  }

  lemma ReadOrderLands(cfg: Config, s: System, k: RunId, o: OrderId)
    requires k in s.runs && RunSafe(cfg, s, k) && s.runs[k].at.ReadingOrder? && s.runs[k].order == Some(o)
    ensures Lands(cfg, s, ReadOrder(s, k, s.runs[k], s.orders[o]), k)
  {
    assert s.(inbox := s.inbox) == s;
    if s.orders[o].modified.None? {
      CallLands(cfg, s, s.inbox, k, s.runs[k], JobQuantity(s.runs[k].job));
    }
  }

  /** The re-check sends the modified quantity unchanged; the fallback of its `or` is never needed. */
  lemma RecheckKeepsQuantity(cfg: Config, run: Run, modified: int, state: RiskGate.PortfolioState)
    requires modified > 0
    ensures var result := RecheckResult(cfg, run, modified, state);
            result.passed ==>
              result.adjustedQuantity == modified && RecheckedQuantity(result.adjustedQuantity, modified) == modified
  {
    if RecheckResult(cfg, run, modified, state).passed {
      var d := DecisionOf(run.job);
      RiskGate.PassedUnchanged(cfg.risk, state, d.symbol, RecheckAction(JobSide(run.job)), modified, JobPrice(run.job),
                               d.stop, "");
    }
  }

  lemma RecheckLands(cfg: Config, s: System, k: RunId, modified: int, state: RiskGate.PortfolioState)
    requires k in s.runs && PointSafe(cfg, s.log, k, s.runs[k]) && s.runs[k].at == Rechecking(modified)
    requires s.runs[k].order.Some?
    ensures Lands(cfg, s, Recheck(cfg, s, k, s.runs[k], modified, state), k)
  {
    var run := s.runs[k];
    RecheckKeepsQuantity(cfg, run, modified, state);
    assert s.(inbox := s.inbox) == s;
    CallLands(cfg, s, s.inbox, k, run, modified);
    QuietMoveLands(cfg, s, Move(s, k, run.(at := Cancelling)), k);
  }

  lemma RequestingLands(cfg: Config, s: System, k: RunId, row: OrderRow, reply: Reply)
    requires k in s.runs && RunSafe(cfg, s, k) && s.runs[k].order.Some?
    requires s.runs[k].at.Verifying? || s.runs[k].at.LoadingPortfolio? || s.runs[k].at.Announcing?
    ensures var t := ResumeOutside(cfg, s, k, s.runs[k], row, reply); t == s || Lands(cfg, s, t, k)
  {
    var run := s.runs[k];
    if run.at.Verifying? {
      if reply.Verdict? { VerdictLands(cfg, s, k, reply.result); }
    } else if run.at.LoadingPortfolio? {
      if reply.Portfolio? && reply.requestId !in s.owner { RequestLands(cfg, s, k, reply.totalValue, reply.requestId); }
    } else if run.request.Some? {
      AnnounceLands(cfg, s, k, run.request.value);
    }
  }

  lemma NotifiedLands(cfg: Config, s: System, k: RunId, row: OrderRow, reply: Reply)
    requires k in s.runs && RunSafe(cfg, s, k) && s.runs[k].order.Some?
    requires s.runs[k].at.NotifyingAuto? || s.runs[k].at.NotifyingTimeout?
    ensures var t := ResumeOutside(cfg, s, k, s.runs[k], row, reply); t == s || Lands(cfg, s, t, k)
  {
    var run := s.runs[k];
    if run.at.NotifyingAuto? {
      assert s.(inbox := s.inbox) == s;
      ApprovalLands(cfg, s, s.inbox, k, ApprovalStatus.AutoApproved);
    } else if run.request.Some? {
      ApprovalLands(cfg, s, Forget(s.inbox, run.request.value), k, ApprovalStatus.Timeout);
    }
  }

  lemma TakeFillLands(cfg: Config, s: System, k: RunId, sent: int, reply: Reply)
    requires k in s.runs && PointSafe(cfg, s.log, k, s.runs[k]) && s.runs[k].at.Placing? && s.runs[k].order.Some?
    requires reply.Broker?
    ensures Lands(cfg, s, TakeFill(s, k, s.runs[k], sent, reply), k)
  {
    var t := TakeFill(s, k, s.runs[k], sent, reply);
    if t.log == s.log {
      QuietMoveLands(cfg, s, t, k);
    } else {
      assert forall v :: Verified(k, v) in t.log <==> Verified(k, v) in s.log;
    }
  }

  lemma OutsideLands(cfg: Config, s: System, k: RunId, o: OrderId, reply: Reply)
    requires k in s.runs && RunSafe(cfg, s, k) && s.runs[k].order == Some(o)
    ensures var t := ResumeOutside(cfg, s, k, s.runs[k], s.orders[o], reply); t == s || Lands(cfg, s, t, k)
  {
    var run := s.runs[k];
    if run.at.Verifying? || run.at.LoadingPortfolio? || run.at.Announcing? {
      RequestingLands(cfg, s, k, s.orders[o], reply);
    } else if run.at.NotifyingAuto? || run.at.NotifyingTimeout? {
      NotifiedLands(cfg, s, k, s.orders[o], reply);
    } else if run.at.ReadingOrder? {
      ReadOrderLands(cfg, s, k, o);
    } else if run.at.Rechecking? {
      if reply.RiskView? { RecheckLands(cfg, s, k, run.at.modified, reply.state); }
    } else if run.at.Placing? {
      if reply.Broker? { TakeFillLands(cfg, s, k, run.at.quantity, reply); }
    }
  }

  lemma WriteLands(cfg: Config, s: System, k: RunId, o: OrderId, reply: Reply)
    requires k in s.runs && RunSafe(cfg, s, k) && s.runs[k].order == Some(o)
    requires !AwaitsOutside(s.runs[k].at) && !s.runs[k].at.AwaitingAnswer? && !s.runs[k].at.Creating?
    ensures var t := ResumeWrite(s, k, s.runs[k], o, s.orders[o], reply); t == s || Lands(cfg, s, t, k)
  {
    var t := ResumeWrite(s, k, s.runs[k], o, s.orders[o], reply);
    WriteMoves(cfg, s, k, o, reply);
    if t != s {
      QuietMoveLands(cfg, s, t, k);
    }
  }

  /** A database write only moves the run along, to a point its verdict and its request allow. */
  lemma WriteMoves(cfg: Config, s: System, k: RunId, o: OrderId, reply: Reply)
    requires k in s.runs && s.runs[k].order == Some(o) && o in s.orders && PointSafe(cfg, s.log, k, s.runs[k])
    requires !AwaitsOutside(s.runs[k].at) && !s.runs[k].at.AwaitingAnswer? && !s.runs[k].at.Creating?
    ensures var run, t := s.runs[k], ResumeWrite(s, k, s.runs[k], o, s.orders[o], reply);
            t != s ==>
              k in t.runs && t.log == s.log && t.runs[k] == run.(at := t.runs[k].at) && WriteTarget(run, t.runs[k].at)
  {
  }

  /** Where a write can lead. */
  predicate WriteTarget(run: Run, at: Point) {
    match run.at
    case SavingVerdict => at.Recovering? || at == AfterVerdict(run)
    case SavingAuto => at.Recovering? || at.NotifyingAuto?
    case SavingRequest => at.Recovering? || at.Announcing?
    case SavingTimeout => at.Recovering? || at.NotifyingTimeout?
    case Recording(fill) => at.Recovering? || at.SavingFill?
    case _ => at.Recovering? || at.Done?
  }

  lemma AnswerLands(cfg: Config, s: System, k: RunId, r: RequestId)
    requires k in s.runs && RunSafe(cfg, s, k) && InboxSafe(s.inbox, s.owner, s.log) && s.runs[k].at.AwaitingAnswer?
    requires s.runs[k].request == Some(r)
    ensures var t := TakeAnswer(s, k, s.runs[k], r); t == s || Lands(cfg, s, t, k)
  {
    var status := Response(s.inbox, r);
    if status == ApprovalStatus.Timeout {
      QuietMoveLands(cfg, s, Move(s, k, s.runs[k].(at := SavingTimeout)), k);
    } else {
      ApprovalLands(cfg, s, Forget(s.inbox, r), k, status);
    }
  }

  lemma ResumeLands(cfg: Config, s: System, k: RunId, reply: Reply)
    requires k in s.runs && RunSafe(cfg, s, k) && InboxSafe(s.inbox, s.owner, s.log)
    ensures var t := Next(cfg, s, Resume(k, reply)); t == s || Lands(cfg, s, t, k)
  {
    var run := s.runs[k];
    if !run.at.Creating? && run.order.Some? {
      if AwaitsOutside(run.at) {
        OutsideLands(cfg, s, k, run.order.value, reply);
        QuietMoveLands(cfg, s, Move(s, k, run.(at := Recovering)), k);
      } else if run.at.AwaitingAnswer? {
        if run.request.Some? { AnswerLands(cfg, s, k, run.request.value); }
      } else {
        WriteLands(cfg, s, k, run.order.value, reply);
      }
    }
  }

  lemma TimerLands(cfg: Config, s: System, k: RunId)
    requires k in s.runs && RunSafe(cfg, s, k)
    ensures var t := Next(cfg, s, TimerFires(k)); t == s || Lands(cfg, s, t, k)
  {
    var t := Next(cfg, s, TimerFires(k));
    if t != s {
      assert forall v :: Verified(k, v) in t.log <==> Verified(k, v) in s.log;
      assert forall side, n :: Called(k, side, n) in t.log <==> Called(k, side, n) in s.log;
    }
  }

  // ---- Every event keeps the system safe ----

  lemma CallsKeep(cfg: Config, s: System, t: System, k: RunId)
    requires CallsSafe(cfg, s.log, s.runs) && k in s.runs && RunSafe(cfg, s, k) && RunStep(s, t, k)
    requires Lands(cfg, s, t, k)
    ensures CallsSafe(cfg, t.log, t.runs)
  {
    LogGrows(s, t, k, s.runs[k]);
    forall call | call in t.log && call.Called? ensures CallSafe(cfg, t.log, t.runs, call) {
      if call in s.log {
        assert CallSafe(cfg, s.log, s.runs, call);
        assert call == Called(call.run, call.side, call.quantity);
        CallStays(cfg, s, t, call);
      } else {
        assert call == t.log[|t.log| - 1];
      }
    }
  }

  lemma OnceKeeps(cfg: Config, s: System, t: System, k: RunId)
    requires CalledOnce(s.log) && k in s.runs && RunSafe(cfg, s, k) && RunStep(s, t, k)
    ensures CalledOnce(t.log)
  {
    forall i, j | 0 <= i < j < |t.log| && t.log[i].Called? && t.log[j].Called? ensures t.log[i].run != t.log[j].run {
      assert t.log[i] == s.log[i];
      if j < |s.log| {
        assert t.log[j] == s.log[j];
      } else {
        assert t.log[i] in s.log && t.log[i] == Called(t.log[i].run, t.log[i].side, t.log[i].quantity);
      }
    }
  }

  lemma RunsKeep(cfg: Config, s: System, t: System, k: RunId)
    requires Safe(cfg, s) && k in s.runs && RunStep(s, t, k) && Lands(cfg, s, t, k)
    ensures RunsSafe(cfg, t.orders, t.owner, t.log, t.runs)
  {
    assert RunSafe(cfg, s, k);
    OwnIdsKeep(s, t, k);
    forall j | j in t.runs ensures RunFits(cfg, t.orders, t.owner, t.log, j, t.runs[j]) {
      if j != k {
        assert RunSafe(cfg, s, j);
        OtherRunKeeps(cfg, s, t, k, j);
        assert RunSafe(cfg, t, j);
      }
    }
  }

  lemma StepKeepsSafe(cfg: Config, s: System, t: System, k: RunId)
    requires Safe(cfg, s) && k in s.runs && RunStep(s, t, k) && Lands(cfg, s, t, k)
    ensures Safe(cfg, t)
  {
    assert RunSafe(cfg, s, k);
    IdsKeep(cfg, s, t, k);
    InboxKeeps(s, t, k);
    CallsKeep(cfg, s, t, k);
    OnceKeeps(cfg, s, t, k);
    RunsKeep(cfg, s, t, k);
    KnownKeeps(s, t, k);
    forall c | c in t.callbacks ensures CallbackSafe(t.owner, t.log, t.callbacks[c]) {
      CallbacksKeep(s, t, k, s.callbacks[c]);
    }
  }

  lemma KnownKeeps(s: System, t: System, k: RunId)
    requires LogKnown(s.log, s.runs) && k in s.runs && RunStep(s, t, k)
    ensures LogKnown(t.log, t.runs)
  {
  }

  lemma CallerKnown(cfg: Config, log: seq<LogEntry>, runs: map<RunId, Run>, call: LogEntry)
    requires CallsSafe(cfg, log, runs) && call in log && call.Called?
    ensures call.run in runs
  {
    assert CallSafe(cfg, log, runs, call);
  }

  lemma BeginKeepsRuns(cfg: Config, s: System, k: RunId, job: Job)
    requires Safe(cfg, s) && k !in s.runs
    ensures RunsSafe(cfg, s.orders, s.owner, s.log, s.runs[k := Run(job, Creating, None, None, None, None)])
  {
    forall side, n ensures Called(k, side, n) !in s.log {
      if Called(k, side, n) in s.log { CallerKnown(cfg, s.log, s.runs, Called(k, side, n)); }
    }
  }

  lemma BeginKeepsCalls(cfg: Config, log: seq<LogEntry>, runs: map<RunId, Run>, k: RunId, run: Run)
    requires CallsSafe(cfg, log, runs) && k !in runs
    ensures CallsSafe(cfg, log, runs[k := run])
  {
    forall call | call in log && call.Called? ensures CallSafe(cfg, log, runs[k := run], call) {
      assert CallSafe(cfg, log, runs, call);
    }
  }

  lemma BeginKeepsIds(s: System, k: RunId, run: Run)
    requires IdsSafe(s.runs, s.orders, s.nextOrder, s.owner, s.requests) && k !in s.runs && run.order.None?
    ensures IdsSafe(s.runs[k := run], s.orders, s.nextOrder, s.owner, s.requests)
  {
    var runs := s.runs[k := run];
    assert OwnersKnown(runs, s.owner);
    assert RequestsOwned(runs, s.owner, s.requests);
  }

  lemma BeginKeepsSafe(cfg: Config, s: System, k: RunId, job: Job)
    requires Safe(cfg, s)
    ensures Safe(cfg, Next(cfg, s, Begin(k, job)))
  {
    if k !in s.runs {
      BeginKeepsRuns(cfg, s, k, job);
      BeginKeepsIds(s, k, Run(job, Creating, None, None, None, None));
      BeginKeepsCalls(cfg, s.log, s.runs, k, Run(job, Creating, None, None, None, None));
    }
  }

  /** Log entries that only callbacks write. */
  predicate CallbackEntry(e: LogEntry) { e.Accepted? || e.AnswerLost? }

  lemma EntryKeepsRuns(cfg: Config, s: System, e: LogEntry)
    requires RunsSafe(cfg, s.orders, s.owner, s.log, s.runs) && CallbackEntry(e)
    ensures RunsSafe(cfg, s.orders, s.owner, s.log + [e], s.runs)
  {
    var t := Note(s, e);
    forall k | k in s.runs ensures RunFits(cfg, s.orders, s.owner, t.log, k, s.runs[k]) {
      assert RunFits(cfg, s.orders, s.owner, s.log, k, s.runs[k]);
      PointStays(cfg, s, t, k, s.runs[k]);
    }
  }

  lemma EntryKeepsCalls(cfg: Config, s: System, e: LogEntry)
    requires CallsSafe(cfg, s.log, s.runs) && CalledOnce(s.log) && LogKnown(s.log, s.runs) && CallbackEntry(e)
    ensures CallsSafe(cfg, s.log + [e], s.runs) && CalledOnce(s.log + [e]) && LogKnown(s.log + [e], s.runs)
  {
    var t := Note(s, e);
    forall call | call in t.log && call.Called? ensures CallSafe(cfg, t.log, t.runs, call) {
      assert CallSafe(cfg, s.log, s.runs, call);
      CallStays(cfg, s, t, call);
    }
  }

  lemma EntryKeepsInbox(inbox: Inbox, owner: map<RequestId, RunId>, log: seq<LogEntry>, e: LogEntry)
    requires InboxSafe(inbox, owner, log)
    ensures InboxSafe(inbox, owner, log + [e])
  {
    forall r | r in inbox.results && inbox.results[r] == ApprovalStatus.Approved
      ensures r in owner && ApprovedFor(log + [e], owner[r], r)
    {
      ApprovedGrows(log, log + [e], owner[r], r);
    }
  }

  lemma EntryKeepsCallbacks(owner: map<RequestId, RunId>, log: seq<LogEntry>, callbacks: map<CallbackId, Callback>,
                            e: LogEntry)
    requires CallbacksSafe(owner, log, callbacks)
    ensures CallbacksSafe(owner, log + [e], callbacks)
  {
    forall c | c in callbacks ensures CallbackSafe(owner, log + [e], callbacks[c]) {
      var cb := callbacks[c];
      assert CallbackSafe(owner, log, cb);
      BeforeGrows(log, log + [e], Registered(owner[cb.request], cb.request), Accepted(cb.request, cb.tap));
    }
  }

  lemma NoteKeepsSafe(cfg: Config, s: System, e: LogEntry)
    requires Safe(cfg, s) && CallbackEntry(e)
    ensures Safe(cfg, Note(s, e))
  {
    EntryKeepsRuns(cfg, s, e);
    EntryKeepsCalls(cfg, s, e);
    EntryKeepsInbox(s.inbox, s.owner, s.log, e);
    EntryKeepsCallbacks(s.owner, s.log, s.callbacks, e);
  }

  lemma AddCallback(cfg: Config, s: System, c: CallbackId, cb: Callback)
    requires Safe(cfg, s) && CallbackSafe(s.owner, s.log, cb)
    ensures Safe(cfg, s.(callbacks := s.callbacks[c := cb]))
  {
    var callbacks := s.callbacks[c := cb];
    forall d | d in callbacks ensures CallbackSafe(s.owner, s.log, callbacks[d]) {
      assert d != c ==> CallbackSafe(s.owner, s.log, s.callbacks[d]);
    }
  }

  lemma TapFits(inbox: Inbox, owner: map<RequestId, RunId>, log: seq<LogEntry>, cb: Callback)
    requires InboxSafe(inbox, owner, log) && cb.request in inbox.events && Decide(cb.tap) == Some(cb.answer)
    ensures CallbackSafe(owner, log + [Accepted(cb.request, cb.tap)], cb)
  {
    BeforeNew(log, Registered(owner[cb.request], cb.request), Accepted(cb.request, cb.tap));
  }

  lemma AcceptKeepsSafe(cfg: Config, s: System, c: CallbackId, cb: Callback)
    requires Safe(cfg, s) && cb.request in s.inbox.events && Decide(cb.tap) == Some(cb.answer)
    ensures Safe(cfg, Note(s.(callbacks := s.callbacks[c := cb]), Accepted(cb.request, cb.tap)))
  {
    var t := Note(s, Accepted(cb.request, cb.tap));
    TapFits(s.inbox, s.owner, s.log, cb);
    NoteKeepsSafe(cfg, s, Accepted(cb.request, cb.tap));
    AddCallback(cfg, t, c, cb);
    assert t.(callbacks := t.callbacks[c := cb])
           == Note(s.(callbacks := s.callbacks[c := cb]), Accepted(cb.request, cb.tap));
  }

  lemma TapKeepsSafe(cfg: Config, s: System, c: CallbackId, r: RequestId, tap: Tap)
    requires Safe(cfg, s)
    ensures Safe(cfg, AcceptTap(s, c, r, tap))
  {
    if c !in s.callbacks && r in s.inbox.events && Decide(tap).Some? {
      AcceptKeepsSafe(cfg, s, c, Callback(r, tap, Decide(tap).value, Saving));
    }
  }

  /** A callback writes to the order row of the run its request belongs to, and only a quantity its tap named. */
  lemma ApplyKeepsRow(s: System, cb: Callback, k: RunId)
    requires k in s.runs && RunIds(s.orders, s.owner, k, s.runs[k]) && RowSafe(s.orders, s.log, s.runs[k])
    requires OrdersDistinct(s.runs) && OwnersKnown(s.runs, s.owner) && RequestsOwned(s.runs, s.owner, s.requests)
    requires CallbackSafe(s.owner, s.log, cb)
    ensures RowSafe(ApplyAnswer(s, cb.request, cb.answer).orders, s.log, s.runs[k])
  {
    if cb.request in s.requests && s.runs[k].order == Some(s.requests[cb.request].orderId) {
      assert s.owner[cb.request] == k;
      if cb.answer.modified.Some? {
        assert cb.tap == Modify(cb.answer.modified);
        assert Accepted(cb.request, cb.tap) in s.log;
      }
    }
  }

  lemma ApplyKeepsIds(s: System, r: RequestId, answer: Answer)
    requires IdsSafe(s.runs, s.orders, s.nextOrder, s.owner, s.requests)
    ensures var t := ApplyAnswer(s, r, answer);
            IdsSafe(s.runs, t.orders, s.nextOrder, s.owner, t.requests) && t.orders.Keys == s.orders.Keys
  {
    var t := ApplyAnswer(s, r, answer);
    assert t.orders.Keys == s.orders.Keys;
    assert OrdersBounded(t.orders, s.nextOrder);
    assert RequestsOwned(s.runs, s.owner, t.requests);
  }

  lemma ApplyKeepsSafe(cfg: Config, s: System, cb: Callback)
    requires Safe(cfg, s) && CallbackSafe(s.owner, s.log, cb)
    ensures Safe(cfg, ApplyAnswer(s, cb.request, cb.answer))
  {
    var t := ApplyAnswer(s, cb.request, cb.answer);
    ApplyKeepsIds(s, cb.request, cb.answer);
    forall k | k in t.runs ensures RunFits(cfg, t.orders, t.owner, t.log, k, t.runs[k]) {
      assert RunFits(cfg, s.orders, s.owner, s.log, k, s.runs[k]);
      ApplyKeepsRow(s, cb, k);
    }
  }

  lemma SignalKeepsInbox(inbox: Inbox, owner: map<RequestId, RunId>, log: seq<LogEntry>, cb: Callback)
    requires InboxSafe(inbox, owner, log) && CallbackSafe(owner, log, cb)
    ensures InboxSafe(Signal(inbox, cb.request, cb.answer), owner, log)
  {
    if cb.answer.status == ApprovalStatus.Approved {
      assert Approving(cb.tap);
    }
  }

  lemma WritingKeepsSafe(cfg: Config, s: System, c: CallbackId, reply: Reply)
    requires Safe(cfg, s) && c in s.callbacks && s.callbacks[c].at.Saving? && reply.Written?
    requires (reply.applied || !reply.raised)
    ensures Safe(cfg, ResumeAnswer(s, c, s.callbacks[c], reply))
  {
    var cb := s.callbacks[c];
    var t := ApplyAnswer(s, cb.request, cb.answer);
    assert CallbackSafe(s.owner, s.log, cb);
    ApplyKeepsSafe(cfg, s, cb);
    AddCallback(cfg, t, c, cb.(at := Notifying));
    assert ResumeAnswer(s, c, cb, reply) == t.(callbacks := t.callbacks[c := cb.(at := Notifying)]);
  }

  lemma LosingKeepsSafe(cfg: Config, s: System, c: CallbackId, reply: Reply)
    requires Safe(cfg, s) && c in s.callbacks && s.callbacks[c].at.Saving? && reply.Written? && !reply.applied
    requires reply.raised
    ensures Safe(cfg, ResumeAnswer(s, c, s.callbacks[c], reply))
  {
    var cb := s.callbacks[c];
    var t := Note(s, AnswerLost(cb.request));
    assert CallbackSafe(s.owner, s.log, cb);
    NoteKeepsSafe(cfg, s, AnswerLost(cb.request));
    BeforeGrows(s.log, t.log, Registered(s.owner[cb.request], cb.request), Accepted(cb.request, cb.tap));
    AddCallback(cfg, t, c, cb.(at := Notifying));
    assert ResumeAnswer(s, c, cb, reply) == t.(callbacks := t.callbacks[c := cb.(at := Notifying)]);
  }

  lemma SignalKeepsSafe(cfg: Config, s: System, c: CallbackId, reply: Reply)
    requires Safe(cfg, s) && c in s.callbacks && s.callbacks[c].at.Notifying? && (reply.Returned? || reply.Raised?)
    ensures Safe(cfg, ResumeAnswer(s, c, s.callbacks[c], reply))
  {
    var cb := s.callbacks[c];
    assert CallbackSafe(s.owner, s.log, cb);
    SignalKeepsInbox(s.inbox, s.owner, s.log, cb);
    AddCallback(cfg, s.(inbox := Signal(s.inbox, cb.request, cb.answer)), c, cb.(at := Finished));
  }

  lemma CallbackKeepsSafe(cfg: Config, s: System, c: CallbackId, reply: Reply)
    requires Safe(cfg, s) && c in s.callbacks
    ensures Safe(cfg, ResumeAnswer(s, c, s.callbacks[c], reply))
  {
    var at := s.callbacks[c].at;
    if at.Saving? && reply.Written? {
      if reply.applied || !reply.raised {
        WritingKeepsSafe(cfg, s, c, reply);
      } else {
        LosingKeepsSafe(cfg, s, c, reply);
      }
    } else if at.Notifying? && (reply.Returned? || reply.Raised?) {
      SignalKeepsSafe(cfg, s, c, reply);
    }
  }

  lemma NextKeepsSafe(cfg: Config, s: System, e: Event)
    requires Safe(cfg, s)
    ensures Safe(cfg, Next(cfg, s, e))
  {
    match e {
      case Begin(k, job) =>
        BeginKeepsSafe(cfg, s, k, job);
      case Resume(k, reply) =>
        if k in s.runs && Next(cfg, s, e) != s {
          assert RunSafe(cfg, s, k);
          ResumeIsStep(cfg, s, k, reply);
          ResumeLands(cfg, s, k, reply);
          StepKeepsSafe(cfg, s, Next(cfg, s, e), k);
        }
      case TimerFires(k) =>
        if k in s.runs && Next(cfg, s, e) != s {
          assert RunSafe(cfg, s, k);
          TimerIsStep(cfg, s, k);
          TimerLands(cfg, s, k);
          StepKeepsSafe(cfg, s, Next(cfg, s, e), k);
        }
      case TapArrives(c, r, tap) =>
        TapKeepsSafe(cfg, s, c, r, tap);
      case ResumeCallback(c, reply) =>
        if c in s.callbacks { CallbackKeepsSafe(cfg, s, c, reply); }
    }
  }

  lemma {:induction false} AlwaysSafe(cfg: Config, events: seq<Event>)
    ensures Safe(cfg, After(cfg, events))
  {
    if events != [] {
      AlwaysSafe(cfg, events[..|events| - 1]);
      NextKeepsSafe(cfg, After(cfg, events[..|events| - 1]), events[|events| - 1]);
    }
  }

  // ---- The theorems ----

  /**
    Order safety, over every schedule: whenever the broker is called, web verification came back before and never
    with a block; and a buy under human approval follows an approving tap for a request of that run that was accepted
    after the run had registered it.
  */
  lemma {:induction false} OrderSafety(cfg: Config, events: seq<Event>, call: LogEntry)
    requires call in After(cfg, events).log && call.Called?
    ensures var log := After(cfg, events).log;
            && (exists v :: v != WebVerifyResult.Blocked && Before(log, Verified(call.run, v), call))
            && Verified(call.run, WebVerifyResult.Blocked) !in log
            && (cfg.approval.humanApprovalRequired && call.side == OrderSide.Buy ==>
                  exists r, tap ::
                    && Approving(tap)
                    && Before(log, Registered(call.run, r), Accepted(r, tap))
                    && Before(log, Accepted(r, tap), call))
  {
    AlwaysSafe(cfg, events);
    assert CallSafe(cfg, After(cfg, events).log, After(cfg, events).runs, call);
  }

  /** A run calls the broker at most once. */
  lemma {:induction false} AtMostOneCall(cfg: Config, events: seq<Event>, i: int, j: int)
    requires var log := After(cfg, events).log; 0 <= i < j < |log| && log[i].Called? && log[j].Called?
    ensures After(cfg, events).log[i].run != After(cfg, events).log[j].run
  {
    AlwaysSafe(cfg, events);
  }

  /** The quantity sent is the one asked for, or one a user's accepted modification named, unchanged. */
  lemma {:induction false} QuantitySent(cfg: Config, events: seq<Event>, call: LogEntry)
    requires call in After(cfg, events).log && call.Called?
    ensures var s := After(cfg, events);
            && call.quantity > 0 && call.run in s.runs && call.side == JobSide(s.runs[call.run].job)
            && (|| call.quantity == JobQuantity(s.runs[call.run].job)
                || exists r: RequestId ::
                     s.runs[call.run].request == Some(r)
                       && Before(s.log, Accepted(r, Modify(Some(call.quantity))), call))
  {
    AlwaysSafe(cfg, events);
    assert CallSafe(cfg, After(cfg, events).log, After(cfg, events).runs, call);
  }
}

/** What a run leaves behind: its order row, its execution row and the result it returns, over every schedule. */
module ProtocolLifecycle {
  import opened Wrappers
  import opened Decimals
  import opened Enums
  import opened Approval
  import opened Protocol
  import opened ProtocolSafety
  import RiskGate

  ghost predicate HasCalled(log: seq<LogEntry>, k: RunId) {
    exists side, n :: Called(k, side, n) in log
  }

  predicate Granted(run: Run) {
    run.approval == Some(ApprovalStatus.Approved) || run.approval == Some(ApprovalStatus.AutoApproved)
  }

  predicate BeforeApproval(at: Point) {
    BeforeCall(at) && !at.Cancelling? && !at.ReadingOrder? && !at.Rechecking?
  }

  predicate AfterCall(at: Point) {
    at.Placing? || at.SavingFailure? || FillAt(at).Some?
  }

  /** The fill a run is recording, saving or returning. */
  function FillAt(at: Point): Option<Fill> {
    match at
    case Recording(fill) => Some(fill)
    case SavingFill(fill) => Some(fill)
    case Done(Executed(fill)) => Some(fill)
    case _ => None
  }

  predicate Shows(row: OrderRow, fill: Fill) {
    && row.status == OrderStatus.Filled && row.filledQuantity == fill.quantity
    && row.filledPrice == Some(fill.price) && row.commission == fill.commission
  }

  /**
    The fill is what the broker reported after the run's call; a missing or zero price or quantity is the one asked for.
  */
  ghost predicate Explains(log: seq<LogEntry>, k: RunId, job: Job, fill: Fill, sent: int, price: Option<real>,
                           filled: int)
  {
    && Before(log, Called(k, JobSide(job), sent), Reported(k, price, filled, fill.commission))
    && fill.price == (if price.Some? && price.value != 0.0 then price.value else JobPrice(job))
    && fill.quantity == (if filled != 0 then filled else sent)
  }

  ghost predicate Explained(log: seq<LogEntry>, k: RunId, job: Job, fill: Fill) {
    exists sent, price, filled :: Explains(log, k, job, fill, sent, price, filled)
  }

  // ---- The invariant ----

  ghost predicate RunLife(log: seq<LogEntry>, k: RunId, run: Run) {
    && (BeforeApproval(run.at) ==> run.approval.None?)
    && (run.verdict.Some? ==> Verified(k, run.verdict.value) in log)
    && (HasCalled(log, k) || run.at.ReadingOrder? || run.at.Rechecking? ==> Granted(run))
    && (AfterCall(run.at) ==> HasCalled(log, k))
    && (run.at.Placing? ==> Called(k, JobSide(run.job), run.at.quantity) in log)
    && (FillAt(run.at).Some? ==> Explained(log, k, run.job, FillAt(run.at).value))
  }

  ghost predicate RowLife(orders: map<OrderId, OrderRow>, executions: seq<ExecutionRow>, called: bool, at: Point,
                          o: OrderId)
  {
    && o in orders
    && (orders[o].status == OrderStatus.Filled ==>
        called && exists fill :: ExecutionRow(o, fill) in executions && Shows(orders[o], fill))
    && (forall fill :: ExecutionRow(o, fill) in executions ==> called && (at.SavingFill? || at.Recovering? || at.Done?))
    && (at.SavingFill? ==> ExecutionRow(o, at.fill) in executions)
    && (at.Done? && at.outcome.Executed? ==>
        ExecutionRow(o, at.outcome.fill) in executions && Shows(orders[o], at.outcome.fill))
  }

  ghost predicate Life(orders: map<OrderId, OrderRow>, executions: seq<ExecutionRow>, log: seq<LogEntry>, k: RunId,
                       run: Run)
  {
    && RunLife(log, k, run)
    && (run.order.None? ==> run.at.Creating? || run.at == Done(Unsuccessful))
    && (run.order.Some? ==> RowLife(orders, executions, HasCalled(log, k), run.at, run.order.value))
  }

  /** Every execution row is for an order row, and no two for the same one. */
  ghost predicate Ledger(orders: map<OrderId, OrderRow>, executions: seq<ExecutionRow>) {
    && (forall o, fill :: ExecutionRow(o, fill) in executions ==> o in orders)
    && (forall i, j :: 0 <= i < j < |executions| ==> executions[i].orderId != executions[j].orderId)
  }

  ghost predicate Lives(s: System) {
    Ledger(s.orders, s.executions) && forall k :: k in s.runs ==> Life(s.orders, s.executions, s.log, k, s.runs[k])
  }

  // ---- A run that did not move ----

  predicate SameFill(row: OrderRow, other: OrderRow) {
    && other.status == row.status && other.filledQuantity == row.filledQuantity
    && other.filledPrice == row.filledPrice && other.commission == row.commission
  }

  lemma RowStays(orders: map<OrderId, OrderRow>, orders': map<OrderId, OrderRow>, executions: seq<ExecutionRow>,
                 executions': seq<ExecutionRow>, called: bool, at: Point, o: OrderId)
    requires RowLife(orders, executions, called, at, o) && o in orders' && SameFill(orders[o], orders'[o])
    requires forall fill :: ExecutionRow(o, fill) in executions' <==> ExecutionRow(o, fill) in executions
    ensures RowLife(orders', executions', called, at, o)
  {
    if orders[o].status == OrderStatus.Filled {
      var fill :| ExecutionRow(o, fill) in executions && Shows(orders[o], fill);
      assert ExecutionRow(o, fill) in executions' && Shows(orders'[o], fill);
    }
  }

  lemma ExplainedGrows(log: seq<LogEntry>, longer: seq<LogEntry>, k: RunId, job: Job, fill: Fill)
    requires Extends(log, longer) && Explained(log, k, job, fill)
    ensures Explained(longer, k, job, fill)
  {
    var sent, price, filled :| Explains(log, k, job, fill, sent, price, filled);
    BeforeGrows(log, longer, Called(k, JobSide(job), sent), Reported(k, price, filled, fill.commission));
    assert Explains(longer, k, job, fill, sent, price, filled);
  }

  /** Entries other than the run's own calls do not disturb it. */
  lemma RunLifeGrows(log: seq<LogEntry>, longer: seq<LogEntry>, k: RunId, run: Run)
    requires RunLife(log, k, run) && Extends(log, longer)
    requires forall e :: e in longer && e !in log ==> !e.Called? || e.run != k
    ensures RunLife(longer, k, run) && HasCalled(longer, k) == HasCalled(log, k)
  {
    assert forall e :: e in log ==> e in longer;
    if FillAt(run.at).Some? { ExplainedGrows(log, longer, k, run.job, FillAt(run.at).value); }
  }

  lemma LifeStays(s: System, t: System, k: RunId, run: Run)
    requires Life(s.orders, s.executions, s.log, k, run) && Extends(s.log, t.log)
    requires forall e :: e in t.log && e !in s.log ==> !e.Called? || e.run != k
    requires run.order.Some? && run.order.value in s.orders ==>
               run.order.value in t.orders && SameFill(s.orders[run.order.value], t.orders[run.order.value])
    requires run.order.Some? ==> forall fill ::
               ExecutionRow(run.order.value, fill) in t.executions <==>
                 ExecutionRow(run.order.value, fill) in s.executions
    ensures Life(t.orders, t.executions, t.log, k, run)
  {
    RunLifeGrows(s.log, t.log, k, run);
    if run.order.Some? {
      RowStays(s.orders, t.orders, s.executions, t.executions, HasCalled(s.log, k), run.at, run.order.value);
    }
  }

  lemma OtherLifeStays(cfg: Config, s: System, t: System, k: RunId, j: RunId)
    requires ProtocolSafety.Safe(cfg, s) && Lives(s) && k in s.runs && RunStep(s, t, k) && j in s.runs && j != k
    ensures Life(t.orders, t.executions, t.log, j, s.runs[j])
  {
    LogGrows(s, t, k, s.runs[k]);
    var run := s.runs[j];
    assert Life(s.orders, s.executions, s.log, j, run);
    if run.order.Some? {
      assert run.order != s.runs[k].order;
      assert run.order.value < s.nextOrder;
      assert t.orders[run.order.value] == s.orders[run.order.value];
    }
    LifeStays(s, t, j, run);
  }

  // ---- The run that moved: its own account ----

  ghost predicate Landed(t: System, k: RunId) {
    k in t.runs && RunLife(t.log, k, t.runs[k])
  }

  /** A move without a call, the verdict and the approval kept. */
  lemma QuietRunLife(log: seq<LogEntry>, k: RunId, run: Run, next: Run)
    requires RunLife(log, k, run) && next.job == run.job && next.verdict == run.verdict && next.approval == run.approval
    requires BeforeApproval(next.at) ==> BeforeApproval(run.at)
    requires !next.at.ReadingOrder? && !next.at.Placing?
    requires next.at.Rechecking? ==> run.at.ReadingOrder?
    requires AfterCall(next.at) ==> AfterCall(run.at)
    requires FillAt(next.at).Some? ==> FillAt(next.at) == FillAt(run.at)
    ensures RunLife(log, k, next)
  {
  }

  lemma CallRunLife(s: System, inbox: Inbox, k: RunId, run: Run, quantity: int)
    requires RunLife(s.log, k, run) && Granted(run)
    ensures Landed(CallBroker(s.(inbox := inbox), k, run, quantity), k)
  {
    var t := CallBroker(s.(inbox := inbox), k, run, quantity);
    if quantity <= 0 {
      QuietRunLife(s.log, k, run, run.(at := Recovering));
    } else {
      assert Called(k, JobSide(run.job), quantity) in t.log;
    }
  }

  lemma ApprovalRunLife(s: System, inbox: Inbox, k: RunId, run: Run, status: ApprovalStatus)
    requires RunLife(s.log, k, run) && BeforeApproval(run.at) && !HasCalled(s.log, k)
    requires status in {ApprovalStatus.Approved, ApprovalStatus.AutoApproved, ApprovalStatus.Rejected,
                        ApprovalStatus.Timeout}
    ensures Landed(AfterApproval(s.(inbox := inbox), k, run, status), k)
  {
    var approved := run.(approval := Some(status), at := ReadingOrder);
    if status in {ApprovalStatus.Approved, ApprovalStatus.AutoApproved} && run.job.Exit? {
      var t := CallBroker(s.(inbox := inbox), k, run.(approval := Some(status)), JobQuantity(run.job));
      CallRunLife(s, inbox, k, approved, JobQuantity(run.job));
      assert t.runs[k] == CallBroker(s.(inbox := inbox), k, approved, JobQuantity(run.job)).runs[k];
    }
  }

  lemma RecheckRunLife(cfg: Config, s: System, k: RunId, run: Run, modified: int, state: RiskGate.PortfolioState)
    requires RunLife(s.log, k, run) && run.at.Rechecking?
    ensures Landed(Recheck(cfg, s, k, run, modified, state), k)
  {
    var result := RecheckResult(cfg, run, modified, state);
    assert s.(inbox := s.inbox) == s;
    CallRunLife(s, s.inbox, k, run, RecheckedQuantity(result.adjustedQuantity, modified));
    QuietRunLife(s.log, k, run, run.(at := Cancelling));
  }

  lemma ReadOrderRunLife(s: System, k: RunId, run: Run, row: OrderRow)
    requires RunLife(s.log, k, run) && run.at.ReadingOrder?
    ensures Landed(ReadOrder(s, k, run, row), k)
  {
    assert s.(inbox := s.inbox) == s;
    CallRunLife(s, s.inbox, k, run, JobQuantity(run.job));
  }

  lemma ReportRunLife(log: seq<LogEntry>, k: RunId, run: Run, price: Option<real>, filled: int, commission: real)
    requires RunLife(log, k, run) && run.at.Placing?
    ensures var fill := FillOf(run.job, run.at.quantity, price, filled, commission);
            RunLife(log + [Reported(k, price, filled, commission)], k, run.(at := Recording(fill)))
  {
    var sent, report := run.at.quantity, Reported(k, price, filled, commission);
    BeforeNew(log, Called(k, JobSide(run.job), sent), report);
    assert Explains(log + [report], k, run.job, FillOf(run.job, sent, price, filled, commission), sent, price, filled);
    RunLifeGrows(log, log + [report], k, run);
  }

  lemma TakeFillRunLife(s: System, k: RunId, run: Run, reply: Reply)
    requires RunLife(s.log, k, run) && run.at.Placing? && reply.Broker?
    ensures Landed(TakeFill(s, k, run, run.at.quantity, reply), k)
  {
    if reply.status == OrderStatus.Filled || reply.status == OrderStatus.PartiallyFilled {
      ReportRunLife(s.log, k, run, reply.filledPrice, reply.filledQuantity, reply.commission);
    } else {
      QuietRunLife(s.log, k, run, run.(at := SavingFailure));
    }
  }

  lemma VerdictRunLife(log: seq<LogEntry>, k: RunId, run: Run, v: WebVerifyResult)
    requires RunLife(log, k, run) && run.at.Verifying?
    ensures RunLife(log + [Verified(k, v)], k, run.(verdict := Some(v), at := SavingVerdict))
  {
    RunLifeGrows(log, log + [Verified(k, v)], k, run);
  }

  lemma AnnounceRunLife(log: seq<LogEntry>, k: RunId, run: Run, r: RequestId)
    requires RunLife(log, k, run) && run.at.Announcing?
    ensures RunLife(log + [Registered(k, r)], k, run.(at := AwaitingAnswer))
  {
    RunLifeGrows(log, log + [Registered(k, r)], k, run);
  }

  lemma RequestingRunLife(cfg: Config, s: System, k: RunId, row: OrderRow, reply: Reply)
    requires k in s.runs && RunLife(s.log, k, s.runs[k])
    requires s.runs[k].at.Verifying? || s.runs[k].at.LoadingPortfolio? || s.runs[k].at.Announcing?
    ensures Landed(ResumeOutside(cfg, s, k, s.runs[k], row, reply), k)
  {
    var run := s.runs[k];
    if run.at.Verifying? {
      if reply.Verdict? { VerdictRunLife(s.log, k, run, reply.result); }
    } else if run.at.LoadingPortfolio? {
      if reply.Portfolio? && reply.requestId !in s.owner {
        QuietRunLife(s.log, k, run, RequestApproval(cfg, s, k, run, reply.totalValue, reply.requestId).runs[k]);
      }
    } else if run.request.Some? {
      AnnounceRunLife(s.log, k, run, run.request.value);
    }
  }

  lemma NotifiedRunLife(cfg: Config, s: System, k: RunId, row: OrderRow, reply: Reply)
    requires k in s.runs && RunLife(s.log, k, s.runs[k]) && !HasCalled(s.log, k)
    requires s.runs[k].at.NotifyingAuto? || s.runs[k].at.NotifyingTimeout?
    ensures Landed(ResumeOutside(cfg, s, k, s.runs[k], row, reply), k)
  {
    var run := s.runs[k];
    if run.at.NotifyingAuto? {
      assert s.(inbox := s.inbox) == s;
      ApprovalRunLife(s, s.inbox, k, run, ApprovalStatus.AutoApproved);
    } else if run.request.Some? {
      ApprovalRunLife(s, Forget(s.inbox, run.request.value), k, run, ApprovalStatus.Timeout);
    }
  }

  lemma OutsideRunLife(cfg: Config, s: System, k: RunId, row: OrderRow, reply: Reply)
    requires k in s.runs && RunLife(s.log, k, s.runs[k]) && PointSafe(cfg, s.log, k, s.runs[k])
    ensures Landed(ResumeOutside(cfg, s, k, s.runs[k], row, reply), k)
  {
    var run := s.runs[k];
    if run.at.Verifying? || run.at.LoadingPortfolio? || run.at.Announcing? {
      RequestingRunLife(cfg, s, k, row, reply);
    } else if run.at.NotifyingAuto? || run.at.NotifyingTimeout? {
      NotifiedRunLife(cfg, s, k, row, reply);
    } else if run.at.ReadingOrder? {
      ReadOrderRunLife(s, k, run, row);
    } else if run.at.Rechecking? {
      if reply.RiskView? { RecheckRunLife(cfg, s, k, run, run.at.modified, reply.state); }
    } else if run.at.Placing? {
      if reply.Broker? { TakeFillRunLife(s, k, run, reply); }
    }
  }

  lemma AnswerRunLife(cfg: Config, s: System, k: RunId, r: RequestId)
    requires k in s.runs && RunLife(s.log, k, s.runs[k]) && PointSafe(cfg, s.log, k, s.runs[k])
    requires s.runs[k].at.AwaitingAnswer?
    requires InboxSafe(s.inbox, s.owner, s.log)
    ensures Landed(TakeAnswer(s, k, s.runs[k], r), k)
  {
    var run, status := s.runs[k], Response(s.inbox, r);
    if status == ApprovalStatus.Timeout {
      QuietRunLife(s.log, k, run, run.(at := SavingTimeout));
    } else {
      ApprovalRunLife(s, Forget(s.inbox, r), k, run, status);
    }
  }

  lemma WriteRunLife(cfg: Config, s: System, k: RunId, o: OrderId, reply: Reply)
    requires k in s.runs && RunLife(s.log, k, s.runs[k]) && PointSafe(cfg, s.log, k, s.runs[k])
    requires s.runs[k].order == Some(o) && o in s.orders
    requires !AwaitsOutside(s.runs[k].at) && !s.runs[k].at.AwaitingAnswer? && !s.runs[k].at.Creating?
    ensures Landed(ResumeWrite(s, k, s.runs[k], o, s.orders[o], reply), k)
  {
    var t := ResumeWrite(s, k, s.runs[k], o, s.orders[o], reply);
    WriteMoves(cfg, s, k, o, reply);
    if t != s { QuietRunLife(s.log, k, s.runs[k], t.runs[k]); }
  }

  lemma InsertRunLife(s: System, k: RunId, reply: Reply)
    requires k in s.runs && RunLife(s.log, k, s.runs[k]) && s.runs[k].at.Creating?
    ensures Landed(InsertOrder(s, k, s.runs[k], reply), k)
  {
    QuietRunLife(s.log, k, s.runs[k], InsertOrder(s, k, s.runs[k], reply).runs[k]);
  }

  lemma SegmentRunLife(cfg: Config, s: System, k: RunId, o: OrderId, reply: Reply)
    requires k in s.runs && RunLife(s.log, k, s.runs[k]) && PointSafe(cfg, s.log, k, s.runs[k])
    requires s.runs[k].order == Some(o) && o in s.orders && !s.runs[k].at.Creating?
    requires InboxSafe(s.inbox, s.owner, s.log)
    ensures Landed(ResumeRun(cfg, s, k, s.runs[k], o, reply), k)
  {
    var run := s.runs[k];
    if AwaitsOutside(run.at) {
      OutsideRunLife(cfg, s, k, s.orders[o], reply);
      QuietRunLife(s.log, k, run, run.(at := Recovering));
    } else if run.at.AwaitingAnswer? {
      if run.request.Some? { AnswerRunLife(cfg, s, k, run.request.value); }
    } else {
      WriteRunLife(cfg, s, k, o, reply);
    }
  }

  lemma ResumeRunLife(cfg: Config, s: System, k: RunId, reply: Reply)
    requires k in s.runs && RunLife(s.log, k, s.runs[k]) && PointSafe(cfg, s.log, k, s.runs[k])
    requires InboxSafe(s.inbox, s.owner, s.log)
    ensures Landed(Next(cfg, s, Resume(k, reply)), k)
  {
    var run := s.runs[k];
    if run.at.Creating? {
      InsertRunLife(s, k, reply);
    } else if run.order.Some? && run.order.value in s.orders {
      SegmentRunLife(cfg, s, k, run.order.value, reply);
    }
  }

  // ---- The run that moved: its rows ----

  /** The rows untouched, and the run not yet past its execution row. */
  lemma MovedRow(orders: map<OrderId, OrderRow>, executions: seq<ExecutionRow>, called: bool, called': bool, at: Point,
                 at': Point, o: OrderId)
    requires RowLife(orders, executions, called, at, o) && (called ==> called')
    requires !at'.SavingFill? && !(at'.Done? && at'.outcome.Executed?)
    requires at.SavingFill? || at.Recovering? || at.Done? ==> at'.Recovering? || at'.Done?
    ensures RowLife(orders, executions, called', at', o)
  {
  }

  ghost predicate RowLanded(t: System, k: RunId, o: OrderId) {
    k in t.runs && t.runs[k].order == Some(o) && RowLife(t.orders, t.executions, HasCalled(t.log, k), t.runs[k].at, o)
  }

  lemma QuietRow(s: System, t: System, k: RunId, o: OrderId)
    requires k in s.runs && s.runs[k].order == Some(o)
    requires RowLife(s.orders, s.executions, HasCalled(s.log, k), s.runs[k].at, o)
    requires k in t.runs && t.runs[k].order == Some(o) && t.orders == s.orders && t.executions == s.executions
    requires Extends(s.log, t.log)
    requires BeforeCall(s.runs[k].at) || s.runs[k].at.Placing?
    requires !t.runs[k].at.SavingFill? && !t.runs[k].at.Done?
    ensures RowLanded(t, k, o)
  {
    assert forall e :: e in s.log ==> e in t.log;
    MovedRow(s.orders, s.executions, HasCalled(s.log, k), HasCalled(t.log, k), s.runs[k].at, t.runs[k].at, o);
  }

  /** No row is touched, and the run stays short of its execution row. */
  ghost predicate RowsUntouched(s: System, t: System, k: RunId, o: OrderId) {
    && k in t.runs && t.runs[k].order == Some(o) && t.orders == s.orders && t.executions == s.executions
    && !t.runs[k].at.SavingFill? && !t.runs[k].at.Done?
  }

  lemma CallTouchesNoRow(s: System, inbox: Inbox, k: RunId, run: Run, o: OrderId, quantity: int)
    requires run.order == Some(o)
    ensures RowsUntouched(s, CallBroker(s.(inbox := inbox), k, run, quantity), k, o)
  {
    var t := CallBroker(s.(inbox := inbox), k, run, quantity);
    if quantity <= 0 {
      assert t.runs[k] == run.(at := Recovering);
    } else {
      assert t.runs[k] == run.(at := Placing(quantity));
    }
  }

  lemma ApprovalTouchesNoRow(s: System, inbox: Inbox, k: RunId, run: Run, o: OrderId, status: ApprovalStatus)
    requires run.order == Some(o)
    ensures RowsUntouched(s, AfterApproval(s.(inbox := inbox), k, run, status), k, o)
  {
    CallTouchesNoRow(s, inbox, k, run.(approval := Some(status)), o, JobQuantity(run.job));
  }

  lemma RecheckTouchesNoRow(cfg: Config, s: System, k: RunId, run: Run, o: OrderId, modified: int,
                            state: RiskGate.PortfolioState)
    requires run.order == Some(o)
    ensures RowsUntouched(s, Recheck(cfg, s, k, run, modified, state), k, o)
  {
    var result := RecheckResult(cfg, run, modified, state);
    assert s.(inbox := s.inbox) == s;
    CallTouchesNoRow(s, s.inbox, k, run, o, RecheckedQuantity(result.adjustedQuantity, modified));
  }

  lemma OutsideTouchesNoRow(cfg: Config, s: System, k: RunId, o: OrderId, row: OrderRow, reply: Reply)
    requires k in s.runs && s.runs[k].order == Some(o) && AwaitsOutside(s.runs[k].at)
    ensures RowsUntouched(s, ResumeOutside(cfg, s, k, s.runs[k], row, reply), k, o)
  {
    var run := s.runs[k];
    assert s.(inbox := s.inbox) == s;
    if run.at.NotifyingAuto? {
      ApprovalTouchesNoRow(s, s.inbox, k, run, o, ApprovalStatus.AutoApproved);
    } else if run.at.NotifyingTimeout? {
      if run.request.Some? {
        ApprovalTouchesNoRow(s, Forget(s.inbox, run.request.value), k, run, o, ApprovalStatus.Timeout);
      }
    } else if run.at.ReadingOrder? {
      CallTouchesNoRow(s, s.inbox, k, run, o, JobQuantity(run.job));
    } else if run.at.Rechecking? {
      if reply.RiskView? { RecheckTouchesNoRow(cfg, s, k, run, o, run.at.modified, reply.state); }
    } else {
      PlainOutsideTouchesNoRow(cfg, s, k, o, row, reply);
    }
  }

  lemma PlainOutsideTouchesNoRow(cfg: Config, s: System, k: RunId, o: OrderId, row: OrderRow, reply: Reply)
    requires k in s.runs && s.runs[k].order == Some(o)
    requires s.runs[k].at.Verifying? || s.runs[k].at.LoadingPortfolio? || s.runs[k].at.Announcing?
             || s.runs[k].at.Placing?
    ensures RowsUntouched(s, ResumeOutside(cfg, s, k, s.runs[k], row, reply), k, o)
  {
  }

  lemma AnswerTouchesNoRow(s: System, k: RunId, o: OrderId, r: RequestId)
    requires k in s.runs && s.runs[k].order == Some(o) && s.runs[k].at.AwaitingAnswer?
    ensures RowsUntouched(s, TakeAnswer(s, k, s.runs[k], r), k, o)
  {
    ApprovalTouchesNoRow(s, Forget(s.inbox, r), k, s.runs[k], o, Response(s.inbox, r));
  }

  /** The segments that end an outside await or the wait touch no row. */
  lemma OutsideMoves(cfg: Config, s: System, k: RunId, o: OrderId, reply: Reply)
    requires k in s.runs && s.runs[k].order == Some(o) && o in s.orders
    requires AwaitsOutside(s.runs[k].at) || s.runs[k].at.AwaitingAnswer?
    ensures RowsUntouched(s, ResumeRun(cfg, s, k, s.runs[k], o, reply), k, o)
  {
    if AwaitsOutside(s.runs[k].at) {
      OutsideTouchesNoRow(cfg, s, k, o, s.orders[o], reply);
    } else if s.runs[k].request.Some? {
      AnswerTouchesNoRow(s, k, o, s.runs[k].request.value);
    }
  }

  lemma OwnWriteRow(orders: map<OrderId, OrderRow>, row: OrderRow, executions: seq<ExecutionRow>, called: bool,
                    at: Point, at': Point, o: OrderId)
    requires RowLife(orders, executions, called, at, o)
    requires at.SavingFill? || at.Recovering? || at.Done? ==> at'.Recovering? || at'.Done?
    requires !at'.SavingFill? && !(at'.Done? && at'.outcome.Executed?)
    requires row.status != OrderStatus.Filled || SameFill(orders[o], row)
    ensures RowLife(orders[o := row], executions, called, at', o)
  {
    if row.status == OrderStatus.Filled {
      var fill :| ExecutionRow(o, fill) in executions && Shows(orders[o], fill);
      assert Shows(row, fill);
    }
  }

  lemma RecordRow(orders: map<OrderId, OrderRow>, executions: seq<ExecutionRow>, at: Point, o: OrderId, fill: Fill)
    requires RowLife(orders, executions, true, at, o) && at == Recording(fill)
    ensures RowLife(orders, executions + [ExecutionRow(o, fill)], true, SavingFill(fill), o)
    ensures RowLife(orders, executions + [ExecutionRow(o, fill)], true, Recovering, o)
  {
    assert ExecutionRow(o, fill) in executions + [ExecutionRow(o, fill)];
  }

  lemma FillRow(orders: map<OrderId, OrderRow>, executions: seq<ExecutionRow>, at: Point, o: OrderId, fill: Fill)
    requires RowLife(orders, executions, true, at, o) && at == SavingFill(fill)
    ensures RowLife(orders[o := WithFill(orders[o], fill)], executions, true, Done(Executed(fill)), o)
    ensures RowLife(orders[o := WithFill(orders[o], fill)], executions, true, Recovering, o)
  {
    assert Shows(WithFill(orders[o], fill), fill);
  }

  lemma WriteRow(s: System, k: RunId, o: OrderId, reply: Reply)
    requires k in s.runs && s.runs[k].order == Some(o) && o in s.orders && RunLife(s.log, k, s.runs[k])
    requires RowLife(s.orders, s.executions, HasCalled(s.log, k), s.runs[k].at, o)
    requires !AwaitsOutside(s.runs[k].at) && !s.runs[k].at.AwaitingAnswer? && !s.runs[k].at.Creating?
    ensures RowLanded(ResumeWrite(s, k, s.runs[k], o, s.orders[o], reply), k, o)
  {
    var run := s.runs[k];
    var t := ResumeWrite(s, k, run, o, s.orders[o], reply);
    var called := HasCalled(s.log, k);
    if t == s {
    } else if run.at.Recording? {
      RecordRow(s.orders, s.executions, run.at, o, run.at.fill);
      MovedRow(s.orders, s.executions, called, called, run.at, Recovering, o);
    } else if run.at.SavingFill? {
      FillRow(s.orders, s.executions, run.at, o, run.at.fill);
      MovedRow(s.orders, s.executions, called, called, run.at, Recovering, o);
    } else {
      PlainWrites(s, k, o, reply);
      OwnWriteRow(s.orders, t.orders[o], s.executions, called, run.at, t.runs[k].at, o);
    }
  }

  /** One order row is written, none is marked as filled, and no execution row is. */
  ghost predicate PlainWrite(s: System, t: System, k: RunId, o: OrderId) {
    && k in t.runs && t.runs[k].order == Some(o) && t.executions == s.executions && t.log == s.log
    && o in s.orders && o in t.orders && t.orders == s.orders[o := t.orders[o]]
    && (t.orders[o].status != OrderStatus.Filled || SameFill(s.orders[o], t.orders[o]))
    && !t.runs[k].at.SavingFill? && !(t.runs[k].at.Done? && t.runs[k].at.outcome.Executed?)
    && (k in s.runs && (s.runs[k].at.Recovering? || s.runs[k].at.Done?) ==> t.runs[k].at.Done?)
  }

  lemma OrderWriteIsPlain(s: System, k: RunId, o: OrderId, row: OrderRow, reply: Reply, next: Point)
    requires k in s.runs && s.runs[k].order == Some(o) && o in s.orders && reply.Written?
    requires row.status != OrderStatus.Filled || SameFill(s.orders[o], row)
    requires !s.runs[k].at.Recovering? && !s.runs[k].at.Done?
    requires !next.SavingFill? && !(next.Done? && next.outcome.Executed?)
    ensures PlainWrite(s, WriteOrder(s, k, s.runs[k], o, row, reply, next), k, o)
  {
  }

  lemma RequestWriteIsPlain(s: System, k: RunId, o: OrderId, r: RequestId, status: RequestStatus, reply: Reply,
                            next: Point)
    requires k in s.runs && s.runs[k].order == Some(o) && o in s.orders && reply.Written?
    requires !s.runs[k].at.Recovering? && !s.runs[k].at.Done? && !next.SavingFill? && !next.Done?
    ensures PlainWrite(s, InsertRequest(s, k, s.runs[k], o, r, status, reply, next), k, o)
  {
  }

  lemma TimeoutWriteIsPlain(s: System, k: RunId, o: OrderId, r: RequestId, reply: Reply)
    requires k in s.runs && s.runs[k].order == Some(o) && o in s.orders && reply.Written? && s.runs[k].at.SavingTimeout?
    ensures PlainWrite(s, WriteTimeout(s, k, s.runs[k], o, r, reply), k, o)
  {
  }

  lemma RecoverWriteIsPlain(s: System, k: RunId, o: OrderId, reply: Reply)
    requires k in s.runs && s.runs[k].order == Some(o) && o in s.orders && reply.Written? && s.runs[k].at.Recovering?
    ensures PlainWrite(s, Recover(s, k, s.runs[k], o, s.orders[o], reply), k, o)
  {
  }

  lemma PlainWrites(s: System, k: RunId, o: OrderId, reply: Reply)
    requires k in s.runs && s.runs[k].order == Some(o) && o in s.orders
    requires !AwaitsOutside(s.runs[k].at) && !s.runs[k].at.AwaitingAnswer? && !s.runs[k].at.Creating?
    requires !s.runs[k].at.Recording? && !s.runs[k].at.SavingFill?
    ensures var t := ResumeWrite(s, k, s.runs[k], o, s.orders[o], reply); t == s || PlainWrite(s, t, k, o)
  {
    var run, row := s.runs[k], s.orders[o];
    if reply.Written? {
      match run.at {
        case SavingVerdict =>
          OrderWriteIsPlain(s, k, o, row, reply, AfterVerdict(run));
        case SavingAuto =>
          if run.request.Some? {
            RequestWriteIsPlain(s, k, o, run.request.value, Answered(ApprovalStatus.AutoApproved), reply,
                                NotifyingAuto);
          }
        case SavingRequest =>
          if run.request.Some? { RequestWriteIsPlain(s, k, o, run.request.value, Waiting, reply, Announcing); }
        case SavingTimeout =>
          if run.request.Some? { TimeoutWriteIsPlain(s, k, o, run.request.value, reply); }
        case Cancelling =>
          OrderWriteIsPlain(s, k, o, row.(status := OrderStatus.Cancelled), reply, Done(Unsuccessful));
        case SavingFailure =>
          OrderWriteIsPlain(s, k, o, row.(status := OrderStatus.Failed), reply, Done(Unsuccessful));
        case Recovering =>
          RecoverWriteIsPlain(s, k, o, reply);
        case _ =>
      }
    }
  }

  lemma SegmentRow(cfg: Config, s: System, k: RunId, o: OrderId, reply: Reply)
    requires k in s.runs && RunSafe(cfg, s, k) && s.runs[k].order == Some(o) && RunLife(s.log, k, s.runs[k])
    requires RowLife(s.orders, s.executions, HasCalled(s.log, k), s.runs[k].at, o) && !s.runs[k].at.Creating?
    requires var t := ResumeRun(cfg, s, k, s.runs[k], o, reply); t == s || RunStep(s, t, k)
    ensures RowLanded(ResumeRun(cfg, s, k, s.runs[k], o, reply), k, o)
  {
    var t := ResumeRun(cfg, s, k, s.runs[k], o, reply);
    if t == s {
    } else if AwaitsOutside(s.runs[k].at) || s.runs[k].at.AwaitingAnswer? {
      LogGrows(s, t, k, s.runs[k]);
      OutsideMoves(cfg, s, k, o, reply);
      QuietRow(s, t, k, o);
    } else {
      WriteRow(s, k, o, reply);
    }
  }

  lemma InsertRow(s: System, k: RunId, reply: Reply)
    requires k in s.runs && s.runs[k].order.None? && Ledger(s.orders, s.executions)
    requires OrdersBounded(s.orders, s.nextOrder)
    ensures var t := InsertOrder(s, k, s.runs[k], reply);
            && k in t.runs && (t == s || t.runs[k].order.Some? || t.runs[k].at == Done(Unsuccessful))
            && (t.runs[k].order.Some? ==> RowLanded(t, k, t.runs[k].order.value))
  {
  }

  lemma OwnLife(cfg: Config, s: System, k: RunId, reply: Reply)
    requires ProtocolSafety.Safe(cfg, s) && Ledger(s.orders, s.executions) && k in s.runs
    requires Life(s.orders, s.executions, s.log, k, s.runs[k]) && RunSafe(cfg, s, k)
    ensures var t := Next(cfg, s, Resume(k, reply)); k in t.runs && Life(t.orders, t.executions, t.log, k, t.runs[k])
  {
    var run := s.runs[k];
    ResumeRunLife(cfg, s, k, reply);
    ResumeIsStep(cfg, s, k, reply);
    if run.at.Creating? {
      InsertRow(s, k, reply);
    } else if run.order.Some? {
      SegmentRow(cfg, s, k, run.order.value, reply);
    }
  }

  lemma LedgerKeeps(cfg: Config, s: System, t: System, k: RunId)
    requires ProtocolSafety.Safe(cfg, s) && Ledger(s.orders, s.executions) && k in s.runs && RunStep(s, t, k)
    requires Life(s.orders, s.executions, s.log, k, s.runs[k])
    ensures Ledger(t.orders, t.executions)
  {
    var run := s.runs[k];
    if t.executions != s.executions {
      var o := run.order.value;
      forall i | 0 <= i < |s.executions| ensures s.executions[i].orderId != o {
        assert s.executions[i] == ExecutionRow(s.executions[i].orderId, s.executions[i].fill);
      }
    }
  }

  // ---- Every event keeps it ----

  lemma ResumeKeepsLives(cfg: Config, s: System, k: RunId, reply: Reply)
    requires ProtocolSafety.Safe(cfg, s) && Lives(s) && k in s.runs
    ensures Lives(Next(cfg, s, Resume(k, reply)))
  {
    var t := Next(cfg, s, Resume(k, reply));
    if t != s {
      assert RunSafe(cfg, s, k) && Life(s.orders, s.executions, s.log, k, s.runs[k]);
      ResumeIsStep(cfg, s, k, reply);
      OwnLife(cfg, s, k, reply);
      LedgerKeeps(cfg, s, t, k);
      forall j | j in t.runs ensures Life(t.orders, t.executions, t.log, j, t.runs[j]) {
        if j != k { OtherLifeStays(cfg, s, t, k, j); }
      }
    }
  }

  lemma TimerOwnLife(cfg: Config, s: System, k: RunId)
    requires k in s.runs && Life(s.orders, s.executions, s.log, k, s.runs[k])
    ensures var t := Next(cfg, s, TimerFires(k)); k in t.runs && Life(t.orders, t.executions, t.log, k, t.runs[k])
  {
    var t, run := Next(cfg, s, TimerFires(k)), s.runs[k];
    if t != s {
      RunLifeGrows(s.log, t.log, k, run);
      QuietRunLife(t.log, k, run, t.runs[k]);
      MovedRow(t.orders, t.executions, HasCalled(s.log, k), HasCalled(t.log, k), run.at, t.runs[k].at, run.order.value);
    }
  }

  lemma TimerKeepsLives(cfg: Config, s: System, k: RunId)
    requires ProtocolSafety.Safe(cfg, s) && Lives(s) && k in s.runs
    ensures Lives(Next(cfg, s, TimerFires(k)))
  {
    var t, run := Next(cfg, s, TimerFires(k)), s.runs[k];
    if t != s {
      TimerIsStep(cfg, s, k);
      assert Life(s.orders, s.executions, s.log, k, run);
      TimerOwnLife(cfg, s, k);
      forall j | j in t.runs ensures Life(t.orders, t.executions, t.log, j, t.runs[j]) {
        if j != k { OtherLifeStays(cfg, s, t, k, j); }
      }
    }
  }

  /** Callbacks answer approvals; fills are not theirs to touch. */
  lemma CallbackKeepsLives(s: System, t: System)
    requires Lives(s) && t.runs == s.runs && t.executions == s.executions && t.orders.Keys == s.orders.Keys
    requires forall o :: o in s.orders ==> SameFill(s.orders[o], t.orders[o])
    requires t.log == s.log || exists e :: t.log == s.log + [e] && CallbackEntry(e)
    ensures Lives(t)
  {
    forall k | k in t.runs ensures Life(t.orders, t.executions, t.log, k, t.runs[k]) {
      assert Life(s.orders, s.executions, s.log, k, s.runs[k]);
      LifeStays(s, t, k, s.runs[k]);
    }
  }

  lemma TapKeepsLives(s: System, c: CallbackId, r: RequestId, tap: Tap)
    requires Lives(s)
    ensures Lives(AcceptTap(s, c, r, tap))
  {
    var t := AcceptTap(s, c, r, tap);
    if t != s { CallbackKeepsLives(s, t); }
  }

  lemma AnswerKeepsLives(s: System, c: CallbackId, cb: Callback, reply: Reply)
    requires Lives(s)
    ensures Lives(ResumeAnswer(s, c, cb, reply))
  {
    AnswerTouchesNoFill(s, c, cb, reply);
    CallbackKeepsLives(s, ResumeAnswer(s, c, cb, reply));
  }

  lemma AnswerTouchesNoFill(s: System, c: CallbackId, cb: Callback, reply: Reply)
    ensures var t := ResumeAnswer(s, c, cb, reply);
            && t.runs == s.runs && t.executions == s.executions && t.orders.Keys == s.orders.Keys
            && (forall o :: o in s.orders ==> SameFill(s.orders[o], t.orders[o]))
            && (t.log == s.log || exists e :: t.log == s.log + [e] && CallbackEntry(e))
  {
    ApplyKeepsFills(s, cb.request, cb.answer);
    if cb.at.Saving? && reply.Written? && reply.raised && !reply.applied {
      assert ResumeAnswer(s, c, cb, reply).log == s.log + [AnswerLost(cb.request)];
    }
  }

  lemma ApplyKeepsFills(s: System, r: RequestId, answer: Answer)
    ensures var t := ApplyAnswer(s, r, answer);
            && t.runs == s.runs && t.executions == s.executions && t.log == s.log && t.orders.Keys == s.orders.Keys
            && forall o :: o in s.orders ==> SameFill(s.orders[o], t.orders[o])
  {
  }

  /** A run that has not begun has called nobody. */
  lemma UnknownNeverCalled(cfg: Config, log: seq<LogEntry>, runs: map<RunId, Run>, k: RunId)
    requires CallsSafe(cfg, log, runs) && k !in runs
    ensures !HasCalled(log, k)
  {
    if HasCalled(log, k) {
      var side, n :| Called(k, side, n) in log;
      CallerKnown(cfg, log, runs, Called(k, side, n));
    }
  }

  lemma BeginKeepsLives(cfg: Config, s: System, k: RunId, job: Job)
    requires CallsSafe(cfg, s.log, s.runs) && Lives(s) && k !in s.runs
    ensures Lives(Next(cfg, s, Begin(k, job)))
  {
    UnknownNeverCalled(cfg, s.log, s.runs, k);
  }

  lemma NextKeepsLives(cfg: Config, s: System, e: Event)
    requires ProtocolSafety.Safe(cfg, s) && Lives(s)
    ensures Lives(Next(cfg, s, e))
  {
    match e {
      case Begin(k, job) =>
        if k !in s.runs { BeginKeepsLives(cfg, s, k, job); }
      case Resume(k, reply) =>
        if k in s.runs { ResumeKeepsLives(cfg, s, k, reply); }
      case TimerFires(k) =>
        if k in s.runs { TimerKeepsLives(cfg, s, k); }
      case TapArrives(c, r, tap) =>
        TapKeepsLives(s, c, r, tap);
      case ResumeCallback(c, reply) =>
        if c in s.callbacks { AnswerKeepsLives(s, c, s.callbacks[c], reply); }
    }
  }

  lemma {:induction false} AlwaysLives(cfg: Config, events: seq<Event>)
    ensures Lives(After(cfg, events)) && ProtocolSafety.Safe(cfg, After(cfg, events))
  {
    AlwaysSafe(cfg, events);
    if events != [] {
      AlwaysLives(cfg, events[..|events| - 1]);
      NextKeepsLives(cfg, After(cfg, events[..|events| - 1]), events[|events| - 1]);
    }
  }

  // ---- The theorems ----

  /**
    A run that returned success left its order row filled and one execution row behind, both showing the fill it
    returned, and that fill is what the broker reported after the run's one call.
  */
  lemma {:induction false} SuccessIsRecorded(cfg: Config, events: seq<Event>, k: RunId, fill: Fill)
    requires var s := After(cfg, events); k in s.runs && s.runs[k].at == Done(Executed(fill))
    ensures var s := After(cfg, events);
            && s.runs[k].order.Some? && s.runs[k].order.value in s.orders
            && Shows(s.orders[s.runs[k].order.value], fill)
            && ExecutionRow(s.runs[k].order.value, fill) in s.executions
            && Explained(s.log, k, s.runs[k].job, fill) && Granted(s.runs[k])
  {
    AlwaysLives(cfg, events);
    var s := After(cfg, events);
    assert Life(s.orders, s.executions, s.log, k, s.runs[k]);
  }

  /**
    A filled order row always has an execution row with the same price, quantity and commission, and its run called the
    broker.
  */
  lemma {:induction false} FilledWasExecuted(cfg: Config, events: seq<Event>, k: RunId, o: OrderId)
    requires var s := After(cfg, events); k in s.runs && s.runs[k].order == Some(o)
    requires var s := After(cfg, events); o in s.orders && s.orders[o].status == OrderStatus.Filled
    ensures var s := After(cfg, events);
            && HasCalled(s.log, k)
            && exists fill :: ExecutionRow(o, fill) in s.executions && Shows(s.orders[o], fill)
  {
    AlwaysLives(cfg, events);
    var s := After(cfg, events);
    assert Life(s.orders, s.executions, s.log, k, s.runs[k]);
  }

  /** An order is executed at most once. */
  lemma {:induction false} ExecutedOnce(cfg: Config, events: seq<Event>, i: nat, j: nat)
    requires i < j < |After(cfg, events).executions|
    ensures After(cfg, events).executions[i].orderId != After(cfg, events).executions[j].orderId
  {
    AlwaysLives(cfg, events);
  }

  /** A run that was blocked, rejected or timed out never calls the broker, and its order row is never filled. */
  lemma {:induction false} RefusedNeverFills(cfg: Config, events: seq<Event>, k: RunId)
    requires k in After(cfg, events).runs
    requires var run := After(cfg, events).runs[k];
             || run.verdict == Some(WebVerifyResult.Blocked)
             || run.approval == Some(ApprovalStatus.Rejected) || run.approval == Some(ApprovalStatus.Timeout)
    ensures var s := After(cfg, events);
            && !HasCalled(s.log, k)
            && !(s.runs[k].at.Done? && s.runs[k].at.outcome.Executed?)
            && (s.runs[k].order.Some? ==>
                  && s.runs[k].order.value in s.orders && s.orders[s.runs[k].order.value].status != OrderStatus.Filled
                  && forall fill :: ExecutionRow(s.runs[k].order.value, fill) !in s.executions)
  {
    AlwaysLives(cfg, events);
    var s := After(cfg, events);
    assert Life(s.orders, s.executions, s.log, k, s.runs[k]);
    if HasCalled(s.log, k) {
      var side, n :| Called(k, side, n) in s.log;
      BlockedNeverCalls(cfg, s, Called(k, side, n));
    }
  }

  lemma BlockedNeverCalls(cfg: Config, s: System, call: LogEntry)
    requires CallsSafe(cfg, s.log, s.runs) && call in s.log && call.Called?
    ensures Verified(call.run, WebVerifyResult.Blocked) !in s.log
  {
    assert CallSafe(cfg, s.log, s.runs, call);
  }
}

/**
  The approval and execution protocol (src/execution/approval.py, src/execution/executor.py) as a transition system.
  `execute_entry` and `execute_exit` runs, callbacks and timers are coroutines on one event loop: each step is one
  await-free segment, chosen in any order, and the outcome of the await it resumes from is part of the event. A
  database write may be applied or not and may raise or not; a write that does not raise was applied.
*/
module Protocol {
  import opened Wrappers
  import opened Decimals
  import opened Enums
  import opened MarketData
  import opened Approval
  import RiskGate

  type RunId = nat
  type OrderId = nat
  type CallbackId = nat

  datatype Config = Config(approval: Approval.Settings, risk: RiskGate.Settings)

  /** What a run was asked to do: an entry decision, or the exit of a position. */
  datatype Job =
    | Entry(decision: TradeDecision)
    | Exit(symbol: Symbol, reason: ExitReason, immediate: bool, currentPrice: real, quantity: int)

  function ExitAction(reason: ExitReason): DecisionAction {
    match reason
    case StopLoss => DecisionAction.StopLoss
    case TakeProfit => DecisionAction.TakeProfit
    case _ => DecisionAction.Sell
  }

  /** The decision shown to the approval manager; for an exit, `_build_exit_trade_decision`. */
  function DecisionOf(job: Job): TradeDecision {
    match job
    case Entry(d) => d
    case Exit(symbol, reason, immediate, price, quantity) =>
      var market := reason == ExitReason.StopLoss && immediate;
      TradeDecision(symbol, ExitAction(reason), if market then OrderType.Market else OrderType.Limit, quantity,
                    Some(price), None)
  }

  function JobSide(job: Job): OrderSide {
    if job.Exit? then OrderSide.Sell else SideOf(job.decision.action)
  }

  function JobQuantity(job: Job): int { DecisionOf(job).quantity }

  function JobPrice(job: Job): real { DecisionOf(job).price.GetOr(0.0) }

  // ---- Database rows ----

  datatype OrderRow =
    OrderRow(side: OrderSide, quantity: int, status: OrderStatus, approval: ApprovalStatus, modified: Option<int>,
             filledQuantity: int, filledPrice: Option<real>, commission: real)

  datatype RequestStatus = Waiting | Answered(status: ApprovalStatus)

  datatype RequestRow = RequestRow(orderId: OrderId, status: RequestStatus)

  datatype Fill = Fill(price: real, quantity: int, commission: real)

  datatype ExecutionRow = ExecutionRow(orderId: OrderId, fill: Fill)

  // ---- Coroutines ----

  /** The result a run returns; a fill when it succeeded. */
  datatype Outcome = Unsuccessful | Executed(fill: Fill)

  /** The await a run is suspended at, with the locals it still needs. */
  datatype Point =
    | Creating
    | Verifying
    | SavingVerdict
    | LoadingPortfolio
    | SavingAuto
    | NotifyingAuto
    | SavingRequest
    | Announcing
    | AwaitingAnswer
    | SavingTimeout
    | NotifyingTimeout
    | Cancelling
    | ReadingOrder
    | Rechecking(modified: int)
    | Placing(quantity: int)
    | SavingFailure
    | Recording(fill: Fill)
    | SavingFill(fill: Fill)
    | Recovering
    | Done(outcome: Outcome)

  /** `approval` is what `request_approval` returned, once it has. */
  datatype Run =
    Run(job: Job, at: Point, order: Option<OrderId>, request: Option<RequestId>, verdict: Option<WebVerifyResult>,
        approval: Option<ApprovalStatus>)

  datatype CallbackPoint = Saving | Notifying | Finished

  datatype Callback = Callback(request: RequestId, tap: Tap, answer: Answer, at: CallbackPoint)

  /** What happened, in order. */
  datatype LogEntry =
    | Verified(run: RunId, verdict: WebVerifyResult)
    | Registered(run: RunId, request: RequestId)
    | Accepted(request: RequestId, tap: Tap)
    | TimedOut(request: RequestId)
    | AnswerLost(request: RequestId)
    | Called(run: RunId, side: OrderSide, quantity: int)
    | Reported(run: RunId, price: Option<real>, filled: int, commission: real)

  datatype System =
    System(runs: map<RunId, Run>, callbacks: map<CallbackId, Callback>, orders: map<OrderId, OrderRow>,
           requests: map<RequestId, RequestRow>, executions: seq<ExecutionRow>, inbox: Inbox,
           owner: map<RequestId, RunId>, nextOrder: OrderId, log: seq<LogEntry>)

  const Initial := System(map[], map[], map[], map[], [], Inbox(map[], map[], map[]), map[], 0, [])

  /** How an await ended. */
  datatype Reply =
    | Written(applied: bool, raised: bool)
    | Returned
    | Raised
    | Verdict(result: WebVerifyResult)
    | Portfolio(totalValue: real, requestId: RequestId)
    | RiskView(state: RiskGate.PortfolioState)
    | Broker(status: OrderStatus, filledPrice: Option<real>, filledQuantity: int, commission: real)

  datatype Event =
    | Begin(run: RunId, job: Job)
    | Resume(run: RunId, reply: Reply)
    | TimerFires(run: RunId)
    | TapArrives(callback: CallbackId, request: RequestId, tap: Tap)
    | ResumeCallback(callback: CallbackId, reply: Reply)

  // ---- Steps of a run ----

  function Move(s: System, k: RunId, run: Run): System {
    s.(runs := s.runs[k := run])
  }

  function Note(s: System, e: LogEntry): System {
    s.(log := s.log + [e])
  }

  function SetOrder(s: System, o: OrderId, row: OrderRow): System {
    s.(orders := s.orders[o := row])
  }

  /** Constructing the order request validates the quantity; then the broker is called and awaited. */
  function CallBroker(s: System, k: RunId, run: Run, quantity: int): System {
    if quantity <= 0 then Move(s, k, run.(at := Recovering))
    else Note(Move(s, k, run.(at := Placing(quantity))), Called(k, JobSide(run.job), quantity))
  }

  /** What the executor does with the status `request_approval` returned. */
  function AfterApproval(s: System, k: RunId, run: Run, status: ApprovalStatus): System {
    var approved := run.(approval := Some(status));
    if status == ApprovalStatus.Rejected || status == ApprovalStatus.Timeout
    then Move(s, k, approved.(at := Cancelling))
    else if run.job.Entry? then Move(s, k, approved.(at := ReadingOrder))
    else CallBroker(s, k, approved, JobQuantity(run.job))
  }

  /** `await session.commit()` of a write to the run's own order row, and where the run goes next. */
  function WriteOrder(s: System, k: RunId, run: Run, o: OrderId, row: OrderRow, reply: Reply, next: Point): System {
    if !reply.Written? then s
    else
      var written := if reply.applied || !reply.raised then SetOrder(s, o, row) else s;
      Move(written, k, run.(at := if reply.raised then Recovering else next))
  }

  function InsertOrder(s: System, k: RunId, run: Run, reply: Reply): System {
    if !reply.Written? then s
    else
      var row := OrderRow(JobSide(run.job), JobQuantity(run.job), OrderStatus.Pending, ApprovalStatus.AutoApproved,
                          None, 0, None, 0.0);
      var inserted := if reply.applied || !reply.raised
                      then SetOrder(s, s.nextOrder, row).(nextOrder := s.nextOrder + 1) else s;
      if reply.raised then Move(inserted, k, run.(at := Done(Unsuccessful)))
      else Move(inserted, k, run.(order := Some(s.nextOrder), at := Verifying))
  }

  /** The start of `request_approval`: a fresh request id, and the automatic or the manual path. */
  function RequestApproval(cfg: Config, s: System, k: RunId, run: Run, totalValue: real, r: RequestId): System {
    if r in s.owner then s
    else
      var automatic := AutoApproves(cfg.approval, DecisionOf(run.job), totalValue);
      Move(s.(owner := s.owner[r := k]), k,
           run.(request := Some(r), at := if automatic then SavingAuto else SavingRequest))
  }

  /** Inserts the request row, together with the order's approval status when it is answered from the start. */
  function InsertRequest(s: System, k: RunId, run: Run, o: OrderId, r: RequestId, status: RequestStatus, reply: Reply,
                         next: Point): System
  {
    if !reply.Written? || o !in s.orders then s
    else
      var inserted := s.(requests := s.requests[r := RequestRow(o, status)]);
      var written := if !reply.applied && reply.raised then s
                     else if status.Waiting? then inserted
                     else SetOrder(inserted, o, s.orders[o].(approval := status.status));
      Move(written, k, run.(at := if reply.raised then Recovering else next))
  }

  /** `_handle_timeout`: the request row by its id and the order row by the run's order id. */
  function WriteTimeout(s: System, k: RunId, run: Run, o: OrderId, r: RequestId, reply: Reply): System {
    if !reply.Written? || o !in s.orders then s
    else
      var timedOut := Answered(ApprovalStatus.Timeout);
      var updated := if r in s.requests then s.(requests := s.requests[r := s.requests[r].(status := timedOut)]) else s;
      var written := if !reply.applied && reply.raised then s
                     else SetOrder(updated, o, s.orders[o].(approval := ApprovalStatus.Timeout));
      Move(written, k, run.(at := if reply.raised then Recovering else NotifyingTimeout))
  }

  function RecheckAction(side: OrderSide): SignalAction {
    if side == OrderSide.Buy then SignalAction.Buy else SignalAction.Sell
  }

  /** `risk_result.adjusted_quantity or modified_qty` */
  function RecheckedQuantity(adjusted: int, modified: int): int {
    if adjusted != 0 then adjusted else modified
  }

  /** The risk check of a modified quantity, with an empty sector. */
  function RecheckResult(cfg: Config, run: Run, modified: int, state: RiskGate.PortfolioState): RiskGate.CheckResult {
    var d := DecisionOf(run.job);
    RiskGate.Check(cfg.risk, state, d.symbol, RecheckAction(JobSide(run.job)), modified, JobPrice(run.job), d.stop, "")
  }

  function Recheck(cfg: Config, s: System, k: RunId, run: Run, modified: int, state: RiskGate.PortfolioState): System {
    var result := RecheckResult(cfg, run, modified, state);
    if !result.passed then Move(s, k, run.(at := Cancelling))
    else CallBroker(s, k, run, RecheckedQuantity(result.adjustedQuantity, modified))
  }

  /** `filled_price or price`, `filled_quantity or quantity` */
  function FillOf(job: Job, sent: int, filledPrice: Option<real>, filledQuantity: int, commission: real): Fill {
    Fill(if filledPrice.GetOr(0.0) != 0.0 then filledPrice.value else JobPrice(job),
         if filledQuantity != 0 then filledQuantity else sent, commission)
  }

  function WithFill(row: OrderRow, fill: Fill): OrderRow {
    row.(status := OrderStatus.Filled, filledQuantity := fill.quantity, filledPrice := Some(fill.price),
         commission := fill.commission)
  }

  function RecordExecution(s: System, k: RunId, run: Run, o: OrderId, fill: Fill, reply: Reply): System {
    if !reply.Written? then s
    else
      var recorded := s.(executions := s.executions + [ExecutionRow(o, fill)]);
      var written := if reply.applied || !reply.raised then recorded else s;
      Move(written, k, run.(at := if reply.raised then Recovering else SavingFill(fill)))
  }

  /** After the last await before the wait: the event is registered and the run waits. */
  function Announce(s: System, k: RunId, run: Run, r: RequestId): System {
    Note(Move(s.(inbox := Register(s.inbox, r)), k, run.(at := AwaitingAnswer)), Registered(k, r))
  }

  /** The wait ends because the event was set: read the result and clean up. */
  function TakeAnswer(s: System, k: RunId, run: Run, r: RequestId): System {
    if r !in s.inbox.events || !s.inbox.events[r] then s
    else
      var status := Response(s.inbox, r);
      if status == ApprovalStatus.Timeout then Move(s, k, run.(at := SavingTimeout))
      else AfterApproval(s.(inbox := Forget(s.inbox, r)), k, run, status)
  }

  function ReadOrder(s: System, k: RunId, run: Run, row: OrderRow): System {
    if row.modified.Some? then Move(s, k, run.(at := Rechecking(row.modified.value)))
    else CallBroker(s, k, run, JobQuantity(run.job))
  }

  function TakeFill(s: System, k: RunId, run: Run, sent: int, reply: Reply): System
    requires reply.Broker?
  {
    var fill := FillOf(run.job, sent, reply.filledPrice, reply.filledQuantity, reply.commission);
    if reply.status == OrderStatus.Filled || reply.status == OrderStatus.PartiallyFilled
    then Note(Move(s, k, run.(at := Recording(fill))),
              Reported(k, reply.filledPrice, reply.filledQuantity, reply.commission))
    else Move(s, k, run.(at := SavingFailure))
  }

  /** The handler's safe update swallows its own exception; either way the run returns a failure. */
  function Recover(s: System, k: RunId, run: Run, o: OrderId, row: OrderRow, reply: Reply): System {
    if !reply.Written? then s
    else
      var written := if reply.applied || !reply.raised then SetOrder(s, o, row.(status := OrderStatus.Failed)) else s;
      Move(written, k, run.(at := Done(Unsuccessful)))
  }

  /** Awaits other than database writes and the wait itself; an exception there goes to the run's handler. */
  predicate AwaitsOutside(at: Point) {
    || at in {Verifying, LoadingPortfolio, NotifyingAuto, Announcing, NotifyingTimeout, ReadingOrder}
    || at.Rechecking? || at.Placing?
  }

  /** Resuming from an outside await that returned. */
  function ResumeOutside(cfg: Config, s: System, k: RunId, run: Run, row: OrderRow, reply: Reply): System {
    match run.at
    case Verifying =>
      if reply.Verdict?
      then Note(Move(s, k, run.(verdict := Some(reply.result), at := SavingVerdict)), Verified(k, reply.result))
      else s
    case LoadingPortfolio =>
      if reply.Portfolio? then RequestApproval(cfg, s, k, run, reply.totalValue, reply.requestId) else s
    case NotifyingAuto =>
      if reply.Returned? then AfterApproval(s, k, run, ApprovalStatus.AutoApproved) else s
    case Announcing =>
      if reply.Returned? && run.request.Some? then Announce(s, k, run, run.request.value) else s
    case NotifyingTimeout =>
      if reply.Returned? && run.request.Some?
      then AfterApproval(s.(inbox := Forget(s.inbox, run.request.value)), k, run, ApprovalStatus.Timeout) else s
    case ReadingOrder =>
      if reply.Returned? then ReadOrder(s, k, run, row) else s
    case Rechecking(modified) =>
      if reply.RiskView? then Recheck(cfg, s, k, run, modified, reply.state) else s
    case Placing(quantity) =>
      if reply.Broker? then TakeFill(s, k, run, quantity, reply) else s
    case _ => s
  }

  /** A block cancels the order; anything else goes on. */
  function AfterVerdict(run: Run): Point {
    if run.verdict == Some(WebVerifyResult.Blocked) then Cancelling else LoadingPortfolio
  }

  /** Resuming from a database write of the run. */
  function ResumeWrite(s: System, k: RunId, run: Run, o: OrderId, row: OrderRow, reply: Reply): System {
    match run.at
    case SavingVerdict =>
      WriteOrder(s, k, run, o, row, reply, AfterVerdict(run))
    case SavingAuto =>
      if run.request.Some?
      then InsertRequest(s, k, run, o, run.request.value, Answered(ApprovalStatus.AutoApproved), reply, NotifyingAuto)
      else s
    case SavingRequest =>
      if run.request.Some? then InsertRequest(s, k, run, o, run.request.value, Waiting, reply, Announcing) else s
    case SavingTimeout =>
      if run.request.Some? then WriteTimeout(s, k, run, o, run.request.value, reply) else s
    case Cancelling =>
      WriteOrder(s, k, run, o, row.(status := OrderStatus.Cancelled), reply, Done(Unsuccessful))
    case SavingFailure =>
      WriteOrder(s, k, run, o, row.(status := OrderStatus.Failed), reply, Done(Unsuccessful))
    case Recording(fill) =>
      RecordExecution(s, k, run, o, fill, reply)
    case SavingFill(fill) =>
      WriteOrder(s, k, run, o, WithFill(row, fill), reply, Done(Executed(fill)))
    case Recovering =>
      Recover(s, k, run, o, row, reply)
    case _ => s
  }

  /** One segment of a run that has its order row. */
  function ResumeRun(cfg: Config, s: System, k: RunId, run: Run, o: OrderId, reply: Reply): System
    requires o in s.orders
  {
    if AwaitsOutside(run.at) then
      if reply.Raised? then Move(s, k, run.(at := Recovering)) else ResumeOutside(cfg, s, k, run, s.orders[o], reply)
    else if run.at.AwaitingAnswer? then
      if reply.Returned? && run.request.Some? then TakeAnswer(s, k, run, run.request.value) else s
    else ResumeWrite(s, k, run, o, s.orders[o], reply)
  }

  // ---- Callbacks ----

  function AcceptTap(s: System, c: CallbackId, r: RequestId, tap: Tap): System {
    if c in s.callbacks || r !in s.inbox.events then s
    else
      match Decide(tap)
      case None => s
      case Some(answer) => Note(s.(callbacks := s.callbacks[c := Callback(r, tap, answer, Saving)]), Accepted(r, tap))
  }

  /** The callback's transaction: request row, and through its order id the order row. */
  function ApplyAnswer(s: System, r: RequestId, answer: Answer): System {
    if r !in s.requests then s
    else
      var o := s.requests[r].orderId;
      var updated := s.(requests := s.requests[r := s.requests[r].(status := Answered(answer.status))]);
      if o !in s.orders then updated
      else
        SetOrder(updated, o, s.orders[o].(approval := answer.status,
          modified := if answer.modified.Some? then answer.modified else s.orders[o].modified))
  }

  function ResumeAnswer(s: System, c: CallbackId, cb: Callback, reply: Reply): System {
    match cb.at
    case Saving =>
      if reply.Written? then
        var written := if reply.applied || !reply.raised then ApplyAnswer(s, cb.request, cb.answer)
                       else Note(s, AnswerLost(cb.request));
        written.(callbacks := written.callbacks[c := cb.(at := Notifying)])
      else s
    case Notifying =>
      if reply.Returned? || reply.Raised? then
        s.(inbox := Signal(s.inbox, cb.request, cb.answer), callbacks := s.callbacks[c := cb.(at := Finished)])
      else s
    case Finished => s
  }

  // ---- The transition system ----

  function Next(cfg: Config, s: System, e: Event): System {
    match e
    case Begin(k, job) =>
      if k in s.runs then s else Move(s, k, Run(job, Creating, None, None, None, None))
    case Resume(k, reply) =>
      if k !in s.runs then s
      else if s.runs[k].at.Creating? then InsertOrder(s, k, s.runs[k], reply)
      else if s.runs[k].order.Some? && s.runs[k].order.value in s.orders
      then ResumeRun(cfg, s, k, s.runs[k], s.runs[k].order.value, reply)
      else s
    case TimerFires(k) =>
      if k in s.runs && s.runs[k].at.AwaitingAnswer? && s.runs[k].request.Some?
      then Note(Move(s, k, s.runs[k].(at := SavingTimeout)), TimedOut(s.runs[k].request.value))
      else s
    case TapArrives(c, r, tap) => AcceptTap(s, c, r, tap)
    case ResumeCallback(c, reply) =>
      if c in s.callbacks then ResumeAnswer(s, c, s.callbacks[c], reply) else s
  }

  /** The state after any schedule of events. */
  function After(cfg: Config, events: seq<Event>): System {
    if events == [] then Initial else Next(cfg, After(cfg, events[..|events| - 1]), events[|events| - 1])
  }
}

/**
  The status of an order row, over every schedule: that of the last write of a status that took effect, which is
  cancelled for a refused run, failed for an order the broker did not fill or for an exception, and filled for a fill.
*/
module ProtocolStatus {
  import opened Wrappers
  import opened Decimals
  import opened Enums
  import opened Approval
  import opened Protocol
  import opened ProtocolSafety
  import opened ProtocolRows
  import ProtocolLifecycle

  /** The order status that a write of a run stands for. */
  function StatusAt(at: Point): Option<OrderStatus> {
    match at
    case Cancelling => Some(OrderStatus.Cancelled)
    case SavingFailure => Some(OrderStatus.Failed)
    case Recovering => Some(OrderStatus.Failed)
    case SavingFill(_) => Some(OrderStatus.Filled)
    case _ => None
  }

  /** The order status an event writes for a run. */
  function StatusOf(s: System, e: Event, k: RunId): Option<OrderStatus> {
    match e
    case Resume(j, reply) =>
      if j == k && k in s.runs && s.runs[k].order.Some? && TookEffect(reply) then StatusAt(s.runs[k].at) else None
    case _ => None
  }

  /** The status of the last such write in a schedule. */
  function LastStatus(cfg: Config, events: seq<Event>, k: RunId): Option<OrderStatus> {
    if events == [] then None
    else
      var n := |events| - 1;
      Latest(StatusOf(After(cfg, events[..n]), events[n], k), LastStatus(cfg, events[..n], k))
  }

  ghost predicate RowHasStatus(s: System, k: RunId, last: Option<OrderStatus>) {
    if k in s.runs && s.runs[k].order.Some?
    then s.runs[k].order.value in s.orders
         && s.orders[s.runs[k].order.value].status == last.GetOr(OrderStatus.Pending)
    else last.None?
  }

  // ---- The run's own segments ----

  lemma WriteSetsStatus(s: System, k: RunId, o: OrderId, reply: Reply)
    requires k in s.runs && s.runs[k].order == Some(o) && o in s.orders
    requires !AwaitsOutside(s.runs[k].at) && !s.runs[k].at.AwaitingAnswer?
    ensures var t := ResumeWrite(s, k, s.runs[k], o, s.orders[o], reply);
            && k in t.runs && t.runs[k].order == Some(o) && o in t.orders
            && t.orders[o].status == Latest(StatusOf(s, Resume(k, reply), k), Some(s.orders[o].status)).value
  {
    var run, row := s.runs[k], s.orders[o];
    match run.at {
      case SavingVerdict => OrderWriteSets(s, k, o, row, reply, AfterVerdict(run));
      case SavingAuto =>
        if run.request.Some? {
          RequestWriteKeeps(s, k, o, run.request.value, Answered(ApprovalStatus.AutoApproved), reply, NotifyingAuto);
        }
      case SavingRequest =>
        if run.request.Some? { RequestWriteKeeps(s, k, o, run.request.value, Waiting, reply, Announcing); }
      case SavingTimeout => if run.request.Some? { TimeoutWriteKeeps(s, k, o, run.request.value, reply); }
      case Cancelling => OrderWriteSets(s, k, o, row.(status := OrderStatus.Cancelled), reply, Done(Unsuccessful));
      case SavingFailure => OrderWriteSets(s, k, o, row.(status := OrderStatus.Failed), reply, Done(Unsuccessful));
      case SavingFill(fill) => OrderWriteSets(s, k, o, WithFill(row, fill), reply, Done(Executed(fill)));
      case _ =>
    }
  }

  lemma OrderWriteSets(s: System, k: RunId, o: OrderId, row: OrderRow, reply: Reply, next: Point)
    requires k in s.runs && s.runs[k].order == Some(o) && o in s.orders
    ensures var t := WriteOrder(s, k, s.runs[k], o, row, reply, next);
            && k in t.runs && t.runs[k].order == Some(o) && o in t.orders
            && t.orders[o].status == if TookEffect(reply) then row.status else s.orders[o].status
  {
  }

  lemma RequestWriteKeeps(s: System, k: RunId, o: OrderId, r: RequestId, status: RequestStatus, reply: Reply,
                          next: Point)
    requires k in s.runs && s.runs[k].order == Some(o) && o in s.orders
    ensures var t := InsertRequest(s, k, s.runs[k], o, r, status, reply, next);
            && k in t.runs && t.runs[k].order == Some(o) && o in t.orders
            && t.orders[o].status == s.orders[o].status
  {
  }

  lemma TimeoutWriteKeeps(s: System, k: RunId, o: OrderId, r: RequestId, reply: Reply)
    requires k in s.runs && s.runs[k].order == Some(o) && o in s.orders
    ensures var t := WriteTimeout(s, k, s.runs[k], o, r, reply);
            && k in t.runs && t.runs[k].order == Some(o) && o in t.orders
            && t.orders[o].status == s.orders[o].status
  {
  }

  lemma OwnStatus(cfg: Config, s: System, k: RunId, reply: Reply, last: Option<OrderStatus>)
    requires k in s.runs && RunSafe(cfg, s, k) && s.runs[k].order.Some? && RowHasStatus(s, k, last)
    ensures RowHasStatus(Next(cfg, s, Resume(k, reply)), k, Latest(StatusOf(s, Resume(k, reply), k), last))
  {
    var run, o := s.runs[k], s.runs[k].order.value;
    assert Next(cfg, s, Resume(k, reply)) == ResumeRun(cfg, s, k, run, o, reply);
    if AwaitsOutside(run.at) || run.at.AwaitingAnswer? {
      ProtocolLifecycle.OutsideMoves(cfg, s, k, o, reply);
    } else {
      WriteSetsStatus(s, k, o, reply);
    }
  }

  lemma NewRowStatus(s: System, k: RunId, reply: Reply)
    requires k in s.runs && s.runs[k].order.None?
    ensures RowHasStatus(InsertOrder(s, k, s.runs[k], reply), k, None)
    ensures StatusOf(s, Resume(k, reply), k).None?
  {
  }

  // ---- Steps of others ----

  lemma OtherStatus(cfg: Config, s: System, t: System, j: RunId, k: RunId, last: Option<OrderStatus>)
    requires ProtocolSafety.Safe(cfg, s) && RunStep(s, t, j) && j != k && RowHasStatus(s, k, last)
    ensures RowHasStatus(t, k, last)
  {
    if k in s.runs && s.runs[k].order.Some? {
      assert RunSafe(cfg, s, k);
      assert s.runs[j].order != s.runs[k].order;
    }
  }

  lemma AnswerKeepsStatus(s: System, c: CallbackId, cb: Callback, reply: Reply, k: RunId, last: Option<OrderStatus>)
    requires RowHasStatus(s, k, last)
    ensures RowHasStatus(ResumeAnswer(s, c, cb, reply), k, last)
  {
    ApplyKeepsStatus(s, cb.request, cb.answer);
  }

  lemma ApplyKeepsStatus(s: System, r: RequestId, answer: Answer)
    ensures var t := ApplyAnswer(s, r, answer);
            && t.runs == s.runs && t.orders.Keys == s.orders.Keys
            && forall o :: o in s.orders ==> t.orders[o].status == s.orders[o].status
  {
  }

  lemma ResumeStatus(cfg: Config, s: System, j: RunId, reply: Reply, k: RunId, last: Option<OrderStatus>)
    requires ProtocolSafety.Safe(cfg, s) && RowHasStatus(s, k, last)
    ensures RowHasStatus(Next(cfg, s, Resume(j, reply)), k, Latest(StatusOf(s, Resume(j, reply), k), last))
  {
    if j in s.runs {
      assert RunSafe(cfg, s, j);
      if j != k {
        ResumeIsStep(cfg, s, j, reply);
        if Next(cfg, s, Resume(j, reply)) != s { OtherStatus(cfg, s, Next(cfg, s, Resume(j, reply)), j, k, last); }
      } else if s.runs[k].order.Some? {
        OwnStatus(cfg, s, k, reply, last);
      } else {
        NewRowStatus(s, k, reply);
      }
    }
  }

  lemma TimerStatus(cfg: Config, s: System, j: RunId, k: RunId, last: Option<OrderStatus>)
    requires RowHasStatus(s, k, last)
    ensures RowHasStatus(Next(cfg, s, TimerFires(j)), k, last)
  {
  }

  lemma BeginStatus(cfg: Config, s: System, j: RunId, job: Job, k: RunId, last: Option<OrderStatus>)
    requires RowHasStatus(s, k, last)
    ensures RowHasStatus(Next(cfg, s, Begin(j, job)), k, last)
  {
  }

  lemma NextStatus(cfg: Config, s: System, e: Event, k: RunId, last: Option<OrderStatus>)
    requires ProtocolSafety.Safe(cfg, s) && RowHasStatus(s, k, last)
    ensures RowHasStatus(Next(cfg, s, e), k, Latest(StatusOf(s, e, k), last))
  {
    match e {
      case Begin(j, job) => BeginStatus(cfg, s, j, job, k, last);
      case Resume(j, reply) => ResumeStatus(cfg, s, j, reply, k, last);
      case TimerFires(j) => TimerStatus(cfg, s, j, k, last);
      case TapArrives(c, r, tap) =>
      case ResumeCallback(c, reply) =>
        if c in s.callbacks { AnswerKeepsStatus(s, c, s.callbacks[c], reply, k, last); }
    }
  }

  /** The order row of a run shows the last status written for it, and is pending until there is one. */
  lemma {:induction false} RowShowsLastStatus(cfg: Config, events: seq<Event>, k: RunId)
    ensures RowHasStatus(After(cfg, events), k, LastStatus(cfg, events, k))
  {
    if events != [] {
      var n := |events| - 1;
      RowShowsLastStatus(cfg, events[..n], k);
      AlwaysSafe(cfg, events[..n]);
      NextStatus(cfg, After(cfg, events[..n]), events[n], k, LastStatus(cfg, events[..n], k));
    }
  }
}

/**
  Why a run fails and which approval path it takes, over every schedule. A run is on its way to failure exactly for a
  reason that the schedule shows; a warning of the web verifier or a partial fill is none. It takes the automatic path
  exactly when the portfolio value it loaded allows that.
*/
module ProtocolReasons {
  import opened Wrappers
  import opened Decimals
  import opened Enums
  import opened Approval
  import opened Protocol
  import opened ProtocolSafety
  import opened ProtocolQuantity
  import opened ProtocolModification
  import opened ProtocolAutomatic
  import ProtocolLifecycle
  import RiskGate
  import GateLaws

  // ---- Reasons ----

  /** Points from which a run can only return a failure. */
  predicate Failing(at: Point) {
    at.Cancelling? || at.SavingFailure? || at.Recovering? || at == Done(Unsuccessful)
  }

  /** Awaits that are database writes. */
  predicate AwaitsWrite(at: Point) {
    !AwaitsOutside(at) && !at.AwaitingAnswer? && !at.Done?
  }

  /** An answer that ends a run: an exception, a refused re-check, or an order that is not even partially filled. */
  predicate Ends(cfg: Config, run: Run, reply: Reply) {
    || (AwaitsOutside(run.at) && reply.Raised?)
    || (AwaitsWrite(run.at) && reply.Written? && reply.raised)
    || (run.at.Rechecking? && reply.RiskView? && !RecheckResult(cfg, run, run.at.modified, reply.state).passed)
    || (run.at.Placing? && reply.Broker?
        && reply.status != OrderStatus.Filled && reply.status != OrderStatus.PartiallyFilled)
  }

  /** A verdict or an approval status that ends a run. */
  predicate Refused(run: Run) {
    || run.verdict == Some(WebVerifyResult.Blocked)
    || run.approval == Some(ApprovalStatus.Rejected) || run.approval == Some(ApprovalStatus.Timeout)
  }

  /** How far a run has come. */
  function Progress(at: Point): nat {
    match at
    case Creating => 0
    case Verifying => 1
    case SavingVerdict => 2
    case LoadingPortfolio => 3
    case SavingAuto => 4
    case SavingRequest => 4
    case NotifyingAuto => 5
    case Announcing => 5
    case AwaitingAnswer => 6
    case SavingTimeout => 7
    case NotifyingTimeout => 8
    case ReadingOrder => 9
    case Rechecking(_) => 10
    case Placing(_) => 11
    case Recording(_) => 12
    case SavingFill(_) => 13
    case Cancelling => 14
    case SavingFailure => 14
    case Recovering => 15
    case Done(_) => 16
  }

  /** The answers an await can get: what it asked for, or an exception. */
  ghost predicate Answers(s: System, run: Run, reply: Reply) {
    match run.at
    case Verifying => reply.Verdict? || reply.Raised?
    case LoadingPortfolio => (reply.Portfolio? && reply.requestId !in s.owner) || reply.Raised?
    case Rechecking(_) => reply.RiskView? || reply.Raised?
    case Placing(_) => reply.Broker? || reply.Raised?
    case AwaitingAnswer =>
      reply.Returned? && run.request.Some? && run.request.value in s.inbox.events && s.inbox.events[run.request.value]
    case Done(_) => false
    case _ => if AwaitsOutside(run.at) then reply.Returned? || reply.Raised? else reply.Written?
  }

  /** The path a run may be on, given whether its decision was approved automatically. */
  predicate OnPath(run: Run, automatic: bool) {
    && (automatic ==>
          !AsksHuman(run.at) && (run.approval.Some? ==> run.approval == Some(ApprovalStatus.AutoApproved)))
    && (!automatic ==>
          !run.at.SavingAuto? && !run.at.NotifyingAuto? && run.approval != Some(ApprovalStatus.AutoApproved))
  }

  /** What a re-check asks: whether the portfolio admits the modified quantity at the decision's price and stop. */
  lemma RecheckExactly(cfg: Config, run: Run, modified: int, state: RiskGate.PortfolioState)
    ensures var d, passed := DecisionOf(run.job), RecheckResult(cfg, run, modified, state).passed;
            && (JobSide(run.job) == OrderSide.Sell ==> passed)
            && (JobSide(run.job) == OrderSide.Buy ==>
                  (passed <==>
                     && d.price.Some? && d.price.value > 0.0 && state.totalValue > 0.0
                     && GateLaws.Admits(cfg.risk, state, d.symbol, modified, d.price.value, d.stop, "")))
  {
    var d := DecisionOf(run.job);
    GateLaws.ExemptAndInvalid(cfg.risk, state, d.symbol, RecheckAction(JobSide(run.job)), modified, JobPrice(run.job),
                              d.stop, "");
    if d.price.Some? && d.price.value > 0.0 && state.totalValue > 0.0 {
      GateLaws.PassesExactly(cfg.risk, state, d.symbol, modified, d.price.value, d.stop, "");
    }
  }

  // ---- One segment ----

  /** What one segment of a run may make of it. */
  ghost predicate Turns(cfg: Config, run: Run, next: Run, reply: Reply) {
    && (Failing(next.at) ==> Failing(run.at) || Ends(cfg, run, reply) || Refused(next) || JobQuantity(run.job) <= 0)
    && (Failing(run.at) || Ends(cfg, run, reply) || (Refused(next) && !next.at.SavingVerdict?) ==> Failing(next.at))
    && (next == run || Progress(next.at) > Progress(run.at))
    && (run.request.Some? ==>
          (OnPath(run, true) ==> OnPath(next, true)) && (OnPath(run, false) ==> OnPath(next, false)))
    && (run.request.None? && next.request.Some? ==>
          && run.at.LoadingPortfolio? && reply.Portfolio? && next.request == Some(reply.requestId)
          && OnPath(next, AutoApproves(cfg.approval, DecisionOf(run.job), reply.totalValue)))
  }

  /** What is known of a run between segments. */
  ghost predicate Steady(run: Run) {
    && Placed(run) && (run.at.Rechecking? ==> run.at.modified > 0)
    && (Refused(run) && !run.at.SavingVerdict? ==> Failing(run.at))
    && (BeforeRequest(run.at) ==> run.request.None? && run.approval.None?)
    && (run.at.Verifying? || run.at.Creating? ==> run.verdict.None?)
  }

  ghost predicate TurnsTo(cfg: Config, s: System, t: System, k: RunId, reply: Reply)
    requires k in s.runs
  {
    && k in t.runs && Turns(cfg, s.runs[k], t.runs[k], reply)
    && (Answers(s, s.runs[k], reply) ==> t.runs[k] != s.runs[k])
  }

  lemma CallTurns(cfg: Config, s: System, k: RunId, before: Run, run: Run, quantity: int, reply: Reply)
    requires !Failing(before.at) && !Ends(cfg, before, reply) && !Refused(run)
    requires quantity <= 0 ==> JobQuantity(before.job) <= 0
    requires before.request.Some? && run.request == before.request && Progress(before.at) < Progress(Placing(1))
    requires (OnPath(before, true) ==> OnPath(run.(at := Recovering), true))
             && (OnPath(before, false) ==> OnPath(run.(at := Recovering), false))
    ensures var t := CallBroker(s, k, run, quantity); k in t.runs && Turns(cfg, before, t.runs[k], reply)
  {
    var t := CallBroker(s, k, run, quantity);
    assert t.runs[k] == run.(at := if quantity <= 0 then Recovering else Placing(quantity));
  }

  lemma ApprovalTurns(cfg: Config, s: System, k: RunId, run: Run, status: ApprovalStatus, reply: Reply)
    requires run.request.Some? && !Failing(run.at) && !Ends(cfg, run, reply) && !Refused(run)
    requires status == ApprovalStatus.AutoApproved ==> run.at.NotifyingAuto?
    requires status != ApprovalStatus.AutoApproved ==> AsksHuman(run.at)
    ensures var t := AfterApproval(s, k, run, status); k in t.runs && Turns(cfg, run, t.runs[k], reply)
  {
    var approved := run.(approval := Some(status));
    if status == ApprovalStatus.Rejected || status == ApprovalStatus.Timeout {
      StatusTurns(cfg, run, approved.(at := Cancelling), status, reply);
    } else if run.job.Entry? {
      StatusTurns(cfg, run, approved.(at := ReadingOrder), status, reply);
    } else {
      CallTurns(cfg, s, k, run, approved, JobQuantity(run.job), reply);
    }
  }

  lemma StatusTurns(cfg: Config, run: Run, next: Run, status: ApprovalStatus, reply: Reply)
    requires run.request.Some? && !Failing(run.at) && !Ends(cfg, run, reply) && !Refused(run)
    requires status == ApprovalStatus.AutoApproved ==> run.at.NotifyingAuto?
    requires status != ApprovalStatus.AutoApproved ==> AsksHuman(run.at)
    requires next == run.(approval := Some(status), at := next.at)
    requires if status == ApprovalStatus.Rejected || status == ApprovalStatus.Timeout then next.at.Cancelling?
             else next.at.ReadingOrder?
    ensures Turns(cfg, run, next, reply)
  {
  }

  lemma RequestTurns(cfg: Config, s: System, k: RunId, totalValue: real, r: RequestId)
    requires k in s.runs && s.runs[k].at.LoadingPortfolio? && Steady(s.runs[k])
    ensures var t := RequestApproval(cfg, s, k, s.runs[k], totalValue, r);
            TurnsTo(cfg, s, t, k, Portfolio(totalValue, r))
  {
  }

  lemma VerdictTurns(cfg: Config, s: System, k: RunId, v: WebVerifyResult)
    requires k in s.runs && s.runs[k].at.Verifying? && Steady(s.runs[k])
    ensures var t := Note(Move(s, k, s.runs[k].(verdict := Some(v), at := SavingVerdict)), Verified(k, v));
            TurnsTo(cfg, s, t, k, Verdict(v))
  {
  }

  lemma AnnounceTurns(cfg: Config, s: System, k: RunId, r: RequestId)
    requires k in s.runs && s.runs[k].at.Announcing? && s.runs[k].request == Some(r) && Steady(s.runs[k])
    ensures TurnsTo(cfg, s, Announce(s, k, s.runs[k], r), k, Returned)
  {
  }

  lemma FillTurns(cfg: Config, s: System, k: RunId, reply: Reply)
    requires k in s.runs && s.runs[k].at.Placing? && Steady(s.runs[k]) && reply.Broker?
    ensures TurnsTo(cfg, s, TakeFill(s, k, s.runs[k], s.runs[k].at.quantity, reply), k, reply)
  {
    var run := s.runs[k];
    var fill := FillOf(run.job, run.at.quantity, reply.filledPrice, reply.filledQuantity, reply.commission);
    ReportTurns(cfg, run, fill, reply);
  }

  lemma ReportTurns(cfg: Config, run: Run, fill: Fill, reply: Reply)
    requires run.at.Placing? && Steady(run) && reply.Broker?
    ensures var filled := reply.status == OrderStatus.Filled || reply.status == OrderStatus.PartiallyFilled;
            Turns(cfg, run, run.(at := if filled then Recording(fill) else SavingFailure), reply)
  {
  }

  lemma RecheckTurns(cfg: Config, s: System, k: RunId, reply: Reply)
    requires k in s.runs && s.runs[k].at.Rechecking? && Steady(s.runs[k]) && reply.RiskView?
    ensures TurnsTo(cfg, s, Recheck(cfg, s, k, s.runs[k], s.runs[k].at.modified, reply.state), k, reply)
  {
    var run := s.runs[k];
    RecheckKeepsQuantity(cfg, run, run.at.modified, reply.state);
    var result := RecheckResult(cfg, run, run.at.modified, reply.state);
    if result.passed {
      CallTurns(cfg, s, k, run, run, RecheckedQuantity(result.adjustedQuantity, run.at.modified), reply);
    }
  }

  lemma ReadTurns(cfg: Config, s: System, k: RunId, row: OrderRow)
    requires k in s.runs && s.runs[k].at.ReadingOrder? && Steady(s.runs[k])
    ensures TurnsTo(cfg, s, ReadOrder(s, k, s.runs[k], row), k, Returned)
  {
    if row.modified.None? { CallTurns(cfg, s, k, s.runs[k], s.runs[k], JobQuantity(s.runs[k].job), Returned); }
  }

  lemma OutsideTurns(cfg: Config, s: System, k: RunId, row: OrderRow, reply: Reply)
    requires k in s.runs && AwaitsOutside(s.runs[k].at) && Steady(s.runs[k]) && !reply.Raised?
    ensures var t := ResumeOutside(cfg, s, k, s.runs[k], row, reply); TurnsTo(cfg, s, t, k, reply)
  {
    var run := s.runs[k];
    match run.at {
      case Verifying => if reply.Verdict? { VerdictTurns(cfg, s, k, reply.result); }
      case LoadingPortfolio => if reply.Portfolio? { RequestTurns(cfg, s, k, reply.totalValue, reply.requestId); }
      case NotifyingAuto => ApprovalTurns(cfg, s, k, run, ApprovalStatus.AutoApproved, reply);
      case Announcing => if reply.Returned? { AnnounceTurns(cfg, s, k, run.request.value); }
      case NotifyingTimeout =>
        ApprovalTurns(cfg, s.(inbox := Forget(s.inbox, run.request.value)), k, run, ApprovalStatus.Timeout, reply);
      case ReadingOrder => if reply.Returned? { ReadTurns(cfg, s, k, row); }
      case Rechecking(modified) => if reply.RiskView? { RecheckTurns(cfg, s, k, reply); }
      case Placing(quantity) => if reply.Broker? { FillTurns(cfg, s, k, reply); }
      case _ =>
    }
  }

  lemma AnswerTurns(cfg: Config, s: System, k: RunId, r: RequestId)
    requires k in s.runs && s.runs[k].at.AwaitingAnswer? && s.runs[k].request == Some(r) && Steady(s.runs[k])
    requires InboxSafe(s.inbox, s.owner, s.log)
    ensures var t := TakeAnswer(s, k, s.runs[k], r); TurnsTo(cfg, s, t, k, Returned)
  {
    var status := Response(s.inbox, r);
    if status != ApprovalStatus.Timeout {
      ApprovalTurns(cfg, s.(inbox := Forget(s.inbox, r)), k, s.runs[k], status, Returned);
    }
  }

  /** A write leads on if it did not raise, and to recovery if it did. */
  lemma WriteTurns(cfg: Config, s: System, k: RunId, o: OrderId, reply: Reply)
    requires k in s.runs && AwaitsWrite(s.runs[k].at) && !s.runs[k].at.Creating? && Steady(s.runs[k])
    requires s.runs[k].order == Some(o) && o in s.orders && PointSafe(cfg, s.log, k, s.runs[k])
    ensures var t := ResumeWrite(s, k, s.runs[k], o, s.orders[o], reply); TurnsTo(cfg, s, t, k, reply)
  {
    var t := ResumeWrite(s, k, s.runs[k], o, s.orders[o], reply);
    WriteMoves(cfg, s, k, o, reply);
    WriteRecovers(s, k, o, reply);
    if t != s { TargetTurns(cfg, s.runs[k], t.runs[k], reply); }
  }

  lemma TargetTurns(cfg: Config, run: Run, next: Run, reply: Reply)
    requires AwaitsWrite(run.at) && !run.at.Creating? && Steady(run)
    requires next == run.(at := next.at) && WriteTarget(run, next.at) && reply.Written?
    requires next.at.Recovering? || next.at == Done(Unsuccessful) <==>
               reply.raised || run.at.Cancelling? || run.at.SavingFailure? || run.at.Recovering?
    requires run.at.Recovering? ==> next.at.Done?
    ensures Turns(cfg, run, next, reply) && next != run
  {
  }

  lemma WriteRecovers(s: System, k: RunId, o: OrderId, reply: Reply)
    requires k in s.runs && o in s.orders && AwaitsWrite(s.runs[k].at) && !s.runs[k].at.Creating?
    ensures var t := ResumeWrite(s, k, s.runs[k], o, s.orders[o], reply);
            && (t == s ==> !reply.Written? || s.runs[k].request.None?)
            && (t != s ==>
                  reply.Written? && k in t.runs
                  && (t.runs[k].at.Recovering? || t.runs[k].at == Done(Unsuccessful) <==>
                        reply.raised || s.runs[k].at.Cancelling? || s.runs[k].at.SavingFailure?
                        || s.runs[k].at.Recovering?)
                  && (s.runs[k].at.Recovering? ==> t.runs[k].at.Done?))
  {
  }

  lemma InsertTurns(cfg: Config, s: System, k: RunId, reply: Reply)
    requires k in s.runs && s.runs[k].at.Creating? && Steady(s.runs[k])
    ensures TurnsTo(cfg, s, InsertOrder(s, k, s.runs[k], reply), k, reply)
  {
  }

  lemma RaisedTurns(cfg: Config, s: System, k: RunId)
    requires k in s.runs && AwaitsOutside(s.runs[k].at) && Steady(s.runs[k])
    ensures TurnsTo(cfg, s, Move(s, k, s.runs[k].(at := Recovering)), k, Raised)
  {
  }

  lemma ResumeTurns(cfg: Config, s: System, k: RunId, reply: Reply)
    requires k in s.runs && RunSafe(cfg, s, k) && Steady(s.runs[k]) && InboxSafe(s.inbox, s.owner, s.log)
    requires s.runs[k].order.None? ==> s.runs[k].at.Creating? || s.runs[k].at == Done(Unsuccessful)
    ensures TurnsTo(cfg, s, Next(cfg, s, Resume(k, reply)), k, reply)
  {
    var run := s.runs[k];
    if run.at.Creating? {
      InsertTurns(cfg, s, k, reply);
    } else if run.order.Some? {
      var o := run.order.value;
      assert Next(cfg, s, Resume(k, reply)) == ResumeRun(cfg, s, k, run, o, reply);
      if AwaitsOutside(run.at) {
        RaisedTurns(cfg, s, k);
        if !reply.Raised? { OutsideTurns(cfg, s, k, s.orders[o], reply); }
      } else if run.at.AwaitingAnswer? {
        AnswerTurns(cfg, s, k, run.request.value);
      } else if !run.at.Done? {
        WriteTurns(cfg, s, k, o, reply);
      }
    }
  }

  // ---- What the schedule shows ----

  /** Event n is an answer that ends the run. */
  ghost predicate EndsAt(cfg: Config, events: seq<Event>, n: int, k: RunId) {
    && 0 <= n < |events| && events[n].Resume? && events[n].run == k
    && k in After(cfg, events[..n]).runs && Ends(cfg, After(cfg, events[..n]).runs[k], events[n].reply)
  }

  /** Event n brought the run the portfolio value and its request. */
  ghost predicate LoadedAt(cfg: Config, events: seq<Event>, n: int, k: RunId, r: RequestId, totalValue: real) {
    && 0 <= n < |events| && events[n] == Resume(k, Portfolio(totalValue, r))
    && k in After(cfg, events[..n]).runs && After(cfg, events[..n]).runs[k].at.LoadingPortfolio?
  }

  ghost predicate HasEnded(cfg: Config, events: seq<Event>, k: RunId) {
    exists n :: EndsAt(cfg, events, n, k)
  }

  ghost predicate PathTaken(cfg: Config, events: seq<Event>, k: RunId, run: Run) {
    run.request.Some? ==>
      exists n, totalValue ::
        && LoadedAt(cfg, events, n, k, run.request.value, totalValue)
        && OnPath(run, AutoApproves(cfg.approval, DecisionOf(run.job), totalValue))
  }

  ghost predicate Fated(cfg: Config, events: seq<Event>, k: RunId, run: Run) {
    && (Failing(run.at) ==> Refused(run) || JobQuantity(run.job) <= 0 || HasEnded(cfg, events, k))
    && (HasEnded(cfg, events, k) || (Refused(run) && !run.at.SavingVerdict?) ==> Failing(run.at))
    && PathTaken(cfg, events, k, run)
  }

  ghost predicate AllFated(cfg: Config, events: seq<Event>, s: System) {
    && (forall k :: k in s.runs ==> Fated(cfg, events, k, s.runs[k]))
    && (forall k :: HasEnded(cfg, events, k) ==> k in s.runs)
  }

  // ---- One more event ----

  lemma EndsBefore(cfg: Config, events: seq<Event>, e: Event, n: int, k: RunId)
    requires 0 <= n < |events|
    ensures EndsAt(cfg, events + [e], n, k) <==> EndsAt(cfg, events, n, k)
  {
    assert (events + [e])[..n] == events[..n];
  }

  /** A run has ended after one more event if it had before, or if the event ends it. */
  lemma EndedNow(cfg: Config, events: seq<Event>, e: Event, k: RunId)
    ensures var s := After(cfg, events);
            HasEnded(cfg, events + [e], k) <==>
              || HasEnded(cfg, events, k)
              || (e.Resume? && e.run == k && k in s.runs && Ends(cfg, s.runs[k], e.reply))
  {
    assert (events + [e])[..|events|] == events;
    if n :| EndsAt(cfg, events, n, k) { EndsBefore(cfg, events, e, n, k); }
    if n :| EndsAt(cfg, events + [e], n, k) {
      if n < |events| { EndsBefore(cfg, events, e, n, k); }
    }
    if e.Resume? && e.run == k && k in After(cfg, events).runs && Ends(cfg, After(cfg, events).runs[k], e.reply) {
      assert EndsAt(cfg, events + [e], |events|, k);
    }
  }

  lemma LoadedBefore(cfg: Config, events: seq<Event>, e: Event, n: int, k: RunId, r: RequestId, totalValue: real)
    requires LoadedAt(cfg, events, n, k, r, totalValue)
    ensures LoadedAt(cfg, events + [e], n, k, r, totalValue)
  {
    assert (events + [e])[..n] == events[..n];
  }

  /** A run the event does not move. */
  lemma StillFated(cfg: Config, events: seq<Event>, e: Event, k: RunId, run: Run)
    requires Fated(cfg, events, k, run)
    requires HasEnded(cfg, events + [e], k) <==> HasEnded(cfg, events, k)
    ensures Fated(cfg, events + [e], k, run)
  {
    if run.request.Some? {
      var n, totalValue :| LoadedAt(cfg, events, n, k, run.request.value, totalValue)
                           && OnPath(run, AutoApproves(cfg.approval, DecisionOf(run.job), totalValue));
      LoadedBefore(cfg, events, e, n, k, run.request.value, totalValue);
    }
  }

  /** The path a run was on goes on, and a new one is the one the portfolio value decides. */
  lemma PathGoesOn(cfg: Config, events: seq<Event>, k: RunId, reply: Reply, next: Run)
    requires var s := After(cfg, events);
             && k in s.runs && PathTaken(cfg, events, k, s.runs[k]) && Turns(cfg, s.runs[k], next, reply)
             && next.job == s.runs[k].job && (s.runs[k].request.Some? ==> next.request == s.runs[k].request)
    ensures PathTaken(cfg, events + [Resume(k, reply)], k, next)
  {
    var run, e := After(cfg, events).runs[k], Resume(k, reply);
    if run.request.Some? {
      var n, totalValue :| LoadedAt(cfg, events, n, k, run.request.value, totalValue)
                           && OnPath(run, AutoApproves(cfg.approval, DecisionOf(run.job), totalValue));
      LoadedBefore(cfg, events, e, n, k, run.request.value, totalValue);
    } else if next.request.Some? {
      assert (events + [e])[..|events|] == events;
      assert LoadedAt(cfg, events + [e], |events|, k, reply.requestId, reply.totalValue);
    }
  }

  lemma TurnFated(cfg: Config, events: seq<Event>, k: RunId, reply: Reply, next: Run)
    requires var s := After(cfg, events);
             && k in s.runs && Fated(cfg, events, k, s.runs[k]) && Turns(cfg, s.runs[k], next, reply)
             && next.job == s.runs[k].job && (s.runs[k].request.Some? ==> next.request == s.runs[k].request)
             && (Refused(s.runs[k]) ==> Refused(next))
    ensures Fated(cfg, events + [Resume(k, reply)], k, next)
  {
    EndedNow(cfg, events, Resume(k, reply), k);
    PathGoesOn(cfg, events, k, reply, next);
  }

  // ---- Every event keeps it ----

  lemma AlwaysSteady(cfg: Config, events: seq<Event>, k: RunId)
    requires k in After(cfg, events).runs && AllFated(cfg, events, After(cfg, events))
    ensures Steady(After(cfg, events).runs[k])
    ensures var run := After(cfg, events).runs[k]; run.order.None? ==> run.at.Creating? || run.at == Done(Unsuccessful)
  {
    var s := After(cfg, events);
    AlwaysRead(cfg, events);
    ProtocolLifecycle.AlwaysLives(cfg, events);
    assert RunRead(cfg, events, k, s.runs[k]) && RunSafe(cfg, s, k);
    assert ProtocolLifecycle.Life(s.orders, s.executions, s.log, k, s.runs[k]);
    assert Fated(cfg, events, k, s.runs[k]);
  }

  /** A verdict and an approval are given once. */
  lemma RefusalStays(cfg: Config, s: System, k: RunId, reply: Reply)
    requires k in s.runs && Steady(s.runs[k]) && TurnsTo(cfg, s, Next(cfg, s, Resume(k, reply)), k, reply)
    ensures Refused(s.runs[k]) ==> Refused(Next(cfg, s, Resume(k, reply)).runs[k])
  {
    if Refused(s.runs[k]) && s.runs[k].order.Some? && s.runs[k].order.value in s.orders {
      FailedRunKeeps(s, k, s.runs[k].order.value, reply);
    }
  }

  lemma FailedRunKeeps(s: System, k: RunId, o: OrderId, reply: Reply)
    requires k in s.runs && o in s.orders && (Failing(s.runs[k].at) || s.runs[k].at.SavingVerdict?)
    ensures var t := ResumeWrite(s, k, s.runs[k], o, s.orders[o], reply);
            k in t.runs && t.runs[k].verdict == s.runs[k].verdict && t.runs[k].approval == s.runs[k].approval
  {
  }

  lemma ResumeFated(cfg: Config, events: seq<Event>, k: RunId, reply: Reply)
    requires AllFated(cfg, events, After(cfg, events)) && k in After(cfg, events).runs
    ensures AllFated(cfg, events + [Resume(k, reply)], Next(cfg, After(cfg, events), Resume(k, reply)))
  {
    var s, e := After(cfg, events), Resume(k, reply);
    var t := Next(cfg, s, e);
    AlwaysSafe(cfg, events);
    AlwaysSteady(cfg, events, k);
    assert RunSafe(cfg, s, k);
    ResumeTurns(cfg, s, k, reply);
    RefusalStays(cfg, s, k, reply);
    NextGrows(cfg, s, e);
    TurnFated(cfg, events, k, reply, t.runs[k]);
    OnlyRunMoves(cfg, s, k, reply);
    forall j | j in t.runs ensures Fated(cfg, events + [e], j, t.runs[j]) {
      if j != k {
        EndedNow(cfg, events, e, j);
        StillFated(cfg, events, e, j, s.runs[j]);
      }
    }
    forall j | HasEnded(cfg, events + [e], j) ensures j in t.runs { EndedNow(cfg, events, e, j); }
  }

  lemma OnlyRunMoves(cfg: Config, s: System, k: RunId, reply: Reply)
    requires k in s.runs && RunSafe(cfg, s, k)
    ensures var t := Next(cfg, s, Resume(k, reply)); k in t.runs && t.runs == s.runs[k := t.runs[k]]
  {
    ResumeIsStep(cfg, s, k, reply);
  }

  /** Events other than the segments of a run end nothing. */
  lemma OthersFated(cfg: Config, events: seq<Event>, e: Event)
    requires AllFated(cfg, events, After(cfg, events)) && (e.Resume? ==> e.run !in After(cfg, events).runs)
    ensures AllFated(cfg, events + [e], Next(cfg, After(cfg, events), e))
  {
    var s := After(cfg, events);
    var t := Next(cfg, s, e);
    OtherMoves(cfg, s, e);
    forall k | k in t.runs ensures Fated(cfg, events + [e], k, t.runs[k]) {
      OtherFated(cfg, events, e, k, t.runs[k]);
    }
    forall j | HasEnded(cfg, events + [e], j) ensures j in t.runs { EndedNow(cfg, events, e, j); }
  }

  lemma OtherFated(cfg: Config, events: seq<Event>, e: Event, k: RunId, next: Run)
    requires AllFated(cfg, events, After(cfg, events)) && (e.Resume? ==> e.run !in After(cfg, events).runs)
    requires var s := After(cfg, events);
             || (k in s.runs && next == s.runs[k])
             || (k !in s.runs && next.at.Creating? && next.request.None? && !Refused(next))
             || (k in s.runs && s.runs[k].at.AwaitingAnswer? && next == s.runs[k].(at := SavingTimeout))
    ensures Fated(cfg, events + [e], k, next)
  {
    var s := After(cfg, events);
    EndedNow(cfg, events, e, k);
    if k in s.runs {
      StillFated(cfg, events, e, k, s.runs[k]);
      if next != s.runs[k] { AlwaysSteady(cfg, events, k); }
    }
  }

  /** They begin a run, or send one that waits to its timeout, or move none. */
  lemma OtherMoves(cfg: Config, s: System, e: Event)
    requires e.Resume? ==> e.run !in s.runs
    ensures var t := Next(cfg, s, e);
            && (forall k :: k in s.runs ==> k in t.runs)
            && forall k :: k in t.runs ==>
                 || (k in s.runs && t.runs[k] == s.runs[k])
                 || (k !in s.runs && t.runs[k].at.Creating? && t.runs[k].request.None? && !Refused(t.runs[k]))
                 || (k in s.runs && s.runs[k].at.AwaitingAnswer? && t.runs[k] == s.runs[k].(at := SavingTimeout))
  {
    match e {
      case Begin(k, job) =>
      case Resume(k, reply) =>
      case TimerFires(k) =>
      case TapArrives(c, r, tap) =>
      case ResumeCallback(c, reply) =>
        if c in s.callbacks { AnswerLogs(s, c, s.callbacks[c], reply); }
    }
  }

  lemma {:induction false} AlwaysFated(cfg: Config, events: seq<Event>)
    ensures AllFated(cfg, events, After(cfg, events))
  {
    if events != [] {
      var before, e := events[..|events| - 1], events[|events| - 1];
      assert events == before + [e];
      AlwaysFated(cfg, before);
      if e.Resume? && e.run in After(cfg, before).runs {
        ResumeFated(cfg, before, e.run, e.reply);
      } else {
        OthersFated(cfg, before, e);
      }
    }
  }

  // ---- The theorems ----

  /** Over every schedule, a segment moves its run forward or not at all, and any answer to its await moves it. */
  lemma {:induction false} RunsMoveForward(cfg: Config, events: seq<Event>, k: RunId, reply: Reply)
    requires k in After(cfg, events).runs
    ensures var s, t := After(cfg, events), After(cfg, events + [Resume(k, reply)]);
            && k in t.runs
            && (t.runs[k] == s.runs[k] || Progress(t.runs[k].at) > Progress(s.runs[k].at))
            && (Answers(s, s.runs[k], reply) ==> Progress(t.runs[k].at) > Progress(s.runs[k].at))
  {
    var s := After(cfg, events);
    AlwaysSafe(cfg, events);
    AlwaysFated(cfg, events);
    AlwaysSteady(cfg, events, k);
    assert RunSafe(cfg, s, k);
    ResumeTurns(cfg, s, k, reply);
    assert (events + [Resume(k, reply)])[..|events|] == events;
  }

  /**
    Over every schedule: a run fails only for a reason, which is a blocking verdict, a rejection or a timeout, an
    exception of an await, a refused re-check, an order the broker did not even fill partially, or a quantity that is
    not positive; and each of these but the last leads to failure, a blocking verdict as soon as it is saved.
  */
  lemma {:induction false} FailsForAReason(cfg: Config, events: seq<Event>, k: RunId)
    requires k in After(cfg, events).runs
    ensures var run := After(cfg, events).runs[k];
            && (Failing(run.at) ==>
                  Refused(run) || JobQuantity(run.job) <= 0 || exists n :: EndsAt(cfg, events, n, k))
            && ((exists n :: EndsAt(cfg, events, n, k)) ==> Failing(run.at))
            && (Refused(run) && !run.at.SavingVerdict? ==> Failing(run.at))
  {
    AlwaysFated(cfg, events);
    assert Fated(cfg, events, k, After(cfg, events).runs[k]);
  }

  /**
    Over every schedule: the approval path of a run is the one its decision and the portfolio value it loaded call for.
    If they allow an automatic approval it asks nobody and can be given nothing else, and if not it never gets one.
  */
  lemma {:induction false} PathFollowsPortfolio(cfg: Config, events: seq<Event>, k: RunId, r: RequestId)
    requires var s := After(cfg, events); k in s.runs && s.runs[k].request == Some(r)
    ensures var run := After(cfg, events).runs[k];
            exists n, totalValue ::
              && LoadedAt(cfg, events, n, k, r, totalValue)
              && OnPath(run, AutoApproves(cfg.approval, DecisionOf(run.job), totalValue))
  {
    AlwaysFated(cfg, events);
    assert Fated(cfg, events, k, After(cfg, events).runs[k]);
  }
}

/**
  The automatic path over every schedule: with human approval switched off, and for stop-loss and take-profit exits in
  any case, a run never asks anybody, its request row says so, and its approval is the automatic one.
*/
module ProtocolAutomatic {
  import opened Wrappers
  import opened Decimals
  import opened Enums
  import opened Approval
  import opened Protocol
  import opened ProtocolSafety
  import opened ProtocolAgreement
  import opened ProtocolQuantity
  import RiskGate

  /** Jobs that are approved automatically whatever the portfolio is worth. */
  predicate Unattended(cfg: Config, job: Job) {
    || !cfg.approval.humanApprovalRequired
    || (job.Exit? && (job.reason == ExitReason.StopLoss || job.reason == ExitReason.TakeProfit))
    || (job.Entry? && (job.decision.action == DecisionAction.StopLoss
                       || job.decision.action == DecisionAction.TakeProfit))
  }

  /** Points on the way to a human's answer or to its timeout. */
  predicate AsksHuman(at: Point) {
    at.SavingRequest? || at.Announcing? || at.AwaitingAnswer? || at.SavingTimeout? || at.NotifyingTimeout?
  }

  /** Nobody was asked for this request, and its row, once written, is the automatic approval. */
  ghost predicate Automatic(s: System, r: RequestId) {
    && (forall k :: Registered(k, r) !in s.log) && (forall tap :: Accepted(r, tap) !in s.log)
    && (r in s.requests ==> s.requests[r].status == Answered(ApprovalStatus.AutoApproved))
  }

  ghost predicate RunAutomatic(s: System, run: Run) {
    && !AsksHuman(run.at) && (run.approval.Some? ==> run.approval == Some(ApprovalStatus.AutoApproved))
    && (run.request.Some? ==> Automatic(s, run.request.value))
  }

  /** Taps are accepted for requests somebody has made. */
  ghost predicate TapsOwned(s: System) {
    forall r, tap :: Accepted(r, tap) in s.log ==> r in s.owner
  }

  ghost predicate AllAutomatic(cfg: Config, s: System) {
    && TapsOwned(s)
    && forall k :: k in s.runs && Unattended(cfg, s.runs[k].job) ==> RunAutomatic(s, s.runs[k])
  }

  // ---- Segments of an unattended run ----

  lemma UnattendedAutoApproves(cfg: Config, job: Job, totalValue: real)
    requires Unattended(cfg, job)
    ensures AutoApproves(cfg.approval, DecisionOf(job), totalValue)
  {
    AutomaticExactly(cfg.approval, DecisionOf(job), totalValue);
  }

  ghost predicate AutoLands(s: System, t: System, k: RunId) {
    k in s.runs && k in t.runs && RunAutomatic(t, t.runs[k])
  }

  lemma CallLandsAuto(s: System, k: RunId, run: Run, quantity: int)
    requires k in s.runs && RunAutomatic(s, run)
    ensures AutoLands(s, CallBroker(s, k, run, quantity), k)
  {
    var t := CallBroker(s, k, run, quantity);
    if quantity > 0 { assert t.log == s.log + [Called(k, JobSide(run.job), quantity)]; }
  }

  lemma ApprovalLandsAuto(s: System, k: RunId)
    requires k in s.runs && RunAutomatic(s, s.runs[k])
    ensures AutoLands(s, AfterApproval(s, k, s.runs[k], ApprovalStatus.AutoApproved), k)
  {
    var run := s.runs[k].(approval := Some(ApprovalStatus.AutoApproved));
    if run.job.Exit? { CallLandsAuto(s, k, run, JobQuantity(run.job)); }
  }

  lemma RequestLandsAuto(cfg: Config, s: System, k: RunId, totalValue: real, r: RequestId)
    requires k in s.runs && RunAutomatic(s, s.runs[k]) && Unattended(cfg, s.runs[k].job)
    requires Filed(s) && TapsOwned(s) && RequestsOwned(s.runs, s.owner, s.requests)
    ensures var t := RequestApproval(cfg, s, k, s.runs[k], totalValue, r); t == s || AutoLands(s, t, k)
  {
    UnattendedAutoApproves(cfg, s.runs[k].job, totalValue);
  }

  lemma VerdictLandsAuto(s: System, k: RunId, v: WebVerifyResult)
    requires k in s.runs && RunAutomatic(s, s.runs[k])
    ensures AutoLands(s, Note(Move(s, k, s.runs[k].(verdict := Some(v), at := SavingVerdict)), Verified(k, v)), k)
  {
  }

  lemma FillLandsAuto(s: System, k: RunId, sent: int, reply: Reply)
    requires k in s.runs && RunAutomatic(s, s.runs[k]) && reply.Broker?
    ensures AutoLands(s, TakeFill(s, k, s.runs[k], sent, reply), k)
  {
  }

  lemma OutsideLandsAuto(cfg: Config, s: System, k: RunId, row: OrderRow, reply: Reply)
    requires k in s.runs && RunAutomatic(s, s.runs[k]) && Unattended(cfg, s.runs[k].job)
    requires Filed(s) && TapsOwned(s) && RequestsOwned(s.runs, s.owner, s.requests)
    ensures var t := ResumeOutside(cfg, s, k, s.runs[k], row, reply); t == s || AutoLands(s, t, k)
  {
    var run := s.runs[k];
    match run.at {
      case Verifying => if reply.Verdict? { VerdictLandsAuto(s, k, reply.result); }
      case LoadingPortfolio =>
        if reply.Portfolio? { RequestLandsAuto(cfg, s, k, reply.totalValue, reply.requestId); }
      case NotifyingAuto => ApprovalLandsAuto(s, k);
      case ReadingOrder => CallLandsAuto(s, k, run, JobQuantity(run.job));
      case Rechecking(modified) =>
        if reply.RiskView? {
          var result := RecheckResult(cfg, run, modified, reply.state);
          CallLandsAuto(s, k, run, RecheckedQuantity(result.adjustedQuantity, modified));
        }
      case Placing(quantity) => if reply.Broker? { FillLandsAuto(s, k, quantity, reply); }
      case _ =>
    }
  }

  lemma InsertLandsAuto(s: System, k: RunId, o: OrderId, r: RequestId, reply: Reply)
    requires k in s.runs && RunAutomatic(s, s.runs[k]) && s.runs[k].request == Some(r)
    ensures var t := InsertRequest(s, k, s.runs[k], o, r, Answered(ApprovalStatus.AutoApproved), reply, NotifyingAuto);
            t == s || AutoLands(s, t, k)
  {
  }

  lemma WriteLandsAuto(cfg: Config, s: System, k: RunId, o: OrderId, reply: Reply)
    requires k in s.runs && RunSafe(cfg, s, k) && RunAutomatic(s, s.runs[k]) && s.runs[k].order == Some(o)
    requires !AwaitsOutside(s.runs[k].at) && !s.runs[k].at.Creating?
    ensures var t := ResumeWrite(s, k, s.runs[k], o, s.orders[o], reply); t == s || AutoLands(s, t, k)
  {
    if s.runs[k].at.SavingAuto? {
      if s.runs[k].request.Some? { InsertLandsAuto(s, k, o, s.runs[k].request.value, reply); }
    } else {
      WriteMoves(cfg, s, k, o, reply);
      WriteKeepsRequests(s, k, o, reply);
    }
  }

  lemma WriteOrderKeepsRequests(s: System, k: RunId, run: Run, o: OrderId, row: OrderRow, reply: Reply, next: Point)
    ensures WriteOrder(s, k, run, o, row, reply, next).requests == s.requests
  {
  }

  lemma WriteKeepsRequests(s: System, k: RunId, o: OrderId, reply: Reply)
    requires k in s.runs && o in s.orders && !AsksHuman(s.runs[k].at) && !s.runs[k].at.SavingAuto?
    ensures ResumeWrite(s, k, s.runs[k], o, s.orders[o], reply).requests == s.requests
  {
    var run, row := s.runs[k], s.orders[o];
    match run.at {
      case SavingVerdict => WriteOrderKeepsRequests(s, k, run, o, row, reply, AfterVerdict(run));
      case Cancelling =>
        WriteOrderKeepsRequests(s, k, run, o, row.(status := OrderStatus.Cancelled), reply, Done(Unsuccessful));
      case SavingFailure =>
        WriteOrderKeepsRequests(s, k, run, o, row.(status := OrderStatus.Failed), reply, Done(Unsuccessful));
      case SavingFill(fill) =>
        WriteOrderKeepsRequests(s, k, run, o, WithFill(row, fill), reply, Done(Executed(fill)));
      case _ =>
    }
  }

  lemma NewOrderLandsAuto(s: System, k: RunId, reply: Reply)
    requires k in s.runs && RunAutomatic(s, s.runs[k])
    ensures var t := InsertOrder(s, k, s.runs[k], reply); t == s || AutoLands(s, t, k)
  {
  }

  lemma RaisedLandsAuto(s: System, k: RunId)
    requires k in s.runs && RunAutomatic(s, s.runs[k])
    ensures AutoLands(s, Move(s, k, s.runs[k].(at := Recovering)), k)
  {
  }

  lemma ResumeLandsAuto(cfg: Config, s: System, k: RunId, reply: Reply)
    requires ProtocolSafety.Safe(cfg, s) && Filed(s) && TapsOwned(s) && k in s.runs && RunSafe(cfg, s, k)
    requires RunAutomatic(s, s.runs[k]) && Unattended(cfg, s.runs[k].job)
    ensures var t := Next(cfg, s, Resume(k, reply)); t == s || AutoLands(s, t, k)
  {
    var run := s.runs[k];
    if run.at.Creating? {
      NewOrderLandsAuto(s, k, reply);
    } else if run.order.Some? {
      if AwaitsOutside(run.at) {
        RaisedLandsAuto(s, k);
        OutsideLandsAuto(cfg, s, k, s.orders[run.order.value], reply);
      } else {
        WriteLandsAuto(cfg, s, k, run.order.value, reply);
      }
    }
  }

  // ---- Every event keeps it ----

  /** A step of one run leaves the requests of the others alone. */
  lemma OthersStayAutomatic(cfg: Config, s: System, t: System, k: RunId, j: RunId)
    requires ProtocolSafety.Safe(cfg, s) && RunStep(s, t, k) && j in s.runs && j != k && RunAutomatic(s, s.runs[j])
    ensures RunAutomatic(t, t.runs[j])
  {
    assert RunSafe(cfg, s, j) && RunSafe(cfg, s, k);
    if s.runs[j].request.Some? { assert s.runs[k].request != s.runs[j].request; }
  }

  lemma StepStaysAutomatic(cfg: Config, s: System, t: System, k: RunId)
    requires ProtocolSafety.Safe(cfg, s) && AllAutomatic(cfg, s) && RunStep(s, t, k)
    requires Unattended(cfg, s.runs[k].job) ==> AutoLands(s, t, k)
    ensures AllAutomatic(cfg, t)
  {
    forall j | j in t.runs && Unattended(cfg, t.runs[j].job) ensures RunAutomatic(t, t.runs[j]) {
      if j != k { OthersStayAutomatic(cfg, s, t, k, j); }
    }
  }

  lemma ApplyLeavesOthers(s: System, r: RequestId, answer: Answer, q: RequestId)
    requires q != r
    ensures var t := ApplyAnswer(s, r, answer);
            (q in t.requests <==> q in s.requests) && (q in s.requests ==> t.requests[q] == s.requests[q])
    ensures ApplyAnswer(s, r, answer).log == s.log
  {
  }

  lemma AnswerLeavesOthers(s: System, c: CallbackId, cb: Callback, reply: Reply, q: RequestId)
    requires q != cb.request
    ensures var t := ResumeAnswer(s, c, cb, reply);
            && (q in t.requests <==> q in s.requests) && (q in s.requests ==> t.requests[q] == s.requests[q])
            && (forall k :: Registered(k, q) in t.log ==> Registered(k, q) in s.log)
  {
    ApplyLeavesOthers(s, cb.request, cb.answer, q);
  }

  lemma AnswerTapsNothing(s: System, c: CallbackId, cb: Callback, reply: Reply)
    ensures forall r, tap :: Accepted(r, tap) in ResumeAnswer(s, c, cb, reply).log ==> Accepted(r, tap) in s.log
  {
    ApplyLeavesOthers(s, cb.request, cb.answer, cb.request + 1);
  }

  lemma AnswerStaysAutomatic(cfg: Config, s: System, c: CallbackId, reply: Reply)
    requires ProtocolSafety.Safe(cfg, s) && AllAutomatic(cfg, s) && c in s.callbacks
    ensures AllAutomatic(cfg, ResumeAnswer(s, c, s.callbacks[c], reply))
  {
    var cb := s.callbacks[c];
    var t := ResumeAnswer(s, c, cb, reply);
    AnswerTapsNothing(s, c, cb, reply);
    AnswerKeepsKnown(s, c, cb, reply);
    assert CallbackSafe(s.owner, s.log, cb);
    forall k | k in t.runs && Unattended(cfg, t.runs[k].job) ensures RunAutomatic(t, t.runs[k]) {
      assert RunAutomatic(s, s.runs[k]);
      if s.runs[k].request.Some? {
        assert s.runs[k].request.value != cb.request;
        AnswerLeavesOthers(s, c, cb, reply, s.runs[k].request.value);
      }
    }
  }

  lemma TapStaysAutomatic(cfg: Config, s: System, c: CallbackId, r: RequestId, tap: Tap)
    requires InboxSafe(s.inbox, s.owner, s.log) && AllAutomatic(cfg, s)
    ensures AllAutomatic(cfg, AcceptTap(s, c, r, tap))
  {
    var t := AcceptTap(s, c, r, tap);
    forall k | k in t.runs && Unattended(cfg, t.runs[k].job) ensures RunAutomatic(t, t.runs[k]) {
      assert RunAutomatic(s, s.runs[k]);
    }
  }

  lemma ResumeStaysAutomatic(cfg: Config, s: System, k: RunId, reply: Reply)
    requires ProtocolSafety.Safe(cfg, s) && Filed(s) && AllAutomatic(cfg, s)
    ensures AllAutomatic(cfg, Next(cfg, s, Resume(k, reply)))
  {
    if k in s.runs && Next(cfg, s, Resume(k, reply)) != s {
      assert RunSafe(cfg, s, k);
      ResumeIsStep(cfg, s, k, reply);
      if Unattended(cfg, s.runs[k].job) { ResumeLandsAuto(cfg, s, k, reply); }
      StepStaysAutomatic(cfg, s, Next(cfg, s, Resume(k, reply)), k);
    }
  }

  lemma TimerStaysAutomatic(cfg: Config, s: System, k: RunId)
    requires ProtocolSafety.Safe(cfg, s) && AllAutomatic(cfg, s)
    ensures AllAutomatic(cfg, Next(cfg, s, TimerFires(k)))
  {
    if k in s.runs && Next(cfg, s, TimerFires(k)) != s {
      TimerIsStep(cfg, s, k);
      StepStaysAutomatic(cfg, s, Next(cfg, s, TimerFires(k)), k);
    }
  }

  lemma BeginStaysAutomatic(cfg: Config, s: System, k: RunId, job: Job)
    requires AllAutomatic(cfg, s)
    ensures AllAutomatic(cfg, Next(cfg, s, Begin(k, job)))
  {
  }

  lemma NextStaysAutomatic(cfg: Config, s: System, e: Event)
    requires ProtocolSafety.Safe(cfg, s) && Filed(s) && AllAutomatic(cfg, s)
    ensures AllAutomatic(cfg, Next(cfg, s, e))
  {
    match e {
      case Begin(k, job) => BeginStaysAutomatic(cfg, s, k, job);
      case Resume(k, reply) => ResumeStaysAutomatic(cfg, s, k, reply);
      case TimerFires(k) => TimerStaysAutomatic(cfg, s, k);
      case TapArrives(c, r, tap) => TapStaysAutomatic(cfg, s, c, r, tap);
      case ResumeCallback(c, reply) =>
        if c in s.callbacks { AnswerStaysAutomatic(cfg, s, c, reply); }
    }
  }

  lemma {:induction false} AlwaysAutomatic(cfg: Config, events: seq<Event>)
    ensures AllAutomatic(cfg, After(cfg, events))
  {
    if events != [] {
      AlwaysSafe(cfg, events[..|events| - 1]);
      AlwaysNamed(cfg, events[..|events| - 1]);
      AlwaysAutomatic(cfg, events[..|events| - 1]);
      NextStaysAutomatic(cfg, After(cfg, events[..|events| - 1]), events[|events| - 1]);
    }
  }

  /**
    Over every schedule, a run with human approval off, or of a stop-loss or take-profit exit, never waits for an
    answer: it is at no point of that path, its request was never registered nor tapped, its row, once written, says
    automatically approved, and so does the status the run was given.
  */
  lemma {:induction false} UnattendedNeverWaits(cfg: Config, events: seq<Event>, k: RunId)
    requires k in After(cfg, events).runs && Unattended(cfg, After(cfg, events).runs[k].job)
    ensures var s := After(cfg, events);
            var run := s.runs[k];
            && !AsksHuman(run.at) && (run.approval.Some? ==> run.approval == Some(ApprovalStatus.AutoApproved))
            && (run.request.Some? ==>
                  var r := run.request.value;
                  && (forall j :: Registered(j, r) !in s.log) && (forall tap :: Accepted(r, tap) !in s.log)
                  && (r in s.requests ==> s.requests[r].status == Answered(ApprovalStatus.AutoApproved)))
  {
    AlwaysAutomatic(cfg, events);
    assert RunAutomatic(After(cfg, events), After(cfg, events).runs[k]);
  }
}

/**
  What the request row and the order row of a request show, over every schedule: both show the status of the last
  database write that took effect on them. So the returned status agrees with them if and only if that write carried it.
*/
module ProtocolRows {
  import opened Wrappers
  import opened Decimals
  import opened Enums
  import opened Approval
  import opened Protocol
  import opened ProtocolSafety
  import opened ProtocolAgreement
  import opened ProtocolQuantity
  import RiskGate

  // ---- The last write ----

  predicate TookEffect(reply: Reply) {
    reply.Written? && (reply.applied || !reply.raised)
  }

  /** The status an event writes for a request: an automatic approval, a timeout, or the answer of a callback. */
  function WriteOf(s: System, e: Event, r: RequestId): Option<ApprovalStatus> {
    match e
    case Resume(k, reply) =>
      if k in s.runs && s.runs[k].request == Some(r) && s.runs[k].order.Some? && TookEffect(reply) then
        if s.runs[k].at.SavingAuto? then Some(ApprovalStatus.AutoApproved)
        else if s.runs[k].at.SavingTimeout? then Some(ApprovalStatus.Timeout)
        else None
      else None
    case ResumeCallback(c, reply) =>
      if c in s.callbacks && s.callbacks[c].request == r && s.callbacks[c].at.Saving? && TookEffect(reply)
      then Some(s.callbacks[c].answer.status) else None
    case _ => None
  }

  function Latest<T>(written: Option<T>, before: Option<T>): Option<T> {
    if written.Some? then written else before
  }

  /** The status of the last write for a request in a schedule. */
  function LastWrite(cfg: Config, events: seq<Event>, r: RequestId): Option<ApprovalStatus> {
    if events == [] then None
    else
      var n := |events| - 1;
      Latest(WriteOf(After(cfg, events[..n]), events[n], r), LastWrite(cfg, events[..n], r))
  }

  // ---- The rows show it ----

  ghost predicate Shows(v: View, last: Option<ApprovalStatus>) {
    match last
    case Some(status) => Rows(v, status)
    case None => v.request.None? || v.request == Some(RequestRow(v.order, RequestStatus.Waiting))
  }

  /** The rows of a request of a run, or none of a request nobody has made. */
  ghost predicate RowsShowWrite(s: System, r: RequestId, last: Option<ApprovalStatus>) {
    if r in s.owner && s.owner[r] in s.runs && s.runs[s.owner[r]].order.Some?
    then Shows(ViewOf(s, r, s.runs[s.owner[r]].order.value), last)
    else last.None?
  }

  predicate SameRows(v: View, w: View) {
    w.order == v.order && w.approval == v.approval && w.request == v.request
  }

  lemma SameRowsShow(v: View, w: View, last: Option<ApprovalStatus>)
    requires SameRows(v, w) && Shows(v, last)
    ensures Shows(w, last)
  {
  }

  // ---- Segments of the run that owns the request ----

  lemma WaitingSegment(cfg: Config, s: System, k: RunId, r: RequestId, o: OrderId, reply: Reply)
    requires k in s.runs && s.runs[k].order == Some(o) && s.runs[k].request == Some(r) && o in s.orders
    requires s.runs[k].at.NotifyingAuto? || s.runs[k].at.NotifyingTimeout? || s.runs[k].at.Announcing?
             || s.runs[k].at.AwaitingAnswer?
    ensures SameRows(ViewOf(s, r, o), ViewOf(ResumeRun(cfg, s, k, s.runs[k], o, reply), r, o))
  {
    var run := s.runs[k];
    var forgotten := s.(inbox := Forget(s.inbox, r));
    if run.at.NotifyingAuto? {
      ApprovalSameView(s, k, run, ApprovalStatus.AutoApproved, r, o);
    } else if run.at.NotifyingTimeout? {
      ApprovalSameView(forgotten, k, run, ApprovalStatus.Timeout, r, o);
    } else if run.at.AwaitingAnswer? {
      ApprovalSameView(forgotten, k, run, Response(s.inbox, r), r, o);
    }
  }

  lemma SavingAutoSegment(s: System, k: RunId, r: RequestId, o: OrderId, reply: Reply, last: Option<ApprovalStatus>)
    requires k in s.runs && s.runs[k].order == Some(o) && s.runs[k].request == Some(r) && o in s.orders
    requires s.runs[k].at.SavingAuto?
    requires Shows(ViewOf(s, r, o), last)
    ensures var t := InsertRequest(s, k, s.runs[k], o, r, Answered(ApprovalStatus.AutoApproved), reply, NotifyingAuto);
            Shows(ViewOf(t, r, o), Latest(WriteOf(s, Resume(k, reply), r), last))
  {
  }

  lemma SavingRequestSegment(s: System, k: RunId, r: RequestId, o: OrderId, reply: Reply)
    requires k in s.runs && s.runs[k].order == Some(o) && s.runs[k].request == Some(r) && o in s.orders
    requires s.runs[k].at.SavingRequest?
    requires Shows(ViewOf(s, r, o), None)
    ensures var t := InsertRequest(s, k, s.runs[k], o, r, RequestStatus.Waiting, reply, Announcing);
            Shows(ViewOf(t, r, o), None)
  {
  }

  lemma SavingTimeoutSegment(s: System, k: RunId, r: RequestId, o: OrderId, reply: Reply, last: Option<ApprovalStatus>)
    requires k in s.runs && s.runs[k].order == Some(o) && s.runs[k].request == Some(r) && o in s.orders
    requires s.runs[k].at.SavingTimeout?
    requires r in s.requests && s.requests[r].orderId == o && Shows(ViewOf(s, r, o), last)
    ensures var t := WriteTimeout(s, k, s.runs[k], o, r, reply);
            Shows(ViewOf(t, r, o), Latest(WriteOf(s, Resume(k, reply), r), last))
  {
  }

  lemma SavingSegment(cfg: Config, s: System, k: RunId, r: RequestId, o: OrderId, reply: Reply,
                      last: Option<ApprovalStatus>)
    requires k in s.runs && s.runs[k].order == Some(o) && s.runs[k].request == Some(r) && o in s.orders
    requires s.runs[k].at.SavingAuto? || s.runs[k].at.SavingRequest? || s.runs[k].at.SavingTimeout?
    requires s.runs[k].at.SavingRequest? ==> last.None?
    requires s.runs[k].at.SavingTimeout? ==> r in s.requests && s.requests[r].orderId == o
    requires Shows(ViewOf(s, r, o), last)
    ensures Shows(ViewOf(ResumeWrite(s, k, s.runs[k], o, s.orders[o], reply), r, o),
                  Latest(WriteOf(s, Resume(k, reply), r), last))
  {
    if s.runs[k].at.SavingAuto? {
      SavingAutoSegment(s, k, r, o, reply, last);
    } else if s.runs[k].at.SavingRequest? {
      SavingRequestSegment(s, k, r, o, reply);
    } else {
      SavingTimeoutSegment(s, k, r, o, reply, last);
    }
  }

  /** The segments that end no write of a status touch no row. */
  lemma QuietSegment(cfg: Config, s: System, k: RunId, r: RequestId, o: OrderId, reply: Reply)
    requires k in s.runs && s.runs[k].order == Some(o) && s.runs[k].request == Some(r) && o in s.orders
    requires !BeforeRequest(s.runs[k].at)
    requires !s.runs[k].at.SavingAuto? && !s.runs[k].at.SavingRequest? && !s.runs[k].at.SavingTimeout?
    ensures SameRows(ViewOf(s, r, o), ViewOf(ResumeRun(cfg, s, k, s.runs[k], o, reply), r, o))
    ensures WriteOf(s, Resume(k, reply), r).None?
  {
    if Beyond(s.runs[k].at) {
      LaterAside(cfg, s, k, reply, r, o);
    } else {
      WaitingSegment(cfg, s, k, r, o, reply);
    }
  }

  lemma OwnSegment(cfg: Config, s: System, k: RunId, r: RequestId, o: OrderId, reply: Reply,
                   last: Option<ApprovalStatus>)
    requires k in s.runs && RunSafe(cfg, s, k) && s.runs[k].order == Some(o) && s.runs[k].request == Some(r)
    requires s.runs[k].at.SavingRequest? ==> last.None?
    requires s.runs[k].at.SavingTimeout? ==> r in s.requests && s.requests[r].orderId == o
    requires Shows(ViewOf(s, r, o), last)
    ensures Shows(ViewOf(Next(cfg, s, Resume(k, reply)), r, o), Latest(WriteOf(s, Resume(k, reply), r), last))
  {
    var at := s.runs[k].at;
    var t := ResumeRun(cfg, s, k, s.runs[k], o, reply);
    assert !BeforeRequest(at) && Next(cfg, s, Resume(k, reply)) == t;
    if at.SavingAuto? || at.SavingRequest? || at.SavingTimeout? {
      SavingSegment(cfg, s, k, r, o, reply, last);
    } else {
      QuietSegment(cfg, s, k, r, o, reply);
      SameRowsShow(ViewOf(s, r, o), ViewOf(t, r, o), last);
    }
  }

  // ---- The invariant ----

  /** A request row is inserted once: until then there is none. */
  ghost predicate NotFiledYet(s: System) {
    forall k :: k in s.runs && s.runs[k].at.SavingRequest? && s.runs[k].request.Some? ==>
      s.runs[k].request.value !in s.requests
  }

  ghost predicate NewlyAsked(s: System, t: System, k: RunId)
    requires k in s.runs && k in t.runs
  {
    && s.runs[k].at.LoadingPortfolio? && t.requests == s.requests
    && t.runs[k].request.Some? && t.runs[k].request.value !in s.owner
  }

  /** Only the portfolio leads to the insertion of a request row, and its request is new. */
  lemma OnlyPortfolioAsks(cfg: Config, s: System, k: RunId, reply: Reply)
    requires k in s.runs && RunSafe(cfg, s, k)
    ensures var t := Next(cfg, s, Resume(k, reply));
            k in t.runs && (t.runs[k].at.SavingRequest? && t != s ==> NewlyAsked(s, t, k))
  {
    var run := s.runs[k];
    if !run.at.Creating? && run.order.Some? {
      var o := run.order.value;
      if AwaitsOutside(run.at) {
        OutsideAsks(cfg, s, k, s.orders[o], reply);
      } else if run.at.AwaitingAnswer? {
        ApprovalAsks(s.(inbox := Forget(s.inbox, run.request.GetOr(0))), k, run,
                     Response(s.inbox, run.request.GetOr(0)));
      } else {
        WriteMoves(cfg, s, k, o, reply);
      }
    }
  }

  lemma ApprovalAsks(s: System, k: RunId, run: Run, status: ApprovalStatus)
    ensures var t := AfterApproval(s, k, run, status); k in t.runs && !t.runs[k].at.SavingRequest?
  {
    CallSameView(s, k, run.(approval := Some(status)), JobQuantity(run.job), 0, 0);
  }

  lemma OutsideAsks(cfg: Config, s: System, k: RunId, row: OrderRow, reply: Reply)
    requires k in s.runs && AwaitsOutside(s.runs[k].at)
    ensures var t := ResumeOutside(cfg, s, k, s.runs[k], row, reply);
            k in t.runs && (t.runs[k].at.SavingRequest? && t != s ==> NewlyAsked(s, t, k))
  {
    var run := s.runs[k];
    if Beyond(run.at) && !BeforeRequest(run.at) {
      LaterAsks(cfg, s, k, row, reply);
    } else if run.at.NotifyingAuto? {
      ApprovalAsks(s, k, run, ApprovalStatus.AutoApproved);
    } else if run.at.NotifyingTimeout? {
      if run.request.Some? {
        ApprovalAsks(s.(inbox := Forget(s.inbox, run.request.value)), k, run, ApprovalStatus.Timeout);
      }
    }
  }

  lemma LaterAsks(cfg: Config, s: System, k: RunId, row: OrderRow, reply: Reply)
    requires k in s.runs && (s.runs[k].at.ReadingOrder? || s.runs[k].at.Rechecking? || s.runs[k].at.Placing?)
    ensures var t := ResumeOutside(cfg, s, k, s.runs[k], row, reply); k in t.runs && !t.runs[k].at.SavingRequest?
  {
    var run := s.runs[k];
    if run.at.ReadingOrder? {
      if reply.Returned? { ReadOrderAside(s, k, row, 0, 0); }
    } else if run.at.Rechecking? {
      if reply.RiskView? { RecheckAside(cfg, s, k, run.at.modified, reply.state, 0, 0); }
    } else if reply.Broker? {
      TakeFillAside(s, k, run.at.quantity, reply, 0, 0);
    }
  }

  lemma NextKeepsUnfiled(cfg: Config, s: System, e: Event)
    requires ProtocolSafety.Safe(cfg, s) && NotFiledYet(s)
    ensures NotFiledYet(Next(cfg, s, e))
  {
    match e {
      case Begin(k, job) =>
      case Resume(k, reply) =>
        if k in s.runs && Next(cfg, s, e) != s { ResumeKeepsUnfiled(cfg, s, k, reply); }
      case TimerFires(k) =>
      case TapArrives(c, r, tap) =>
      case ResumeCallback(c, reply) =>
        if c in s.callbacks { AnswerKeepsKeys(s, c, s.callbacks[c], reply); }
    }
  }

  lemma AnswerKeepsKeys(s: System, c: CallbackId, cb: Callback, reply: Reply)
    ensures var t := ResumeAnswer(s, c, cb, reply); t.runs == s.runs && t.requests.Keys == s.requests.Keys
  {
  }

  lemma ResumeKeepsUnfiled(cfg: Config, s: System, k: RunId, reply: Reply)
    requires ProtocolSafety.Safe(cfg, s) && NotFiledYet(s) && k in s.runs && Next(cfg, s, Resume(k, reply)) != s
    ensures NotFiledYet(Next(cfg, s, Resume(k, reply)))
  {
    var t := Next(cfg, s, Resume(k, reply));
    assert RunSafe(cfg, s, k);
    ResumeIsStep(cfg, s, k, reply);
    OnlyPortfolioAsks(cfg, s, k, reply);
    forall j | j in t.runs && j != k && t.runs[j].at.SavingRequest? && t.runs[j].request.Some?
      ensures t.runs[j].request.value !in t.requests
    {
      assert RunSafe(cfg, s, j);
    }
  }

  // ---- Every event keeps the rows at the last write ----

  lemma ResumeShows(cfg: Config, s: System, k: RunId, reply: Reply, r: RequestId, last: Option<ApprovalStatus>)
    requires ProtocolSafety.Safe(cfg, s) && RunsNamed(cfg, s) && NotFiledYet(s)
    requires k in s.runs && RowsShowWrite(s, r, last)
    ensures RowsShowWrite(Next(cfg, s, Resume(k, reply)), r, Latest(WriteOf(s, Resume(k, reply), r), last))
  {
    assert RunSafe(cfg, s, k) && RunNamed(cfg, s, s.runs[k]);
    ResumeIsStep(cfg, s, k, reply);
    if r !in s.owner {
      NewRequestShows(cfg, s, k, reply, r);
    } else {
      OwnerOwns(cfg, s, r);
      if s.owner[r] != k {
        OtherResumeShows(cfg, s, Next(cfg, s, Resume(k, reply)), k, r, last);
        OthersWriteNothing(s, k, reply, r);
      } else {
        OwnResumeShows(cfg, s, k, reply, r, last);
      }
    }
  }

  lemma OthersWriteNothing(s: System, k: RunId, reply: Reply, r: RequestId)
    requires k in s.runs && s.runs[k].request != Some(r)
    ensures WriteOf(s, Resume(k, reply), r).None?
  {
  }

  lemma OtherResumeShows(cfg: Config, s: System, t: System, k: RunId, r: RequestId, last: Option<ApprovalStatus>)
    requires ProtocolSafety.Safe(cfg, s) && k in s.runs && Owned(cfg, s, r) && s.owner[r] != k
    requires RunSafe(cfg, s, k) && RowsShowWrite(s, r, last) && (t == s || RunStep(s, t, k))
    ensures RowsShowWrite(t, r, last) && s.runs[k].request != Some(r)
  {
    if t != s { OtherRunSameView(cfg, s, t, k, r, s.runs[s.owner[r]].order.value); }
  }

  lemma OwnResumeShows(cfg: Config, s: System, k: RunId, reply: Reply, r: RequestId, last: Option<ApprovalStatus>)
    requires k in s.runs && Owned(cfg, s, r) && s.owner[r] == k && RunNamed(cfg, s, s.runs[k]) && NotFiledYet(s)
    requires RequestsOwned(s.runs, s.owner, s.requests) && RowsShowWrite(s, r, last)
    requires var t := Next(cfg, s, Resume(k, reply)); t == s || RunStep(s, t, k)
    ensures RowsShowWrite(Next(cfg, s, Resume(k, reply)), r, Latest(WriteOf(s, Resume(k, reply), r), last))
  {
    OwnSegment(cfg, s, k, r, s.runs[k].order.value, reply, last);
  }

  /** Of a request nobody has made there are no rows, and a new one starts without. */
  lemma NewRequestShows(cfg: Config, s: System, k: RunId, reply: Reply, r: RequestId)
    requires ProtocolSafety.Safe(cfg, s) && k in s.runs && RunSafe(cfg, s, k) && r !in s.owner
    requires var t := Next(cfg, s, Resume(k, reply)); t == s || RunStep(s, t, k)
    ensures RowsShowWrite(Next(cfg, s, Resume(k, reply)), r, None)
    ensures WriteOf(s, Resume(k, reply), r).None?
  {
    var t := Next(cfg, s, Resume(k, reply));
    assert r !in s.requests;
    if t != s {
      assert s.runs[k].request != Some(r);
      assert r !in t.requests;
    }
  }

  lemma TapShows(s: System, c: CallbackId, q: RequestId, tap: Tap, r: RequestId, last: Option<ApprovalStatus>)
    requires RowsShowWrite(s, r, last)
    ensures RowsShowWrite(AcceptTap(s, c, q, tap), r, last)
  {
  }

  lemma AnswerShows(cfg: Config, s: System, c: CallbackId, reply: Reply, r: RequestId, last: Option<ApprovalStatus>)
    requires ProtocolSafety.Safe(cfg, s) && Filed(s) && c in s.callbacks && RowsShowWrite(s, r, last)
    ensures RowsShowWrite(ResumeAnswer(s, c, s.callbacks[c], reply), r,
                          Latest(WriteOf(s, ResumeCallback(c, reply), r), last))
  {
    var cb := s.callbacks[c];
    assert CallbackSafe(s.owner, s.log, cb);
    if r in s.owner {
      OwnerOwns(cfg, s, r);
      RequestFiled(cfg, s, cb);
      OwnedAnswerShows(cfg, s, c, reply, r, last);
    } else {
      UnmadeAnswerShows(s, c, reply, r);
    }
  }

  lemma UnmadeAnswerShows(s: System, c: CallbackId, reply: Reply, r: RequestId)
    requires c in s.callbacks && s.callbacks[c].request in s.owner && r !in s.owner
    ensures RowsShowWrite(ResumeAnswer(s, c, s.callbacks[c], reply), r, None)
    ensures WriteOf(s, ResumeCallback(c, reply), r).None?
  {
    AnswerKeepsKnown(s, c, s.callbacks[c], reply);
  }

  lemma OwnedAnswerShows(cfg: Config, s: System, c: CallbackId, reply: Reply, r: RequestId,
                         last: Option<ApprovalStatus>)
    requires c in s.callbacks && Owned(cfg, s, r) && RowsShowWrite(s, r, last)
    requires IdsSafe(s.runs, s.orders, s.nextOrder, s.owner, s.requests)
    requires s.callbacks[c].request == r ==> r in s.requests && s.requests[r].orderId in s.orders
    ensures RowsShowWrite(ResumeAnswer(s, c, s.callbacks[c], reply), r,
                          Latest(WriteOf(s, ResumeCallback(c, reply), r), last))
  {
    var o := s.runs[s.owner[r]].order.value;
    AnswerKeepsKnown(s, c, s.callbacks[c], reply);
    if s.callbacks[c].request != r {
      OtherAnswerSameView(s, c, reply, r, o);
    } else {
      OwnAnswerShows(s, c, reply, r, o, last);
    }
  }

  lemma OwnAnswerShows(s: System, c: CallbackId, reply: Reply, r: RequestId, o: OrderId, last: Option<ApprovalStatus>)
    requires c in s.callbacks && s.callbacks[c].request == r && r in s.requests && s.requests[r].orderId == o
    requires o in s.orders
    requires Shows(ViewOf(s, r, o), last)
    ensures Shows(ViewOf(ResumeAnswer(s, c, s.callbacks[c], reply), r, o),
                  Latest(WriteOf(s, ResumeCallback(c, reply), r), last))
  {
  }

  lemma BeginShows(cfg: Config, s: System, k: RunId, job: Job, r: RequestId, last: Option<ApprovalStatus>)
    requires RowsShowWrite(s, r, last) && (r in s.owner ==> Owned(cfg, s, r))
    ensures RowsShowWrite(Next(cfg, s, Begin(k, job)), r, last)
  {
  }

  lemma TimerShows(cfg: Config, s: System, k: RunId, r: RequestId, last: Option<ApprovalStatus>)
    requires RowsShowWrite(s, r, last) && (r in s.owner ==> Owned(cfg, s, r))
    ensures RowsShowWrite(Next(cfg, s, TimerFires(k)), r, last)
  {
  }

  lemma NextShows(cfg: Config, s: System, e: Event, r: RequestId, last: Option<ApprovalStatus>)
    requires ProtocolSafety.Safe(cfg, s) && Filed(s) && RunsNamed(cfg, s) && NotFiledYet(s) && RowsShowWrite(s, r, last)
    ensures RowsShowWrite(Next(cfg, s, e), r, Latest(WriteOf(s, e, r), last))
  {
    if r in s.owner { OwnerOwns(cfg, s, r); }
    match e {
      case Begin(k, job) => BeginShows(cfg, s, k, job, r, last);
      case Resume(k, reply) =>
        if k in s.runs { ResumeShows(cfg, s, k, reply, r, last); }
      case TimerFires(k) => TimerShows(cfg, s, k, r, last);
      case TapArrives(c, q, tap) => TapShows(s, c, q, tap, r, last);
      case ResumeCallback(c, reply) =>
        if c in s.callbacks { AnswerShows(cfg, s, c, reply, r, last); }
    }
  }

  lemma {:induction false} AlwaysShows(cfg: Config, events: seq<Event>, r: RequestId)
    ensures NotFiledYet(After(cfg, events)) && RowsShowWrite(After(cfg, events), r, LastWrite(cfg, events, r))
  {
    if events != [] {
      var n := |events| - 1;
      AlwaysShows(cfg, events[..n], r);
      AlwaysSafe(cfg, events[..n]);
      AlwaysNamed(cfg, events[..n]);
      NextKeepsUnfiled(cfg, After(cfg, events[..n]), events[n]);
      NextShows(cfg, After(cfg, events[..n]), events[n], r, LastWrite(cfg, events[..n], r));
    }
  }

  // ---- The theorems ----

  /**
    The request row and the order row never disagree about an answer: both show the last write, over every schedule.
  */
  lemma {:induction false} RowsShowLastWrite(cfg: Config, events: seq<Event>, k: RunId, r: RequestId,
                                             status: ApprovalStatus)
    requires var s := After(cfg, events); k in s.runs && s.runs[k].request == Some(r)
    ensures var s := After(cfg, events);
            && (RowsShow(s, s.runs[k], r, status) <==> LastWrite(cfg, events, r) == Some(status))
            && (r in s.requests && s.requests[r].status == Answered(status) ==> RowsShow(s, s.runs[k], r, status))
  {
    AlwaysSafe(cfg, events);
    AlwaysShows(cfg, events, r);
    assert RunSafe(cfg, After(cfg, events), k);
  }

  /**
    Agreement, exactly: the status a run was given agrees with both rows if and only if it is the status of the last
    write that took effect for its request.
  */
  lemma {:induction false} AgreesExactly(cfg: Config, events: seq<Event>, k: RunId, r: RequestId)
    requires var s := After(cfg, events); k in s.runs && s.runs[k].request == Some(r) && s.runs[k].approval.Some?
    ensures var s := After(cfg, events);
            RowsShow(s, s.runs[k], r, s.runs[k].approval.value) <==> LastWrite(cfg, events, r) == s.runs[k].approval
  {
    RowsShowLastWrite(cfg, events, k, r, After(cfg, events).runs[k].approval.value);
  }
}

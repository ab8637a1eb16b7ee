/**
  The quantity of every broker call, exactly. The order row's modified quantity is the one of the last write that took
  effect and named one; a run sends what it finds there when it reads the row, or else the quantity it was asked for.
  So a buy goes out with a quantity somebody approved exactly when such a write came before the read, or a tap had
  approved the full quantity anyway.
*/
module ProtocolModification {
  import opened Wrappers
  import opened Decimals
  import opened Enums
  import opened Approval
  import opened Protocol
  import opened ProtocolSafety
  import opened ProtocolAgreement
  import opened ProtocolQuantity
  import opened ProtocolRows
  import RiskGate

  // ---- The last modification ----

  /** The quantity an event writes to the order of a request. */
  function ModificationOf(s: System, e: Event, r: RequestId): Option<int> {
    match e
    case ResumeCallback(c, reply) =>
      if c in s.callbacks && s.callbacks[c].request == r && s.callbacks[c].at.Saving? && TookEffect(reply)
      then s.callbacks[c].answer.modified else None
    case _ => None
  }

  /** The quantity of the last write for a request in a schedule that named one. */
  function LastModification(cfg: Config, events: seq<Event>, r: RequestId): Option<int> {
    if events == [] then None
    else
      var n := |events| - 1;
      Latest(ModificationOf(After(cfg, events[..n]), events[n], r), LastModification(cfg, events[..n], r))
  }

  /** The order row of the run that owns a request shows it; a request nobody has made has none. */
  ghost predicate RowShowsModification(s: System, r: RequestId, last: Option<int>) {
    if r in s.owner && s.owner[r] in s.runs && s.runs[s.owner[r]].order.Some?
       && s.runs[s.owner[r]].order.value in s.orders
    then s.orders[s.runs[s.owner[r]].order.value].modified == last
    else last.None?
  }

  // ---- The row shows it after every event ----

  lemma RunStepShows(cfg: Config, s: System, t: System, k: RunId, r: RequestId, last: Option<int>)
    requires ProtocolSafety.Safe(cfg, s) && RunStep(s, t, k) && RowShowsModification(s, r, last)
    ensures RowShowsModification(t, r, last)
  {
    assert RunSafe(cfg, s, k);
    if r in s.owner {
      OwnerOwns(cfg, s, r);
      OrderPersists(s, t, s.runs[k], s.runs[s.owner[r]].order.value);
    } else {
      NewOwnerShows(cfg, s, t, k, r);
    }
  }

  /** A request that is new finds no modified quantity in the order row. */
  lemma NewOwnerShows(cfg: Config, s: System, t: System, k: RunId, r: RequestId)
    requires OrdersBounded(s.orders, s.nextOrder) && k in s.runs && RunSafe(cfg, s, k) && RunStep(s, t, k)
    requires r !in s.owner
    ensures RowShowsModification(t, r, None)
  {
    if r in t.owner { OrderPersists(s, t, s.runs[k], s.runs[k].order.value); }
  }

  lemma AnswerShowsModification(cfg: Config, s: System, c: CallbackId, reply: Reply, r: RequestId, last: Option<int>)
    requires ProtocolSafety.Safe(cfg, s) && Filed(s) && c in s.callbacks && RowShowsModification(s, r, last)
    ensures RowShowsModification(ResumeAnswer(s, c, s.callbacks[c], reply), r,
                                 Latest(ModificationOf(s, ResumeCallback(c, reply), r), last))
  {
    var cb := s.callbacks[c];
    assert CallbackSafe(s.owner, s.log, cb);
    RequestFiled(cfg, s, cb);
    AnswerKeepsKnown(s, c, cb, reply);
    if r in s.owner {
      OwnerOwns(cfg, s, r);
      var o := s.runs[s.owner[r]].order.value;
      if cb.request == r {
        OwnAnswerModifies(s, c, reply, r, o, last);
      } else {
        OtherAnswerSameView(s, c, reply, r, o);
        SameViewSameModified(s, ResumeAnswer(s, c, cb, reply), r, o);
      }
    }
  }

  lemma SameViewSameModified(s: System, t: System, r: RequestId, o: OrderId)
    requires ViewOf(t, r, o) == ViewOf(s, r, o)
    ensures (o in t.orders <==> o in s.orders) && (o in s.orders ==> t.orders[o].modified == s.orders[o].modified)
  {
    assert ViewOf(t, r, o).approval == ViewOf(s, r, o).approval;
    assert ViewOf(t, r, o).modified == ViewOf(s, r, o).modified;
  }

  lemma OwnAnswerModifies(s: System, c: CallbackId, reply: Reply, r: RequestId, o: OrderId, last: Option<int>)
    requires c in s.callbacks && s.callbacks[c].request == r && r in s.requests && s.requests[r].orderId == o
    requires o in s.orders && s.orders[o].modified == last
    ensures var t := ResumeAnswer(s, c, s.callbacks[c], reply);
            o in t.orders && t.orders[o].modified == Latest(ModificationOf(s, ResumeCallback(c, reply), r), last)
  {
  }

  lemma ResumeShowsModification(cfg: Config, s: System, k: RunId, reply: Reply, r: RequestId, last: Option<int>)
    requires ProtocolSafety.Safe(cfg, s) && k in s.runs && RowShowsModification(s, r, last)
    ensures RowShowsModification(Next(cfg, s, Resume(k, reply)), r, last)
  {
    if Next(cfg, s, Resume(k, reply)) != s {
      assert RunSafe(cfg, s, k);
      ResumeIsStep(cfg, s, k, reply);
      RunStepShows(cfg, s, Next(cfg, s, Resume(k, reply)), k, r, last);
    }
  }

  lemma TimerShowsModification(cfg: Config, s: System, k: RunId, r: RequestId, last: Option<int>)
    requires RowShowsModification(s, r, last)
    ensures RowShowsModification(Next(cfg, s, TimerFires(k)), r, last)
  {
  }

  lemma BeginShowsModification(cfg: Config, s: System, k: RunId, job: Job, r: RequestId, last: Option<int>)
    requires RowShowsModification(s, r, last) && (r in s.owner ==> s.owner[r] in s.runs)
    ensures RowShowsModification(Next(cfg, s, Begin(k, job)), r, last)
  {
  }

  lemma TapShowsModification(s: System, c: CallbackId, q: RequestId, tap: Tap, r: RequestId, last: Option<int>)
    requires RowShowsModification(s, r, last)
    ensures RowShowsModification(AcceptTap(s, c, q, tap), r, last)
  {
  }

  lemma NextShowsModification(cfg: Config, s: System, e: Event, r: RequestId, last: Option<int>)
    requires ProtocolSafety.Safe(cfg, s) && Filed(s) && RowShowsModification(s, r, last)
    ensures RowShowsModification(Next(cfg, s, e), r, Latest(ModificationOf(s, e, r), last))
  {
    match e {
      case Begin(k, job) => BeginShowsModification(cfg, s, k, job, r, last);
      case Resume(k, reply) =>
        if k in s.runs { ResumeShowsModification(cfg, s, k, reply, r, last); }
      case TimerFires(k) => TimerShowsModification(cfg, s, k, r, last);
      case TapArrives(c, q, tap) => TapShowsModification(s, c, q, tap, r, last);
      case ResumeCallback(c, reply) =>
        if c in s.callbacks { AnswerShowsModification(cfg, s, c, reply, r, last); }
    }
  }

  lemma {:induction false} AlwaysShowsModification(cfg: Config, events: seq<Event>, r: RequestId)
    ensures RowShowsModification(After(cfg, events), r, LastModification(cfg, events, r))
  {
    if events != [] {
      var n := |events| - 1;
      AlwaysShowsModification(cfg, events[..n], r);
      AlwaysSafe(cfg, events[..n]);
      AlwaysNamed(cfg, events[..n]);
      NextShowsModification(cfg, After(cfg, events[..n]), events[n], r, LastModification(cfg, events[..n], r));
    }
  }

  /** The modified quantity in a run's order row is the last one a write named for its request, over every schedule. */
  lemma {:induction false} RowShowsLastModification(cfg: Config, events: seq<Event>, k: RunId, r: RequestId)
    requires var s := After(cfg, events); k in s.runs && s.runs[k].request == Some(r)
    ensures var s := After(cfg, events);
            && s.runs[k].order.Some? && s.runs[k].order.value in s.orders
            && s.orders[s.runs[k].order.value].modified == LastModification(cfg, events, r)
  {
    AlwaysSafe(cfg, events);
    AlwaysShowsModification(cfg, events, r);
    assert RunSafe(cfg, After(cfg, events), k);
  }

  // ---- What an order row was made for ----

  /** The order row of a run has the side and the quantity the run was asked for. */
  ghost predicate RowsForJobs(s: System) {
    forall k :: k in s.runs && s.runs[k].order.Some? && s.runs[k].order.value in s.orders ==>
      var row := s.orders[s.runs[k].order.value];
      row.side == JobSide(s.runs[k].job) && row.quantity == JobQuantity(s.runs[k].job)
  }

  lemma StepKeepsRowsForJobs(cfg: Config, s: System, t: System, k: RunId)
    requires ProtocolSafety.Safe(cfg, s) && RowsForJobs(s) && RunStep(s, t, k)
    ensures RowsForJobs(t)
  {
    forall j | j in t.runs && t.runs[j].order.Some? && t.runs[j].order.value in t.orders
      ensures t.orders[t.runs[j].order.value].side == JobSide(t.runs[j].job)
      ensures t.orders[t.runs[j].order.value].quantity == JobQuantity(t.runs[j].job)
    {
      assert RunSafe(cfg, s, j);
    }
  }

  lemma AnswerKeepsRowsForJobs(s: System, c: CallbackId, cb: Callback, reply: Reply)
    requires RowsForJobs(s)
    ensures RowsForJobs(ResumeAnswer(s, c, cb, reply))
  {
    AnswerLogs(s, c, cb, reply);
    AnswerKeepsPurpose(s, c, cb, reply);
  }

  lemma AnswerKeepsPurpose(s: System, c: CallbackId, cb: Callback, reply: Reply)
    ensures var t := ResumeAnswer(s, c, cb, reply);
            forall o :: o in t.orders ==>
              o in s.orders && t.orders[o].side == s.orders[o].side && t.orders[o].quantity == s.orders[o].quantity
  {
  }

  lemma NextKeepsRowsForJobs(cfg: Config, s: System, e: Event)
    requires ProtocolSafety.Safe(cfg, s) && RowsForJobs(s)
    ensures RowsForJobs(Next(cfg, s, e))
  {
    if Next(cfg, s, e) != s {
      match e {
        case Begin(k, job) =>
        case Resume(k, reply) =>
          assert RunSafe(cfg, s, k);
          ResumeIsStep(cfg, s, k, reply);
          StepKeepsRowsForJobs(cfg, s, Next(cfg, s, e), k);
        case TimerFires(k) =>
          TimerIsStep(cfg, s, k);
          StepKeepsRowsForJobs(cfg, s, Next(cfg, s, e), k);
        case TapArrives(c, r, tap) =>
        case ResumeCallback(c, reply) => AnswerKeepsRowsForJobs(s, c, s.callbacks[c], reply);
      }
    }
  }

  /** After every schedule an order row has the side and the quantity its run was asked for, modified or not. */
  lemma {:induction false} AlwaysForJobs(cfg: Config, events: seq<Event>)
    ensures RowsForJobs(After(cfg, events))
  {
    if events != [] {
      AlwaysSafe(cfg, events[..|events| - 1]);
      AlwaysForJobs(cfg, events[..|events| - 1]);
      NextKeepsRowsForJobs(cfg, After(cfg, events[..|events| - 1]), events[|events| - 1]);
    }
  }

  // ---- What only grows ----

  /** The log grows, jobs stay, and so does a request once it is made. */
  ghost predicate Grows(s: System, t: System) {
    && s.log <= t.log
    && forall k :: k in s.runs ==>
         && k in t.runs && t.runs[k].job == s.runs[k].job
         && (s.runs[k].request.Some? ==> t.runs[k].request == s.runs[k].request)
  }

  lemma StepGrows(s: System, t: System, k: RunId)
    requires RunStep(s, t, k)
    ensures Grows(s, t)
  {
  }

  lemma AnswerGrows(s: System, c: CallbackId, cb: Callback, reply: Reply)
    ensures Grows(s, ResumeAnswer(s, c, cb, reply))
  {
    AnswerLogs(s, c, cb, reply);
  }

  lemma ResumeGrows(cfg: Config, s: System, k: RunId, reply: Reply)
    requires ProtocolSafety.Safe(cfg, s)
    ensures Grows(s, Next(cfg, s, Resume(k, reply)))
  {
    if k in s.runs && Next(cfg, s, Resume(k, reply)) != s {
      assert RunSafe(cfg, s, k);
      ResumeIsStep(cfg, s, k, reply);
      StepGrows(s, Next(cfg, s, Resume(k, reply)), k);
    }
  }

  lemma TimerGrows(cfg: Config, s: System, k: RunId)
    ensures Grows(s, Next(cfg, s, TimerFires(k)))
  {
  }

  lemma TapGrows(s: System, c: CallbackId, r: RequestId, tap: Tap)
    ensures Grows(s, AcceptTap(s, c, r, tap))
  {
  }

  lemma BeginGrows(cfg: Config, s: System, k: RunId, job: Job)
    ensures Grows(s, Next(cfg, s, Begin(k, job)))
  {
  }

  lemma NextGrows(cfg: Config, s: System, e: Event)
    requires ProtocolSafety.Safe(cfg, s)
    ensures Grows(s, Next(cfg, s, e))
  {
    match e {
      case Begin(k, job) => BeginGrows(cfg, s, k, job);
      case Resume(k, reply) => ResumeGrows(cfg, s, k, reply);
      case TimerFires(k) => TimerGrows(cfg, s, k);
      case TapArrives(c, r, tap) => TapGrows(s, c, r, tap);
      case ResumeCallback(c, reply) =>
        if c in s.callbacks { AnswerGrows(s, c, s.callbacks[c], reply); }
    }
  }

  lemma {:induction false} OnlyGrows(cfg: Config, events: seq<Event>, n: nat)
    requires n <= |events|
    ensures Grows(After(cfg, events[..n]), After(cfg, events))
    decreases |events|
  {
    var last := |events| - 1;
    if n < |events| {
      assert events[..last][..n] == events[..n];
      OnlyGrows(cfg, events[..last], n);
      AlwaysSafe(cfg, events[..last]);
      NextGrows(cfg, After(cfg, events[..last]), events[last]);
    } else {
      assert events[..n] == events;
    }
  }

  // ---- Where one segment takes a quantity from ----

  /** Points at which a run has made its request. */
  predicate Asked(at: Point) {
    !BeforeRequest(at) && !at.Cancelling? && !at.Recovering? && !at.Done?
  }

  /** Only entries read their order row again, and a run past its request has one. */
  predicate Placed(run: Run) {
    (Asked(run.at) ==> run.request.Some?) && (run.at.ReadingOrder? || run.at.Rechecking? ==> run.job.Entry?)
  }

  /** The segment read this quantity from the order row, or for want of one sends the quantity asked for. */
  predicate ReadsRow(run: Run, row: OrderRow, reply: Reply, quantity: int) {
    run.at.ReadingOrder? && reply.Returned? && quantity == row.modified.GetOr(JobQuantity(run.job))
  }

  /** Where the quantity of a new call or a new re-check comes from. */
  ghost predicate QuantityLands(s: System, t: System, k: RunId, row: OrderRow, reply: Reply)
    requires k in s.runs
  {
    var run := s.runs[k];
    && k in t.runs && Placed(t.runs[k])
    && (t.runs[k].at.Rechecking? ==> t.runs[k].at == run.at || ReadsRow(run, row, reply, t.runs[k].at.modified))
    && (t.log != s.log ==>
          && t.log != []
          && var e := t.log[|t.log| - 1];
             e.Called? ==> e.run == k && CallFrom(run, row, reply, e.quantity))
  }

  predicate CallFrom(run: Run, row: OrderRow, reply: Reply, quantity: int) {
    if run.job.Exit? then quantity == JobQuantity(run.job)
    else ReadsRow(run, row, reply, quantity) || run.at == Rechecking(quantity)
  }

  lemma CallQuantityLands(s: System, inbox: Inbox, k: RunId, run: Run, quantity: int, row: OrderRow, reply: Reply)
    requires k in s.runs && run.job == s.runs[k].job && (quantity > 0 ==> run.request.Some?)
    requires quantity > 0 ==> CallFrom(s.runs[k], row, reply, quantity)
    ensures QuantityLands(s, CallBroker(s.(inbox := inbox), k, run, quantity), k, row, reply)
  {
    var t := CallBroker(s.(inbox := inbox), k, run, quantity);
    if quantity > 0 {
      assert t.log == s.log + [Called(k, JobSide(run.job), quantity)] && t.runs[k] == run.(at := Placing(quantity));
    }
  }

  lemma ApprovalQuantityLands(s: System, inbox: Inbox, k: RunId, status: ApprovalStatus, row: OrderRow, reply: Reply)
    requires k in s.runs && s.runs[k].request.Some?
    ensures QuantityLands(s, AfterApproval(s.(inbox := inbox), k, s.runs[k], status), k, row, reply)
  {
    var run := s.runs[k].(approval := Some(status));
    if run.job.Exit? { CallQuantityLands(s, inbox, k, run, JobQuantity(run.job), row, reply); }
  }

  lemma ReadOrderQuantityLands(s: System, k: RunId, row: OrderRow)
    requires k in s.runs && s.runs[k].at.ReadingOrder? && Placed(s.runs[k])
    ensures QuantityLands(s, ReadOrder(s, k, s.runs[k], row), k, row, Returned)
  {
    assert s.(inbox := s.inbox) == s;
    if row.modified.None? { CallQuantityLands(s, s.inbox, k, s.runs[k], JobQuantity(s.runs[k].job), row, Returned); }
  }

  lemma RecheckQuantityLands(cfg: Config, s: System, k: RunId, row: OrderRow, reply: Reply)
    requires k in s.runs && s.runs[k].at.Rechecking? && s.runs[k].at.modified > 0 && Placed(s.runs[k])
    requires reply.RiskView?
    ensures QuantityLands(s, Recheck(cfg, s, k, s.runs[k], s.runs[k].at.modified, reply.state), k, row, reply)
  {
    var modified := s.runs[k].at.modified;
    assert s.(inbox := s.inbox) == s;
    RecheckKeepsQuantity(cfg, s.runs[k], modified, reply.state);
    CallQuantityLands(s, s.inbox, k, s.runs[k], modified, row, reply);
  }

  lemma NotifiedQuantityLands(cfg: Config, s: System, k: RunId, row: OrderRow, reply: Reply)
    requires k in s.runs && Placed(s.runs[k]) && (s.runs[k].at.NotifyingAuto? || s.runs[k].at.NotifyingTimeout?)
    ensures var t := ResumeOutside(cfg, s, k, s.runs[k], row, reply); t == s || QuantityLands(s, t, k, row, reply)
  {
    if s.runs[k].at.NotifyingAuto? {
      assert s.(inbox := s.inbox) == s;
      ApprovalQuantityLands(s, s.inbox, k, ApprovalStatus.AutoApproved, row, reply);
    } else {
      ApprovalQuantityLands(s, Forget(s.inbox, s.runs[k].request.value), k, ApprovalStatus.Timeout, row, reply);
    }
  }

  lemma RequestingQuantityLands(cfg: Config, s: System, k: RunId, row: OrderRow, reply: Reply)
    requires k in s.runs && Placed(s.runs[k])
    requires s.runs[k].at.Verifying? || s.runs[k].at.LoadingPortfolio? || s.runs[k].at.Announcing?
    ensures var t := ResumeOutside(cfg, s, k, s.runs[k], row, reply); t == s || QuantityLands(s, t, k, row, reply)
  {
  }

  lemma FillQuantityLands(s: System, k: RunId, row: OrderRow, reply: Reply)
    requires k in s.runs && Placed(s.runs[k]) && s.runs[k].at.Placing? && reply.Broker?
    ensures QuantityLands(s, TakeFill(s, k, s.runs[k], s.runs[k].at.quantity, reply), k, row, reply)
  {
  }

  lemma OutsideQuantityLands(cfg: Config, s: System, k: RunId, row: OrderRow, reply: Reply)
    requires k in s.runs && Placed(s.runs[k]) && AwaitsOutside(s.runs[k].at)
    requires s.runs[k].at.Rechecking? ==> s.runs[k].at.modified > 0
    ensures var t := ResumeOutside(cfg, s, k, s.runs[k], row, reply); t == s || QuantityLands(s, t, k, row, reply)
  {
    var at := s.runs[k].at;
    if at.Verifying? || at.LoadingPortfolio? || at.Announcing? {
      RequestingQuantityLands(cfg, s, k, row, reply);
    } else if at.NotifyingAuto? || at.NotifyingTimeout? {
      NotifiedQuantityLands(cfg, s, k, row, reply);
    } else if at.ReadingOrder? {
      ReadOrderQuantityLands(s, k, row);
    } else if at.Rechecking? {
      if reply.RiskView? { RecheckQuantityLands(cfg, s, k, row, reply); }
    } else if reply.Broker? {
      FillQuantityLands(s, k, row, reply);
    }
  }

  lemma AnswerQuantityLands(s: System, k: RunId, r: RequestId, row: OrderRow, reply: Reply)
    requires k in s.runs && s.runs[k].request == Some(r) && s.runs[k].at.AwaitingAnswer?
    ensures var t := TakeAnswer(s, k, s.runs[k], r); t == s || QuantityLands(s, t, k, row, reply)
  {
    var status := Response(s.inbox, r);
    if status != ApprovalStatus.Timeout { ApprovalQuantityLands(s, Forget(s.inbox, r), k, status, row, reply); }
  }

  lemma ResumeQuantityLands(cfg: Config, s: System, k: RunId, reply: Reply, o: OrderId)
    requires k in s.runs && RunSafe(cfg, s, k) && Placed(s.runs[k]) && s.runs[k].order == Some(o)
    ensures var t := Next(cfg, s, Resume(k, reply)); t == s || QuantityLands(s, t, k, s.orders[o], reply)
  {
    var at := s.runs[k].at;
    if AwaitsOutside(at) {
      OutsideQuantityLands(cfg, s, k, s.orders[o], reply);
    } else if at.AwaitingAnswer? {
      AnswerQuantityLands(s, k, s.runs[k].request.value, s.orders[o], reply);
    } else {
      WriteMoves(cfg, s, k, o, reply);
    }
  }

  // ---- Every quantity was read from the row ----

  /** Event n is the read of the order row by this run, and the quantity is what the row then called for. */
  ghost predicate Reads(cfg: Config, events: seq<Event>, n: int, k: RunId, r: RequestId, quantity: int) {
    && 0 <= n < |events| && events[n] == Resume(k, Returned)
    && var s := After(cfg, events[..n]);
       && k in s.runs && s.runs[k].at.ReadingOrder? && s.runs[k].request == Some(r)
       && quantity == LastModification(cfg, events[..n], r).GetOr(JobQuantity(s.runs[k].job))
  }

  ghost predicate WasRead(cfg: Config, events: seq<Event>, k: RunId, run: Run, quantity: int) {
    run.request.Some? && exists n :: Reads(cfg, events, n, k, run.request.value, quantity)
  }

  lemma ReadBefore(cfg: Config, events: seq<Event>, e: Event, k: RunId, run: Run, next: Run, quantity: int)
    requires WasRead(cfg, events, k, run, quantity) && next.request == run.request
    ensures WasRead(cfg, events + [e], k, next, quantity)
  {
    var n :| Reads(cfg, events, n, k, run.request.value, quantity);
    assert (events + [e])[..n] == events[..n];
    assert Reads(cfg, events + [e], n, k, run.request.value, quantity);
  }

  ghost predicate RunRead(cfg: Config, events: seq<Event>, k: RunId, run: Run) {
    Placed(run) && (run.at.Rechecking? ==> WasRead(cfg, events, k, run, run.at.modified))
  }

  ghost predicate CallRead(cfg: Config, events: seq<Event>, runs: map<RunId, Run>, call: LogEntry)
    requires call.Called?
  {
    && call.run in runs
    && if runs[call.run].job.Exit? then call.quantity == JobQuantity(runs[call.run].job)
       else WasRead(cfg, events, call.run, runs[call.run], call.quantity)
  }

  ghost predicate AllRead(cfg: Config, events: seq<Event>, s: System) {
    && (forall k :: k in s.runs ==> RunRead(cfg, events, k, s.runs[k]))
    && (forall call :: call in s.log && call.Called? ==> CallRead(cfg, events, s.runs, call))
  }

  lemma CallStaysRead(cfg: Config, events: seq<Event>, e: Event, s: System, t: System, call: LogEntry)
    requires call.Called? && CallRead(cfg, events, s.runs, call) && Grows(s, t)
    ensures CallRead(cfg, events + [e], t.runs, call)
  {
    var k := call.run;
    if s.runs[k].job.Entry? { ReadBefore(cfg, events, e, k, s.runs[k], t.runs[k], call.quantity); }
  }

  lemma RunStaysRead(cfg: Config, events: seq<Event>, e: Event, k: RunId, run: Run)
    requires RunRead(cfg, events, k, run)
    ensures RunRead(cfg, events + [e], k, run)
  {
    if run.at.Rechecking? { ReadBefore(cfg, events, e, k, run, run, run.at.modified); }
  }

  /** A step that makes no call and moves no run. */
  lemma QuietKeepsRead(cfg: Config, events: seq<Event>, e: Event, s: System, t: System)
    requires AllRead(cfg, events, s) && Grows(s, t)
    requires forall k :: k in t.runs ==> (k in s.runs && t.runs[k] == s.runs[k]) || RunRead(cfg, events, k, t.runs[k])
    requires forall call :: call in t.log && call.Called? ==> call in s.log
    ensures AllRead(cfg, events + [e], t)
  {
    forall k | k in t.runs ensures RunRead(cfg, events + [e], k, t.runs[k]) {
      RunStaysRead(cfg, events, e, k, t.runs[k]);
    }
    forall call | call in t.log && call.Called? ensures CallRead(cfg, events + [e], t.runs, call) {
      CallStaysRead(cfg, events, e, s, t, call);
    }
  }

  /** The segment that reads the row is the one the schedule shows. */
  lemma RowRead(cfg: Config, events: seq<Event>, k: RunId, reply: Reply, o: OrderId, quantity: int, next: Run)
    requires ProtocolSafety.Safe(cfg, After(cfg, events)) && AllRead(cfg, events, After(cfg, events))
    requires var s := After(cfg, events);
             && k in s.runs && s.runs[k].order == Some(o) && o in s.orders
             && ReadsRow(s.runs[k], s.orders[o], reply, quantity) && next.request == s.runs[k].request
    ensures WasRead(cfg, events + [Resume(k, reply)], k, next, quantity)
  {
    var s := After(cfg, events);
    var all := events + [Resume(k, reply)];
    var r := s.runs[k].request.value;
    assert RunRead(cfg, events, k, s.runs[k]);
    RowShowsLastModification(cfg, events, k, r);
    assert all[..|events|] == events;
    assert Reads(cfg, all, |events|, k, r, quantity);
  }

  lemma ResumeKeepsRead(cfg: Config, events: seq<Event>, k: RunId, reply: Reply)
    requires ProtocolSafety.Safe(cfg, After(cfg, events)) && AllRead(cfg, events, After(cfg, events))
    requires k in After(cfg, events).runs && After(cfg, events).runs[k].order.Some?
    requires Next(cfg, After(cfg, events), Resume(k, reply)) != After(cfg, events)
    ensures AllRead(cfg, events + [Resume(k, reply)], Next(cfg, After(cfg, events), Resume(k, reply)))
  {
    var s := After(cfg, events);
    var e := Resume(k, reply);
    var t := Next(cfg, s, e);
    var o := s.runs[k].order.value;
    assert RunSafe(cfg, s, k) && RunRead(cfg, events, k, s.runs[k]);
    ResumeIsStep(cfg, s, k, reply);
    ResumeQuantityLands(cfg, s, k, reply, o);
    LandingRuns(cfg, events, t, k, reply, o);
    LandingCalls(cfg, events, t, k, reply, o);
  }

  lemma LandingRuns(cfg: Config, events: seq<Event>, t: System, k: RunId, reply: Reply, o: OrderId)
    requires ProtocolSafety.Safe(cfg, After(cfg, events)) && AllRead(cfg, events, After(cfg, events))
    requires var s := After(cfg, events);
             && k in s.runs && s.runs[k].order == Some(o) && o in s.orders && RunStep(s, t, k)
             && QuantityLands(s, t, k, s.orders[o], reply)
    ensures forall j :: j in t.runs ==> RunRead(cfg, events + [Resume(k, reply)], j, t.runs[j])
  {
    var s := After(cfg, events);
    var e := Resume(k, reply);
    forall j | j in t.runs ensures RunRead(cfg, events + [e], j, t.runs[j]) {
      if j != k {
        RunStaysRead(cfg, events, e, j, s.runs[j]);
      } else {
        StepGrows(s, t, k);
        NewPointRead(cfg, events, t, k, reply, o);
      }
    }
  }

  lemma NewPointRead(cfg: Config, events: seq<Event>, t: System, k: RunId, reply: Reply, o: OrderId)
    requires ProtocolSafety.Safe(cfg, After(cfg, events)) && AllRead(cfg, events, After(cfg, events))
    requires var s := After(cfg, events);
             && k in s.runs && s.runs[k].order == Some(o) && o in s.orders && Grows(s, t)
             && QuantityLands(s, t, k, s.orders[o], reply)
    ensures RunRead(cfg, events + [Resume(k, reply)], k, t.runs[k])
  {
    var run, next := After(cfg, events).runs[k], t.runs[k];
    assert RunRead(cfg, events, k, run);
    if next.at.Rechecking? {
      if next.at == run.at {
        ReadBefore(cfg, events, Resume(k, reply), k, run, next, next.at.modified);
      } else {
        RowRead(cfg, events, k, reply, o, next.at.modified, next);
      }
    }
  }

  lemma LandingCalls(cfg: Config, events: seq<Event>, t: System, k: RunId, reply: Reply, o: OrderId)
    requires ProtocolSafety.Safe(cfg, After(cfg, events)) && AllRead(cfg, events, After(cfg, events))
    requires var s := After(cfg, events);
             && k in s.runs && s.runs[k].order == Some(o) && o in s.orders && RunStep(s, t, k)
             && QuantityLands(s, t, k, s.orders[o], reply)
    ensures forall call :: call in t.log && call.Called? ==>
              CallRead(cfg, events + [Resume(k, reply)], t.runs, call)
  {
    var s := After(cfg, events);
    var e := Resume(k, reply);
    StepGrows(s, t, k);
    forall call | call in t.log && call.Called? ensures CallRead(cfg, events + [e], t.runs, call) {
      if call in s.log {
        CallStaysRead(cfg, events, e, s, t, call);
      } else {
        assert call == t.log[|t.log| - 1];
        NewCallRead(cfg, events, t, k, reply, o, call);
      }
    }
  }

  lemma NewCallRead(cfg: Config, events: seq<Event>, t: System, k: RunId, reply: Reply, o: OrderId, call: LogEntry)
    requires ProtocolSafety.Safe(cfg, After(cfg, events)) && AllRead(cfg, events, After(cfg, events))
    requires var s := After(cfg, events);
             && k in s.runs && s.runs[k].order == Some(o) && o in s.orders && k in t.runs && Grows(s, t)
             && call.Called? && call.run == k && CallFrom(s.runs[k], s.orders[o], reply, call.quantity)
    ensures CallRead(cfg, events + [Resume(k, reply)], t.runs, call)
  {
    var s := After(cfg, events);
    assert RunRead(cfg, events, k, s.runs[k]);
    if s.runs[k].job.Entry? {
      if s.runs[k].at == Rechecking(call.quantity) {
        ReadBefore(cfg, events, Resume(k, reply), k, s.runs[k], t.runs[k], call.quantity);
      } else {
        RowRead(cfg, events, k, reply, o, call.quantity, t.runs[k]);
      }
    }
  }

  /** Every event but a segment of a run that has its order row. */
  lemma OtherKeepsRead(cfg: Config, events: seq<Event>, e: Event, s: System)
    requires ProtocolSafety.Safe(cfg, s) && AllRead(cfg, events, s)
    requires e.Resume? && e.run in s.runs ==> s.runs[e.run].at.Creating?
    ensures AllRead(cfg, events + [e], Next(cfg, s, e))
  {
    NextGrows(cfg, s, e);
    OtherMakesNoCall(cfg, s, e);
    QuietKeepsRead(cfg, events, e, s, Next(cfg, s, e));
  }

  lemma OtherMakesNoCall(cfg: Config, s: System, e: Event)
    requires e.Resume? && e.run in s.runs ==> s.runs[e.run].at.Creating?
    ensures var t := Next(cfg, s, e);
            && (forall call :: call in t.log && call.Called? ==> call in s.log)
            && (forall k :: k in t.runs ==>
                  (k in s.runs && t.runs[k] == s.runs[k]) || (Placed(t.runs[k]) && !t.runs[k].at.Rechecking?))
  {
    match e {
      case Begin(k, job) =>
      case Resume(k, reply) =>
        if k in s.runs { InsertMakesNoCall(s, k, reply); }
      case TimerFires(k) =>
      case TapArrives(c, r, tap) =>
      case ResumeCallback(c, reply) =>
        if c in s.callbacks { AnswerMakesNoCall(s, c, s.callbacks[c], reply); }
    }
  }

  lemma NextKeepsRead(cfg: Config, events: seq<Event>, e: Event)
    requires ProtocolSafety.Safe(cfg, After(cfg, events)) && AllRead(cfg, events, After(cfg, events))
    ensures AllRead(cfg, events + [e], Next(cfg, After(cfg, events), e))
  {
    var s := After(cfg, events);
    if e.Resume? && e.run in s.runs && !s.runs[e.run].at.Creating? && Next(cfg, s, e) != s {
      ResumeKeepsRead(cfg, events, e.run, e.reply);
    } else if Next(cfg, s, e) == s {
      QuietKeepsRead(cfg, events, e, s, s);
    } else {
      OtherKeepsRead(cfg, events, e, s);
    }
  }

  lemma InsertMakesNoCall(s: System, k: RunId, reply: Reply)
    requires k in s.runs && s.runs[k].at.Creating?
    ensures var t := InsertOrder(s, k, s.runs[k], reply);
            t == s || (t.log == s.log && k in t.runs && t.runs == s.runs[k := t.runs[k]] && Placed(t.runs[k])
                       && !t.runs[k].at.Rechecking?)
  {
  }

  lemma AnswerMakesNoCall(s: System, c: CallbackId, cb: Callback, reply: Reply)
    ensures var t := ResumeAnswer(s, c, cb, reply);
            t.runs == s.runs && forall call :: call in t.log && call.Called? ==> call in s.log
  {
    AnswerLogs(s, c, cb, reply);
  }

  lemma AnswerLogs(s: System, c: CallbackId, cb: Callback, reply: Reply)
    ensures var t := ResumeAnswer(s, c, cb, reply);
            t.runs == s.runs && (t.log == s.log || t.log == s.log + [AnswerLost(cb.request)])
  {
    if cb.at.Saving? && reply.Written? { ApplyPersists(s, cb.request, cb.answer); }
  }

  lemma {:induction false} AlwaysRead(cfg: Config, events: seq<Event>)
    ensures AllRead(cfg, events, After(cfg, events))
  {
    if events != [] {
      var before := events[..|events| - 1];
      assert events == before + [events[|events| - 1]];
      AlwaysSafe(cfg, before);
      AlwaysRead(cfg, before);
      NextKeepsRead(cfg, before, events[|events| - 1]);
    }
  }

  // ---- The theorems ----

  /**
    The quantity of every call over every schedule: an exit sends what it was asked for, and an entry the last
    modification that took effect before it read its order row, or without one what it was asked for.
  */
  lemma {:induction false} QuantityExactly(cfg: Config, events: seq<Event>, call: LogEntry)
    requires call in After(cfg, events).log && call.Called?
    ensures var s := After(cfg, events);
            && call.run in s.runs
            && var run := s.runs[call.run];
               if run.job.Exit? then call.quantity == JobQuantity(run.job)
               else
                 && run.request.Some?
                 && exists n :: Reads(cfg, events, n, call.run, run.request.value, call.quantity)
  {
    AlwaysRead(cfg, events);
    assert CallRead(cfg, events, After(cfg, events).runs, call);
  }

  /** A tap that approved the call's quantity was accepted before it: an approval, or a modification to it. */
  ghost predicate TapNamed(log: seq<LogEntry>, r: RequestId, call: LogEntry)
    requires call.Called?
  {
    Before(log, Accepted(r, Tap.Approve), call) || Before(log, Accepted(r, Modify(Some(call.quantity))), call)
  }

  /** What the run had accepted when it read its order row, it had accepted before it called the broker. */
  lemma AcceptedBeforeCall(cfg: Config, events: seq<Event>, call: LogEntry, n: int, r: RequestId, tap: Tap)
    requires call in After(cfg, events).log && call.Called? && Reads(cfg, events, n, call.run, r, call.quantity)
    requires Accepted(r, tap) in After(cfg, events[..n]).log
    ensures Before(After(cfg, events).log, Accepted(r, tap), call)
  {
    AlwaysSafe(cfg, events[..n]);
    NotCalledYet(cfg, After(cfg, events[..n]), call);
    OnlyGrows(cfg, events, n);
    BeforeLater(After(cfg, events[..n]).log, After(cfg, events).log, Accepted(r, tap), call);
  }

  lemma NotCalledYet(cfg: Config, s: System, call: LogEntry)
    requires call.Called? && call.run in s.runs && RunSafe(cfg, s, call.run) && s.runs[call.run].at.ReadingOrder?
    ensures call !in s.log
  {
  }

  lemma BeforeLater(early: seq<LogEntry>, log: seq<LogEntry>, a: LogEntry, b: LogEntry)
    requires early <= log && a in early && b !in early && b in log
    ensures Before(log, a, b)
  {
    var i :| 0 <= i < |early| && early[i] == a;
    var j :| 0 <= j < |log| && log[j] == b;
    assert forall x :: 0 <= x < |early| ==> log[x] == early[x];
  }

  /**
    Approval of the quantity, exactly: a tap approved the quantity that a buy under human approval went out with if
    and only if a modification had taken effect when the run read its order row, or a tap approved the full quantity.
    Otherwise the database lost an answer and the buy goes out in full.
  */
  lemma {:induction false} QuantityApprovedExactly(cfg: Config, events: seq<Event>, call: LogEntry)
    requires call in After(cfg, events).log && call.Called?
    requires cfg.approval.humanApprovalRequired && call.side == OrderSide.Buy
    ensures var s := After(cfg, events);
            && call.run in s.runs && s.runs[call.run].request.Some?
            && var r := s.runs[call.run].request.value;
               var full := JobQuantity(s.runs[call.run].job);
               exists n ::
                 && Reads(cfg, events, n, call.run, r, call.quantity)
                 && (TapNamed(s.log, r, call) <==>
                       || LastModification(cfg, events[..n], r).Some?
                       || Before(s.log, Accepted(r, Tap.Approve), call)
                       || Before(s.log, Accepted(r, Modify(Some(full))), call))
                 && (TapNamed(s.log, r, call) || (call.quantity == full && AnswerLost(r) in s.log))
  {
    var s := After(cfg, events);
    AlwaysSafe(cfg, events);
    assert CallSafe(cfg, s.log, s.runs, call);
    QuantityExactly(cfg, events, call);
    QuantityApproved(cfg, events, call);
    var r := s.runs[call.run].request.value;
    var n :| Reads(cfg, events, n, call.run, r, call.quantity);
    TapNamedExactly(cfg, events, call, n, r);
  }

  lemma TapNamedExactly(cfg: Config, events: seq<Event>, call: LogEntry, n: int, r: RequestId)
    requires call in After(cfg, events).log && call.Called? && Reads(cfg, events, n, call.run, r, call.quantity)
    ensures var s := After(cfg, events);
            && call.run in s.runs
            && var full := JobQuantity(s.runs[call.run].job);
               && (LastModification(cfg, events[..n], r).None? ==> call.quantity == full)
               && (TapNamed(s.log, r, call) <==>
                     || LastModification(cfg, events[..n], r).Some?
                     || Before(s.log, Accepted(r, Tap.Approve), call)
                     || Before(s.log, Accepted(r, Modify(Some(full))), call))
  {
    OnlyGrows(cfg, events, n);
    if LastModification(cfg, events[..n], r).Some? { ModificationAccepted(cfg, events, call, n, r); }
  }

  lemma ModificationAccepted(cfg: Config, events: seq<Event>, call: LogEntry, n: int, r: RequestId)
    requires call in After(cfg, events).log && call.Called? && Reads(cfg, events, n, call.run, r, call.quantity)
    requires LastModification(cfg, events[..n], r).Some?
    ensures Before(After(cfg, events).log, Accepted(r, Modify(Some(call.quantity))), call)
  {
    AlwaysSafe(cfg, events[..n]);
    assert RunSafe(cfg, After(cfg, events[..n]), call.run);
    RowShowsLastModification(cfg, events[..n], call.run, r);
    AcceptedBeforeCall(cfg, events, call, n, r, Modify(Some(call.quantity)));
  }
}

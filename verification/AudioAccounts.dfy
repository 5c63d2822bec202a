/** What the audio tables hold, told by what the displays reported and the operator asked.

  An `Account` follows a run from the outside: the last accepted report of each
  display, the commands that were granted, and what has since been given, taken back
  or failed. The theorems say that every stored row, command and receipt agrees with
  the account in every reachable state, and when each request is accepted.
 */
module AudioAccounts {
  import opened Wrappers
  import opened AudioDesk
  import opened AudioHistory

  /**
   * A display's last accepted report, the command it had been given by then, and what its row showed of that command
   * before.
   */
  datatype Told = Told(report: Report, stamp: real, intro: bool, given: nat, before: Status)

  datatype Order = Order(request: CommandRequest, url: string, stamp: real, targets: set<string>, expires: real)

  datatype Heard = Heard(report: Report, at: real)

  datatype Account = Account(
    told: map<string, Told>,
    /** The command a display has been given, 0 for none. */
    given: map<string, nat>,
    /** Given a command since it last reported. */
    renewed: set<string>,
    /** Failed to confirm a command since it last reported. */
    failed: set<string>,
    /** Failed, or recovered by the operator, since it last reported. */
    takenBack: set<string>,
    orders: map<nat, Order>,
    heard: map<string, Heard>,
    probes: nat)

  const NOTHING := Account(map[], map[], {}, {}, {}, map[], map[], 0)

  /** The display is on the opening page of this scope, and its lease has not run out. */
  predicate IsLive(stage: Stage, row: AudioRow, now: real) {
    stage.intro && row.scope == stage.scope && row.expires > now
  }

  /** A receipt of this scope answers the probe. */
  predicate Answered(r: Receipts, d: string, scope: Scope, probeNo: nat) {
    d in r.reports && r.reports[d].scope == scope && probeNo <= r.reports[d].probeNo <= r.probeNo
  }

  /** Whom a command reaches: a `stop` every live display, a `play` those that are ready and answered its probe. */
  predicate Reaches(stage: Stage, row: AudioRow, r: Receipts, d: string, req: CommandRequest, now: real) {
    && IsLive(stage, row, now)
    && (req.operation == Play ==> row.ready && (req.probeNo > 0 ==> Answered(r, d, stage.scope, req.probeNo)))
  }

  function Reached(stage: Stage, desk: Desk, r: Receipts, req: CommandRequest, now: real): set<string> {
    set d | d in desk.displays && Reaches(stage, desk.displays[d], r, d, req, now)
  }

  /** Command `id` is the newest of the current scope, and has not expired. */
  ghost predicate IsCurrent(stage: Stage, desk: Desk, id: nat, now: real) {
    && stage.intro && 0 < id <= desk.lastId && id in desk.commands
    && desk.commands[id].scope == stage.scope && desk.commands[id].expires > now
    && forall other | other in desk.commands && id < other <= desk.lastId :: desk.commands[other].scope != stage.scope
  }

  // ---- What a step adds to the account ----

  function AfterReport(a: Account, desk: Desk, req: Report, stamp: real, intro: bool): Account {
    var d := req.displayId;
    var known := d in desk.displays && desk.displays[d].updatedAt >= stamp - HIDDEN_SECONDS;
    var given := if known && desk.displays[d].scope == req.scope then desk.displays[d].commandId else 0;
    var before := if known && given != 0 then desk.displays[d].status else Idle;
    a.(told := a.told[d := Told(req, stamp, intro, given, before)], given := a.given[d := given],
       renewed := a.renewed - {d}, failed := a.failed - {d}, takenBack := a.takenBack - {d})
  }

  function AfterRecord(a: Account, req: Report, active: bool, at: real): Account {
    if !active then a.(heard := a.heard - {req.displayId})
    else if req.probeNo > a.probes then a
    else a.(heard := a.heard[req.displayId := Heard(req, at)])
  }

  function AfterGrant(a: Account, id: nat, order: Order): Account {
    a.(given := a.given + map d | d in order.targets :: id,
       renewed := a.renewed + order.targets, orders := a.orders[id := order])
  }

  function AfterCancel(a: Account, desk: Desk, id: nat, confirmed: set<string>, now: real): Account
    requires id in a.orders
  {
    var order := a.orders[id];
    var failed :=
      set d | d in desk.displays && d in order.targets && d !in confirmed && desk.displays[d].commandId == id;
    var kept := if confirmed != {} then order.(targets := confirmed) else order.(expires := now - 1.0);
    a.(orders := a.orders[id := kept],
       renewed := a.renewed - failed, failed := a.failed + failed, takenBack := a.takenBack + failed)
  }

  function AfterRecovery(a: Account, desk: Desk, scope: Scope, now: real): Account {
    a.(orders := map id | id in a.orders ::
         if a.orders[id].request.scope == scope then a.orders[id].(expires := now - 1.0) else a.orders[id],
       takenBack := a.takenBack + set d | d in desk.displays && desk.displays[d].scope == scope)
  }

  function OrderOf(w: World, step: Step): Order
    requires step.event.Commanded?
  {
    var req := step.event.request;
    Order(req, if req.operation == Play && req.participantId in step.event.greetings
               then step.event.greetings[req.participantId] else "",
          step.event.issueStamp, Reached(step.stage, w.desk, w.receipts, req, step.at),
          step.event.issueStamp + COMMAND_SECONDS)
  }

  /** What a step adds to the account. */
  ghost function Entered(a: Account, w: World, step: Step): Account {
    match step.event
    case Reported(req, stamp) =>
      if AudioReport(step.stage, w.desk, req, stamp).1 == Accepted
      then AfterReport(a, w.desk, req, stamp, step.stage.intro) else a
    case Recorded(req, active, _) => AfterRecord(a, req, active, step.at)
    case Probed => a.(probes := a.probes + 1)
    case Commanded(req, greetings, stamp) =>
      var outcome := PlaybackCommand(step.stage, w.desk, w.receipts, greetings, req, stamp, step.at).1;
      if outcome.Issued? then AfterGrant(a, outcome.id, OrderOf(w, step)) else a
    case Cancelled(scope, id, confirmed) =>
      if scope == step.stage.scope && IsCurrent(step.stage, w.desk, id, step.at) && id in a.orders
      then AfterCancel(a, w.desk, id, confirmed, step.at) else a
    case Recovered(scope) =>
      if scope == step.stage.scope && step.stage.intro then AfterRecovery(a, w.desk, scope, step.at) else a
  }

  ghost function AccountOf(steps: seq<Step>): Account {
    if steps == [] then NOTHING
    else
      var init, step := steps[..|steps| - 1], steps[|steps| - 1];
      var w := Run(START, init);
      if Possible(w, step) then Entered(AccountOf(init), w, step) else AccountOf(init)
  }

  // ---- The tables agree with the account ----

  /** The report was of a display on the opening page. */
  predicate Counts(t: Told) {
    t.report.active && t.intro
  }

  /** What a report says about its display: if it is not about the command given, the row stays as it was. */
  function Said(t: Told): Status {
    if !Counts(t) then Idle
    else if t.report.status == Hidden then Hidden
    else if t.report.commandId == t.given then t.report.status
    else t.before
  }

  /** A row is what its display told last, less what has been taken back. */
  predicate RowIs(row: AudioRow, a: Account, d: string) {
    && d in a.told && d in a.given
    && var t := a.told[d];
       && row.scope == t.report.scope && row.sequence == t.report.sequence && row.keyHash == t.report.keyHash
       && row.updatedAt == t.stamp
       && row.expires == (if !Counts(t) then 0.0
                          else if t.report.status == Hidden then t.stamp + HIDDEN_SECONDS else t.stamp + LEASE_SECONDS)
       && (row.ready <==> Counts(t) && t.report.ready && Said(t) != Hidden && d !in a.takenBack)
       && row.commandId == a.given[d]
       && row.status == (if d in a.renewed then (if Said(t) == Hidden && d !in a.failed then Hidden else Idle)
                         else if d in a.failed then Error else Said(t))
  }

  predicate CommandIs(c: Command, order: Order) {
    && c.requestId == order.request.requestId && c.scope == order.request.scope
    && c.operation == order.request.operation && c.participantId == order.request.participantId
    && c.url == order.url && c.displayIds == order.targets && c.issuedAt == order.stamp && c.expires == order.expires
  }

  predicate ReceiptIs(r: Receipt, h: Heard) {
    && r.at == h.at && r.scope == h.report.scope && r.probeNo == h.report.probeNo && r.commandId == h.report.commandId
    && r.status == h.report.status
  }

  ghost predicate RowsAgree(desk: Desk, a: Account) {
    && a.failed <= a.takenBack
    && forall d | d in desk.displays :: RowIs(desk.displays[d], a, d)
  }

  ghost predicate CommandsAgree(desk: Desk, a: Account) {
    forall id | id in desk.commands :: id in a.orders && CommandIs(desk.commands[id], a.orders[id])
  }

  ghost predicate ReceiptsAgree(r: Receipts, a: Account) {
    r.probeNo == a.probes && forall d | d in r.reports :: d in a.heard && ReceiptIs(r.reports[d], a.heard[d])
  }

  ghost predicate Agrees(w: World, a: Account) {
    RowsAgree(w.desk, a) && CommandsAgree(w.desk, a) && ReceiptsAgree(w.receipts, a)
  }

  // ---- When a request is accepted, and what it reaches ----

  /** What is offered to displays is exactly the current command. */
  lemma PlaybackExactly(stage: Stage, desk: Desk, id: nat, now: real)
    ensures Playback(stage, desk, now) == Some(id) <==> IsCurrent(stage, desk, id, now)
  {
    NewestIsInScope(desk, stage.scope, desk.lastId);
  }

  /** The row is recent enough to stay when a report stamped `stamp` comes. */
  predicate IsKept(desk: Desk, d: string, stamp: real) {
    d in desk.displays && desk.displays[d].updatedAt >= stamp - HIDDEN_SECONDS
  }

  /** A report is accepted exactly in the current scope, from the display's own key, and newer than the last one. */
  lemma ReportAcceptedExactly(stage: Stage, desk: Desk, req: Report, stamp: real)
    ensures AudioReport(stage, desk, req, stamp).1 == Accepted <==>
      && req.scope == stage.scope && req.scope.epoch != ""
      && if IsKept(desk, req.displayId, stamp)
         then var row := desk.displays[req.displayId]; row.keyHash == req.keyHash && row.sequence < req.sequence
         else |set d | d in desk.displays && IsKept(desk, d, stamp)| < DISPLAY_LIMIT
  {
    var rows := KeepRows(desk.displays, stamp - HIDDEN_SECONDS);
    assert rows.Keys == set d | d in desk.displays && IsKept(desk, d, stamp);
    assert |rows| == |rows.Keys|;
  }

  /** Why a report is refused, and when it is merely stale. */
  lemma ReportOutcome(stage: Stage, desk: Desk, req: Report, stamp: real)
    ensures var outcome := AudioReport(stage, desk, req, stamp).1;
            var known := IsKept(desk, req.displayId, stamp);
            && (outcome.Refused? ==>
                  outcome.code == if req.scope.epoch == "" then 422 else if req.scope != stage.scope then 409
                                  else if known then 403 else 429)
            && (outcome == Stale <==>
                  && req.scope.epoch != "" && req.scope == stage.scope && known
                  && desk.displays[req.displayId].keyHash == req.keyHash
                  && req.sequence <= desk.displays[req.displayId].sequence)
  {
  }

  /** Which rows a report leaves: those not older than ninety seconds, as they were, and its own. */
  lemma RowsAfterReport(stage: Stage, desk: Desk, req: Report, stamp: real, d: string)
    requires d != req.displayId
    ensures var (after, outcome) := AudioReport(stage, desk, req, stamp);
            && (if outcome.Refused? then after == desk
                else (d in after.displays <==> IsKept(desk, d, stamp))
                     && (d in after.displays ==> after.displays[d] == desk.displays[d]))
            && after.commands == desk.commands && after.lastId == desk.lastId
  {
  }

  lemma TargetsAreReached(stage: Stage, desk: Desk, r: Receipts, req: CommandRequest, now: real)
    ensures Targets(stage, desk, r, req, now) == Reached(stage, desk, r, req, now)
  {
  }

  /** A command is granted exactly when its request is new, a `play` only with a recording and someone to play it. */
  lemma GrantedExactly(stage: Stage, desk: Desk, r: Receipts, greetings: map<string, string>, req: CommandRequest,
                       stamp: real, now: real)
    ensures Judge(stage, desk, r, greetings, req, stamp, now).Grant? <==>
      && stage.published && req.scope == stage.scope
      && (forall id | id in desk.commands && 0 < id <= desk.lastId :: desk.commands[id].requestId != req.requestId)
      && (req.operation == Play ==>
            && stage.intro && req.participantId in greetings
            && exists d :: d in desk.displays && Reaches(stage, desk.displays[d], r, d, req, now))
  {
    RequestIsFound(desk, req.requestId, desk.lastId);
    TargetsAreReached(stage, desk, r, req, now);
    var reached := Reached(stage, desk, r, req, now);
    if d :| d in desk.displays && Reaches(stage, desk.displays[d], r, d, req, now) {
      assert d in reached;
    }
    if reached != {} {
      var d :| d in reached;
    }
    hide Targets, Reached, Reaches;
  }

  /** A request that was granted before is answered with its command if it asks the same, and else refused. */
  lemma RepeatedExactly(stage: Stage, desk: Desk, r: Receipts, greetings: map<string, string>, req: CommandRequest,
                        stamp: real, now: real)
    ensures var verdict := Judge(stage, desk, r, greetings, req, stamp, now);
            && (verdict.Reject? ==> verdict.code == 409)
            && (verdict.Repeat? ==>
                  && stage.published && req.scope == stage.scope && verdict.id in desk.commands
                  && var c := desk.commands[verdict.id];
                     && c.requestId == req.requestId && c.scope == req.scope && c.operation == req.operation
                     && c.participantId == req.participantId)
            && (stage.published && req.scope == stage.scope
                && (forall id | id in desk.commands && 0 < id <= desk.lastId
                                && desk.commands[id].requestId == req.requestId ::
                      && desk.commands[id].scope == req.scope && desk.commands[id].operation == req.operation
                      && desk.commands[id].participantId == req.participantId)
                && (exists id :: id in desk.commands && 0 < id <= desk.lastId
                                 && desk.commands[id].requestId == req.requestId) ==>
                  verdict.Repeat?)
  {
    RequestIsFound(desk, req.requestId, desk.lastId);
    hide Targets;
  }

  /** A granted command goes to exactly the displays it reaches, and says what was asked. */
  lemma GrantedReaches(stage: Stage, desk: Desk, r: Receipts, greetings: map<string, string>, req: CommandRequest,
                       stamp: real, now: real, d: string)
    requires Judge(stage, desk, r, greetings, req, stamp, now).Grant?
    ensures var c := Judge(stage, desk, r, greetings, req, stamp, now).command;
            && (d in c.displayIds <==>
                  && d in desk.displays && stage.intro
                  && desk.displays[d].scope == stage.scope && desk.displays[d].expires > now
                  && (req.operation == Play ==>
                        desk.displays[d].ready
                        && (req.probeNo > 0 ==>
                              && d in r.reports && r.reports[d].scope == stage.scope
                              && req.probeNo <= r.reports[d].probeNo <= r.probeNo)))
            && c.requestId == req.requestId && c.scope == req.scope && c.operation == req.operation
            && c.participantId == req.participantId && c.issuedAt == stamp && c.expires == stamp + 20.0
            && (req.operation == Play ==> req.participantId in greetings && c.url == greetings[req.participantId])
            && (req.operation == Stop ==> c.url == "")
  {
  }

  /** After the grant every display it reaches has the new id, and shows nothing of an earlier command. */
  lemma GrantGives(desk: Desk, c: Command, d: string)
    ensures var after, id := Issue(desk, c), desk.lastId + 1;
            && after.lastId == id && (d in after.displays <==> d in desk.displays)
            && (d in desk.displays && d !in c.displayIds ==> after.displays[d] == desk.displays[d])
            && (d in desk.displays && d in c.displayIds ==>
                  var row := after.displays[d];
                  && row.commandId == id && (row.status == Hidden || row.status == Idle)
                  && (row.status == Hidden <==> desk.displays[d].status == Hidden)
                  && row.(commandId := desk.displays[d].commandId, status := desk.displays[d].status)
                     == desk.displays[d])
  {
  }

  /** Which receipts a record leaves: the recent ones, less an oldest one if there was no room, and its own. */
  lemma ReceiptsAfterRecord(r: Receipts, req: Report, active: bool, now: real, victim: string, d: string)
    requires IsVictim(r, req, active, now, victim) && d != req.displayId
    ensures var after := Record(r, req, active, now, victim);
            var recent := set e | e in r.reports && r.reports[e].at > now - 90.0;
            && after.probeNo == r.probeNo
            && (d in after.reports <==>
                  d in recent && !(active && req.probeNo <= r.probeNo && |recent| >= 512 && req.displayId !in recent
                                   && d == victim))
            && (d in after.reports ==> after.reports[d] == r.reports[d])
            && (active && req.probeNo <= r.probeNo && |recent| >= 512 && req.displayId !in recent ==>
                  victim in recent && forall e | e in recent :: r.reports[victim].at <= r.reports[e].at)
  {
    var recent := RecentReports(r.reports, now);
    assert recent.Keys == set e | e in r.reports && r.reports[e].at > now - 90.0;
    assert |recent| == |recent.Keys|;
  }

  /** What a record leaves of its own display: nothing when it left, the report unless it runs ahead of the probes. */
  lemma ReceiptRecorded(r: Receipts, req: Report, active: bool, now: real, victim: string)
    requires IsVictim(r, req, active, now, victim)
    ensures var after, d := Record(r, req, active, now, victim), req.displayId;
            if !active then d !in after.reports
            else if req.probeNo <= r.probeNo then
              d in after.reports && ReceiptIs(after.reports[d], Heard(req, now))
            else d in after.reports <==> d in r.reports && r.reports[d].at > now - 90.0
  {
  }

  // ---- Every run ----

  /** The row that an accepted report writes, and the report alone. */
  lemma ReportedRowIs(stage: Stage, desk: Desk, a: Account, req: Report, stamp: real)
    requires AudioReport(stage, desk, req, stamp).1 == Accepted
    ensures var after, d := AudioReport(stage, desk, req, stamp).0, req.displayId;
            d in after.displays && RowIs(after.displays[d], AfterReport(a, desk, req, stamp, stage.intro), d)
  {
  }

  lemma OtherRowIs(a: Account, desk: Desk, req: Report, stamp: real, intro: bool, row: AudioRow, d: string)
    requires RowIs(row, a, d) && d != req.displayId
    ensures RowIs(row, AfterReport(a, desk, req, stamp, intro), d)
  {
  }

  lemma RowsAgreeAfterReport(stage: Stage, desk: Desk, a: Account, req: Report, stamp: real)
    requires RowsAgree(desk, a)
    ensures var (after, outcome) := AudioReport(stage, desk, req, stamp);
            RowsAgree(after, if outcome == Accepted then AfterReport(a, desk, req, stamp, stage.intro) else a)
  {
    var (after, outcome) := AudioReport(stage, desk, req, stamp);
    var b := if outcome == Accepted then AfterReport(a, desk, req, stamp, stage.intro) else a;
    forall d | d in after.displays ensures RowIs(after.displays[d], b, d) {
      if d != req.displayId {
        RowsAfterReport(stage, desk, req, stamp, d);
        OtherRowIs(a, desk, req, stamp, stage.intro, desk.displays[d], d);
      } else if outcome == Accepted {
        ReportedRowIs(stage, desk, a, req, stamp);
      } else {
        assert d in desk.displays && after.displays[d] == desk.displays[d];
      }
    }
    assert b.failed <= b.takenBack;
  }

  lemma ReportAgrees(w: World, a: Account, step: Step)
    requires step.event.Reported? && Agrees(w, a) && Possible(w, step)
    ensures Agrees(Next(w, step), Entered(a, w, step))
  {
    var req, stamp := step.event.report, step.event.stamp;
    RowsAgreeAfterReport(step.stage, w.desk, a, req, stamp);
    ReportKeepsTheRest(step.stage, w.desk, a, req, stamp);
    hide AudioReport, AfterReport, RowsAgree, RowIs, CommandIs, ReceiptIs;
  }

  lemma ReportKeepsTheRest(stage: Stage, desk: Desk, a: Account, req: Report, stamp: real)
    ensures AudioReport(stage, desk, req, stamp).0.commands == desk.commands
    ensures var b := AfterReport(a, desk, req, stamp, stage.intro);
            b.orders == a.orders && b.heard == a.heard && b.probes == a.probes
  {
  }

  lemma ReceiptsAgreeAfterRecord(r: Receipts, a: Account, req: Report, active: bool, at: real, victim: string)
    requires ReceiptsAgree(r, a) && IsVictim(r, req, active, at, victim)
    ensures ReceiptsAgree(Record(r, req, active, at, victim), AfterRecord(a, req, active, at))
  {
    var after, b := Record(r, req, active, at, victim), AfterRecord(a, req, active, at);
    ReceiptRecorded(r, req, active, at, victim);
    assert after.probeNo == r.probeNo == b.probes;
    forall d | d in after.reports ensures d in b.heard && ReceiptIs(after.reports[d], b.heard[d]) {
      if d != req.displayId {
        ReceiptsAfterRecord(r, req, active, at, victim, d);
      }
    }
  }

  lemma RecordAgrees(w: World, a: Account, step: Step)
    requires step.event.Recorded? && Agrees(w, a) && Possible(w, step)
    ensures Agrees(Next(w, step), Entered(a, w, step))
  {
    var req, active := step.event.receipt, step.event.active;
    ReceiptsAgreeAfterRecord(w.receipts, a, req, active, step.at, step.event.victim);
    RowsIgnoreHeard(w.desk, a, AfterRecord(a, req, active, step.at));
    hide Record, RowIs, CommandIs, ReceiptIs, RowsAgree, CommandsAgree, ReceiptsAgree;
  }

  /** Rows and commands do not depend on the receipts. */
  lemma RowsIgnoreHeard(desk: Desk, a: Account, b: Account)
    requires b == a.(heard := b.heard, probes := b.probes)
    ensures RowsAgree(desk, a) ==> RowsAgree(desk, b)
    ensures CommandsAgree(desk, a) ==> CommandsAgree(desk, b)
  {
    forall d, row | RowIs(row, a, d) ensures RowIs(row, b, d) {
    }
  }

  lemma GrantAgrees(desk: Desk, a: Account, c: Command, order: Order)
    requires RowsAgree(desk, a) && CommandsAgree(desk, a) && CommandIs(c, order)
    ensures RowsAgree(Issue(desk, c), AfterGrant(a, desk.lastId + 1, order))
    ensures CommandsAgree(Issue(desk, c), AfterGrant(a, desk.lastId + 1, order))
  {
    var after, b := Issue(desk, c), AfterGrant(a, desk.lastId + 1, order);
    forall d | d in after.displays ensures RowIs(after.displays[d], b, d) {
      GrantGives(desk, c, d);
      assert RowIs(desk.displays[d], a, d);
    }
  }

  lemma CommandAgrees(w: World, a: Account, step: Step)
    requires step.event.Commanded? && Agrees(w, a) && Possible(w, step)
    ensures Agrees(Next(w, step), Entered(a, w, step))
  {
    hide RowsAgree, CommandsAgree, ReceiptIs, CommandIs, Issue, OrderOf, PlaybackCommand, NextCommand, VerdictOn;
    var order, verdict := OrderOf(w, step), VerdictOn(w, step);
    CommandIsGranted(w, step);
    IssuedExactly(w, step);
    if verdict.Grant? {
      OrderIsGranted(w, step);
      GrantAgrees(w.desk, a, verdict.command, order);
    }
  }

  lemma IssuedExactly(w: World, step: Step)
    requires step.event.Commanded?
    ensures var e, verdict := step.event, VerdictOn(w, step);
            var outcome :=
              PlaybackCommand(step.stage, w.desk, w.receipts, e.greetings, e.request, e.issueStamp, step.at).1;
            (outcome.Issued? <==> verdict.Grant?) && (outcome.Issued? ==> outcome.id == w.desk.lastId + 1)
  {
    hide Judge, Issue;
  }

  lemma OrderIsGranted(w: World, step: Step)
    requires step.event.Commanded? && VerdictOn(w, step).Grant?
    ensures CommandIs(VerdictOn(w, step).command, OrderOf(w, step))
  {
    TargetsAreReached(step.stage, w.desk, w.receipts, step.event.request, step.at);
    hide Targets, Reached;
  }

  lemma CancelGives(stage: Stage, desk: Desk, a: Account, id: nat, confirmed: set<string>, now: real)
    requires RowsAgree(desk, a) && CommandsAgree(desk, a) && IsCurrent(stage, desk, id, now) && id in a.orders
    ensures var after := CancelUnconfirmed(stage, desk, stage.scope, id, confirmed, now);
            var b := AfterCancel(a, desk, id, confirmed, now);
            RowsAgree(after, b) && CommandsAgree(after, b)
  {
    PlaybackExactly(stage, desk, id, now);
    hide Playback;
    var after := CancelUnconfirmed(stage, desk, stage.scope, id, confirmed, now);
    var b := AfterCancel(a, desk, id, confirmed, now);
    forall d | d in after.displays ensures RowIs(after.displays[d], b, d) {
      assert RowIs(desk.displays[d], a, d);
    }
    hide RowIs;
  }

  lemma CancelAgrees(w: World, a: Account, step: Step)
    requires step.event.Cancelled? && Agrees(w, a) && Possible(w, step)
    ensures Agrees(Next(w, step), Entered(a, w, step))
  {
    var id, scope, confirmed := step.event.id, step.event.scope, step.event.confirmed;
    PlaybackExactly(step.stage, w.desk, id, step.at);
    if IsCurrent(step.stage, w.desk, id, step.at) && scope == step.stage.scope {
      CancelGives(step.stage, w.desk, a, id, confirmed, step.at);
      hide CancelUnconfirmed, AfterCancel;
      assert Next(w, step).receipts == w.receipts;
      CancelKeepsHeard(a, w.desk, id, confirmed, step.at);
      hide RowsAgree, CommandsAgree, IsCurrent;
    } else {
      NothingCancelled(step.stage, w.desk, scope, id, confirmed, step.at);
      hide CancelUnconfirmed, IsCurrent, RowsAgree, CommandsAgree;
    }
  }

  lemma CancelKeepsHeard(a: Account, desk: Desk, id: nat, confirmed: set<string>, now: real)
    requires id in a.orders
    ensures var b := AfterCancel(a, desk, id, confirmed, now); b.heard == a.heard && b.probes == a.probes
  {
  }

  /** A cancellation of anything but the current command of the current scope changes nothing. */
  lemma NothingCancelled(stage: Stage, desk: Desk, scope: Scope, id: nat, confirmed: set<string>, now: real)
    requires !(IsCurrent(stage, desk, id, now) && scope == stage.scope)
    ensures CancelUnconfirmed(stage, desk, scope, id, confirmed, now) == desk
  {
    PlaybackExactly(stage, desk, id, now);
    hide Playback;
  }

  lemma RecoveryGives(stage: Stage, desk: Desk, a: Account, scope: Scope, now: real)
    requires RowsAgree(desk, a) && CommandsAgree(desk, a) && stage.scope == scope && stage.intro
    ensures var after, b := Recover(stage, desk, scope, now).0, AfterRecovery(a, desk, scope, now);
            RowsAgree(after, b) && CommandsAgree(after, b)
  {
    var after, b := Recover(stage, desk, scope, now).0, AfterRecovery(a, desk, scope, now);
    forall d | d in after.displays ensures RowIs(after.displays[d], b, d) {
      assert RowIs(desk.displays[d], a, d);
    }
    hide RowIs;
  }

  lemma RecoveryAgrees(w: World, a: Account, step: Step)
    requires step.event.Recovered? && Agrees(w, a) && Possible(w, step)
    ensures Agrees(Next(w, step), Entered(a, w, step))
  {
    var scope := step.event.recovered;
    if scope == step.stage.scope && step.stage.intro {
      RecoveryGives(step.stage, w.desk, a, scope, step.at);
    }
    hide RowsAgree, CommandsAgree;
  }

  lemma NextAgrees(w: World, a: Account, step: Step)
    requires Agrees(w, a) && Possible(w, step)
    ensures Agrees(Next(w, step), Entered(a, w, step))
  {
    match step.event
    case Reported(_, _) => ReportAgrees(w, a, step);
    case Recorded(_, _, _) => RecordAgrees(w, a, step);
    case Probed =>
    case Commanded(_, _, _) => CommandAgrees(w, a, step);
    case Cancelled(_, _, _) => CancelAgrees(w, a, step);
    case Recovered(_) => RecoveryAgrees(w, a, step);
  }

  /** In every reachable state the rows, the commands and the receipts are what was reported and asked. */
  lemma {:induction false} TablesAreAsTold(steps: seq<Step>)
    ensures Agrees(Run(START, steps), AccountOf(steps))
  {
    if steps != [] {
      var init, step := steps[..|steps| - 1], steps[|steps| - 1];
      TablesAreAsTold(init);
      hide Agrees, Entered;
      if Possible(Run(START, init), step) {
        NextAgrees(Run(START, init), AccountOf(init), step);
      } else {
        hide Possible;
      }
    }
  }

  /** A row is ready only if its display last said so, on the opening page and in view, and that was not taken back. */
  lemma ReadyRowsSaidSo(steps: seq<Step>, d: string)
    requires d in Run(START, steps).desk.displays && Run(START, steps).desk.displays[d].ready
    ensures var a := AccountOf(steps);
            && d in a.told && d !in a.takenBack
            && var t := a.told[d];
               t.report.active && t.intro && t.report.ready && t.report.status != Hidden
  {
    TablesAreAsTold(steps);
    assert RowIs(Run(START, steps).desk.displays[d], AccountOf(steps), d);
  }

  /** A report that is accepted on the opening page and says so makes its row ready, and only such a report does. */
  lemma ReadyAsReported(stage: Stage, desk: Desk, req: Report, stamp: real)
    requires AudioReport(stage, desk, req, stamp).1 == Accepted
    ensures var row := AudioReport(stage, desk, req, stamp).0.displays[req.displayId];
            && (row.ready ==> req.active && stage.intro && req.ready && req.status != Hidden)
            && (req.active && stage.intro && req.ready && req.status != Hidden && req.commandId == row.commandId ==>
                  row.ready && row.status == req.status && row.expires == stamp + 6.0)
  {
  }

  /** How much longer a command may be started: until it expires or four seconds after its issue, whichever is first. */
  lemma ValidUntil(c: Command, now: real)
    ensures var left := ValidFor(c, now);
            && left >= 0.0 && (left > 0.0 <==> now < c.expires && now < c.issuedAt + 4.0)
            && (left > 0.0 ==> now + left <= c.expires && now + left <= c.issuedAt + 4.0
                               && (now + left == c.expires || now + left == c.issuedAt + 4.0))
  {
  }
}

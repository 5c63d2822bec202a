/** What the audio handlers keep over every run, for any requests at all.

  A run may contain any reports, records, probes, commands, cancellations and
  recoveries, under any sequence of stages. Ticks number the steps of the run, so
  that one step can be said to come after another.
 */
module AudioHistory {
  import opened Wrappers
  import opened AudioDesk
  import Sets

  datatype Event =
    | Reported(report: Report, stamp: real)
    | Recorded(receipt: Report, active: bool, victim: string)
    | Probed
    | Commanded(request: CommandRequest, greetings: map<string, string>, issueStamp: real)
    | Cancelled(scope: Scope, id: nat, confirmed: set<string>)
    | Recovered(recovered: Scope)

  datatype Step = Step(event: Event, stage: Stage, at: real)

  /** A command id as given to one display in one scope. */
  datatype Assignment = Assignment(displayId: string, id: nat, scope: Scope)

  datatype World = World(
    desk: Desk,
    receipts: Receipts,
    clock: real,
    tick: nat,
    /** When probe `n` was issued, at index `n - 1`. */
    probeTicks: seq<nat>,
    /** When the stored receipt of a display was recorded. */
    recordTicks: map<string, nat>,
    /** When the server gave a command to a display. */
    assignTicks: map<Assignment, nat>,
    /** The latest accepted report in which a display said it plays, or played, that command. */
    reportTicks: map<Assignment, nat>,
    /** The ids issued, in order. */
    issued: seq<nat>)

  const START := World(NEW_DESK, NO_RECEIPTS, 0.0, 0, [], map[], map[], map[], [])

  predicate Possible(w: World, step: Step) {
    && w.clock <= step.at
    && match step.event
       case Reported(_, stamp) => stamp <= step.at
       case Commanded(_, _, stamp) => stamp <= step.at
       case Recorded(report, active, victim) => IsVictim(w.receipts, report, active, step.at, victim)
       case _ => true
  }

  function NextReport(w: World, step: Step): World
    requires step.event.Reported?
  {
    var req := step.event.report;
    var (desk, outcome) := AudioReport(step.stage, w.desk, req, step.event.stamp);
    w.(desk := desk,
       reportTicks := if outcome == Accepted && Heard(req.status)
                      then w.reportTicks[Assignment(req.displayId, req.commandId, req.scope) := w.tick]
                      else w.reportTicks)
  }

  function NextRecord(w: World, step: Step): World
    requires step.event.Recorded?
  {
    var req := step.event.receipt;
    var receipts := Record(w.receipts, req, step.event.active, step.at, step.event.victim);
    w.(receipts := receipts,
       recordTicks := if step.event.active && req.probeNo <= w.receipts.probeNo
                      then w.recordTicks[req.displayId := w.tick] else w.recordTicks)
  }

  function VerdictOn(w: World, step: Step): Verdict
    requires step.event.Commanded?
  {
    Judge(step.stage, w.desk, w.receipts, step.event.greetings, step.event.request, step.event.issueStamp, step.at)
  }

  function Assigning(ticks: map<Assignment, nat>, displayIds: set<string>, id: nat, scope: Scope, tick: nat)
    : (after: map<Assignment, nat>)
    ensures forall key :: key in after <==>
      key in ticks || (key.displayId in displayIds && key.id == id && key.scope == scope)
    ensures forall key | key in after ::
      after[key] == if key.displayId in displayIds && key.id == id && key.scope == scope then tick else ticks[key]
  {
    var keys := set d | d in displayIds :: Assignment(d, id, scope);
    ticks + map key | key in keys :: tick
  }

  function AfterIssue(w: World, command: Command): World {
    var id := w.desk.lastId + 1;
    w.(desk := Issue(w.desk, command),
       assignTicks := Assigning(w.assignTicks, command.displayIds, id, command.scope, w.tick),
       issued := w.issued + [id])
  }

  function NextCommand(w: World, step: Step): World
    requires step.event.Commanded?
  {
    var (desk, outcome) := PlaybackCommand(step.stage, w.desk, w.receipts, step.event.greetings, step.event.request,
                                           step.event.issueStamp, step.at);
    if !outcome.Issued? then w.(desk := desk)
    else
      var targets := Targets(step.stage, w.desk, w.receipts, step.event.request, step.at);
      w.(desk := desk, issued := w.issued + [outcome.id],
         assignTicks := Assigning(w.assignTicks, targets, outcome.id, step.event.request.scope, w.tick))
  }

  /** The handler changes something only when it grants a command, and then issues that command. */
  lemma CommandIsGranted(w: World, step: Step)
    requires step.event.Commanded?
    ensures NextCommand(w, step)
         == if VerdictOn(w, step).Grant? then AfterIssue(w, VerdictOn(w, step).command) else w
  {
    hide Judge, Issue, Targets;
    if VerdictOn(w, step).Grant? {
      GrantedCommand(step.stage, w.desk, w.receipts, step.event.greetings, step.event.request,
                     step.event.issueStamp, step.at);
    }
  }

  function Next(w: World, step: Step): World {
    if !Possible(w, step) then w
    else
      var n :=
        match step.event
        case Reported(_, _) => NextReport(w, step)
        case Recorded(_, _, _) => NextRecord(w, step)
        case Probed => w.(receipts := Probe(w.receipts), probeTicks := w.probeTicks + [w.tick])
        case Commanded(_, _, _) => NextCommand(w, step)
        case Cancelled(scope, id, confirmed) =>
          w.(desk := CancelUnconfirmed(step.stage, w.desk, scope, id, confirmed, step.at))
        case Recovered(scope) => w.(desk := Recover(step.stage, w.desk, scope, step.at).0);
      n.(clock := step.at, tick := w.tick + 1)
  }

  function Run(w: World, steps: seq<Step>): World {
    if steps == [] then w else Next(Run(w, steps[..|steps| - 1]), steps[|steps| - 1])
  }

  // ---- A display that is said to have played was told to, and said so itself ----

  ghost predicate RowIsBacked(w: World, d: string, row: AudioRow) {
    row.commandId > 0 ==>
      var key := Assignment(d, row.commandId, row.scope);
      && row.commandId <= w.desk.lastId
      && key in w.assignTicks
      && (Heard(row.status) ==> key in w.reportTicks && w.assignTicks[key] < w.reportTicks[key])
  }

  ghost predicate RowsAreBacked(w: World) {
    && (forall key | key in w.assignTicks :: w.assignTicks[key] < w.tick && key.id <= w.desk.lastId)
    && (forall key | key in w.reportTicks :: w.reportTicks[key] < w.tick)
    && forall d | d in w.desk.displays :: RowIsBacked(w, d, w.desk.displays[d])
  }

  /** Rows only disappear, keep their command and scope, and are heard only if they were before. */
  ghost predicate RowsCarry(before: map<string, AudioRow>, after: map<string, AudioRow>) {
    forall d | d in after ::
      && d in before && after[d].commandId == before[d].commandId && after[d].scope == before[d].scope
      && (Heard(after[d].status) ==> Heard(before[d].status))
  }

  lemma CarriedRowsStayBacked(w: World, n: World)
    requires RowsAreBacked(w) && RowsCarry(w.desk.displays, n.desk.displays)
    requires n.assignTicks == w.assignTicks && n.reportTicks == w.reportTicks
    requires n.desk.lastId == w.desk.lastId && n.tick == w.tick + 1
    ensures RowsAreBacked(n)
  {
    forall d | d in n.desk.displays ensures RowIsBacked(n, d, n.desk.displays[d]) {
      assert RowIsBacked(w, d, w.desk.displays[d]);
    }
  }

  lemma CancelCarriesRows(stage: Stage, desk: Desk, scope: Scope, id: nat, confirmed: set<string>, now: real)
    ensures RowsCarry(desk.displays, CancelUnconfirmed(stage, desk, scope, id, confirmed, now).displays)
    ensures CancelUnconfirmed(stage, desk, scope, id, confirmed, now).lastId == desk.lastId
  {
  }

  /** A report keeps the command of a row, and is heard about it only if it names that command. */
  lemma ReportedRow(stage: Stage, desk: Desk, req: Report, stamp: real, d: string)
    requires d in AudioReport(stage, desk, req, stamp).0.displays
    ensures var (after, outcome) := AudioReport(stage, desk, req, stamp);
            var row := after.displays[d];
            row.commandId > 0 ==>
              && d in desk.displays
              && desk.displays[d].commandId == row.commandId && desk.displays[d].scope == row.scope
              && (Heard(row.status) ==>
                    || Heard(desk.displays[d].status)
                    || (outcome == Accepted && Heard(req.status)
                        && req.displayId == d && req.commandId == row.commandId && req.scope == row.scope))
    ensures AudioReport(stage, desk, req, stamp).0.lastId == desk.lastId
    ensures AudioReport(stage, desk, req, stamp).0.commands == desk.commands
  {
  }

  lemma ReportKeepsRows(w: World, step: Step, n: World)
    requires RowsAreBacked(w) && step.event.Reported?
    requires n == NextReport(w, step).(clock := n.clock, tick := w.tick + 1)
    ensures RowsAreBacked(n)
  {
    var req := step.event.report;
    forall d | d in n.desk.displays ensures RowIsBacked(n, d, n.desk.displays[d]) {
      ReportedRow(step.stage, w.desk, req, step.event.stamp, d);
      if d in w.desk.displays {
        assert RowIsBacked(w, d, w.desk.displays[d]);
      }
    }
  }

  lemma IssueKeepsRows(w: World, command: Command, n: World)
    requires RowsAreBacked(w)
    requires forall d | d in command.displayIds && d in w.desk.displays :: w.desk.displays[d].scope == command.scope
    requires n == AfterIssue(w, command).(clock := n.clock, tick := w.tick + 1)
    ensures RowsAreBacked(n)
  {
    forall d | d in n.desk.displays ensures RowIsBacked(n, d, n.desk.displays[d]) {
      IssuedRow(w, command, n, d);
    }
  }

  lemma IssuedRow(w: World, command: Command, n: World, d: string)
    requires RowsAreBacked(w) && d in w.desk.displays
    requires d in command.displayIds ==> w.desk.displays[d].scope == command.scope
    requires n == AfterIssue(w, command).(clock := n.clock, tick := w.tick + 1)
    ensures RowIsBacked(n, d, n.desk.displays[d])
  {
    var row := w.desk.displays[d];
    assert RowIsBacked(w, d, row);
    if d in command.displayIds {
      assert n.desk.displays[d].commandId == w.desk.lastId + 1 && !Heard(n.desk.displays[d].status);
    } else {
      assert n.desk.displays[d] == row;
    }
  }

  lemma CommandKeepsRows(w: World, step: Step, n: World)
    requires RowsAreBacked(w) && step.event.Commanded?
    requires n == NextCommand(w, step).(clock := n.clock, tick := w.tick + 1)
    ensures RowsAreBacked(n)
  {
    CommandIsGranted(w, step);
    hide RowsAreBacked, NextCommand, PlaybackCommand;
    if VerdictOn(w, step).Grant? {
      GrantedCommand(step.stage, w.desk, w.receipts, step.event.greetings, step.event.request,
                     step.event.issueStamp, step.at);
      IssueKeepsRows(w, VerdictOn(w, step).command, n);
    } else {
      CarriedRowsStayBacked(w, n);
    }
  }

  lemma RecoverCarriesRows(stage: Stage, desk: Desk, scope: Scope, now: real)
    ensures RowsCarry(desk.displays, Recover(stage, desk, scope, now).0.displays)
    ensures Recover(stage, desk, scope, now).0.lastId == desk.lastId
  {
  }

  lemma SameRowsCarry(rows: map<string, AudioRow>)
    ensures RowsCarry(rows, rows)
  {
  }

  /** Records, probes, cancellations and recoveries only carry rows over. */
  lemma OtherStepsKeepRows(w: World, step: Step)
    requires RowsAreBacked(w) && Possible(w, step) && !step.event.Reported? && !step.event.Commanded?
    ensures RowsAreBacked(Next(w, step))
  {
    hide RowsAreBacked, RowsCarry, CancelUnconfirmed, Recover, Record;
    if step.event.Cancelled? {
      CancelCarriesRows(step.stage, w.desk, step.event.scope, step.event.id, step.event.confirmed, step.at);
    } else if step.event.Recovered? {
      RecoverCarriesRows(step.stage, w.desk, step.event.recovered, step.at);
    } else {
      SameRowsCarry(w.desk.displays);
    }
    CarriedRowsStayBacked(w, Next(w, step));
  }

  lemma NextKeepsRows(w: World, step: Step)
    requires RowsAreBacked(w)
    ensures RowsAreBacked(Next(w, step))
  {
    hide RowsAreBacked, NextReport, NextCommand;
    if Possible(w, step) {
      if step.event.Reported? {
        ReportKeepsRows(w, step, Next(w, step));
      } else if step.event.Commanded? {
        CommandKeepsRows(w, step, Next(w, step));
      } else {
        OtherStepsKeepRows(w, step);
      }
    }
  }

  /** In every reachable state: only the server sets a row's command, and only a later report makes it heard. */
  lemma {:induction false} HeardRowsReported(steps: seq<Step>)
    ensures RowsAreBacked(Run(START, steps))
  {
    if steps != [] {
      HeardRowsReported(steps[..|steps| - 1]);
      NextKeepsRows(Run(START, steps[..|steps| - 1]), steps[|steps| - 1]);
    }
  }

  // ---- Probed commands reach only displays that answered the probe ----

  ghost predicate ReceiptsAreTimed(w: World) {
    && |w.probeTicks| == w.receipts.probeNo
    && (forall k | 0 <= k < |w.probeTicks| :: w.probeTicks[k] < w.tick)
    && |w.receipts.reports| <= DISPLAY_LIMIT
    && forall d | d in w.receipts.reports ::
         && w.receipts.reports[d].probeNo <= w.receipts.probeNo
         && d in w.recordTicks
         && forall k | 0 <= k < w.receipts.reports[d].probeNo :: w.probeTicks[k] < w.recordTicks[d]
  }

  lemma RecordStaysBounded(r: Receipts, report: Report, active: bool, now: real, victim: string)
    requires |r.reports| <= DISPLAY_LIMIT
    requires IsVictim(r, report, active, now, victim)
    ensures |Record(r, report, active, now, victim).reports| <= DISPLAY_LIMIT
  {
    var recent := RecentReports(r.reports, now);
    var after := Record(r, report, active, now, victim).reports;
    Sets.SubsetSize(recent.Keys, r.reports.Keys);
    if active && report.probeNo <= r.probeNo {
      if MustEvict(recent, report.displayId) {
        assert after.Keys == recent.Keys - {victim} + {report.displayId};
      } else {
        assert after.Keys == recent.Keys + {report.displayId};
      }
    } else {
      Sets.SubsetSize(after.Keys, recent.Keys);
    }
  }

  lemma RecordKeepsTimed(w: World, step: Step, n: World)
    requires ReceiptsAreTimed(w) && step.event.Recorded? && Possible(w, step)
    requires n == NextRecord(w, step).(clock := n.clock, tick := w.tick + 1)
    ensures ReceiptsAreTimed(n)
  {
    RecordStaysBounded(w.receipts, step.event.receipt, step.event.active, step.at, step.event.victim);
    forall d | d in n.receipts.reports
      ensures d in n.recordTicks
      ensures (d in w.receipts.reports && n.receipts.reports[d] == w.receipts.reports[d]
               && n.recordTicks[d] == w.recordTicks[d])
           || (n.receipts.reports[d].probeNo <= w.receipts.probeNo && n.recordTicks[d] == w.tick)
    {
    }
  }

  lemma UntouchedReceipts(w: World, n: World)
    requires ReceiptsAreTimed(w) && n.recordTicks == w.recordTicks && n.tick == w.tick + 1
    requires n.receipts.reports == w.receipts.reports
    requires n.receipts.probeNo == |n.probeTicks|
    requires n.probeTicks == w.probeTicks || n.probeTicks == w.probeTicks + [w.tick]
    ensures ReceiptsAreTimed(n)
  {
  }

  lemma OtherStepsOnReceipts(w: World, step: Step)
    requires Possible(w, step) && !step.event.Recorded?
    ensures var n := Next(w, step);
            && n.recordTicks == w.recordTicks && n.tick == w.tick + 1 && n.receipts.reports == w.receipts.reports
            && if step.event.Probed? then n.receipts.probeNo == w.receipts.probeNo + 1
                && n.probeTicks == w.probeTicks + [w.tick]
               else n.receipts.probeNo == w.receipts.probeNo && n.probeTicks == w.probeTicks
  {
  }

  lemma NextKeepsReceiptsTimed(w: World, step: Step)
    requires ReceiptsAreTimed(w)
    ensures ReceiptsAreTimed(Next(w, step))
  {
    if Possible(w, step) {
      if step.event.Recorded? {
        RecordKeepsTimed(w, step, Next(w, step));
      } else {
        OtherStepsOnReceipts(w, step);
        UntouchedReceipts(w, Next(w, step));
      }
    }
  }

  /** At most 512 receipts, and none ahead of the probe counter, in every reachable state. */
  lemma {:induction false} ReceiptsStayTimed(steps: seq<Step>)
    ensures ReceiptsAreTimed(Run(START, steps))
  {
    if steps != [] {
      ReceiptsStayTimed(steps[..|steps| - 1]);
      NextKeepsReceiptsTimed(Run(START, steps[..|steps| - 1]), steps[|steps| - 1]);
    }
  }

  /** A `play` sent with probe `n` goes only to ready displays of the scope whose receipt is younger than the probe. */
  lemma ProbedTargetsAnswered(steps: seq<Step>, stage: Stage, greetings: map<string, string>, req: CommandRequest,
                              stamp: real, now: real, d: string)
    requires req.operation == Play && req.probeNo > 0
    requires var w := Run(START, steps);
             PlaybackCommand(stage, w.desk, w.receipts, greetings, req, stamp, now).1.Issued?
    requires var w := Run(START, steps);
             var id := PlaybackCommand(stage, w.desk, w.receipts, greetings, req, stamp, now).1.id;
             d in Targets(stage, w.desk, w.receipts, req, now)
    ensures var w := Run(START, steps);
            && d in w.desk.displays && w.desk.displays[d].ready
            && w.desk.displays[d].scope == req.scope && w.desk.displays[d].expires > now
            && d in w.receipts.reports && w.receipts.reports[d].scope == req.scope
            && req.probeNo <= |w.probeTicks| && d in w.recordTicks
            && w.probeTicks[req.probeNo - 1] < w.recordTicks[d]
  {
    ReceiptsStayTimed(steps);
  }

  // ---- The command table ----

  /** The `COMMAND_LIMIT` most recent ids, or all of them. */
  ghost predicate IsRecent(desk: Desk, id: nat) {
    1 <= id <= desk.lastId < id + COMMAND_LIMIT
  }

  ghost predicate DistinctRequests(commands: map<nat, Command>) {
    forall i, j | i in commands && j in commands && i != j :: commands[i].requestId != commands[j].requestId
  }

  ghost predicate TableIsRecent(w: World) {
    && |w.issued| == w.desk.lastId
    && (forall k | 0 <= k < |w.issued| :: w.issued[k] == k + 1)
    && (forall id: nat :: id in w.desk.commands <==> IsRecent(w.desk, id))
    && DistinctRequests(w.desk.commands)
  }

  lemma {:induction false} IntervalSize(s: set<nat>, low: nat, high: nat)
    requires low <= high && forall i: nat :: i in s <==> low < i <= high
    ensures |s| == high - low
  {
    if low == high {
      assert s == {};
    } else {
      IntervalSize(s - {high}, low, high - 1);
    }
  }

  lemma TrimKeepsRecent(desk: Desk, commands: map<nat, Command>)
    requires forall id: nat :: id in desk.commands <==> IsRecent(desk, id)
    requires commands.Keys == desk.commands.Keys + {desk.lastId + 1}
    ensures forall id: nat :: id in Newest(commands) <==> 1 <= id <= desk.lastId + 1 < id + COMMAND_LIMIT
  {
    var last := desk.lastId + 1;
    forall id: nat | id in commands ensures CountAbove(commands, id) == last - id {
      assert commands.Keys == desk.commands.Keys + {last};
      var above := set other | other in commands && other > id;
      IntervalSize(above, id, last);
    }
  }

  lemma RequestsStayDistinct(commands: map<nat, Command>, id: nat, command: Command)
    requires DistinctRequests(commands) && id !in commands
    requires forall i | i in commands :: commands[i].requestId != command.requestId
    ensures DistinctRequests(Newest(commands[id := command]))
  {
    hide CountAbove;
    var all := commands[id := command];
    assert forall i | i in Newest(all) :: i in all && Newest(all)[i] == all[i];
  }

  lemma IssueKeepsTable(w: World, command: Command, n: World)
    requires TableIsRecent(w)
    requires forall id | id in w.desk.commands :: w.desk.commands[id].requestId != command.requestId
    requires n == AfterIssue(w, command).(clock := n.clock, tick := n.tick)
    ensures TableIsRecent(n)
  {
    TrimKeepsRecent(w.desk, w.desk.commands[w.desk.lastId + 1 := command]);
    RequestsStayDistinct(w.desk.commands, w.desk.lastId + 1, command);
    hide DistinctRequests, Newest, Assign, Assigning;
  }

  lemma CommandKeepsTable(w: World, step: Step, n: World)
    requires TableIsRecent(w) && step.event.Commanded?
    requires n == NextCommand(w, step).(clock := n.clock, tick := n.tick)
    ensures TableIsRecent(n)
  {
    CommandIsGranted(w, step);
    hide TableIsRecent, NextCommand;
    if VerdictOn(w, step).Grant? {
      GrantedCommand(step.stage, w.desk, w.receipts, step.event.greetings, step.event.request,
                     step.event.issueStamp, step.at);
      IssueKeepsTable(w, VerdictOn(w, step).command, n);
    }
  }

  lemma CancelKeepsIds(stage: Stage, desk: Desk, scope: Scope, id: nat, confirmed: set<string>, now: real)
    ensures var after := CancelUnconfirmed(stage, desk, scope, id, confirmed, now);
            && after.commands.Keys == desk.commands.Keys && after.lastId == desk.lastId
            && forall i | i in after.commands ::
                 && after.commands[i].requestId == desk.commands[i].requestId
                 && (after.commands[i].expires == desk.commands[i].expires || after.commands[i].expires == now - 1.0)
  {
    PlaybackIsNewest(stage, desk, now);
  }

  lemma UntouchedIds(w: World, n: World)
    requires TableIsRecent(w) && n.issued == w.issued && n.desk.lastId == w.desk.lastId
    requires n.desk.commands.Keys == w.desk.commands.Keys
    requires forall id | id in w.desk.commands :: n.desk.commands[id].requestId == w.desk.commands[id].requestId
    ensures TableIsRecent(n)
  {
  }

  lemma OtherStepsKeepTable(w: World, step: Step)
    requires TableIsRecent(w) && Possible(w, step) && !step.event.Commanded?
    ensures TableIsRecent(Next(w, step))
  {
    if step.event.Cancelled? {
      CancelKeepsIds(step.stage, w.desk, step.event.scope, step.event.id, step.event.confirmed, step.at);
    }
    hide TableIsRecent, CancelUnconfirmed, Record, KeepRows, RecentReports;
    UntouchedIds(w, Next(w, step));
  }

  lemma NextKeepsTable(w: World, step: Step)
    requires TableIsRecent(w)
    ensures TableIsRecent(Next(w, step))
  {
    hide TableIsRecent, NextCommand;
    if Possible(w, step) {
      if step.event.Commanded? {
        CommandKeepsTable(w, step, Next(w, step));
      } else {
        OtherStepsKeepTable(w, step);
      }
    }
  }

  /** Ids are issued as 1, 2, 3, ... and the table holds exactly the latest 128 of them, with distinct request ids. */
  lemma {:induction false} TableStaysRecent(steps: seq<Step>)
    ensures TableIsRecent(Run(START, steps))
  {
    if steps != [] {
      TableStaysRecent(steps[..|steps| - 1]);
      NextKeepsTable(Run(START, steps[..|steps| - 1]), steps[|steps| - 1]);
    }
  }

  /** Sending a retained request again, in its scope, changes nothing and returns the original id. */
  lemma ReplayReturnsOriginal(steps: seq<Step>, stage: Stage, greetings: map<string, string>, req: CommandRequest,
                              stamp: real, now: real, id: nat)
    requires stage.published && stage.scope == req.scope
    requires var desk := Run(START, steps).desk;
             && id in desk.commands && desk.commands[id].requestId == req.requestId
             && desk.commands[id].scope == req.scope
    ensures var w := Run(START, steps);
            var same := w.desk.commands[id].operation == req.operation
                        && w.desk.commands[id].participantId == req.participantId;
            PlaybackCommand(stage, w.desk, w.receipts, greetings, req, stamp, now)
            == (w.desk, if same then Duplicate(id) else Rejected(409))
  {
    TableStaysRecent(steps);
    var desk := Run(START, steps).desk;
    RequestIsFound(desk, req.requestId, desk.lastId);
  }

  /** The command is gone, or has expired. */
  ghost predicate Spent(w: World, id: nat) {
    1 <= id <= w.desk.lastId && (id in w.desk.commands ==> w.desk.commands[id].expires <= w.clock)
  }

  lemma CommandKeepsSpent(w: World, step: Step, id: nat)
    requires Spent(w, id) && Possible(w, step) && step.event.Commanded?
    ensures Spent(Next(w, step), id)
  {
    CommandIsGranted(w, step);
    hide NextCommand, Judge;
  }

  lemma NextKeepsSpent(w: World, step: Step, id: nat)
    requires Spent(w, id)
    ensures Spent(Next(w, step), id)
  {
    if Possible(w, step) {
      if step.event.Commanded? {
        CommandKeepsSpent(w, step, id);
        hide NextCommand;
      } else if step.event.Cancelled? {
        CancelKeepsIds(step.stage, w.desk, step.event.scope, step.event.id, step.event.confirmed, step.at);
        hide CancelUnconfirmed;
      }
    }
  }

  /** An expired command is never offered to a display again. */
  lemma {:induction false} ExpiredIsNeverPlayedBack(w: World, steps: seq<Step>, id: nat, stage: Stage, now: real)
    requires Spent(w, id) && Run(w, steps).clock <= now
    ensures Spent(Run(w, steps), id) && Playback(stage, Run(w, steps).desk, now) != Some(id)
    decreases |steps|
  {
    if steps != [] {
      ClockNeverRunsBack(Run(w, steps[..|steps| - 1]), steps[|steps| - 1]);
      ExpiredIsNeverPlayedBack(w, steps[..|steps| - 1], id, stage, now);
      NextKeepsSpent(Run(w, steps[..|steps| - 1]), steps[|steps| - 1], id);
    }
  }

  lemma ClockNeverRunsBack(w: World, step: Step)
    ensures w.clock <= Next(w, step).clock
  {
  }
}

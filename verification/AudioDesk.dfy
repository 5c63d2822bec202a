/** The audio tables of apps/showcase/app.py and the receipts of apps/showcase/audio_events.py.

  Every function is one handler body, run as one transaction on the tables. The
  handlers read the current round only through `Stage`. Lists of displays are
  sets here: the order of a display list is never used.
 */
module AudioDesk {
  import opened Wrappers

  datatype Status = Idle | Playing | Ended | Blocked | Error | Hidden

  /** The display plays, or has played to the end. */
  predicate Heard(status: Status) {
    status == Playing || status == Ended
  }

  datatype Operation = Play | Stop

  /** Round and publication epoch: what a page, a report and a command belong to. */
  datatype Scope = Scope(roundId: string, epoch: string)

  /** The current round as the audio handlers see it; the epoch is `""` while nothing is published. */
  datatype Stage = Stage(scope: Scope, published: bool, intro: bool)

  datatype AudioRow = AudioRow(
    scope: Scope,
    sequence: nat,
    expires: real,
    updatedAt: real,
    ready: bool,
    status: Status,
    commandId: nat,
    keyHash: string)

  datatype Command = Command(
    requestId: string,
    scope: Scope,
    operation: Operation,
    participantId: string,
    url: string,
    displayIds: set<string>,
    issuedAt: real,
    expires: real)

  /** `lastId` is the AUTOINCREMENT counter: ids are never used twice. */
  datatype Desk = Desk(displays: map<string, AudioRow>, commands: map<nat, Command>, lastId: nat)

  const NEW_DESK := Desk(map[], map[], 0)

  const LEASE_SECONDS := 6.0
  const HIDDEN_SECONDS := 90.0
  const COMMAND_SECONDS := 20.0
  const EXECUTION_SECONDS := 4.0
  const DISPLAY_LIMIT := 512
  const COMMAND_LIMIT := 128

  // ---- Receipts ----

  datatype Receipt = Receipt(at: real, scope: Scope, probeNo: nat, commandId: nat, status: Status)

  datatype Receipts = Receipts(probeNo: nat, reports: map<string, Receipt>)

  const NO_RECEIPTS := Receipts(0, map[])

  datatype Report = Report(
    displayId: string,
    keyHash: string,
    scope: Scope,
    sequence: nat,
    active: bool,
    probeNo: nat,
    ready: bool,
    status: Status,
    commandId: nat)

  function Probe(r: Receipts): Receipts {
    r.(probeNo := r.probeNo + 1)
  }

  function RecentReports(reports: map<string, Receipt>, now: real): map<string, Receipt> {
    map d | d in reports && reports[d].at > now - HIDDEN_SECONDS :: reports[d]
  }

  predicate IsOldest(reports: map<string, Receipt>, victim: string) {
    victim in reports && forall d | d in reports :: reports[victim].at <= reports[d].at
  }

  predicate MustEvict(reports: map<string, Receipt>, displayId: string) {
    |reports| >= DISPLAY_LIMIT && displayId !in reports
  }

  /** `victim` may go: `record` evicts nothing, or an oldest receipt. */
  predicate IsVictim(r: Receipts, report: Report, active: bool, now: real, victim: string) {
    var recent := RecentReports(r.reports, now);
    active && report.probeNo <= r.probeNo && MustEvict(recent, report.displayId) ==> IsOldest(recent, victim)
  }

  /** `AudioReceipts.record`; `victim` is an oldest receipt, dropped when the table is full. */
  function Record(r: Receipts, report: Report, active: bool, now: real, victim: string): Receipts {
    var recent := RecentReports(r.reports, now);
    if !active then r.(reports := recent - {report.displayId})
    else if report.probeNo > r.probeNo then r.(reports := recent)
    else
      var room := if MustEvict(recent, report.displayId) then recent - {victim} else recent;
      r.(reports := room[report.displayId :=
        Receipt(now, report.scope, report.probeNo, report.commandId, report.status)])
  }

  predicate FreshReceipt(r: Receipts, displayId: string, scope: Scope, probeNo: nat) {
    displayId in r.reports && r.reports[displayId].scope == scope
    && 0 < probeNo <= r.reports[displayId].probeNo <= r.probeNo
  }

  predicate Confirms(r: Receipts, displayId: string, scope: Scope, commandId: nat, operation: Operation) {
    displayId in r.reports && r.reports[displayId].scope == scope && r.reports[displayId].commandId == commandId
    && match operation
       case Play => Heard(r.reports[displayId].status)
       case Stop => r.reports[displayId].status != Playing
  }

  // ---- Queries ----

  /** `Store.audio_displays`. */
  function LiveDisplays(stage: Stage, desk: Desk, now: real): set<string> {
    if !stage.intro then {}
    else set d | d in desk.displays && desk.displays[d].scope == stage.scope && desk.displays[d].expires > now
  }

  /** The newest retained command of a scope with an id of at most `n`. */
  function NewestUpTo(desk: Desk, scope: Scope, n: nat): Option<nat> {
    if n == 0 then None
    else if n in desk.commands && desk.commands[n].scope == scope then Some(n)
    else NewestUpTo(desk, scope, n - 1)
  }

  /** `Store.playback`: the id of the command displays should execute. */
  function Playback(stage: Stage, desk: Desk, now: real): Option<nat> {
    if !stage.intro then None
    else
      var newest := NewestUpTo(desk, stage.scope, desk.lastId);
      if newest.Some? && newest.value in desk.commands && desk.commands[newest.value].expires > now
      then newest else None
  }

  function Min(a: real, b: real): real {
    if a <= b then a else b
  }

  /** How much longer a display may start the command: `valid_for_seconds`. */
  function ValidFor(command: Command, now: real): real {
    var left := Min(command.expires, command.issuedAt + EXECUTION_SECONDS) - now;
    if left < 0.0 then 0.0 else left
  }

  // ---- Handlers ----

  datatype Outcome = Accepted | Stale | Refused(code: nat)

  function KeepRows(displays: map<string, AudioRow>, since: real): map<string, AudioRow> {
    map d | d in displays && displays[d].updatedAt >= since :: displays[d]
  }

  /** The command the server has given this display, if the row belongs to the current scope. */
  function Assigned(rows: map<string, AudioRow>, displayId: string, scope: Scope): nat {
    if displayId in rows && rows[displayId].scope == scope then rows[displayId].commandId else 0
  }

  function ReportedStatus(rows: map<string, AudioRow>, req: Report, given: nat): Status {
    if req.status == Hidden then Hidden
    else if req.commandId == given then req.status
    else if req.displayId in rows && given != 0 then rows[req.displayId].status
    else Idle
  }

  /** `POST /api/audio-display`; `stamp` is the clock read before the lock. */
  function AudioReport(stage: Stage, desk: Desk, req: Report, stamp: real): (Desk, Outcome) {
    var rows := KeepRows(desk.displays, stamp - HIDDEN_SECONDS);
    var known := req.displayId in rows;
    if req.scope.epoch == "" then (desk, Refused(422))
    else if req.scope != stage.scope then (desk, Refused(409))
    else if known && rows[req.displayId].keyHash != req.keyHash then (desk, Refused(403))
    else if known && req.sequence <= rows[req.displayId].sequence then (desk.(displays := rows), Stale)
    else if !known && |rows| >= DISPLAY_LIMIT then (desk, Refused(429))
    else
      var active := req.active && stage.intro;
      var given := Assigned(rows, req.displayId, stage.scope);
      var status := ReportedStatus(rows, req, given);
      var lease := if req.status == Hidden then HIDDEN_SECONDS else LEASE_SECONDS;
      var row := AudioRow(stage.scope, req.sequence, if active then stamp + lease else 0.0, stamp,
                          active && req.ready && status != Hidden, if active then status else Idle,
                          given, req.keyHash);
      (desk.(displays := rows[req.displayId := row]), Accepted)
  }

  datatype CommandRequest = CommandRequest(
    probeNo: nat, scope: Scope, requestId: string, operation: Operation, participantId: string)

  datatype CommandOutcome = Issued(id: nat) | Duplicate(id: nat) | Rejected(code: nat)

  function RequestUpTo(desk: Desk, requestId: string, n: nat): Option<nat> {
    if n == 0 then None
    else if n in desk.commands && desk.commands[n].requestId == requestId then Some(n)
    else RequestUpTo(desk, requestId, n - 1)
  }

  /** The display is ready and, if there was a probe, has answered it. */
  predicate CanPlay(displays: map<string, AudioRow>, receipts: Receipts, d: string, scope: Scope, probeNo: nat) {
    d in displays && displays[d].ready && (probeNo == 0 || FreshReceipt(receipts, d, scope, probeNo))
  }

  /** Who a command goes to: for `play`, live displays that are ready and answered the probe, if there was one. */
  function Targets(stage: Stage, desk: Desk, receipts: Receipts, req: CommandRequest, now: real): set<string> {
    var live := LiveDisplays(stage, desk, now);
    if req.operation == Stop then live
    else set d | d in live && CanPlay(desk.displays, receipts, d, stage.scope, req.probeNo)
  }

  function Assign(displays: map<string, AudioRow>, targets: set<string>, id: nat): map<string, AudioRow> {
    map d | d in displays ::
      if d in targets
      then displays[d].(commandId := id, status := if displays[d].status == Hidden then Hidden else Idle)
      else displays[d]
  }

  function CountAbove(commands: map<nat, Command>, id: nat): nat {
    |set other | other in commands && other > id|
  }

  /** `... WHERE id NOT IN (SELECT id ... ORDER BY id DESC LIMIT 128)` is deleted. */
  function Newest(commands: map<nat, Command>): map<nat, Command> {
    map id | id in commands && CountAbove(commands, id) < COMMAND_LIMIT :: commands[id]
  }

  datatype Verdict = Reject(code: nat) | Repeat(id: nat) | Grant(command: Command)

  /** What `playback_command` decides; `greetings` gives the address of each available recording. */
  function Judge(stage: Stage, desk: Desk, receipts: Receipts, greetings: map<string, string>,
                 req: CommandRequest, stamp: real, now: real): Verdict {
    if !stage.published || req.scope != stage.scope then Reject(409)
    else
      var previous := RequestUpTo(desk, req.requestId, desk.lastId);
      if previous.Some? && previous.value in desk.commands then
        var earlier := desk.commands[previous.value];
        if earlier.scope != stage.scope || earlier.operation != req.operation
           || earlier.participantId != req.participantId
        then Reject(409)
        else Repeat(previous.value)
      else
        var targets := Targets(stage, desk, receipts, req, now);
        if req.operation == Play && (!stage.intro || req.participantId !in greetings || targets == {})
        then Reject(409)
        else
          var url := if req.operation == Play then greetings[req.participantId] else "";
          Grant(Command(req.requestId, stage.scope, req.operation, req.participantId, url, targets,
                        stamp, stamp + COMMAND_SECONDS))
  }

  /** Insert the command under the next id, give it to its targets, and trim the table. */
  function Issue(desk: Desk, command: Command): Desk {
    var id := desk.lastId + 1;
    Desk(Assign(desk.displays, command.displayIds, id), Newest(desk.commands[id := command]), id)
  }

  /** `POST /api/admin/playback`. */
  function PlaybackCommand(stage: Stage, desk: Desk, receipts: Receipts, greetings: map<string, string>,
                           req: CommandRequest, stamp: real, now: real): (Desk, CommandOutcome) {
    match Judge(stage, desk, receipts, greetings, req, stamp, now)
    case Reject(code) => (desk, Rejected(code))
    case Repeat(id) => (desk, Duplicate(id))
    case Grant(command) => (Issue(desk, command), Issued(desk.lastId + 1))
  }

  /** `cancel_unconfirmed`: keep the confirmed displays, or expire the command when there are none. */
  function CancelUnconfirmed(stage: Stage, desk: Desk, scope: Scope, id: nat, confirmed: set<string>, now: real): Desk {
    if Playback(stage, desk, now) != Some(id) || desk.commands[id].scope != scope then desk
    else
      var command := desk.commands[id];
      var dropped := command.displayIds - confirmed;
      Desk(map d | d in desk.displays ::
             if d in dropped && desk.displays[d].commandId == id
             then desk.displays[d].(ready := false, status := Error) else desk.displays[d],
           desk.commands[id := if confirmed != {} then command.(displayIds := confirmed)
                               else command.(expires := now - 1.0)],
           desk.lastId)
  }

  /** `POST /api/admin/audio-recover`. */
  function Recover(stage: Stage, desk: Desk, scope: Scope, now: real): (Desk, Outcome) {
    if stage.scope != scope || !stage.intro then (desk, Refused(409))
    else
      (desk.(commands := map id | id in desk.commands ::
               if desk.commands[id].scope == scope then desk.commands[id].(expires := now - 1.0)
               else desk.commands[id],
             displays := map d | d in desk.displays ::
               if desk.displays[d].scope == scope then desk.displays[d].(ready := false) else desk.displays[d]),
       Accepted)
  }

  // ---- Facts about single handlers ----

  lemma {:induction false} NewestIsInScope(desk: Desk, scope: Scope, n: nat)
    ensures var newest := NewestUpTo(desk, scope, n);
            && (newest.Some? ==> 0 < newest.value <= n && newest.value in desk.commands
                                 && desk.commands[newest.value].scope == scope)
            && forall id | id in desk.commands && 0 < id <= n && desk.commands[id].scope == scope ::
                 newest.Some? && id <= newest.value
  {
    if n > 0 && !(n in desk.commands && desk.commands[n].scope == scope) {
      NewestIsInScope(desk, scope, n - 1);
    }
  }

  /** What `playback` returns is the newest command of the current scope, and it has not expired. */
  lemma PlaybackIsNewest(stage: Stage, desk: Desk, now: real)
    ensures var current := Playback(stage, desk, now);
            current.Some? ==>
              && stage.intro && current.value in desk.commands
              && desk.commands[current.value].scope == stage.scope && desk.commands[current.value].expires > now
              && forall id | id in desk.commands && 0 < id <= desk.lastId && desk.commands[id].scope == stage.scope ::
                   id <= current.value
  {
    NewestIsInScope(desk, stage.scope, desk.lastId);
  }

  lemma {:induction false} RequestIsFound(desk: Desk, requestId: string, n: nat)
    ensures var found := RequestUpTo(desk, requestId, n);
            && (found.Some? ==> 0 < found.value <= n && found.value in desk.commands
                                && desk.commands[found.value].requestId == requestId)
            && (found.None? ==>
                forall id | id in desk.commands && 0 < id <= n :: desk.commands[id].requestId != requestId)
  {
    if n > 0 && !(n in desk.commands && desk.commands[n].requestId == requestId) {
      RequestIsFound(desk, requestId, n - 1);
    }
  }

  /** A granted command is new, belongs to the current scope, and goes to live displays of that scope. */
  lemma GrantedCommand(stage: Stage, desk: Desk, receipts: Receipts, greetings: map<string, string>,
                       req: CommandRequest, stamp: real, now: real)
    requires Judge(stage, desk, receipts, greetings, req, stamp, now).Grant?
    ensures var command := Judge(stage, desk, receipts, greetings, req, stamp, now).command;
            && command.requestId == req.requestId && command.operation == req.operation
            && command.scope == req.scope == stage.scope
            && command.issuedAt == stamp && command.expires == stamp + COMMAND_SECONDS
            && command.displayIds == Targets(stage, desk, receipts, req, now)
            && command.displayIds <= LiveDisplays(stage, desk, now)
            && forall id | id in desk.commands && 0 < id <= desk.lastId ::
                 desk.commands[id].requestId != req.requestId
  {
    RequestIsFound(desk, req.requestId, desk.lastId);
  }
}

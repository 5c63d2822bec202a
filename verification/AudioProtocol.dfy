/** The whole audio protocol: the server, its confirm handlers, and any number of pages that follow screen.js.

  Messages are never taken out of the network, so each may be lost, delayed,
  reordered or delivered again. Time passes only by `Elapse`. A page's clock
  differs from the server's by a constant. `Story` records what happened; no step
  reads it, except that random display ids are never drawn twice and a confirmation
  is requested only for a command that has been issued (control.js sends it after
  the playback response).
 */
module AudioProtocol {
  import opened Wrappers
  import opened AudioDesk
  import opened ScreenPage

  datatype Site = Site(page: Page, offset: real)

  /** A report on its way, with what its continuation in the page closes over; `sent` is the step that sent it. */
  datatype Msg = Msg(
    site: nat, report: Report, state: StateView, maintaining: bool, started: real, offset: real, soundOn: bool,
    sent: nat)

  datatype Answer = Answer(msg: Msg, playback: Option<PlaybackView>)

  /** An accepted report whose receipt is recorded after the transaction. */
  datatype Acceptance = Acceptance(msg: Msg, active: bool)

  datatype Net = Net(
    states: set<StateView>,
    msgs: set<Msg>,
    answers: set<Answer>,
    accepted: set<Acceptance>,
    recorded: map<string, Msg>)

  datatype Server = Server(revision: nat, stage: Stage, desk: Desk, receipts: Receipts)

  /** One `audio_confirm` request. */
  datatype Phase =
    | Looking
    | Judging(found: Option<Command>, current: Option<nat>)
    | Dropping(command: Command, confirmed: set<string>)

  datatype Waiter = Waiter(scope: Scope, id: nat, deadline: real, phase: Phase)

  // ---- What happened ----

  datatype Key = Key(displayId: string, id: nat, scope: Scope)

  datatype Issuance = Issuance(scope: Scope, operation: Operation, targets: set<string>, at: real, tick: nat)

  datatype Execution = Execution(site: nat, key: Key, at: real, tick: nat)

  datatype Drop = Drop(id: nat, at: real)

  /** An answer `acknowledged: true`: of `targets`, the command's displays just then, `confirmed` have confirmed. */
  datatype Ack = Ack(
    id: nat, scope: Scope, operation: Operation, targets: set<string>, confirmed: set<string>, at: real)

  datatype Story = Story(
    issues: map<nat, Issuance>,
    /** When a page drew a random display id. */
    drawn: map<string, nat>,
    /** When a display id first had a report accepted. */
    registered: map<string, nat>,
    executions: set<Execution>,
    /** How each display first executed a command of a scope, and for which the sound was started. */
    executed: map<Key, Execution>,
    sounded: set<Key>,
    drops: set<Drop>,
    acks: set<Ack>)

  datatype System = System(
    clock: real,
    tick: nat,
    server: Server,
    sites: map<nat, Site>,
    net: Net,
    waiters: map<nat, Waiter>,
    story: Story)

  const CONFIRM_SECONDS := 4.0

  const DARK := Stage(Scope("", ""), false, false)

  const START := System(
    0.0, 0, Server(0, DARK, NEW_DESK, NO_RECEIPTS), map[], Net({}, {}, {}, {}, map[]), map[],
    Story(map[], map[], map[], {}, map[], {}, {}, {}))

  datatype Label =
    | Elapse(at: real)
    | Restage(stage: Stage)
    | ServeState
    | Open(n: nat, displayId: string, key: string, offset: real)
    | Arrive(n: nat, state: StateView, recovery: bool, recoveryId: string, freshId: string)
    | Visit(n: nat, freshId: string)
    | Leave(n: nat, freshId: string)
    | Around(n: nat, surroundings: Surroundings)
    | EndSound(n: nat)
    | Hear(answer: Answer, hasBuffer: bool, starts: bool)
    | Lose(msg: Msg, freshId: string)
    | Deliver(msg: Msg, stamp: real)
    | Receive(acceptance: Acceptance, victim: string)
    | ProbeAll
    | Operate(request: CommandRequest, greetings: map<string, string>, stamp: real)
    | Confirm(w: nat, scope: Scope, id: nat)
    | Look(w: nat)
    | Evaluate(w: nat)
    | Cancel(w: nat)
    | Reconnect(scope: Scope)

  predicate Fresh(s: System, ids: set<string>) {
    ids !! s.story.drawn.Keys
  }

  predicate Enabled(s: System, l: Label) {
    match l
    case Elapse(at) => s.clock <= at
    case Open(n, displayId, _, _) => n !in s.sites && Fresh(s, {displayId})
    case Arrive(n, state, _, recoveryId, freshId) =>
      n in s.sites && state in s.net.states && recoveryId != freshId && Fresh(s, {recoveryId, freshId})
    case Visit(n, freshId) => n in s.sites && s.sites[n].page.latest.Some? && Fresh(s, {freshId})
    case Leave(n, freshId) => n in s.sites && Fresh(s, {freshId})
    case Around(n, _) => n in s.sites
    case EndSound(n) => n in s.sites && s.sites[n].page.sound.Some?
    case Hear(answer, _, _) => answer in s.net.answers && answer.msg.report.active && answer.msg.site in s.sites
    case Lose(msg, freshId) => msg in s.net.msgs && msg.report.active && msg.site in s.sites && Fresh(s, {freshId})
    case Deliver(msg, stamp) => msg in s.net.msgs && stamp <= s.clock
    case Receive(acceptance, victim) =>
      acceptance in s.net.accepted
      && IsVictim(s.server.receipts, acceptance.msg.report, acceptance.active, s.clock, victim)
    case Operate(_, _, stamp) => stamp <= s.clock
    case Confirm(w, _, id) => w !in s.waiters && id in s.story.issues
    case Look(w) => w in s.waiters && s.waiters[w].phase.Looking?
    case Evaluate(w) => w in s.waiters && s.waiters[w].phase.Judging?
    case Cancel(w) => w in s.waiters && s.waiters[w].phase.Dropping?
    case _ => true
  }

  // ---- Steps of a page ----

  function Draw(story: Story, ids: set<string>, tick: nat): Story {
    story.(drawn := story.drawn + map d | d in ids :: tick)
  }

  function Outgoing(s: System, n: nat, report: Option<Report>, state: StateView, maintaining: bool, soundOn: bool)
    : set<Msg>
    requires n in s.sites
  {
    if report.None? then {}
    else
      var offset := s.sites[n].offset;
      {Msg(n, report.value, state, maintaining, s.clock + offset, offset, soundOn, s.tick)}
  }

  function PageMoved(s: System, n: nat, page: Page, msgs: set<Msg>, story: Story): System
    requires n in s.sites
  {
    s.(sites := s.sites[n := s.sites[n].(page := page)], net := s.net.(msgs := s.net.msgs + msgs), story := story)
  }

  function DoOpen(s: System, n: nat, displayId: string, key: string, offset: real): System {
    s.(sites := s.sites[n := Site(NewPage(displayId, key), offset)], story := Draw(s.story, {displayId}, s.tick))
  }

  const NO_STATE := StateView(0, DARK, 0)

  function DoArrive(s: System, n: nat, state: StateView, recovery: bool, recoveryId: string, freshId: string): System
    requires n in s.sites
  {
    var (page, farewell, sent) := StateArrived(s.sites[n].page, state, recovery, recoveryId, freshId);
    PageMoved(s, n, page,
              Outgoing(s, n, farewell, NO_STATE, false, false)
              + Outgoing(s, n, sent.farewell, NO_STATE, false, false)
              + Outgoing(s, n, sent.report, state, true, page.sound.Some?),
              Draw(s.story, {recoveryId, freshId}, s.tick))
  }

  function DoVisit(s: System, n: nat, freshId: string): System
    requires n in s.sites && s.sites[n].page.latest.Some?
  {
    var state := s.sites[n].page.latest.value;
    var (page, sent) := MaintainAudio(s.sites[n].page, state, freshId);
    PageMoved(s, n, page,
              Outgoing(s, n, sent.farewell, NO_STATE, false, false)
              + Outgoing(s, n, sent.report, state, true, page.sound.Some?),
              Draw(s.story, {freshId}, s.tick))
  }

  function DoLeave(s: System, n: nat, freshId: string): System
    requires n in s.sites
  {
    var (page, farewell) := ReleaseAudio(s.sites[n].page, freshId);
    PageMoved(s, n, page, Outgoing(s, n, farewell, NO_STATE, false, false), Draw(s.story, {freshId}, s.tick))
  }

  function DoEndSound(s: System, n: nat): System
    requires n in s.sites && s.sites[n].page.sound.Some?
  {
    var (page, report) := SoundEnded(s.sites[n].page);
    PageMoved(s, n, page, Outgoing(s, n, report, s.sites[n].page.sound.value.state, false, false), s.story)
  }

  /** The command a page takes from a response, if it takes it. */
  function Taken(p: Page, answer: Answer, now: real): Option<PlaybackView> {
    var msg := answer.msg;
    var command := StillValid(answer.playback, msg.started, now);
    if msg.maintaining && MayProcess(p, msg.state, msg.report.displayId)
       && command.Some? && Executes(p, command.value, msg.state)
    then command else None
  }

  function Answered(p: Page, answer: Answer, now: real, hasBuffer: bool, starts: bool): (Page, Option<Report>) {
    var msg := answer.msg;
    ReportAnswered(p, msg.state, msg.report.displayId, msg.maintaining, msg.started, now, answer.playback, hasBuffer,
                   starts)
  }

  function Told(story: Story, execution: Execution, sounds: bool): Story {
    story.(executions := story.executions + {execution},
           executed := map[execution.key := execution] + story.executed,
           sounded := story.sounded + if sounds then {execution.key} else {})
  }

  /** The page after a response arrives, and the report it then sends. */
  function AfterHear(s: System, answer: Answer, hasBuffer: bool, starts: bool): (Page, Option<Report>)
    requires answer.msg.site in s.sites
  {
    var site := s.sites[answer.msg.site];
    Answered(site.page, answer, s.clock + site.offset, hasBuffer, starts)
  }

  function TakenBy(s: System, answer: Answer): Option<PlaybackView>
    requires answer.msg.site in s.sites
  {
    var site := s.sites[answer.msg.site];
    Taken(site.page, answer, s.clock + site.offset)
  }

  function ExecutionOf(s: System, answer: Answer): Execution
    requires answer.msg.site in s.sites && TakenBy(s, answer).Some?
  {
    var v := TakenBy(s, answer).value;
    Execution(answer.msg.site, Key(s.sites[answer.msg.site].page.displayId, v.id, v.scope), s.clock, s.tick)
  }

  function AfterHearing(s: System, answer: Answer, hasBuffer: bool, starts: bool): Story
    requires answer.msg.site in s.sites
  {
    if TakenBy(s, answer).None? then s.story
    else
      Told(s.story, ExecutionOf(s, answer),
           Sounds(s.sites[answer.msg.site].page, TakenBy(s, answer).value, answer.msg.state, hasBuffer, starts))
  }

  function DoHear(s: System, answer: Answer, hasBuffer: bool, starts: bool): System
    requires answer.msg.site in s.sites
  {
    var (page, report) := AfterHear(s, answer, hasBuffer, starts);
    PageMoved(s, answer.msg.site, page,
              Outgoing(s, answer.msg.site, report, answer.msg.state, false, page.sound.Some?),
              AfterHearing(s, answer, hasBuffer, starts))
  }

  function DoLose(s: System, msg: Msg, freshId: string): System
    requires msg.site in s.sites
  {
    var (page, farewell) :=
      ReportFailed(s.sites[msg.site].page, msg.state, msg.report.displayId, msg.maintaining, freshId);
    PageMoved(s, msg.site, page, Outgoing(s, msg.site, farewell, NO_STATE, false, false),
              Draw(s.story, {freshId}, s.tick))
  }

  // ---- Steps of the server ----

  function ViewOf(stage: Stage, desk: Desk, now: real): Option<PlaybackView> {
    var current := Playback(stage, desk, now);
    if current.None? then None
    else
      var c := desk.commands[current.value];
      Some(PlaybackView(current.value, c.scope, c.operation, c.participantId, c.displayIds, ValidFor(c, now)))
  }

  function StateNow(s: System): StateView {
    var current := Playback(s.server.stage, s.server.desk, s.clock);
    StateView(s.server.revision, s.server.stage, if current.Some? then current.value else 0)
  }

  function Register(story: Story, displayId: string, outcome: Outcome, tick: nat): Story {
    if outcome != Accepted || displayId in story.registered then story
    else story.(registered := story.registered[displayId := tick])
  }

  function AcceptanceOf(stage: Stage, msg: Msg): Acceptance {
    Acceptance(msg, msg.report.active && stage.intro)
  }

  function DoDeliver(s: System, msg: Msg, stamp: real): System {
    var (desk, outcome) := AudioReport(s.server.stage, s.server.desk, msg.report, stamp);
    if outcome.Refused? then s
    else
      var answers := s.net.answers + {Answer(msg, ViewOf(s.server.stage, desk, s.clock))};
      var accepted := s.net.accepted + if outcome == Accepted then {AcceptanceOf(s.server.stage, msg)} else {};
      s.(server := s.server.(desk := desk),
         net := s.net.(answers := answers, accepted := accepted),
         story := Register(s.story, msg.report.displayId, outcome, s.tick))
  }

  function DoReceive(s: System, acceptance: Acceptance, victim: string): System {
    var msg := acceptance.msg;
    var receipts := Record(s.server.receipts, msg.report, acceptance.active, s.clock, victim);
    s.(server := s.server.(receipts := receipts),
       net := s.net.(recorded := if acceptance.active && msg.report.probeNo <= s.server.receipts.probeNo
                                 then s.net.recorded[msg.report.displayId := msg] else s.net.recorded))
  }

  function DoOperate(s: System, request: CommandRequest, greetings: map<string, string>, stamp: real): System {
    match Judge(s.server.stage, s.server.desk, s.server.receipts, greetings, request, stamp, s.clock)
    case Grant(c) =>
      s.(server := s.server.(desk := Issue(s.server.desk, c)),
         story := s.story.(issues := s.story.issues[s.server.desk.lastId + 1 :=
           Issuance(c.scope, c.operation, c.displayIds, stamp, s.tick)]))
    case _ => s
  }

  function DoReconnect(s: System, scope: Scope): System {
    s.(server := s.server.(desk := Recover(s.server.stage, s.server.desk, scope, s.clock).0))
  }

  function DoConfirm(s: System, w: nat, scope: Scope, id: nat): System {
    s.(waiters := s.waiters[w := Waiter(scope, id, s.clock + CONFIRM_SECONDS, Looking)])
  }

  function DoLook(s: System, w: nat): System
    requires w in s.waiters
  {
    var waiter, server := s.waiters[w], s.server;
    if server.stage.scope != waiter.scope || !server.stage.intro then s.(waiters := s.waiters - {w})
    else
      var found := if waiter.id in server.desk.commands then Some(server.desk.commands[waiter.id]) else None;
      s.(waiters := s.waiters[w := waiter.(phase := Judging(found, Playback(server.stage, server.desk, s.clock)))])
  }

  function Confirmed(r: Receipts, command: Command, scope: Scope, id: nat): set<string> {
    set d | d in command.displayIds && Confirms(r, d, scope, id, command.operation)
  }

  function Acknowledge(story: Story, waiter: Waiter, command: Command, confirmed: set<string>, now: real): Story {
    if confirmed == {} then story
    else
      var ack := Ack(waiter.id, waiter.scope, command.operation, command.displayIds, confirmed, now);
      story.(acks := story.acks + {ack})
  }

  function DoEvaluate(s: System, w: nat): System
    requires w in s.waiters && s.waiters[w].phase.Judging?
  {
    var waiter := s.waiters[w];
    var done := s.(waiters := s.waiters - {w});
    if waiter.phase.found.None? || waiter.phase.found.value.scope != waiter.scope
       || waiter.phase.current != Some(waiter.id)
    then done
    else
      var command := waiter.phase.found.value;
      var confirmed := Confirmed(s.server.receipts, command, waiter.scope, waiter.id);
      if confirmed == command.displayIds && confirmed != {}
      then done.(story := Acknowledge(s.story, waiter, command, confirmed, s.clock))
      else if waiter.deadline <= s.clock
      then s.(waiters := s.waiters[w := waiter.(phase := Dropping(command, confirmed))])
      else s.(waiters := s.waiters[w := waiter.(phase := Looking)])
  }

  /** `cancel_unconfirmed` finds the command still current, and drops it or some of its displays. */
  predicate Drops(server: Server, waiter: Waiter, now: real) {
    Playback(server.stage, server.desk, now) == Some(waiter.id)
    && server.desk.commands[waiter.id].scope == waiter.scope
  }

  function DoCancel(s: System, w: nat): System
    requires w in s.waiters && s.waiters[w].phase.Dropping?
  {
    var waiter, server := s.waiters[w], s.server;
    var confirmed := waiter.phase.confirmed;
    var desk := CancelUnconfirmed(server.stage, server.desk, waiter.scope, waiter.id, confirmed, s.clock);
    var story := Acknowledge(s.story, waiter, waiter.phase.command, confirmed, s.clock);
    s.(server := server.(desk := desk), waiters := s.waiters - {w},
       story := if Drops(server, waiter, s.clock)
                then story.(drops := story.drops + {Drop(waiter.id, s.clock)}) else story)
  }

  function Do(s: System, l: Label): System
    requires Enabled(s, l)
  {
    match l
    case Elapse(at) => s.(clock := at)
    case Restage(stage) => s.(server := s.server.(stage := stage, revision := s.server.revision + 1))
    case ServeState => s.(net := s.net.(states := s.net.states + {StateNow(s)}))
    case Open(n, displayId, key, offset) => DoOpen(s, n, displayId, key, offset)
    case Arrive(n, state, recovery, recoveryId, freshId) => DoArrive(s, n, state, recovery, recoveryId, freshId)
    case Visit(n, freshId) => DoVisit(s, n, freshId)
    case Leave(n, freshId) => DoLeave(s, n, freshId)
    case Around(n, surroundings) => PageMoved(s, n, Surround(s.sites[n].page, surroundings), {}, s.story)
    case EndSound(n) => DoEndSound(s, n)
    case Hear(answer, hasBuffer, starts) => DoHear(s, answer, hasBuffer, starts)
    case Lose(msg, freshId) => DoLose(s, msg, freshId)
    case Deliver(msg, stamp) => DoDeliver(s, msg, stamp)
    case Receive(acceptance, victim) => DoReceive(s, acceptance, victim)
    case ProbeAll => s.(server := s.server.(receipts := Probe(s.server.receipts)))
    case Operate(request, greetings, stamp) => DoOperate(s, request, greetings, stamp)
    case Confirm(w, scope, id) => DoConfirm(s, w, scope, id)
    case Look(w) => DoLook(s, w)
    case Evaluate(w) => DoEvaluate(s, w)
    case Cancel(w) => DoCancel(s, w)
    case Reconnect(scope) => DoReconnect(s, scope)
  }

  function Next(s: System, l: Label): System {
    if Enabled(s, l) then Do(s, l).(tick := s.tick + 1) else s
  }

  function Run(labels: seq<Label>): System {
    if labels == [] then START else Next(Run(labels[..|labels| - 1]), labels[|labels| - 1])
  }
}

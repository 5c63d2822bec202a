/** What every state of the audio protocol keeps, said of each part of the system.

  Each predicate speaks of one page, message, command or record and of the story so
  far. None is lost when the story grows (`Extends`), so a step need only account
  for the parts it changes.
 */
module AudioInvariant {
  import opened Wrappers
  import opened AudioDesk
  import opened ScreenPage
  import opened AudioProtocol

  ghost predicate Extends(a: Story, b: Story) {
    && (forall id | id in a.issues :: id in b.issues && b.issues[id] == a.issues[id])
    && (forall d | d in a.drawn :: d in b.drawn && b.drawn[d] == a.drawn[d])
    && (forall d | d in a.registered :: d in b.registered && b.registered[d] == a.registered[d])
    && (forall key | key in a.executed :: key in b.executed && b.executed[key] == a.executed[key])
    && a.executions <= b.executions && a.sounded <= b.sounded
    && a.drops <= b.drops && a.acks <= b.acks
  }

  // ---- Pages and their reports ----

  /** What a display names as its command it has executed, or was never told to. */
  ghost predicate Handled(st: Story, d: string, id: nat, scope: Option<Scope>) {
    id > 0 ==>
      && id in st.issues
      && (d in st.issues[id].targets ==> scope.Some? && Key(d, id, scope.value) in st.executed)
  }

  /** Only a `play` it was told to start makes a display sound. */
  ghost predicate Audible(st: Story, d: string, id: nat, scope: Option<Scope>) {
    && id > 0 && id in st.issues && st.issues[id].operation == Play
    && scope.Some? && Key(d, id, scope.value) in st.sounded
  }

  ghost predicate PageOk(st: Story, p: Page) {
    && p.displayId in st.drawn
    && Handled(st, p.displayId, p.currentCommand, p.scope)
    && (p.sound.Some? || Heard(p.status) ==> Audible(st, p.displayId, p.currentCommand, p.scope))
  }

  ghost predicate ReportOk(st: Story, r: Report, soundOn: bool) {
    && r.displayId in st.drawn
    && Handled(st, r.displayId, r.commandId, Some(r.scope))
    && (soundOn || Heard(r.status) ==> Audible(st, r.displayId, r.commandId, Some(r.scope)))
  }

  ghost predicate SentOk(st: Story, report: Option<Report>, soundOn: bool) {
    report.Some? ==> ReportOk(st, report.value, soundOn)
  }

  /** A drawn display id that no command is addressed to. */
  ghost predicate Unknown(st: Story, d: string) {
    d in st.drawn && forall id | id in st.issues :: d !in st.issues[id].targets
  }

  /** A command as the server hands it out: what was issued, for all or some of its displays. */
  ghost predicate ViewOk(st: Story, v: PlaybackView) {
    && v.id > 0 && v.id in st.issues && v.scope == st.issues[v.id].scope && v.operation == st.issues[v.id].operation
    && v.displayIds <= st.issues[v.id].targets
  }

  lemma ReleaseKeepsPage(st: Story, p: Page, freshId: string)
    requires PageOk(st, p) && Unknown(st, freshId)
    ensures var (q, farewell) := ReleaseAudio(p, freshId);
            && PageOk(st, q) && SentOk(st, farewell, false) && q.lastCommand == p.lastCommand
            && q.scope.None? && q.displayId == if p.scope.Some? then freshId else p.displayId
  {
  }

  lemma ReportKeepsPage(st: Story, p: Page, state: StateView)
    requires PageOk(st, p)
    ensures var (q, report) := ReportAudio(p, state);
            && PageOk(st, q) && SentOk(st, report, q.sound.Some?) && q.lastCommand == p.lastCommand
            && q.displayId == p.displayId && q.sound == p.sound
  {
  }

  lemma EnterKeepsPage(st: Story, p: Page, state: StateView)
    requires PageOk(st, p) && (p.scope.Some? ==> p.scope.value == state.stage.scope)
    ensures var q := Baseline(p.(scope := Some(state.stage.scope)), state);
            PageOk(st, q) && q.lastCommand >= p.lastCommand && q.displayId == p.displayId
  {
  }

  lemma JoinKeepsPage(st: Story, p: Page, state: StateView, freshId: string)
    requires PageOk(st, p) && Unknown(st, freshId)
    ensures var (q, farewell) := JoinScope(p, state, freshId);
            && PageOk(st, q) && SentOk(st, farewell, false) && q.lastCommand >= p.lastCommand
            && q.displayId in {p.displayId, freshId}
  {
    if p.scope.Some? && p.scope.value != state.stage.scope {
      ReleaseKeepsPage(st, p, freshId);
      EnterKeepsPage(st, ReleaseAudio(p, freshId).0, state);
    } else {
      EnterKeepsPage(st, p, state);
    }
  }

  lemma StartKeepsPage(st: Story, p: Page, state: StateView)
    requires PageOk(st, p)
    ensures var (q, report) := StartReport(p, state);
            && PageOk(st, q) && SentOk(st, report, q.sound.Some?) && q.lastCommand == p.lastCommand
            && q.displayId == p.displayId
  {
    ReportKeepsPage(st, p, state);
  }

  lemma MaintainKeepsPage(st: Story, p: Page, state: StateView, freshId: string)
    requires PageOk(st, p) && Unknown(st, freshId)
    ensures var (q, sent) := MaintainAudio(p, state, freshId);
            && PageOk(st, q) && SentOk(st, sent.farewell, false) && SentOk(st, sent.report, q.sound.Some?)
            && q.lastCommand >= p.lastCommand && q.displayId in {p.displayId, freshId}
  {
    if !IsOpening(p, state) || !p.online {
      ReleaseKeepsPage(st, p, freshId);
    } else {
      JoinKeepsPage(st, p, state, freshId);
      StartKeepsPage(st, JoinScope(p, state, freshId).0, state);
    }
  }

  lemma LetGoKeepsPage(st: Story, p: Page, state: StateView, recovery: bool, recoveryId: string)
    requires PageOk(st, p) && Unknown(st, recoveryId)
    ensures var (q, farewell) := LetGo(p, state, recovery, recoveryId);
            && PageOk(st, q) && SentOk(st, farewell, false) && q.lastCommand == p.lastCommand
            && q.displayId in {p.displayId, recoveryId}
  {
    ReleaseKeepsPage(st, p, recoveryId);
  }

  lemma ArriveKeepsPage(st: Story, p: Page, state: StateView, recovery: bool, recoveryId: string, freshId: string)
    requires PageOk(st, p) && Unknown(st, recoveryId) && Unknown(st, freshId)
    ensures var (q, farewell, sent) := StateArrived(p, state, recovery, recoveryId, freshId);
            && PageOk(st, q) && SentOk(st, farewell, false) && SentOk(st, sent.farewell, false)
            && SentOk(st, sent.report, q.sound.Some?)
            && q.lastCommand >= p.lastCommand && q.displayId in {p.displayId, recoveryId, freshId}
  {
    if !(p.latest.Some? && state.revision < p.latest.value.revision) {
      var r := p.(latest := Some(state));
      LetGoKeepsPage(st, r, state, recovery, recoveryId);
      MaintainKeepsPage(st, LetGo(r, state, recovery, recoveryId).0, state, freshId);
    }
  }

  lemma FailureKeepsPage(st: Story, p: Page, state: StateView, reportingId: string, maintaining: bool, freshId: string)
    requires PageOk(st, p) && Unknown(st, freshId)
    ensures var (q, farewell) := ReportFailed(p, state, reportingId, maintaining, freshId);
            && PageOk(st, q) && SentOk(st, farewell, false) && q.lastCommand == p.lastCommand
            && q.displayId in {p.displayId, freshId}
  {
    if ScopeCurrent(p, state) && p.displayId == reportingId {
      ReleaseKeepsPage(st, p, freshId);
      var q := ReleaseAudio(p, freshId).0;
      assert PageOk(st, q.(status := Error));
    }
  }

  /** `st` is the story with the execution in it. */
  lemma ObeyKeepsPage(st: Story, p: Page, command: PlaybackView, state: StateView, hasBuffer: bool, starts: bool)
    requires PageOk(st, p) && Executes(p, command, state) && ViewOk(st, command)
    requires Key(p.displayId, command.id, command.scope) in st.executed
    requires Sounds(p, command, state, hasBuffer, starts) ==> Key(p.displayId, command.id, command.scope) in st.sounded
    ensures var q := Obey(p, command, state, hasBuffer, starts);
            PageOk(st, q) && q.displayId == p.displayId && q.lastCommand == command.id
  {
  }

  lemma ProcessKeepsPage(st: Story, p: Page, command: Option<PlaybackView>, state: StateView, hasBuffer: bool,
                         starts: bool)
    requires PageOk(st, p)
    requires command.Some? && Executes(p, command.value, state) ==>
               var key := Key(p.displayId, command.value.id, command.value.scope);
               && ViewOk(st, command.value) && key in st.executed
               && (Sounds(p, command.value, state, hasBuffer, starts) ==> key in st.sounded)
    ensures var (q, report) := ProcessCommand(p, command, state, hasBuffer, starts);
            && PageOk(st, q) && SentOk(st, report, q.sound.Some?) && q.displayId == p.displayId
            && q.lastCommand >= p.lastCommand
            && (command.Some? && Executes(p, command.value, state) ==>
                q.lastCommand == command.value.id > p.lastCommand)
  {
    if command.Some? && Executes(p, command.value, state) {
      ObeyKeepsPage(st, p, command.value, state, hasBuffer, starts);
      ReportKeepsPage(st, Obey(p, command.value, state, hasBuffer, starts), state);
    }
  }

  // ---- The network ----

  /** A report that names a command of its display was sent when the display had executed it. */
  ghost predicate SentAfter(st: Story, r: Report, sent: nat) {
    var key := Key(r.displayId, r.commandId, r.scope);
    r.commandId > 0 && r.commandId in st.issues && r.displayId in st.issues[r.commandId].targets ==>
      key in st.executed && st.executed[key].tick <= sent
  }

  ghost predicate MsgOk(st: Story, clock: real, sites: map<nat, Site>, m: Msg) {
    && ReportOk(st, m.report, m.soundOn) && SentAfter(st, m.report, m.sent)
    && m.started - m.offset <= clock
    && m.site in sites && sites[m.site].offset == m.offset
  }

  /** A command offered in response to a request started at `since` may be executed before `at + 4` only. */
  ghost predicate OfferOk(st: Story, v: PlaybackView, since: real) {
    ViewOk(st, v) && (v.validFor > 0.0 ==> since + v.validFor <= st.issues[v.id].at + EXECUTION_SECONDS)
  }

  ghost predicate AnswerOk(st: Story, msgs: set<Msg>, a: Answer) {
    a.msg in msgs && (a.playback.Some? ==> OfferOk(st, a.playback.value, a.msg.started - a.msg.offset))
  }

  ghost predicate AcceptanceOk(msgs: set<Msg>, a: Acceptance) {
    a.msg in msgs && (a.active ==> a.msg.report.active)
  }

  ghost predicate NetOk(st: Story, clock: real, sites: map<nat, Site>, net: Net) {
    && (forall m | m in net.msgs :: MsgOk(st, clock, sites, m))
    && (forall a | a in net.answers :: AnswerOk(st, net.msgs, a))
    && (forall a | a in net.accepted :: AcceptanceOk(net.msgs, a))
  }

  /** The stored receipt of a display is what one of its accepted reports said. */
  ghost predicate ReceiptOk(net: Net, d: string, r: Receipt) {
    d in net.recorded
    && var m := net.recorded[d];
       && m in net.msgs && m.report.active && m.report.displayId == d && m.report.scope == r.scope
       && m.report.commandId == r.commandId && m.report.status == r.status
  }

  ghost predicate ReceiptsOk(net: Net, receipts: Receipts) {
    forall d | d in receipts.reports :: ReceiptOk(net, d, receipts.reports[d])
  }

  // ---- The server ----

  ghost predicate CommandOk(st: Story, id: nat, c: Command) {
    && id in st.issues && c.scope == st.issues[id].scope && c.operation == st.issues[id].operation
    && c.issuedAt == st.issues[id].at && c.displayIds <= st.issues[id].targets
  }

  ghost predicate DeskOk(st: Story, desk: Desk) {
    && (forall id | id in desk.commands :: CommandOk(st, id, desk.commands[id]))
    && (forall id | id in st.issues :: 1 <= id <= desk.lastId)
    && (forall d | d in desk.displays :: d in st.registered)
  }

  /** A report in which the display says it did what command `id` asked, sent when it really had. */
  ghost predicate Proves(st: Story, m: Msg, d: string, id: nat, scope: Scope, operation: Operation) {
    && m.report.active && m.report.displayId == d && m.report.scope == scope && m.report.commandId == id
    && Key(d, id, scope) in st.executed && st.executed[Key(d, id, scope)].tick <= m.sent
    && match operation
       case Play => Heard(m.report.status) && Key(d, id, scope) in st.sounded
       case Stop => m.report.status != Playing && !m.soundOn
  }

  ghost predicate Evidence(st: Story, msgs: set<Msg>, d: string, id: nat, scope: Scope, operation: Operation) {
    exists m :: m in msgs && Proves(st, m, d, id, scope, operation)
  }

  ghost predicate AllProved(st: Story, msgs: set<Msg>, ds: set<string>, id: nat, scope: Scope, operation: Operation) {
    forall d | d in ds :: Evidence(st, msgs, d, id, scope, operation)
  }

  ghost predicate WaiterOk(st: Story, clock: real, msgs: set<Msg>, w: Waiter) {
    && w.id in st.issues && w.deadline >= st.issues[w.id].at + EXECUTION_SECONDS
    && match w.phase
       case Looking => true
       case Judging(found, _) => found.Some? ==> CommandOk(st, w.id, found.value)
       case Dropping(c, confirmed) =>
         && clock >= w.deadline && CommandOk(st, w.id, c) && c.scope == w.scope && confirmed <= c.displayIds
         && AllProved(st, msgs, confirmed, w.id, w.scope, c.operation)
  }

  ghost predicate WaitersOk(st: Story, clock: real, msgs: set<Msg>, waiters: map<nat, Waiter>) {
    forall w | w in waiters :: WaiterOk(st, clock, msgs, waiters[w])
  }

  // ---- The story ----

  ghost predicate IssueOk(st: Story, clock: real, tick: nat, i: Issuance) {
    && i.at <= clock && i.tick < tick
    && forall d | d in i.targets :: d in st.registered && st.registered[d] < i.tick
  }

  ghost predicate ExecutionOk(st: Story, tick: nat, e: Execution) {
    e.key.id in st.issues
    && var issue := st.issues[e.key.id];
       && e.key.displayId in issue.targets && e.key.scope == issue.scope
       && e.at < issue.at + EXECUTION_SECONDS && issue.tick < e.tick < tick
       && e.key in st.executed
  }

  ghost predicate RegistrationOk(st: Story, tick: nat, d: string) {
    d in st.registered && st.registered[d] < tick && d in st.drawn && st.drawn[d] < st.registered[d]
  }

  ghost predicate Happened(st: Story, key: Key) {
    key in st.executed && st.executed[key] in st.executions && st.executed[key].key == key
  }

  ghost predicate DropOk(st: Story, d: Drop) {
    d.id in st.issues && st.issues[d.id].at + EXECUTION_SECONDS <= d.at
  }

  ghost predicate IssuesOk(st: Story, clock: real, tick: nat) {
    forall id | id in st.issues :: IssueOk(st, clock, tick, st.issues[id])
  }

  ghost predicate IdsOk(st: Story, tick: nat) {
    && (forall d | d in st.drawn :: st.drawn[d] < tick)
    && (forall d | d in st.registered :: RegistrationOk(st, tick, d))
  }

  ghost predicate ExecutionsOk(st: Story, tick: nat) {
    && (forall e | e in st.executions :: ExecutionOk(st, tick, e))
    && (forall key | key in st.executed :: Happened(st, key))
    && st.sounded <= st.executed.Keys
  }

  ghost predicate DropsOk(st: Story) {
    forall d | d in st.drops :: DropOk(st, d)
  }

  ghost predicate StoryOk(st: Story, clock: real, tick: nat) {
    IssuesOk(st, clock, tick) && IdsOk(st, tick) && ExecutionsOk(st, tick) && DropsOk(st)
  }

  ghost predicate AckOk(st: Story, msgs: set<Msg>, a: Ack) {
    && a.id in st.issues && a.scope == st.issues[a.id].scope && a.operation == st.issues[a.id].operation
    && {} < a.confirmed <= a.targets <= st.issues[a.id].targets
    && (a.confirmed == a.targets || st.issues[a.id].at + EXECUTION_SECONDS <= a.at)
    && AllProved(st, msgs, a.confirmed, a.id, a.scope, a.operation)
  }

  ghost predicate AcksOk(st: Story, msgs: set<Msg>) {
    forall a | a in st.acks :: AckOk(st, msgs, a)
  }

  /** A page executes commands in the order of their ids, each at most once. */
  ghost predicate InOrder(e: Execution, f: Execution) {
    && (e.site == f.site && e.tick < f.tick ==> e.key.id < f.key.id)
    && (e.site == f.site && e.tick == f.tick ==> e == f)
  }

  ghost predicate OrderOk(st: Story, sites: map<nat, Site>) {
    && (forall e | e in st.executions :: e.site in sites && e.key.id <= sites[e.site].page.lastCommand)
    && (forall e, f | e in st.executions && f in st.executions :: InOrder(e, f))
  }

  ghost predicate SitesOk(st: Story, sites: map<nat, Site>) {
    forall n | n in sites :: PageOk(st, sites[n].page)
  }

  ghost predicate Inv(s: System) {
    && SitesOk(s.story, s.sites)
    && NetOk(s.story, s.clock, s.sites, s.net)
    && ReceiptsOk(s.net, s.server.receipts)
    && DeskOk(s.story, s.server.desk)
    && WaitersOk(s.story, s.clock, s.net.msgs, s.waiters)
    && StoryOk(s.story, s.clock, s.tick)
    && AcksOk(s.story, s.net.msgs)
    && OrderOk(s.story, s.sites)
  }

  // ---- Nothing is lost as the story grows ----

  ghost predicate KeepsOffsets(a: map<nat, Site>, b: map<nat, Site>) {
    forall n | n in a :: n in b && b[n].offset == a[n].offset
  }

  lemma PageStays(a: Story, b: Story, p: Page)
    requires Extends(a, b) && PageOk(a, p)
    ensures PageOk(b, p)
  {
  }

  lemma MsgStays(a: Story, b: Story, clock: real, later: real, sites: map<nat, Site>, after: map<nat, Site>, m: Msg)
    requires Extends(a, b) && clock <= later && KeepsOffsets(sites, after) && MsgOk(a, clock, sites, m)
    ensures MsgOk(b, later, after, m)
  {
  }

  lemma EvidenceStays(a: Story, b: Story, msgs: set<Msg>, more: set<Msg>, ds: set<string>, id: nat, scope: Scope,
                      operation: Operation)
    requires Extends(a, b) && msgs <= more && AllProved(a, msgs, ds, id, scope, operation)
    ensures AllProved(b, more, ds, id, scope, operation)
  {
    forall d | d in ds ensures Evidence(b, more, d, id, scope, operation) {
      assert Evidence(a, msgs, d, id, scope, operation);
      var m :| m in msgs && Proves(a, m, d, id, scope, operation);
      assert m in more && Proves(b, m, d, id, scope, operation);
    }
  }

  lemma WaiterStays(a: Story, b: Story, clock: real, later: real, msgs: set<Msg>, more: set<Msg>, w: Waiter)
    requires Extends(a, b) && clock <= later && msgs <= more && WaiterOk(a, clock, msgs, w)
    ensures WaiterOk(b, later, more, w)
  {
    if w.phase.Dropping? {
      EvidenceStays(a, b, msgs, more, w.phase.confirmed, w.id, w.scope, w.phase.command.operation);
    }
  }

  lemma NetStays(a: Story, b: Story, clock: real, later: real, sites: map<nat, Site>, after: map<nat, Site>, net: Net)
    requires Extends(a, b) && clock <= later && KeepsOffsets(sites, after) && NetOk(a, clock, sites, net)
    ensures NetOk(b, later, after, net)
  {
    forall m | m in net.msgs ensures MsgOk(b, later, after, m) {
      MsgStays(a, b, clock, later, sites, after, m);
    }
  }

  lemma WaitersStay(a: Story, b: Story, clock: real, later: real, msgs: set<Msg>, more: set<Msg>,
                    waiters: map<nat, Waiter>)
    requires Extends(a, b) && clock <= later && msgs <= more && WaitersOk(a, clock, msgs, waiters)
    ensures WaitersOk(b, later, more, waiters)
  {
    forall w | w in waiters ensures WaiterOk(b, later, more, waiters[w]) {
      WaiterStays(a, b, clock, later, msgs, more, waiters[w]);
    }
  }

  lemma AcksStay(a: Story, b: Story, msgs: set<Msg>, more: set<Msg>)
    requires Extends(a, b) && msgs <= more && AcksOk(a, msgs) && a.acks == b.acks
    ensures AcksOk(b, more)
  {
    forall k | k in b.acks ensures AckOk(b, more, k) {
      assert AckOk(a, msgs, k);
      EvidenceStays(a, b, msgs, more, k.confirmed, k.id, k.scope, k.operation);
    }
  }

  lemma IssuesStay(a: Story, b: Story, clock: real, later: real, tick: nat)
    requires Extends(a, b) && clock <= later && IssuesOk(a, clock, tick) && b.issues == a.issues
    ensures IssuesOk(b, later, tick + 1)
  {
    forall id | id in b.issues ensures IssueOk(b, later, tick + 1, b.issues[id]) {
      assert IssueOk(a, clock, tick, a.issues[id]);
    }
  }

  lemma IdsStay(a: Story, b: Story, tick: nat)
    requires Extends(a, b) && IdsOk(a, tick) && b.registered == a.registered
    requires forall d | d in b.drawn.Keys - a.drawn.Keys :: b.drawn[d] <= tick
    ensures IdsOk(b, tick + 1)
  {
    forall d | d in b.drawn ensures b.drawn[d] <= tick {
      assert d in a.drawn || d in b.drawn.Keys - a.drawn.Keys;
    }
    forall d | d in b.registered ensures RegistrationOk(b, tick + 1, d) {
      assert RegistrationOk(a, tick, d);
    }
  }

  lemma ExecutionsStay(a: Story, b: Story, tick: nat)
    requires Extends(a, b) && ExecutionsOk(a, tick)
    requires b.executions == a.executions && b.executed == a.executed && b.sounded == a.sounded
    ensures ExecutionsOk(b, tick + 1)
  {
    forall e | e in b.executions ensures ExecutionOk(b, tick + 1, e) {
      assert ExecutionOk(a, tick, e);
    }
    forall key | key in b.executed ensures Happened(b, key) {
      assert Happened(a, key);
    }
  }

  lemma DropsStay(a: Story, b: Story)
    requires Extends(a, b) && DropsOk(a) && forall d | d in b.drops - a.drops :: DropOk(b, d)
    ensures DropsOk(b)
  {
    forall d | d in b.drops ensures DropOk(b, d) {
      assert DropOk(b, d) by {
        if d in a.drops {
          assert DropOk(a, d);
        } else {
          assert d in b.drops - a.drops;
        }
      }
    }
  }
}

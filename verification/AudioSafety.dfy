/** Every step of the audio protocol keeps the invariant, and what that means for displays and operators. */
module AudioSafety {
  import opened Wrappers
  import opened AudioDesk
  import opened ScreenPage
  import opened AudioProtocol
  import opened AudioInvariant

  // ---- Steps of a page ----

  lemma TargetsAreDrawn(st: Story, clock: real, tick: nat)
    requires StoryOk(st, clock, tick)
    ensures forall id, d | id in st.issues && d in st.issues[id].targets :: d in st.drawn
  {
    forall id, d | id in st.issues && d in st.issues[id].targets ensures d in st.drawn {
      assert IssueOk(st, clock, tick, st.issues[id]);
      assert RegistrationOk(st, tick, d);
    }
  }

  /** Fresh ids, drawn now, are addressed by no command. */
  lemma DrawnIdsAreUnknown(st: Story, clock: real, tick: nat, ids: set<string>)
    requires StoryOk(st, clock, tick) && ids !! st.drawn.Keys
    ensures var after := Draw(st, ids, tick);
            Extends(st, after) && StoryOk(after, clock, tick + 1) && forall d | d in ids :: Unknown(after, d)
  {
    var after := Draw(st, ids, tick);
    TargetsAreDrawn(st, clock, tick);
    StoryStays(st, after, clock, clock, tick);
  }

  /** The issues, registrations, executions and drops are those of before. */
  lemma StoryStays(a: Story, b: Story, clock: real, later: real, tick: nat)
    requires StoryOk(a, clock, tick) && Extends(a, b) && clock <= later
    requires b.issues == a.issues && b.registered == a.registered && b.executions == a.executions
    requires b.executed == a.executed && b.sounded == a.sounded
    requires forall d | d in b.drawn.Keys - a.drawn.Keys :: b.drawn[d] <= tick
    requires forall d | d in b.drops - a.drops :: DropOk(b, d)
    ensures StoryOk(b, later, tick + 1)
  {
    hide IssuesOk, IdsOk, ExecutionsOk, DropsOk, Extends;
    IssuesStay(a, b, clock, later, tick);
    IdsStay(a, b, tick);
    ExecutionsStay(a, b, tick);
    DropsStay(a, b);
  }

  lemma OrderStays(a: Story, b: Story, sites: map<nat, Site>, after: map<nat, Site>)
    requires OrderOk(a, sites) && b.executions == a.executions
    requires forall n | n in sites :: n in after && after[n].page.lastCommand >= sites[n].page.lastCommand
    ensures OrderOk(b, after)
  {
  }

  lemma OutgoingOk(s: System, story: Story, n: nat, report: Option<Report>, state: StateView, maintaining: bool,
                   soundOn: bool)
    requires n in s.sites && SentOk(story, report, soundOn) && ExecutionsOk(story, s.tick + 1)
    ensures forall m | m in Outgoing(s, n, report, state, maintaining, soundOn) :: MsgOk(story, s.clock, s.sites, m)
  {
  }

  lemma PageStep(s: System, n: nat, page: Page, msgs: set<Msg>, story: Story)
    requires SitesOk(s.story, s.sites) && NetOk(s.story, s.clock, s.sites, s.net)
    requires ReceiptsOk(s.net, s.server.receipts) && DeskOk(s.story, s.server.desk)
    requires WaitersOk(s.story, s.clock, s.net.msgs, s.waiters) && AcksOk(s.story, s.net.msgs)
    requires n in s.sites && PageOk(story, page) && Extends(s.story, story)
    requires forall m | m in msgs :: MsgOk(story, s.clock, s.sites, m)
    requires story.issues == s.story.issues && story.registered == s.story.registered && story.acks == s.story.acks
    requires StoryOk(story, s.clock, s.tick + 1)
    requires OrderOk(story, s.sites[n := s.sites[n].(page := page)])
    ensures Inv(PageMoved(s, n, page, msgs, story).(tick := s.tick + 1))
  {
    SitesStay(s.story, story, s.sites, n, page);
    MoreMessages(s.story, story, s.clock, s.sites, s.sites[n := s.sites[n].(page := page)], s.net, msgs);
    BystandersStay(s, story, s.net.(msgs := s.net.msgs + msgs));
  }

  /** What a step of a page does not touch. */
  lemma BystandersStay(s: System, story: Story, net: Net)
    requires Extends(s.story, story) && story.issues == s.story.issues && story.acks == s.story.acks
    requires ReceiptsOk(s.net, s.server.receipts) && DeskOk(s.story, s.server.desk)
    requires WaitersOk(s.story, s.clock, s.net.msgs, s.waiters) && AcksOk(s.story, s.net.msgs)
    requires s.net.msgs <= net.msgs && net.recorded == s.net.recorded
    ensures ReceiptsOk(net, s.server.receipts) && DeskOk(story, s.server.desk)
    ensures WaitersOk(story, s.clock, net.msgs, s.waiters) && AcksOk(story, net.msgs)
  {
    ReceiptsStay(s.net, net, s.server.receipts);
    WaitersStay(s.story, story, s.clock, s.clock, s.net.msgs, net.msgs, s.waiters);
    AcksStay(s.story, story, s.net.msgs, net.msgs);
    DeskStays(s.story, story, s.server.desk);
  }

  lemma SitesStay(a: Story, b: Story, sites: map<nat, Site>, n: nat, page: Page)
    requires SitesOk(a, sites) && Extends(a, b) && n in sites && PageOk(b, page)
    ensures var after := sites[n := sites[n].(page := page)];
            SitesOk(b, after) && KeepsOffsets(sites, after)
  {
    var after := sites[n := sites[n].(page := page)];
    forall k | k in after ensures PageOk(b, after[k].page) {
      if k != n {
        PageStays(a, b, sites[k].page);
      }
    }
  }

  lemma MoreMessages(a: Story, b: Story, clock: real, sites: map<nat, Site>, after: map<nat, Site>, net: Net,
                     msgs: set<Msg>)
    requires Extends(a, b) && KeepsOffsets(sites, after) && NetOk(a, clock, sites, net)
    requires forall m | m in msgs :: MsgOk(b, clock, sites, m)
    ensures NetOk(b, clock, after, net.(msgs := net.msgs + msgs))
  {
    NetStays(a, b, clock, clock, sites, after, net);
    forall m | m in msgs ensures MsgOk(b, clock, after, m) {
      MsgStays(b, b, clock, clock, sites, after, m);
    }
    forall x | x in net.answers ensures AnswerOk(b, net.msgs + msgs, x) {
      assert AnswerOk(b, net.msgs, x);
    }
    forall x | x in net.accepted ensures AcceptanceOk(net.msgs + msgs, x) {
      assert AcceptanceOk(net.msgs, x);
    }
  }

  lemma ReceiptsStay(a: Net, b: Net, receipts: Receipts)
    requires ReceiptsOk(a, receipts) && a.msgs <= b.msgs && a.recorded == b.recorded
    ensures ReceiptsOk(b, receipts)
  {
    forall d | d in receipts.reports ensures ReceiptOk(b, d, receipts.reports[d]) {
      assert ReceiptOk(a, d, receipts.reports[d]);
    }
  }

  lemma DeskStays(a: Story, b: Story, desk: Desk)
    requires DeskOk(a, desk) && Extends(a, b) && a.issues == b.issues
    ensures DeskOk(b, desk)
  {
    forall id | id in desk.commands ensures CommandOk(b, id, desk.commands[id]) {
      assert CommandOk(a, id, desk.commands[id]);
    }
  }

  /** Steps of a page that draw ids, send reports, and execute nothing. */
  lemma DrawingStep(s: System, n: nat, page: Page, msgs: set<Msg>, ids: set<string>)
    requires Inv(s) && n in s.sites && Fresh(s, ids)
    requires var story := Draw(s.story, ids, s.tick);
             PageOk(story, page) && forall m | m in msgs :: MsgOk(story, s.clock, s.sites, m)
    requires page.lastCommand >= s.sites[n].page.lastCommand
    ensures Inv(PageMoved(s, n, page, msgs, Draw(s.story, ids, s.tick)).(tick := s.tick + 1))
  {
    hide SitesOk, NetOk, ReceiptsOk, DeskOk, WaitersOk, StoryOk, AcksOk, OrderOk, Extends;
    var story := Draw(s.story, ids, s.tick);
    DrawnIdsAreUnknown(s.story, s.clock, s.tick, ids);
    OrderStays(s.story, story, s.sites, s.sites[n := s.sites[n].(page := page)]);
    PageStep(s, n, page, msgs, story);
  }

  lemma PageKnowsDrawn(s: System, n: nat, ids: set<string>)
    requires Inv(s) && n in s.sites && Fresh(s, ids)
    ensures var story := Draw(s.story, ids, s.tick);
            && PageOk(story, s.sites[n].page) && (forall d | d in ids :: Unknown(story, d))
            && ExecutionsOk(story, s.tick + 1)
  {
    DrawnIdsAreUnknown(s.story, s.clock, s.tick, ids);
    PageStays(s.story, Draw(s.story, ids, s.tick), s.sites[n].page);
  }

  lemma ArriveStep(s: System, n: nat, state: StateView, recovery: bool, recoveryId: string, freshId: string)
    requires Inv(s) && Enabled(s, Arrive(n, state, recovery, recoveryId, freshId))
    ensures Inv(DoArrive(s, n, state, recovery, recoveryId, freshId).(tick := s.tick + 1))
  {
    var ids := {recoveryId, freshId};
    var story := Draw(s.story, ids, s.tick);
    PageKnowsDrawn(s, n, ids);
    ArriveKeepsPage(story, s.sites[n].page, state, recovery, recoveryId, freshId);
    var (page, farewell, sent) := StateArrived(s.sites[n].page, state, recovery, recoveryId, freshId);
    OutgoingOk(s, story, n, farewell, NO_STATE, false, false);
    OutgoingOk(s, story, n, sent.farewell, NO_STATE, false, false);
    OutgoingOk(s, story, n, sent.report, state, true, page.sound.Some?);
    DrawingStep(s, n, page,
                Outgoing(s, n, farewell, NO_STATE, false, false)
                + Outgoing(s, n, sent.farewell, NO_STATE, false, false)
                + Outgoing(s, n, sent.report, state, true, page.sound.Some?), ids);
  }

  lemma VisitStep(s: System, n: nat, freshId: string)
    requires Inv(s) && Enabled(s, Visit(n, freshId))
    ensures Inv(DoVisit(s, n, freshId).(tick := s.tick + 1))
  {
    var story, state := Draw(s.story, {freshId}, s.tick), s.sites[n].page.latest.value;
    PageKnowsDrawn(s, n, {freshId});
    MaintainKeepsPage(story, s.sites[n].page, state, freshId);
    var (page, sent) := MaintainAudio(s.sites[n].page, state, freshId);
    OutgoingOk(s, story, n, sent.farewell, NO_STATE, false, false);
    OutgoingOk(s, story, n, sent.report, state, true, page.sound.Some?);
    DrawingStep(s, n, page,
                Outgoing(s, n, sent.farewell, NO_STATE, false, false)
                + Outgoing(s, n, sent.report, state, true, page.sound.Some?), {freshId});
  }

  lemma LeaveStep(s: System, n: nat, freshId: string)
    requires Inv(s) && Enabled(s, Leave(n, freshId))
    ensures Inv(DoLeave(s, n, freshId).(tick := s.tick + 1))
  {
    var story := Draw(s.story, {freshId}, s.tick);
    PageKnowsDrawn(s, n, {freshId});
    ReleaseKeepsPage(story, s.sites[n].page, freshId);
    var (page, farewell) := ReleaseAudio(s.sites[n].page, freshId);
    OutgoingOk(s, story, n, farewell, NO_STATE, false, false);
    DrawingStep(s, n, page, Outgoing(s, n, farewell, NO_STATE, false, false), {freshId});
  }

  lemma LoseStep(s: System, msg: Msg, freshId: string)
    requires Inv(s) && Enabled(s, Lose(msg, freshId))
    ensures Inv(DoLose(s, msg, freshId).(tick := s.tick + 1))
  {
    var n, story := msg.site, Draw(s.story, {freshId}, s.tick);
    PageKnowsDrawn(s, n, {freshId});
    FailureKeepsPage(story, s.sites[n].page, msg.state, msg.report.displayId, msg.maintaining, freshId);
    var (page, farewell) := ReportFailed(s.sites[n].page, msg.state, msg.report.displayId, msg.maintaining, freshId);
    OutgoingOk(s, story, n, farewell, NO_STATE, false, false);
    DrawingStep(s, n, page, Outgoing(s, n, farewell, NO_STATE, false, false), {freshId});
  }

  lemma NothingDrawn(st: Story, tick: nat)
    ensures Draw(st, {}, tick) == st
  {
  }

  lemma AroundStep(s: System, n: nat, surroundings: Surroundings)
    requires Inv(s) && n in s.sites
    ensures Inv(PageMoved(s, n, Surround(s.sites[n].page, surroundings), {}, s.story).(tick := s.tick + 1))
  {
    var page := Surround(s.sites[n].page, surroundings);
    NothingDrawn(s.story, s.tick);
    assert PageOk(s.story, s.sites[n].page);
    assert PageOk(s.story, page);
    DrawingStep(s, n, page, {}, {});
  }

  lemma EndSoundStep(s: System, n: nat)
    requires Inv(s) && Enabled(s, EndSound(n))
    ensures Inv(DoEndSound(s, n).(tick := s.tick + 1))
  {
    var before := s.sites[n].page;
    var ended, state := before.(sound := None, status := Ended), before.sound.value.state;
    NothingDrawn(s.story, s.tick);
    assert PageOk(s.story, before);
    assert PageOk(s.story, ended);
    ReportKeepsPage(s.story, ended, state);
    DrawnIdsAreUnknown(s.story, s.clock, s.tick, {});
    var (page, report) := SoundEnded(before);
    OutgoingOk(s, s.story, n, report, state, false, false);
    DrawingStep(s, n, page, Outgoing(s, n, report, state, false, false), {});
  }

  ghost predicate Timely(st: Story, e: Execution) {
    && e.key.id in st.issues && e.key.displayId in st.issues[e.key.id].targets
    && e.key.scope == st.issues[e.key.id].scope && e.at < st.issues[e.key.id].at + EXECUTION_SECONDS
  }

  /** A command a page takes from a response was addressed to it, and is not yet due to be dropped. */
  lemma TakenCommand(s: System, answer: Answer)
    requires AnswerOk(s.story, s.net.msgs, answer) && MsgOk(s.story, s.clock, s.sites, answer.msg)
    requires TakenBy(s, answer).Some?
    ensures ViewOk(s.story, TakenBy(s, answer).value)
    ensures Timely(s.story, ExecutionOf(s, answer))
    ensures ExecutionOf(s, answer).key.id > s.sites[answer.msg.site].page.lastCommand
  {
  }

  lemma ToldExecutions(st: Story, tick: nat, e: Execution, sounds: bool)
    requires ExecutionsOk(st, tick) && e.tick == tick && Timely(st, e) && st.issues[e.key.id].tick < tick
    ensures ExecutionsOk(Told(st, e, sounds), tick + 1)
  {
    var after := Told(st, e, sounds);
    forall f | f in after.executions ensures ExecutionOk(after, tick + 1, f) {
      if f != e {
        assert ExecutionOk(st, tick, f);
      }
    }
    forall key | key in after.executed ensures Happened(after, key) {
      if key != e.key {
        assert Happened(st, key);
      }
    }
  }

  lemma ToldStory(st: Story, clock: real, tick: nat, e: Execution, sounds: bool)
    requires StoryOk(st, clock, tick) && e.tick == tick && Timely(st, e)
    ensures var after := Told(st, e, sounds);
            Extends(st, after) && StoryOk(after, clock, tick + 1)
  {
    var after := Told(st, e, sounds);
    assert Extends(st, after);
    assert st.issues[e.key.id].tick < tick by {
      assert IssueOk(st, clock, tick, st.issues[e.key.id]);
    }
    hide IssuesOk, IdsOk, ExecutionsOk, DropsOk, Extends;
    ToldExecutions(st, tick, e, sounds);
    IssuesStay(st, after, clock, clock, tick);
    IdsStay(st, after, tick);
    DropsStay(st, after);
  }

  lemma ToldInOrder(st: Story, clock: real, sites: map<nat, Site>, page: Page, e: Execution, sounds: bool)
    requires OrderOk(st, sites) && StoryOk(st, clock, e.tick)
    requires e.site in sites && e.key.id > sites[e.site].page.lastCommand && page.lastCommand == e.key.id
    ensures OrderOk(Told(st, e, sounds), sites[e.site := sites[e.site].(page := page)])
  {
    var after := Told(st, e, sounds);
    forall f, g | f in after.executions && g in after.executions ensures InOrder(f, g) {
      if f in st.executions {
        assert ExecutionOk(st, e.tick, f);
      }
      if g in st.executions {
        assert ExecutionOk(st, e.tick, g);
      }
    }
  }

  lemma SettledPage(st: Story, p: Page, reportingId: string, maintaining: bool)
    requires PageOk(st, p)
    ensures var q := Settled(p, reportingId, maintaining);
            PageOk(st, q) && q.lastCommand == p.lastCommand && q.displayId == p.displayId && q.sound == p.sound
  {
  }

  lemma NotTakenPage(st: Story, p: Page, answer: Answer, now: real, hasBuffer: bool, starts: bool)
    requires PageOk(st, p) && Taken(p, answer, now).None?
    ensures var (q, report) := Answered(p, answer, now, hasBuffer, starts);
            PageOk(st, q) && q.lastCommand >= p.lastCommand && q.displayId == p.displayId && report.None?
  {
    var msg := answer.msg;
    var command := StillValid(answer.playback, msg.started, now);
    if msg.maintaining && MayProcess(p, msg.state, msg.report.displayId) {
      ProcessKeepsPage(st, p, command, msg.state, hasBuffer, starts);
      SettledPage(st, ProcessCommand(p, command, msg.state, hasBuffer, starts).0, msg.report.displayId,
          msg.maintaining);
    } else {
      SettledPage(st, p, msg.report.displayId, msg.maintaining);
    }
  }

  lemma TakenPage(st: Story, p: Page, answer: Answer, now: real, hasBuffer: bool, starts: bool)
    requires PageOk(st, p) && Taken(p, answer, now).Some?
    requires var v := Taken(p, answer, now).value;
             var key := Key(p.displayId, v.id, v.scope);
             && ViewOk(st, v) && key in st.executed
             && (Sounds(p, v, answer.msg.state, hasBuffer, starts) ==> key in st.sounded)
    ensures var (q, report) := Answered(p, answer, now, hasBuffer, starts);
            PageOk(st, q) && q.lastCommand == Taken(p, answer, now).value.id && q.displayId == p.displayId
            && SentOk(st, report, q.sound.Some?)
  {
    var msg, command := answer.msg, Taken(p, answer, now);
    ProcessKeepsPage(st, p, command, msg.state, hasBuffer, starts);
    SettledPage(st, ProcessCommand(p, command, msg.state, hasBuffer, starts).0, msg.report.displayId, msg.maintaining);
  }

  lemma HearNothing(s: System, answer: Answer, hasBuffer: bool, starts: bool)
    requires answer.msg.site in s.sites && TakenBy(s, answer).None?
    requires PageOk(s.story, s.sites[answer.msg.site].page)
    ensures var (page, report) := AfterHear(s, answer, hasBuffer, starts);
            && PageOk(s.story, page) && page.lastCommand >= s.sites[answer.msg.site].page.lastCommand && report.None?
            && AfterHearing(s, answer, hasBuffer, starts) == s.story
  {
    var p, now := s.sites[answer.msg.site].page, s.clock + s.sites[answer.msg.site].offset;
    assert TakenBy(s, answer) == Taken(p, answer, now);
    NotTakenPage(s.story, p, answer, now, hasBuffer, starts);
    assert AfterHear(s, answer, hasBuffer, starts) == Answered(p, answer, now, hasBuffer, starts);
  }

  lemma HearTakenStory(s: System, answer: Answer, hasBuffer: bool, starts: bool)
    requires answer.msg.site in s.sites && TakenBy(s, answer).Some?
    requires AnswerOk(s.story, s.net.msgs, answer) && MsgOk(s.story, s.clock, s.sites, answer.msg)
    requires StoryOk(s.story, s.clock, s.tick)
    ensures var story := AfterHearing(s, answer, hasBuffer, starts);
            Extends(s.story, story) && StoryOk(story, s.clock, s.tick + 1)
  {
    hide Taken, TakenBy, Sounds, Told, AnswerOk, MsgOk, StoryOk, Extends, Timely, ViewOk;
    TakenCommand(s, answer);
    var e := ExecutionOf(s, answer);
    var sounds := Sounds(s.sites[answer.msg.site].page, TakenBy(s, answer).value, answer.msg.state, hasBuffer, starts);
    assert AfterHearing(s, answer, hasBuffer, starts) == Told(s.story, e, sounds);
    ToldStory(s.story, s.clock, s.tick, e, sounds);
  }

  lemma HearTakenPage(s: System, answer: Answer, hasBuffer: bool, starts: bool)
    requires answer.msg.site in s.sites && TakenBy(s, answer).Some?
    requires AnswerOk(s.story, s.net.msgs, answer) && MsgOk(s.story, s.clock, s.sites, answer.msg)
    requires PageOk(AfterHearing(s, answer, hasBuffer, starts), s.sites[answer.msg.site].page)
    ensures var story := AfterHearing(s, answer, hasBuffer, starts);
            var (page, report) := AfterHear(s, answer, hasBuffer, starts);
            && PageOk(story, page) && SentOk(story, report, page.sound.Some?)
            && page.lastCommand == ExecutionOf(s, answer).key.id > s.sites[answer.msg.site].page.lastCommand
  {
    var site := s.sites[answer.msg.site];
    TakenCommand(s, answer);
    TakenPage(AfterHearing(s, answer, hasBuffer, starts), site.page, answer, s.clock + site.offset, hasBuffer, starts);
  }

  lemma HearStep(s: System, answer: Answer, hasBuffer: bool, starts: bool)
    requires Inv(s) && Enabled(s, Hear(answer, hasBuffer, starts))
    ensures Inv(DoHear(s, answer, hasBuffer, starts).(tick := s.tick + 1))
  {
    var n, state, story := answer.msg.site, answer.msg.state, AfterHearing(s, answer, hasBuffer, starts);
    var (page, report) := AfterHear(s, answer, hasBuffer, starts);
    if TakenBy(s, answer).None? {
      NothingDrawn(s.story, s.tick);
      HearNothing(s, answer, hasBuffer, starts);
      DrawingStep(s, n, page, {}, {});
    } else {
      assert AnswerOk(s.story, s.net.msgs, answer);
      assert MsgOk(s.story, s.clock, s.sites, answer.msg);
      HearTakenStory(s, answer, hasBuffer, starts);
      PageStays(s.story, story, s.sites[n].page);
      HearTakenPage(s, answer, hasBuffer, starts);
      ToldInOrder(s.story, s.clock, s.sites, page, ExecutionOf(s, answer),
                  Sounds(s.sites[n].page, TakenBy(s, answer).value, state, hasBuffer, starts));
      OutgoingOk(s, story, n, report, state, false, page.sound.Some?);
      PageStep(s, n, page, Outgoing(s, n, report, state, false, page.sound.Some?), story);
    }
  }

  /** What the story records is what the page does: it obeys the command it takes, and nothing else. */
  lemma PageObeysWhatItTakes(p: Page, answer: Answer, now: real, hasBuffer: bool, starts: bool)
    ensures var q := Answered(p, answer, now, hasBuffer, starts).0;
            match Taken(p, answer, now)
            case Some(v) => q.currentCommand == v.id && q.lastCommand == v.id
                            && (q.sound.Some? <==> Sounds(p, v, answer.msg.state, hasBuffer, starts))
                            && (q.status == Playing <==> Sounds(p, v, answer.msg.state, hasBuffer, starts))
            case None => q.currentCommand == p.currentCommand && q.sound == p.sound && q.status == p.status
  {
    ProcessObeys(p, StillValid(answer.playback, answer.msg.started, now), answer.msg.state, hasBuffer, starts);
    hide ProcessCommand, Executes, Sounds;
  }

  lemma ProcessObeys(p: Page, command: Option<PlaybackView>, state: StateView, hasBuffer: bool, starts: bool)
    ensures var q := ProcessCommand(p, command, state, hasBuffer, starts).0;
            if command.Some? && Executes(p, command.value, state)
            then q.currentCommand == command.value.id && q.lastCommand == command.value.id
                 && (q.sound.Some? <==> Sounds(p, command.value, state, hasBuffer, starts))
                 && (q.status == Playing <==> Sounds(p, command.value, state, hasBuffer, starts))
            else q.currentCommand == p.currentCommand && q.sound == p.sound && q.status == p.status
  {
    if command.Some? && Executes(p, command.value, state) {
      var q := Obey(p, command.value, state, hasBuffer, starts);
      assert ReportAudio(q, state).0.currentCommand == q.currentCommand;
    }
  }

  // ---- Steps of the server ----

  /** What the story's growth leaves as it was, whatever the step. */
  lemma EverythingStays(s: System, story: Story, clock: real)
    requires SitesOk(s.story, s.sites) && NetOk(s.story, s.clock, s.sites, s.net)
    requires WaitersOk(s.story, s.clock, s.net.msgs, s.waiters)
    requires Extends(s.story, story) && s.clock <= clock
    ensures SitesOk(story, s.sites) && NetOk(story, clock, s.sites, s.net)
    ensures WaitersOk(story, clock, s.net.msgs, s.waiters)
  {
    forall n | n in s.sites ensures PageOk(story, s.sites[n].page) {
      PageStays(s.story, story, s.sites[n].page);
    }
    NetStays(s.story, story, s.clock, clock, s.sites, s.sites, s.net);
    WaitersStay(s.story, story, s.clock, clock, s.net.msgs, s.net.msgs, s.waiters);
  }

  lemma ExtendsItself(st: Story)
    ensures Extends(st, st)
  {
  }

  /** Steps that only move the clock, the stage, the probe counter or the states served. */
  lemma QuietStep(s: System, t: System)
    requires Inv(s) && s.clock <= t.clock && t.tick == s.tick + 1 && t.story == s.story && t.sites == s.sites
    requires t.net == s.net.(states := t.net.states) && t.waiters == s.waiters
    requires t.server.desk == s.server.desk && t.server.receipts.reports == s.server.receipts.reports
    ensures Inv(t)
  {
    hide SitesOk, NetOk, ReceiptsOk, DeskOk, WaitersOk, StoryOk, AcksOk, OrderOk, Extends;
    ExtendsItself(s.story);
    EverythingStays(s, s.story, t.clock);
    NetIgnoresStates(s.story, t.clock, s.sites, s.net, t.net.states);
    StoryStays(s.story, s.story, s.clock, t.clock, s.tick);
    SameReceipts(s.net, t.net, s.server.receipts, t.server.receipts);
  }

  lemma NetIgnoresStates(st: Story, clock: real, sites: map<nat, Site>, net: Net, states: set<StateView>)
    requires NetOk(st, clock, sites, net)
    ensures NetOk(st, clock, sites, net.(states := states))
  {
  }

  lemma SameReceipts(a: Net, b: Net, before: Receipts, after: Receipts)
    requires ReceiptsOk(a, before) && after.reports == before.reports && a.msgs == b.msgs && a.recorded == b.recorded
    ensures ReceiptsOk(b, after)
  {
    forall d | d in after.reports ensures ReceiptOk(b, d, after.reports[d]) {
      assert ReceiptOk(a, d, before.reports[d]);
    }
  }

  lemma OpenSites(a: Story, b: Story, sites: map<nat, Site>, n: nat, site: Site)
    requires SitesOk(a, sites) && OrderOk(a, sites) && n !in sites && PageOk(b, site.page)
    requires Extends(a, b) && a.executions == b.executions
    ensures SitesOk(b, sites[n := site]) && OrderOk(b, sites[n := site])
  {
    var after := sites[n := site];
    forall k | k in after ensures PageOk(b, after[k].page) {
      if k != n {
        PageStays(a, b, sites[k].page);
      }
    }
    OrderStays(a, b, sites, after);
  }

  lemma OpenStep(s: System, n: nat, displayId: string, key: string, offset: real)
    requires Inv(s) && Enabled(s, Open(n, displayId, key, offset))
    ensures Inv(DoOpen(s, n, displayId, key, offset).(tick := s.tick + 1))
  {
    hide SitesOk, NetOk, ReceiptsOk, DeskOk, WaitersOk, StoryOk, AcksOk, OrderOk, Extends;
    var story, site := Draw(s.story, {displayId}, s.tick), Site(NewPage(displayId, key), offset);
    DrawnIdsAreUnknown(s.story, s.clock, s.tick, {displayId});
    OpenSites(s.story, story, s.sites, n, site);
    NetStays(s.story, story, s.clock, s.clock, s.sites, s.sites[n := site], s.net);
    BystandersStay(s, story, s.net);
  }

  // An accepted report.

  lemma DeliveredDesk(a: Story, b: Story, stage: Stage, desk: Desk, req: Report, stamp: real)
    requires DeskOk(a, desk) && Extends(a, b) && a.issues == b.issues
    requires AudioReport(stage, desk, req, stamp).1 == Accepted ==> req.displayId in b.registered
    ensures DeskOk(b, AudioReport(stage, desk, req, stamp).0)
  {
    DeskStays(a, b, desk);
  }

  lemma RegisteredIds(st: Story, tick: nat, d: string, outcome: Outcome)
    requires IdsOk(st, tick) && d in st.drawn
    ensures IdsOk(Register(st, d, outcome, tick), tick + 1)
  {
    var after := Register(st, d, outcome, tick);
    forall k | k in after.registered ensures RegistrationOk(after, tick + 1, k) {
      if k in st.registered {
        assert RegistrationOk(st, tick, k);
      }
    }
  }

  lemma Registered(st: Story, clock: real, tick: nat, d: string, outcome: Outcome)
    requires StoryOk(st, clock, tick) && d in st.drawn
    ensures var after := Register(st, d, outcome, tick);
            Extends(st, after) && StoryOk(after, clock, tick + 1)
  {
    var after := Register(st, d, outcome, tick);
    assert Extends(st, after);
    hide IssuesOk, IdsOk, ExecutionsOk, DropsOk, Extends;
    RegisteredIds(st, tick, d, outcome);
    IssuesStay(st, after, clock, clock, tick);
    ExecutionsStay(st, after, tick);
    DropsStay(st, after);
  }

  /** A response offers the command as the server has it, and only for the rest of its four seconds. */
  lemma OfferedCommand(st: Story, clock: real, stage: Stage, desk: Desk, since: real)
    requires DeskOk(st, desk) && since <= clock
    ensures ViewOf(stage, desk, clock).Some? ==> OfferOk(st, ViewOf(stage, desk, clock).value, since)
  {
    PlaybackIsNewest(stage, desk, clock);
    var current := Playback(stage, desk, clock);
    if current.Some? {
      assert CommandOk(st, current.value, desk.commands[current.value]);
    }
  }

  lemma MoreAnswers(st: Story, clock: real, sites: map<nat, Site>, net: Net, after: Net, answer: Answer,
                    acceptance: Acceptance)
    requires NetOk(st, clock, sites, net) && AnswerOk(st, net.msgs, answer) && AcceptanceOk(net.msgs, acceptance)
    requires after.msgs == net.msgs && after.answers == net.answers + {answer}
    requires after.accepted <= net.accepted + {acceptance}
    ensures NetOk(st, clock, sites, after)
  {
  }

  lemma DeliverStep(s: System, msg: Msg, stamp: real)
    requires Inv(s) && Enabled(s, Deliver(msg, stamp))
    ensures Inv(DoDeliver(s, msg, stamp).(tick := s.tick + 1))
  {
    assert MsgOk(s.story, s.clock, s.sites, msg);
    if AudioReport(s.server.stage, s.server.desk, msg.report, stamp).1.Refused? {
      QuietStep(s, s.(tick := s.tick + 1));
    } else {
      AnsweredStep(s, msg, stamp);
    }
  }

  lemma AnsweredStep(s: System, msg: Msg, stamp: real)
    requires Inv(s) && MsgOk(s.story, s.clock, s.sites, msg) && msg in s.net.msgs
    requires !AudioReport(s.server.stage, s.server.desk, msg.report, stamp).1.Refused?
    ensures Inv(DoDeliver(s, msg, stamp).(tick := s.tick + 1))
  {
    hide SitesOk, NetOk, ReceiptsOk, DeskOk, WaitersOk, StoryOk, AcksOk, OrderOk, Extends;
    var (desk, outcome) := AudioReport(s.server.stage, s.server.desk, msg.report, stamp);
    var story := Register(s.story, msg.report.displayId, outcome, s.tick);
    var net := DoDeliver(s, msg, stamp).net;
    Registered(s.story, s.clock, s.tick, msg.report.displayId, outcome);
    DeliveredDesk(s.story, story, s.server.stage, s.server.desk, msg.report, stamp);
    EverythingStays(s, story, s.clock);
    OfferedCommand(story, s.clock, s.server.stage, desk, msg.started - msg.offset);
    MoreAnswers(story, s.clock, s.sites, s.net, net, Answer(msg, ViewOf(s.server.stage, desk, s.clock)),
                AcceptanceOf(s.server.stage, msg));
    OrderStays(s.story, story, s.sites, s.sites);
    AcksStay(s.story, story, s.net.msgs, s.net.msgs);
    SameReceipts(s.net, net, s.server.receipts, s.server.receipts);
  }

  // A receipt.

  lemma ReceivedReceipts(net: Net, receipts: Receipts, acceptance: Acceptance, now: real, victim: string, after: Net)
    requires ReceiptsOk(net, receipts) && AcceptanceOk(net.msgs, acceptance) && after.msgs == net.msgs
    requires var msg := acceptance.msg;
             after.recorded == if acceptance.active && msg.report.probeNo <= receipts.probeNo
                               then net.recorded[msg.report.displayId := msg] else net.recorded
    ensures ReceiptsOk(after, Record(receipts, acceptance.msg.report, acceptance.active, now, victim))
  {
    var r := Record(receipts, acceptance.msg.report, acceptance.active, now, victim);
    forall d | d in r.reports ensures ReceiptOk(after, d, r.reports[d]) {
      if d in receipts.reports {
        assert ReceiptOk(net, d, receipts.reports[d]);
      }
    }
  }

  lemma NetIgnoresRecords(st: Story, clock: real, sites: map<nat, Site>, net: Net, recorded: map<string, Msg>)
    requires NetOk(st, clock, sites, net)
    ensures NetOk(st, clock, sites, net.(recorded := recorded))
  {
  }

  lemma ReceiveStep(s: System, acceptance: Acceptance, victim: string)
    requires Inv(s) && Enabled(s, Receive(acceptance, victim))
    ensures Inv(DoReceive(s, acceptance, victim).(tick := s.tick + 1))
  {
    assert AcceptanceOk(s.net.msgs, acceptance) by {
      assert NetOk(s.story, s.clock, s.sites, s.net);
    }
    hide SitesOk, NetOk, ReceiptsOk, DeskOk, WaitersOk, StoryOk, AcksOk, OrderOk, Extends;
    var net := DoReceive(s, acceptance, victim).net;
    ReceivedReceipts(s.net, s.server.receipts, acceptance, s.clock, victim, net);
    NetIgnoresRecords(s.story, s.clock, s.sites, s.net, net.recorded);
    ExtendsItself(s.story);
    StoryStays(s.story, s.story, s.clock, s.clock, s.tick);
  }

  // A command.

  lemma IssuedIssues(st: Story, clock: real, tick: nat, id: nat, issue: Issuance)
    requires IssuesOk(st, clock, tick) && IdsOk(st, tick)
    requires issue.at <= clock && issue.tick == tick && forall d | d in issue.targets :: d in st.registered
    ensures IssuesOk(st.(issues := st.issues[id := issue]), clock, tick + 1)
  {
    var after := st.(issues := st.issues[id := issue]);
    forall i | i in after.issues ensures IssueOk(after, clock, tick + 1, after.issues[i]) {
      if i != id {
        assert IssueOk(st, clock, tick, st.issues[i]);
      }
    }
  }

  lemma IssuedStory(st: Story, clock: real, tick: nat, id: nat, issue: Issuance)
    requires StoryOk(st, clock, tick) && id !in st.issues
    requires issue.at <= clock && issue.tick == tick && forall d | d in issue.targets :: d in st.registered
    ensures var after := st.(issues := st.issues[id := issue]);
            Extends(st, after) && StoryOk(after, clock, tick + 1)
  {
    var after := st.(issues := st.issues[id := issue]);
    assert Extends(st, after);
    hide IssuesOk, IdsOk, ExecutionsOk, DropsOk, Extends;
    IssuedIssues(st, clock, tick, id, issue);
    IdsStay(st, after, tick);
    ExecutionsStay(st, after, tick);
    DropsStay(st, after);
  }

  lemma IssuedDesk(st: Story, desk: Desk, c: Command, tick: nat)
    requires DeskOk(st, desk)
    ensures var issue := Issuance(c.scope, c.operation, c.displayIds, c.issuedAt, tick);
            DeskOk(st.(issues := st.issues[desk.lastId + 1 := issue]), Issue(desk, c))
  {
    var id, after := desk.lastId + 1, Issue(desk, c);
    var story := st.(issues := st.issues[id := Issuance(c.scope, c.operation, c.displayIds, c.issuedAt, tick)]);
    forall i | i in after.commands ensures CommandOk(story, i, after.commands[i]) {
      if i != id {
        assert CommandOk(st, i, desk.commands[i]);
      }
    }
  }

  lemma OperateStep(s: System, request: CommandRequest, greetings: map<string, string>, stamp: real)
    requires Inv(s) && Enabled(s, Operate(request, greetings, stamp))
    ensures Inv(DoOperate(s, request, greetings, stamp).(tick := s.tick + 1))
  {
    var server := s.server;
    var verdict := Judge(server.stage, server.desk, server.receipts, greetings, request, stamp, s.clock);
    if verdict.Grant? {
      GrantedCommand(server.stage, server.desk, server.receipts, greetings, request, stamp, s.clock);
      IssueStep(s, verdict.command, DoOperate(s, request, greetings, stamp).(tick := s.tick + 1));
    } else {
      QuietStep(s, s.(tick := s.tick + 1));
    }
  }

  lemma NewTargets(st: Story, desk: Desk, c: Command)
    requires DeskOk(st, desk) && c.displayIds <= desk.displays.Keys
    ensures desk.lastId + 1 !in st.issues && forall d | d in c.displayIds :: d in st.registered
  {
  }

  lemma IssueStep(s: System, c: Command, t: System)
    requires Inv(s) && c.issuedAt <= s.clock && c.displayIds <= s.server.desk.displays.Keys
    requires var issue := Issuance(c.scope, c.operation, c.displayIds, c.issuedAt, s.tick);
             t == s.(server := s.server.(desk := Issue(s.server.desk, c)), tick := s.tick + 1,
                     story := s.story.(issues := s.story.issues[s.server.desk.lastId + 1 := issue]))
    ensures Inv(t)
  {
    hide SitesOk, NetOk, ReceiptsOk, DeskOk, WaitersOk, StoryOk, AcksOk, OrderOk, Extends, Issue;
    var id := s.server.desk.lastId + 1;
    NewTargets(s.story, s.server.desk, c);
    IssuedStory(s.story, s.clock, s.tick, id, Issuance(c.scope, c.operation, c.displayIds, c.issuedAt, s.tick));
    IssuedDesk(s.story, s.server.desk, c, s.tick);
    EverythingStays(s, t.story, s.clock);
    AcksStay(s.story, t.story, s.net.msgs, s.net.msgs);
    SameReceipts(s.net, s.net, s.server.receipts, s.server.receipts);
    OrderIsOfExecutions(s.story, t.story, s.sites);
  }

  lemma OrderIsOfExecutions(a: Story, b: Story, sites: map<nat, Site>)
    requires OrderOk(a, sites) && a.executions == b.executions
    ensures OrderOk(b, sites)
  {
  }

  // Confirmation.

  /** A step that changes the desk and the waiters, and may acknowledge or drop a command. */
  lemma DeskStep(s: System, desk: Desk, waiters: map<nat, Waiter>, acks: set<Ack>, drops: set<Drop>)
    requires Inv(s) && DeskOk(s.story, desk) && WaitersOk(s.story, s.clock, s.net.msgs, waiters)
    requires acks >= s.story.acks && forall a | a in acks - s.story.acks :: AckOk(s.story, s.net.msgs, a)
    requires drops >= s.story.drops && forall d | d in drops - s.story.drops :: DropOk(s.story, d)
    ensures Inv(s.(server := s.server.(desk := desk), waiters := waiters, tick := s.tick + 1,
                   story := s.story.(acks := acks, drops := drops)))
  {
    var story := s.story.(acks := acks, drops := drops);
    assert Extends(s.story, story);
    NewAcks(s.story, story, s.net.msgs);
    assert forall d | d in drops - s.story.drops :: DropOk(story, d);
    hide SitesOk, NetOk, ReceiptsOk, DeskOk, WaitersOk, StoryOk, AcksOk, OrderOk, Extends;
    EverythingStays(s, story, s.clock);
    WaitersStay(s.story, story, s.clock, s.clock, s.net.msgs, s.net.msgs, waiters);
    StoryStays(s.story, story, s.clock, s.clock, s.tick);
    DeskStays(s.story, story, desk);
    OrderIsOfExecutions(s.story, story, s.sites);
  }

  lemma NewAcks(a: Story, b: Story, msgs: set<Msg>)
    requires Extends(a, b) && AcksOk(a, msgs) && forall k | k in b.acks - a.acks :: AckOk(a, msgs, k)
    ensures AcksOk(b, msgs)
  {
    forall k | k in b.acks ensures AckOk(b, msgs, k) {
      assert AckOk(a, msgs, k) by {
        if k in a.acks {
          assert AcksOk(a, msgs);
        }
      }
      EvidenceStays(a, b, msgs, msgs, k.confirmed, k.id, k.scope, k.operation);
    }
  }

  lemma ConfirmStep(s: System, w: nat, scope: Scope, id: nat)
    requires Inv(s) && Enabled(s, Confirm(w, scope, id))
    ensures Inv(DoConfirm(s, w, scope, id).(tick := s.tick + 1))
  {
    assert IssueOk(s.story, s.clock, s.tick, s.story.issues[id]);
    DeskStep(s, s.server.desk, s.waiters[w := Waiter(scope, id, s.clock + CONFIRM_SECONDS, Looking)], s.story.acks,
             s.story.drops);
  }

  lemma LookStep(s: System, w: nat)
    requires Inv(s) && Enabled(s, Look(w))
    ensures Inv(DoLook(s, w).(tick := s.tick + 1))
  {
    var waiters := DoLook(s, w).waiters;
    forall k | k in waiters ensures WaiterOk(s.story, s.clock, s.net.msgs, waiters[k]) {
      assert WaiterOk(s.story, s.clock, s.net.msgs, s.waiters[k]);
      if s.waiters[w].id in s.server.desk.commands {
        assert CommandOk(s.story, s.waiters[w].id, s.server.desk.commands[s.waiters[w].id]);
      }
    }
    DeskStep(s, s.server.desk, waiters, s.story.acks, s.story.drops);
  }

  /** A receipt that confirms a command proves what its display did. */
  lemma ConfirmedIsProved(st: Story, clock: real, sites: map<nat, Site>, net: Net, receipts: Receipts, c: Command,
                          id: nat, d: string)
    requires NetOk(st, clock, sites, net) && ReceiptsOk(net, receipts) && CommandOk(st, id, c) && id > 0
    requires d in Confirmed(receipts, c, c.scope, id)
    ensures Evidence(st, net.msgs, d, id, c.scope, c.operation)
  {
    assert ReceiptOk(net, d, receipts.reports[d]);
    var m := net.recorded[d];
    assert MsgOk(st, clock, sites, m);
    assert Proves(st, m, d, id, c.scope, c.operation);
  }

  lemma EvaluatedAcks(s: System, w: nat)
    requires NetOk(s.story, s.clock, s.sites, s.net) && ReceiptsOk(s.net, s.server.receipts)
    requires Enabled(s, Evaluate(w)) && WaiterOk(s.story, s.clock, s.net.msgs, s.waiters[w]) && s.waiters[w].id > 0
    ensures var t := DoEvaluate(s, w);
            && t.story.acks >= s.story.acks
            && (forall a | a in t.story.acks - s.story.acks :: AckOk(s.story, s.net.msgs, a))
            && (w in t.waiters ==> WaiterOk(s.story, s.clock, s.net.msgs, t.waiters[w]))
  {
    var waiter := s.waiters[w];
    if waiter.phase.found.Some? && waiter.phase.found.value.scope == waiter.scope {
      var c := waiter.phase.found.value;
      forall d | d in Confirmed(s.server.receipts, c, waiter.scope, waiter.id)
        ensures Evidence(s.story, s.net.msgs, d, waiter.id, waiter.scope, c.operation)
      {
        ConfirmedIsProved(s.story, s.clock, s.sites, s.net, s.server.receipts, c, waiter.id, d);
      }
    }
  }

  lemma WaiterUpdated(s: System, w: nat, waiters: map<nat, Waiter>)
    requires WaitersOk(s.story, s.clock, s.net.msgs, s.waiters) && waiters.Keys <= s.waiters.Keys
    requires w in waiters ==> WaiterOk(s.story, s.clock, s.net.msgs, waiters[w])
    requires forall k | k in waiters && k != w :: waiters[k] == s.waiters[k]
    ensures WaitersOk(s.story, s.clock, s.net.msgs, waiters)
  {
    forall k | k in waiters ensures WaiterOk(s.story, s.clock, s.net.msgs, waiters[k]) {
      assert WaiterOk(s.story, s.clock, s.net.msgs, s.waiters[k]);
    }
  }

  lemma WaiterFacts(s: System, w: nat)
    requires DeskOk(s.story, s.server.desk) && WaitersOk(s.story, s.clock, s.net.msgs, s.waiters) && w in s.waiters
    ensures WaiterOk(s.story, s.clock, s.net.msgs, s.waiters[w]) && s.waiters[w].id > 0
  {
  }

  lemma EvaluateStep(s: System, w: nat)
    requires Inv(s) && Enabled(s, Evaluate(w))
    ensures Inv(DoEvaluate(s, w).(tick := s.tick + 1))
  {
    hide SitesOk, NetOk, ReceiptsOk, DeskOk, WaiterOk, WaitersOk, StoryOk, AckOk, AcksOk, OrderOk, Extends;
    var t := DoEvaluate(s, w);
    WaiterFacts(s, w);
    EvaluatedAcks(s, w);
    WaiterUpdated(s, w, t.waiters);
    DeskStep(s, s.server.desk, t.waiters, t.story.acks, s.story.drops);
  }

  // Cancellation and recovery.

  lemma CancelledDesk(st: Story, stage: Stage, desk: Desk, scope: Scope, id: nat, confirmed: set<string>, now: real)
    requires DeskOk(st, desk) && id in st.issues && confirmed <= st.issues[id].targets
    ensures DeskOk(st, CancelUnconfirmed(stage, desk, scope, id, confirmed, now))
  {
    PlaybackIsNewest(stage, desk, now);
    var after := CancelUnconfirmed(stage, desk, scope, id, confirmed, now);
    forall i | i in after.commands ensures CommandOk(st, i, after.commands[i]) {
      assert CommandOk(st, i, desk.commands[i]);
    }
  }

  lemma CancelledStory(s: System, w: nat)
    requires Enabled(s, Cancel(w)) && WaiterOk(s.story, s.clock, s.net.msgs, s.waiters[w])
    ensures var t := DoCancel(s, w);
            && t.story.acks >= s.story.acks && t.story.drops >= s.story.drops
            && (forall a | a in t.story.acks - s.story.acks :: AckOk(s.story, s.net.msgs, a))
            && (forall d | d in t.story.drops - s.story.drops :: DropOk(s.story, d))
  {
  }

  lemma CancelStep(s: System, w: nat)
    requires Inv(s) && Enabled(s, Cancel(w))
    ensures Inv(DoCancel(s, w).(tick := s.tick + 1))
  {
    hide SitesOk, NetOk, ReceiptsOk, DeskOk, WaitersOk, StoryOk, AckOk, AcksOk, OrderOk, DropOk, Extends;
    var t, waiter := DoCancel(s, w), s.waiters[w];
    WaiterFacts(s, w);
    CancelledStory(s, w);
    CancelledDesk(s.story, s.server.stage, s.server.desk, waiter.scope, waiter.id, waiter.phase.confirmed, s.clock);
    WaiterUpdated(s, w, t.waiters);
    DeskStep(s, t.server.desk, t.waiters, t.story.acks, t.story.drops);
  }

  lemma ReconnectedDesk(st: Story, stage: Stage, desk: Desk, scope: Scope, now: real)
    requires DeskOk(st, desk)
    ensures DeskOk(st, Recover(stage, desk, scope, now).0)
  {
    var after := Recover(stage, desk, scope, now).0;
    forall i | i in after.commands ensures CommandOk(st, i, after.commands[i]) {
      assert CommandOk(st, i, desk.commands[i]);
    }
  }

  lemma ReconnectStep(s: System, scope: Scope)
    requires Inv(s)
    ensures Inv(DoReconnect(s, scope).(tick := s.tick + 1))
  {
    ReconnectedDesk(s.story, s.server.stage, s.server.desk, scope, s.clock);
    DeskStep(s, DoReconnect(s, scope).server.desk, s.waiters, s.story.acks, s.story.drops);
  }

  // ---- Every run ----

  lemma QuietLabel(s: System, l: Label)
    requires Inv(s) && Enabled(s, l) && (l.Elapse? || l.Restage? || l.ServeState? || l.ProbeAll?)
    ensures Inv(Next(s, l))
  {
    hide Inv;
    QuietStep(s, Next(s, l));
  }

  predicate OfPage(l: Label) {
    l.Open? || l.Leave? || l.Around? || l.EndSound? || l.Arrive? || l.Visit? || l.Lose? || l.Hear?
  }

  lemma PageLabel(s: System, l: Label)
    requires Inv(s) && Enabled(s, l) && OfPage(l)
    ensures Inv(Next(s, l))
  {
    hide Inv;
    hide DoOpen, DoArrive, DoVisit, DoLeave, DoEndSound, DoHear, DoLose, PageMoved;
    if l.Open? {
      OpenStep(s, l.n, l.displayId, l.key, l.offset);
    } else if l.Arrive? {
      ArriveStep(s, l.n, l.state, l.recovery, l.recoveryId, l.freshId);
    } else if l.Visit? {
      VisitStep(s, l.n, l.freshId);
    } else if l.Leave? {
      LeaveStep(s, l.n, l.freshId);
    } else if l.Around? {
      AroundStep(s, l.n, l.surroundings);
    } else if l.EndSound? {
      EndSoundStep(s, l.n);
    } else if l.Hear? {
      HearStep(s, l.answer, l.hasBuffer, l.starts);
    } else {
      LoseStep(s, l.msg, l.freshId);
    }
  }

  lemma WaiterLabel(s: System, l: Label)
    requires Inv(s) && Enabled(s, l) && (l.Confirm? || l.Look? || l.Evaluate? || l.Cancel?)
    ensures Inv(Next(s, l))
  {
    hide Inv;
    hide DoConfirm, DoLook, DoEvaluate, DoCancel;
    if l.Confirm? {
      ConfirmStep(s, l.w, l.scope, l.id);
    } else if l.Look? {
      LookStep(s, l.w);
    } else if l.Evaluate? {
      EvaluateStep(s, l.w);
    } else {
      CancelStep(s, l.w);
    }
  }

  lemma HandlerLabel(s: System, l: Label)
    requires Inv(s) && Enabled(s, l) && (l.Deliver? || l.Receive? || l.Operate? || l.Reconnect?)
    ensures Inv(Next(s, l))
  {
    hide Inv;
    hide DoDeliver, DoReceive, DoOperate, DoReconnect, IsVictim;
    if l.Deliver? {
      DeliverStep(s, l.msg, l.stamp);
    } else if l.Receive? {
      ReceiveStep(s, l.acceptance, l.victim);
    } else if l.Operate? {
      OperateStep(s, l.request, l.greetings, l.stamp);
    } else {
      ReconnectStep(s, l.scope);
    }
  }

  lemma NextKeepsInv(s: System, l: Label)
    requires Inv(s)
    ensures Inv(Next(s, l))
  {
    hide Inv, Do;
    if Enabled(s, l) {
      if OfPage(l) {
        PageLabel(s, l);
      } else if l.Elapse? || l.Restage? || l.ServeState? || l.ProbeAll? {
        QuietLabel(s, l);
      } else if l.Deliver? || l.Receive? || l.Operate? || l.Reconnect? {
        HandlerLabel(s, l);
      } else {
        WaiterLabel(s, l);
      }
    }
  }

  lemma {:induction false} RunKeepsInv(labels: seq<Label>)
    ensures Inv(Run(labels))
  {
    if labels != [] {
      RunKeepsInv(labels[..|labels| - 1]);
      NextKeepsInv(Run(labels[..|labels| - 1]), labels[|labels| - 1]);
    }
  }

  // ---- What this means ----

  /** Whatever cancels a command, and however late its response arrives, it is executed within four seconds or never. */
  lemma ExecutionsAreTimely(labels: seq<Label>, e: Execution)
    requires e in Run(labels).story.executions
    ensures var issues := Run(labels).story.issues;
            e.key.id in issues && e.key.scope == issues[e.key.id].scope
                && e.at < issues[e.key.id].at + EXECUTION_SECONDS
  {
    RunKeepsInv(labels);
    var s := Run(labels);
    assert ExecutionOk(s.story, s.tick, e);
  }

  /** No display starts a command at or after the moment an unconfirmed command is dropped: they stop before it. */
  lemma NoExecutionOnceDropped(labels: seq<Label>, e: Execution, d: Drop)
    requires var story := Run(labels).story; e in story.executions && d in story.drops && e.key.id == d.id
    ensures e.at < d.at
  {
    RunKeepsInv(labels);
    var s := Run(labels);
    assert ExecutionOk(s.story, s.tick, e);
    assert DropOk(s.story, d);
  }

  /** A display counted in an acknowledgement was a target of the command, and had done what it asked. */
  lemma AcknowledgedDisplaysActed(labels: seq<Label>, a: Ack, d: string)
    requires a in Run(labels).story.acks && d in a.confirmed
    ensures var s := Run(labels);
            && a.id in s.story.issues && a.operation == s.story.issues[a.id].operation
            && d in a.targets && a.targets <= s.story.issues[a.id].targets
            && (exists e :: e in s.story.executions && e.key == Key(d, a.id, a.scope))
            && Evidence(s.story, s.net.msgs, d, a.id, a.scope, a.operation)
  {
    RunKeepsInv(labels);
    var s := Run(labels);
    assert AckOk(s.story, s.net.msgs, a);
    assert Evidence(s.story, s.net.msgs, d, a.id, a.scope, a.operation);
    var key := Key(d, a.id, a.scope);
    assert Happened(s.story, key);
    assert s.story.executed[key] in s.story.executions;
  }

  /** An acknowledgement covers every display of the command, or came after the four seconds were over. */
  lemma PartialAcknowledgementsAreLate(labels: seq<Label>, a: Ack)
    requires a in Run(labels).story.acks
    ensures var issues := Run(labels).story.issues;
            a.confirmed != {} && a.id in issues
            && (a.confirmed == a.targets || issues[a.id].at + EXECUTION_SECONDS <= a.at)
  {
    RunKeepsInv(labels);
    var s := Run(labels);
    assert AckOk(s.story, s.net.msgs, a);
  }

  /** A drop leaves the command to the displays that confirmed it, or to nobody, and marks the others as failed. */
  lemma DropTakesEffect(s: System, w: nat, stage: Stage, later: real)
    requires w in s.waiters && s.waiters[w].phase.Dropping? && Drops(s.server, s.waiters[w], s.clock)
        && s.clock <= later
    ensures var id, confirmed := s.waiters[w].id, s.waiters[w].phase.confirmed;
            var before, after := s.server.desk, DoCancel(s, w).server.desk;
            && id in before.commands && id in after.commands
            && (confirmed != {} ==> after.commands[id].displayIds == confirmed)
            && (confirmed == {} ==> Playback(stage, after, later) != Some(id))
            && forall d | d in after.displays && d in before.commands[id].displayIds - confirmed ::
                 after.displays[d].commandId == id ==> !after.displays[d].ready && after.displays[d].status == Error
  {
    PlaybackIsNewest(s.server.stage, s.server.desk, s.clock);
    PlaybackIsNewest(stage, DoCancel(s, w).server.desk, later);
  }

  /** A page executes commands in strictly increasing order of their ids, each at most once. */
  lemma PagesExecuteInOrder(labels: seq<Label>, e: Execution, f: Execution)
    requires e in Run(labels).story.executions && f in Run(labels).story.executions && e.site == f.site
    ensures e.tick < f.tick ==> e.key.id < f.key.id
    ensures e.key.id == f.key.id ==> e == f
  {
    RunKeepsInv(labels);
    assert InOrder(e, f) && InOrder(f, e);
  }

  /** A display executes only commands issued after its id was drawn and first registered. */
  lemma ExecutesOnlyLaterCommands(labels: seq<Label>, e: Execution)
    requires e in Run(labels).story.executions
    ensures var story := Run(labels).story;
            && e.key.id in story.issues && e.key.displayId in story.issues[e.key.id].targets
            && e.key.displayId in story.registered && e.key.displayId in story.drawn
            && story.drawn[e.key.displayId] < story.registered[e.key.displayId]
                 < story.issues[e.key.id].tick < e.tick
  {
    RunKeepsInv(labels);
    var s := Run(labels);
    assert ExecutionOk(s.story, s.tick, e);
    assert IssueOk(s.story, s.clock, s.tick, s.story.issues[e.key.id]);
    assert e.key.displayId in s.story.registered;
    assert RegistrationOk(s.story, s.tick, e.key.displayId);
  }

  /** Page `n` goes by an id drawn at `since` or later, and so do its executions since then. */
  ghost predicate Renewed(s: System, n: nat, since: nat) {
    && n in s.sites && since < s.tick
    && s.sites[n].page.displayId in s.story.drawn && s.story.drawn[s.sites[n].page.displayId] >= since
    && forall e | e in s.story.executions && e.site == n && e.tick > since ::
         e.key.displayId in s.story.drawn && s.story.drawn[e.key.displayId] >= since
  }

  /** What a step does to the name of page `n` and to what it has executed. */
  ghost predicate Moves(s: System, t: System, n: nat) {
    && n in s.sites && n in t.sites && t.tick == s.tick + 1
    && (forall d | d in s.story.drawn :: d in t.story.drawn && t.story.drawn[d] == s.story.drawn[d])
    && (t.sites[n].page.displayId == s.sites[n].page.displayId
        || (t.sites[n].page.displayId in t.story.drawn && t.story.drawn[t.sites[n].page.displayId] == s.tick))
    && forall e | e in t.story.executions && e.site == n ::
         e in s.story.executions || e.key.displayId == s.sites[n].page.displayId
  }

  lemma DrawingMoves(s: System, k: nat, page: Page, msgs: set<Msg>, ids: set<string>, n: nat)
    requires Fresh(s, ids) && k in s.sites && n in s.sites
    requires page.displayId in ids + {s.sites[k].page.displayId}
    ensures Moves(s, PageMoved(s, k, page, msgs, Draw(s.story, ids, s.tick)).(tick := s.tick + 1), n)
  {
  }

  lemma AnsweredKeepsName(p: Page, answer: Answer, now: real, hasBuffer: bool, starts: bool)
    ensures Answered(p, answer, now, hasBuffer, starts).0.displayId == p.displayId
  {
    var msg, command := answer.msg, StillValid(answer.playback, answer.msg.started, now);
    if msg.maintaining && MayProcess(p, msg.state, msg.report.displayId) {
      assert ProcessCommand(p, command, msg.state, hasBuffer, starts).0.displayId == p.displayId;
    }
  }

  lemma HearMoves(s: System, answer: Answer, hasBuffer: bool, starts: bool, n: nat)
    requires answer.msg.site in s.sites && n in s.sites
    ensures Moves(s, DoHear(s, answer, hasBuffer, starts).(tick := s.tick + 1), n)
  {
    var site := s.sites[answer.msg.site];
    AnsweredKeepsName(site.page, answer, s.clock + site.offset, hasBuffer, starts);
    hide Answered, Taken;
    assert AfterHear(s, answer, hasBuffer, starts).0.displayId == site.page.displayId;
  }

  lemma ArriveMoves(s: System, k: nat, state: StateView, recovery: bool, recoveryId: string, freshId: string, n: nat)
    requires Inv(s) && n in s.sites && Enabled(s, Arrive(k, state, recovery, recoveryId, freshId))
    ensures Moves(s, DoArrive(s, k, state, recovery, recoveryId, freshId).(tick := s.tick + 1), n)
  {
    hide SitesOk, NetOk, ReceiptsOk, DeskOk, WaitersOk, StoryOk, AcksOk, OrderOk;
    var ids, t := {recoveryId, freshId}, DoArrive(s, k, state, recovery, recoveryId, freshId);
    PageKnowsDrawn(s, k, ids);
    ArriveKeepsPage(Draw(s.story, ids, s.tick), s.sites[k].page, state, recovery, recoveryId, freshId);
    hide StateArrived;
    DrawingMoves(s, k, t.sites[k].page, t.net.msgs, ids, n);
  }

  lemma VisitMoves(s: System, k: nat, freshId: string, n: nat)
    requires Inv(s) && n in s.sites && Enabled(s, Visit(k, freshId))
    ensures Moves(s, DoVisit(s, k, freshId).(tick := s.tick + 1), n)
  {
    hide SitesOk, NetOk, ReceiptsOk, DeskOk, WaitersOk, StoryOk, AcksOk, OrderOk;
    var t := DoVisit(s, k, freshId);
    PageKnowsDrawn(s, k, {freshId});
    MaintainKeepsPage(Draw(s.story, {freshId}, s.tick), s.sites[k].page, s.sites[k].page.latest.value, freshId);
    hide MaintainAudio;
    DrawingMoves(s, k, t.sites[k].page, t.net.msgs, {freshId}, n);
  }

  lemma LoseMoves(s: System, msg: Msg, freshId: string, n: nat)
    requires Inv(s) && n in s.sites && Enabled(s, Lose(msg, freshId))
    ensures Moves(s, DoLose(s, msg, freshId).(tick := s.tick + 1), n)
  {
    hide SitesOk, NetOk, ReceiptsOk, DeskOk, WaitersOk, StoryOk, AcksOk, OrderOk;
    var k, t := msg.site, DoLose(s, msg, freshId);
    PageKnowsDrawn(s, k, {freshId});
    FailureKeepsPage(Draw(s.story, {freshId}, s.tick), s.sites[k].page, msg.state, msg.report.displayId,
                     msg.maintaining, freshId);
    hide ReportFailed;
    DrawingMoves(s, k, t.sites[k].page, t.net.msgs, {freshId}, n);
  }

  /** Steps that leave pages, names and executions alone. */
  ghost predicate LeavesPages(s: System, t: System) {
    t.sites == s.sites && t.tick == s.tick + 1 && t.story.drawn == s.story.drawn
        && t.story.executions == s.story.executions
  }

  lemma StillMoves(s: System, t: System, n: nat)
    requires n in s.sites && LeavesPages(s, t)
    ensures Moves(s, t, n)
  {
  }

  lemma OpenMoves(s: System, l: Label, n: nat)
    requires n in s.sites && Enabled(s, l) && l.Open?
    ensures Moves(s, Next(s, l), n)
  {
    hide NewPage;
  }

  lemma LocalMoves(s: System, l: Label, n: nat)
    requires n in s.sites && Enabled(s, l) && (l.Leave? || l.Around? || l.EndSound?)
    ensures Moves(s, Next(s, l), n)
  {
    var page := Next(s, l).sites[l.n].page;
    var ids := if l.Leave? then {l.freshId} else {};
    NothingDrawn(s.story, s.tick);
    DrawingMoves(s, l.n, page, Next(s, l).net.msgs, ids, n);
  }

  lemma ServerMoves(s: System, l: Label, n: nat)
    requires n in s.sites && Enabled(s, l) && !OfPage(l)
    ensures Moves(s, Next(s, l), n)
  {
    StillMoves(s, Next(s, l), n);
  }

  lemma NextMoves(s: System, l: Label, n: nat)
    requires Inv(s) && n in s.sites && Enabled(s, l)
    ensures Moves(s, Next(s, l), n)
  {
    hide Moves, SitesOk, NetOk, ReceiptsOk, DeskOk, WaitersOk, StoryOk, AcksOk, OrderOk;
    hide DoArrive, DoVisit, DoLose, DoHear;
    if l.Arrive? {
      ArriveMoves(s, l.n, l.state, l.recovery, l.recoveryId, l.freshId, n);
    } else if l.Visit? {
      VisitMoves(s, l.n, l.freshId, n);
    } else if l.Lose? {
      LoseMoves(s, l.msg, l.freshId, n);
    } else if l.Hear? {
      HearMoves(s, l.answer, l.hasBuffer, l.starts, n);
    } else if l.Open? {
      OpenMoves(s, l, n);
    } else if OfPage(l) {
      LocalMoves(s, l, n);
    } else {
      ServerMoves(s, l, n);
    }
  }

  lemma {:induction false} StaysRenewed(labels: seq<Label>, k: nat, n: nat, since: nat)
    requires k <= |labels| && Renewed(Run(labels[..k]), n, since)
    ensures Renewed(Run(labels), n, since)
    decreases |labels| - k
  {
    if k < |labels| {
      var s, l := Run(labels[..k]), labels[k];
      assert labels[..k + 1][..k] == labels[..k];
      RunKeepsInv(labels[..k]);
      if Enabled(s, l) {
        NextMoves(s, l, n);
        MovesKeepRenewed(s, Next(s, l), n, since);
      }
      StaysRenewed(labels, k + 1, n, since);
    } else {
      assert labels[..k] == labels;
    }
  }

  lemma MovesKeepRenewed(s: System, t: System, n: nat, since: nat)
    requires Renewed(s, n, since) && Moves(s, t, n)
    ensures Renewed(t, n, since)
  {
  }

  /** Once step `k` has made page `n` leave its scope, the page executes nothing issued before its new id registered. */
  lemma ReleasedPagesForgetOldCommands(labels: seq<Label>, k: nat, n: nat, e: Execution)
    requires k < |labels| && n in Run(labels[..k]).sites && n in Run(labels[..k + 1]).sites
    requires Run(labels[..k + 1]).sites[n].page.displayId != Run(labels[..k]).sites[n].page.displayId
    requires e in Run(labels).story.executions && e.site == n && e.tick > Run(labels[..k]).tick
    ensures var story := Run(labels).story;
            && e.key.displayId in story.registered && e.key.id in story.issues
            && Run(labels[..k]).tick < story.registered[e.key.displayId] < story.issues[e.key.id].tick
  {
    var s, t := Run(labels[..k]), Run(labels[..k + 1]);
    assert labels[..k + 1][..k] == labels[..k];
    RunKeepsInv(labels[..k]);
    RunKeepsInv(labels[..k + 1]);
    NextMoves(s, labels[k], n);
    assert forall f | f in t.story.executions :: f.tick <= s.tick by {
      assert forall f | f in t.story.executions :: ExecutionOk(t.story, t.tick, f);
    }
    StaysRenewed(labels, k + 1, n, s.tick);
    ExecutesOnlyLaterCommands(labels, e);
  }
}

/** What a display page does on each event, said of its variables and its reports.

  These are the promises of the page towards the server: a report speaks of the page
  that sends it, a scope that is left is left for good, and a page that joins a scope
  does not start what is already playing there.
 */
module ScreenLaws {
  import opened Wrappers
  import opened AudioDesk
  import opened ScreenPage
  import opened ScreenRun

  // ---- Reports ----

  /** The page is in the scope of a state that shows the opening, and so is the latest state it knows. */
  predicate InScope(p: Page, state: StateView) {
    && !p.closing && state.stage.published && state.stage.intro && p.scope == Some(state.stage.scope)
    && p.latest.Some? && p.latest.value.stage.scope == state.stage.scope
  }

  /** An active report tells the page's own name, probe, readiness, status and command, under its newest number. */
  predicate SpeaksOf(r: Report, q: Page) {
    && r.active && r.displayId == q.displayId && r.keyHash == q.key && q.scope == Some(r.scope)
    && r.sequence == q.sequence && r.probeNo == q.probeNo && r.ready == q.ready && r.commandId == q.currentCommand
    && r.status == if q.visible || q.ready then q.status else Hidden
  }

  /** A farewell closes the scope and the name that the page had, and promises nothing more. */
  predicate IsFarewell(r: Report, p: Page) {
    && !r.active && !r.ready && r.probeNo == 0 && r.displayId == p.displayId && r.keyHash == p.key
    && p.scope == Some(r.scope) && r.commandId == p.currentCommand && r.status == if p.ready then Idle else Blocked
  }

  /** A page reports exactly while it is in scope, and a report changes nothing but its number. */
  lemma ReportSentExactly(p: Page, state: StateView)
    ensures var (q, report) := ReportAudio(p, state);
            && (report.Some? <==> InScope(p, state))
            && q == (if report.Some? then p.(sequence := p.sequence + 1) else p)
            && (report.Some? ==> SpeaksOf(report.value, q))
  {
  }

  lemma ReleaseLeavesForGood(p: Page, freshId: string)
    ensures var (q, farewell) := ReleaseAudio(p, freshId);
            && q.sound.None? && q.scope.None? && q.needsBaseline && q.lastCommand == p.lastCommand
            && q.currentCommand == p.currentCommand && q.status == (if p.ready then Idle else Blocked)
            && (farewell.Some? <==> p.scope.Some?) && (farewell.Some? ==> IsFarewell(farewell.value, p))
            && q.displayId == (if p.scope.Some? then freshId else p.displayId)
            && q.latest == p.latest && q.ready == p.ready && q.pending == p.pending && q.probeNo == p.probeNo
  {
  }

  /** What a maintained page is: released when there is no opening to serve, and else in the scope of the state. */
  lemma MaintainExactly(p: Page, state: StateView, freshId: string)
    ensures var (q, sent) := MaintainAudio(p, state, freshId);
            var serves := !p.closing && state.stage.published && state.stage.intro && p.online;
            var leaves := p.scope.Some? && (!serves || p.scope.value != state.stage.scope);
            && (sent.farewell.Some? <==> leaves) && (leaves ==> IsFarewell(sent.farewell.value, p))
            && q.displayId == (if leaves then freshId else p.displayId)
            && (!serves ==> q.scope.None? && q.sound.None? && q.needsBaseline && sent.report.None?)
            && (serves ==>
                  && q.scope == Some(state.stage.scope) && !q.needsBaseline
                  && q.sound == (if leaves then None else p.sound)
                  && q.lastCommand == (if (leaves || p.needsBaseline) && p.lastCommand < state.playbackId
                                       then state.playbackId else p.lastCommand)
                  && (sent.report.Some? ==> SpeaksOf(sent.report.value, q) && q.pending == Some(q.displayId))
                  && (sent.report.Some? <==> p.pending != Some(q.displayId) && InScope(q, state)))
  {
    if !IsOpening(p, state) || !p.online {
      ReleaseLeavesForGood(p, freshId);
    } else {
      JoinExactly(p, state, freshId);
      StartExactly(JoinScope(p, state, freshId).0, state);
      hide JoinScope, StartReport;
    }
  }

  lemma JoinExactly(p: Page, state: StateView, freshId: string)
    ensures var (q, farewell) := JoinScope(p, state, freshId);
            var leaves := p.scope.Some? && p.scope.value != state.stage.scope;
            && q.scope == Some(state.stage.scope) && !q.needsBaseline
            && (farewell.Some? <==> leaves) && (leaves ==> IsFarewell(farewell.value, p))
            && q.displayId == (if leaves then freshId else p.displayId)
            && q.sound == (if leaves then None else p.sound)
            && q.lastCommand == (if (leaves || p.needsBaseline) && p.lastCommand < state.playbackId
                                 then state.playbackId else p.lastCommand)
            && q.closing == p.closing && q.latest == p.latest && q.pending == p.pending && q.ready == p.ready
  {
  }

  /** A maintaining report goes out unless one is under way for this name. */
  lemma StartExactly(p: Page, state: StateView)
    ensures var (q, report) := StartReport(p, state);
            && (report.Some? <==> p.pending != Some(p.displayId) && InScope(p, state))
            && (report.Some? ==> SpeaksOf(report.value, q) && q.pending == Some(q.displayId))
            && q.(sequence := p.sequence, pending := p.pending) == p
  {
    ReportSentExactly(p, state);
    hide ReportAudio, InScope;
  }

  /** Every report of every event speaks of the page after it, and every farewell of the page before it. */
  lemma ReportsSpeakOfPage(p: Page, e: Event, r: Report)
    requires r in After(p, e).1
    ensures if r.active then SpeaksOf(r, After(p, e).0) else IsFarewell(r, p)
  {
    if e.Arrives? {
      ArrivalReports(p, e.state, e.recovery, e.recoveryId, e.freshId, r);
      hide StateArrived;
    } else if e.Visits? {
      if p.latest.Some? {
        MaintainExactly(p, p.latest.value, e.freshId);
      }
      hide MaintainAudio;
    } else if e.Leaves? {
      ReleaseLeavesForGood(p, e.freshId);
      hide ReleaseAudio;
    } else if e.SoundEnds? {
      if p.sound.Some? {
        ReportSentExactly(p.(sound := None, status := Ended), p.sound.value.state);
      }
      hide ReportAudio;
    } else if e.Hears? {
      AnswerReports(p, e, r);
      hide ReportAnswered;
    } else if e.Fails? {
      ReleaseLeavesForGood(p, e.freshId);
      hide ReleaseAudio;
    }
  }

  lemma ArrivalReports(p: Page, state: StateView, recovery: bool, recoveryId: string, freshId: string, r: Report)
    requires var (q, farewell, sent) := StateArrived(p, state, recovery, recoveryId, freshId);
             r in One(farewell) + One(sent.farewell) + One(sent.report)
    ensures if r.active then SpeaksOf(r, StateArrived(p, state, recovery, recoveryId, freshId).0) else IsFarewell(r, p)
  {
    var next := p.(latest := Some(state));
    var (let, farewell) := LetGo(next, state, recovery, recoveryId);
    ReleaseLeavesForGood(next, recoveryId);
    MaintainExactly(let, state, freshId);
    hide MaintainAudio, ReleaseAudio;
  }

  lemma AnswerReports(p: Page, e: Event, r: Report)
    requires e.Hears? && r in After(p, e).1
    ensures r.active && SpeaksOf(r, After(p, e).0)
  {
    var command := StillValid(e.playback, e.started, e.now);
    if command.Some? && Executes(p, command.value, e.state) {
      ReportSentExactly(Obey(p, command.value, e.state, e.hasBuffer, e.starts), e.state);
    }
    hide ReportAudio, Obey, Executes;
  }

  // ---- Arrivals, answers, failures ----

  /** An older state changes nothing; a newer one is known from then on, and a recovery takes the page out of it. */
  lemma ArrivalExactly(p: Page, state: StateView, recovery: bool, recoveryId: string, freshId: string)
    ensures var (q, farewell, sent) := StateArrived(p, state, recovery, recoveryId, freshId);
            if p.latest.Some? && state.revision < p.latest.value.revision then
              q == p && farewell.None? && sent == NOTHING_SENT
            else
              var lets := recovery && !p.closing && state.stage.published && state.stage.intro && p.online;
              && q.latest == Some(state) && (lets ==> !q.ready && q.sound.None?)
              && (farewell.Some? <==> lets && p.scope.Some?)
              && (lets && p.scope.Some? ==> q.displayId == recoveryId && IsFarewell(farewell.value, p))
              && (!lets ==> q.ready == p.ready
                            && (q, sent) == MaintainAudio(p.(latest := Some(state)), state, freshId))
  {
    var next := p.(latest := Some(state));
    ReleaseLeavesForGood(next, recoveryId);
    MaintainExactly(LetGo(next, state, recovery, recoveryId).0, state, freshId);
    MaintainKeepsKnown(LetGo(next, state, recovery, recoveryId).0, state, freshId);
    hide MaintainAudio, ReleaseAudio;
  }

  lemma MaintainKeepsKnown(p: Page, state: StateView, freshId: string)
    ensures var q := MaintainAudio(p, state, freshId).0; q.latest == p.latest && q.ready == p.ready
  {
    hide JoinScope, StartReport, ReleaseAudio, IsOpening;
    ReleaseLeavesForGood(p, freshId);
    JoinExactly(p, state, freshId);
    StartExactly(JoinScope(p, state, freshId).0, state);
  }

  /** Which commands of an answer a page takes, and what it then is. */
  lemma CommandTakenExactly(p: Page, command: Option<PlaybackView>, state: StateView, hasBuffer: bool, starts: bool)
    ensures var (q, report) := ProcessCommand(p, command, state, hasBuffer, starts);
            if command.None? || command.value.id <= p.lastCommand then q == p && report.None?
            else
              var v := command.value;
              && q.lastCommand == v.id
              && if InScope(p, state) && v.scope == state.stage.scope && p.displayId in v.displayIds then
                   && q.currentCommand == v.id
                   && (q.sound.Some? <==> v.operation == Play && p.ready && hasBuffer && starts)
                   && q.status == (if v.operation == Stop then (if p.ready then Idle else Blocked)
                                   else if !p.ready || !hasBuffer then Blocked
                                   else if starts then Playing else Error)
                   && report.Some? && SpeaksOf(report.value, q)
                 else q == p.(lastCommand := v.id) && report.None?
  {
    if command.Some? && Executes(p, command.value, state) {
      ReportSentExactly(Obey(p, command.value, state, hasBuffer, starts), state);
      hide ReportAudio;
    }
  }

  /**
   * An answer is acted on only if its report was a maintaining one, of the name and the opening that the page still
   * has, and what it offers has not run out since the report was sent.
   */
  lemma AnswerActedOnExactly(p: Page, state: StateView, reportingId: string, maintaining: bool, started: real,
                             now: real, playback: Option<PlaybackView>, hasBuffer: bool, starts: bool)
    ensures var (q, report) :=
              ReportAnswered(p, state, reportingId, maintaining, started, now, playback, hasBuffer, starts);
            var acts :=
              && maintaining && p.displayId == reportingId
              && !p.closing && state.stage.published && state.stage.intro
              && p.scope.Some? && p.scope.value.epoch == state.stage.scope.epoch
              && p.latest.Some? && p.latest.value.stage.scope.epoch == state.stage.scope.epoch
              && playback.Some? && now - started < playback.value.validFor;
            var (r, sent) := if acts then ProcessCommand(p, playback, state, hasBuffer, starts) else (p, None);
            && q.(pending := r.pending) == r && report == sent
            && q.pending == (if maintaining && r.pending == Some(reportingId) then None else r.pending)
  {
    hide Settled, ProcessCommand;
    NothingToProcess(p, state, hasBuffer, starts);
    SettledExactly(p, reportingId, maintaining);
    SettledExactly(ProcessCommand(p, playback, state, hasBuffer, starts).0, reportingId, maintaining);
  }

  lemma NothingToProcess(p: Page, state: StateView, hasBuffer: bool, starts: bool)
    ensures ProcessCommand(p, None, state, hasBuffer, starts) == (p, None)
  {
  }

  /** A report that fails while the page still goes by its name and scope takes the page out of the scope. */
  lemma FailureExactly(p: Page, state: StateView, reportingId: string, maintaining: bool, freshId: string)
    ensures var (q, farewell) := ReportFailed(p, state, reportingId, maintaining, freshId);
            && (maintaining && p.pending == Some(reportingId) ==> q.pending.None?)
            && (!(maintaining && p.pending == Some(reportingId)) ==> q.pending == p.pending)
            && if InScope(p, state) && p.displayId == reportingId then
                 && q.scope.None? && q.sound.None? && q.status == Error && q.displayId == freshId && q.needsBaseline
                 && farewell.Some? && IsFarewell(farewell.value, p)
               else q.(pending := p.pending) == p && farewell.None?
  {
    hide ReleaseAudio, Settled, ScopeCurrent;
    ReleaseLeavesForGood(p, freshId);
    ScopeIsCurrent(p, state);
    SettledExactly(ReleaseAudio(p, freshId).0.(status := Error), reportingId, maintaining);
    SettledExactly(p, reportingId, maintaining);
  }

  lemma ScopeIsCurrent(p: Page, state: StateView)
    ensures ScopeCurrent(p, state) <==> InScope(p, state)
    ensures InScope(p, state) ==> p.scope.Some?
  {
  }

  lemma SettledExactly(p: Page, reportingId: string, maintaining: bool)
    ensures var q := Settled(p, reportingId, maintaining);
            && q.pending == (if maintaining && p.pending == Some(reportingId) then None else p.pending)
            && q.(pending := p.pending) == p
  {
  }

  /** When the sound ends the page says so, if it is still in the scope it played for. */
  lemma SoundEndExactly(p: Page)
    requires p.sound.Some?
    ensures var (q, report) := SoundEnded(p);
            && q.(sequence := p.sequence) == p.(sound := None, status := Ended)
            && (report.Some? <==> InScope(p, p.sound.value.state)) && (report.Some? ==> SpeaksOf(report.value, q))
  {
    ReportSentExactly(p.(sound := None, status := Ended), p.sound.value.state);
    hide ReportAudio;
  }

  /** The surroundings touch one variable each, and never claim that the page plays. */
  lemma SurroundExactly(p: Page, change: Surroundings)
    ensures var q := Surround(p, change);
            && q == p.(ready := q.ready, visible := q.visible, online := q.online, closing := q.closing,
                       probeNo := q.probeNo, status := q.status)
            && q.ready == (if change.Ready? then change.ready else p.ready)
            && q.visible == (if change.Visible? then change.visible else p.visible)
            && q.online == (if change.Online? then change.online else p.online)
            && q.closing == (if change.Closing? then change.closing else p.closing)
            && q.probeNo == (if change.ProbeSeen? then change.probeNo else p.probeNo)
            && (Heard(q.status) || q.status == Hidden ==> q.status == p.status)
            && (change.Reset? && change.status in {Idle, Blocked, Error} ==> q.status == change.status)
            && (!change.Reset? ==> q.status == p.status)
  {
  }

  // ---- Joining a scope ----

  /** Whatever follows, a page that joins a scope never executes the command that was current there, or an older one. */
  lemma JoinedPagesSkipTheCurrent(p: Page, state: StateView, freshId: string, events: seq<Event>, id: nat)
    requires IsOpening(p, state) && p.online
    requires p.needsBaseline || (p.scope.Some? && p.scope.value != state.stage.scope)
    requires id in Run(MaintainAudio(p, state, freshId).0, events).executed
    ensures state.playbackId < id
  {
    var q := MaintainAudio(p, state, freshId).0;
    MaintainExactly(p, state, freshId);
    LivesAreOrdered(q, events);
    hide MaintainAudio, Run;
  }
}

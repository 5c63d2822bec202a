/** The life of one display page, whatever it is sent: any states, any responses, in any order. */
module ScreenRun {
  import opened Wrappers
  import opened AudioDesk
  import opened ScreenPage

  datatype Event =
    | Arrives(state: StateView, recovery: bool, recoveryId: string, freshId: string)
    | Visits(freshId: string)
    | Leaves(freshId: string)
    | Changes(change: Surroundings)
    | SoundEnds
    | Hears(state: StateView, reportingId: string, maintaining: bool, started: real, now: real,
            playback: Option<PlaybackView>, hasBuffer: bool, starts: bool)
    | Fails(state: StateView, reportingId: string, maintaining: bool, freshId: string)

  function One(report: Option<Report>): seq<Report> {
    if report.Some? then [report.value] else []
  }

  /** The page after an event, and the reports it sends. */
  function After(p: Page, e: Event): (Page, seq<Report>) {
    match e
    case Arrives(state, recovery, recoveryId, freshId) =>
      var (q, farewell, sent) := StateArrived(p, state, recovery, recoveryId, freshId);
      (q, One(farewell) + One(sent.farewell) + One(sent.report))
    case Visits(freshId) =>
      if p.latest.None? then (p, [])
      else
        var (q, sent) := MaintainAudio(p, p.latest.value, freshId);
        (q, One(sent.farewell) + One(sent.report))
    case Leaves(freshId) => var (q, farewell) := ReleaseAudio(p, freshId); (q, One(farewell))
    case Changes(change) => (Surround(p, change), [])
    case SoundEnds =>
      if p.sound.None? then (p, []) else var (q, report) := SoundEnded(p); (q, One(report))
    case Hears(state, reportingId, maintaining, started, now, playback, hasBuffer, starts) =>
      var (q, report) := ReportAnswered(p, state, reportingId, maintaining, started, now, playback, hasBuffer, starts);
      (q, One(report))
    case Fails(state, reportingId, maintaining, freshId) =>
      var (q, farewell) := ReportFailed(p, state, reportingId, maintaining, freshId);
      (q, One(farewell))
  }

  /** The command the page executes on an event. */
  function Executed(p: Page, e: Event): seq<nat> {
    match e
    case Hears(state, reportingId, true, started, now, playback, _, _) =>
      var command := StillValid(playback, started, now);
      if MayProcess(p, state, reportingId) && command.Some? && Executes(p, command.value, state)
      then [command.value.id] else []
    case _ => []
  }

  datatype Life = Life(page: Page, sent: seq<Report>, executed: seq<nat>)

  function Next(l: Life, e: Event): Life {
    var (page, sent) := After(l.page, e);
    Life(page, l.sent + sent, l.executed + Executed(l.page, e))
  }

  function Run(first: Page, events: seq<Event>): Life {
    if events == [] then Life(first, [], []) else Next(Run(first, events[..|events| - 1]), events[|events| - 1])
  }

  // ---- One event ----

  /** The reports carry the next sequence numbers, without a gap. */
  ghost predicate Numbered(p: Page, q: Page, sent: seq<Report>) {
    q.sequence == p.sequence + |sent| && forall i | 0 <= i < |sent| :: sent[i].sequence == p.sequence + 1 + i
  }

  lemma NumberedInTurn(p: Page, q: Page, r: Page, sent: seq<Report>, more: seq<Report>)
    requires Numbered(p, q, sent) && Numbered(q, r, more)
    ensures Numbered(p, r, sent + more)
  {
  }

  lemma ReleaseIsNumbered(p: Page, freshId: string)
    ensures var (q, farewell) := ReleaseAudio(p, freshId);
            Numbered(p, q, One(farewell)) && q.lastCommand == p.lastCommand
  {
  }

  lemma ReportIsNumbered(p: Page, state: StateView)
    ensures var (q, report) := ReportAudio(p, state);
            Numbered(p, q, One(report)) && q.lastCommand == p.lastCommand
  {
  }

  lemma MaintainIsNumbered(p: Page, state: StateView, freshId: string)
    ensures var (q, sent) := MaintainAudio(p, state, freshId);
            Numbered(p, q, One(sent.farewell) + One(sent.report)) && q.lastCommand >= p.lastCommand
  {
    if !IsOpening(p, state) || !p.online {
      ReleaseIsNumbered(p, freshId);
      var (q, farewell) := ReleaseAudio(p, freshId);
      assert One(farewell) + One(None) == One(farewell);
      hide ReleaseAudio, Numbered;
    } else {
      var (joined, farewell) := JoinScope(p, state, freshId);
      assert Numbered(p, joined, One(farewell)) by {
        ReleaseIsNumbered(p, freshId);
      }
      var (q, report) := StartReport(joined, state);
      assert Numbered(joined, q, One(report)) by {
        ReportIsNumbered(joined, state);
      }
      NumberedInTurn(p, joined, q, One(farewell), One(report));
    }
  }

  lemma ArriveIsNumbered(p: Page, state: StateView, recovery: bool, recoveryId: string, freshId: string)
    ensures var (q, farewell, sent) := StateArrived(p, state, recovery, recoveryId, freshId);
            Numbered(p, q, One(farewell) + One(sent.farewell) + One(sent.report)) && q.lastCommand >= p.lastCommand
  {
    if !(p.latest.Some? && state.revision < p.latest.value.revision) {
      var r := p.(latest := Some(state));
      var (let, farewell) := LetGo(r, state, recovery, recoveryId);
      assert Numbered(p, let, One(farewell)) && let.lastCommand == p.lastCommand by {
        ReleaseIsNumbered(r, recoveryId);
      }
      MaintainIsNumbered(let, state, freshId);
      var (q, sent) := MaintainAudio(let, state, freshId);
      hide MaintainAudio, LetGo;
      NumberedInTurn(p, let, q, One(farewell), One(sent.farewell) + One(sent.report));
      assert One(farewell) + (One(sent.farewell) + One(sent.report))
          == One(farewell) + One(sent.farewell) + One(sent.report);
    }
  }

  lemma ProcessIsNumbered(p: Page, command: Option<PlaybackView>, state: StateView, hasBuffer: bool, starts: bool)
    ensures var (q, report) := ProcessCommand(p, command, state, hasBuffer, starts);
            && Numbered(p, q, One(report)) && q.lastCommand >= p.lastCommand
            && (command.Some? && Executes(p, command.value, state) ==>
                q.lastCommand == command.value.id > p.lastCommand)
  {
    if command.Some? && Executes(p, command.value, state) {
      ReportIsNumbered(Obey(p, command.value, state, hasBuffer, starts), state);
    }
  }

  lemma SameSequence(p: Page, q: Page, r: Page, sent: seq<Report>)
    requires Numbered(p, q, sent) && r.sequence == q.sequence
    ensures Numbered(p, r, sent)
  {
  }

  lemma FailureIsNumbered(p: Page, state: StateView, reportingId: string, maintaining: bool, freshId: string)
    ensures var (q, farewell) := ReportFailed(p, state, reportingId, maintaining, freshId);
            Numbered(p, q, One(farewell)) && q.lastCommand == p.lastCommand
  {
    hide ReleaseAudio, Numbered, ScopeCurrent;
    ReleaseIsNumbered(p, freshId);
    var q := ReportFailed(p, state, reportingId, maintaining, freshId).0;
    if ScopeCurrent(p, state) && p.displayId == reportingId {
      var (released, farewell) := ReleaseAudio(p, freshId);
      SameSequence(p, released, q, One(farewell));
    } else {
      SilentIsNumbered(p, q);
    }
  }

  lemma HearingIsNumbered(p: Page, e: Event)
    requires e.Hears?
    ensures var (q, sent) := After(p, e);
            && Numbered(p, q, sent) && q.lastCommand >= p.lastCommand
            && (Executed(p, e) != [] ==> Executed(p, e) == [q.lastCommand] && q.lastCommand > p.lastCommand)
  {
    hide ProcessCommand, Executes, Numbered, MayProcess, StillValid, One;
    var command := StillValid(e.playback, e.started, e.now);
    if e.maintaining && MayProcess(p, e.state, e.reportingId) {
      ProcessIsNumbered(p, command, e.state, e.hasBuffer, e.starts);
      var (q, report) := ProcessCommand(p, command, e.state, e.hasBuffer, e.starts);
      SameSequence(p, q, After(p, e).0, One(report));
    } else {
      SilentIsNumbered(p, After(p, e).0);
      NoReport();
    }
  }

  lemma NoReport()
    ensures One(None) == []
  {
  }

  lemma SilentIsNumbered(p: Page, q: Page)
    requires q.sequence == p.sequence
    ensures Numbered(p, q, [])
  {
  }

  lemma EndingIsNumbered(p: Page)
    requires p.sound.Some?
    ensures var (q, report) := SoundEnded(p); Numbered(p, q, One(report)) && q.lastCommand == p.lastCommand
  {
    ReportIsNumbered(p.(sound := None, status := Ended), p.sound.value.state);
  }

  /** An event sends the next numbers, and executes at most one command, newer than all before. */
  lemma EventIsOrdered(p: Page, e: Event)
    ensures var (q, sent) := After(p, e);
            && Numbered(p, q, sent) && q.lastCommand >= p.lastCommand
            && (Executed(p, e) == [] || (Executed(p, e) == [q.lastCommand] && q.lastCommand > p.lastCommand))
  {
    hide StateArrived, MaintainAudio, ReleaseAudio, ReportFailed, ReportAnswered, SoundEnded, Executes, Numbered;
    if e.Arrives? {
      ArriveIsNumbered(p, e.state, e.recovery, e.recoveryId, e.freshId);
    } else if e.Visits? && p.latest.Some? {
      MaintainIsNumbered(p, p.latest.value, e.freshId);
    } else if e.Leaves? {
      ReleaseIsNumbered(p, e.freshId);
    } else if e.SoundEnds? && p.sound.Some? {
      EndingIsNumbered(p);
    } else if e.Hears? {
      HearingIsNumbered(p, e);
    } else if e.Fails? {
      FailureIsNumbered(p, e.state, e.reportingId, e.maintaining, e.freshId);
    } else {
      SilentIsNumbered(p, After(p, e).0);
    }
  }

  // ---- A whole life ----

  ghost predicate Increasing(ids: seq<nat>) {
    forall i, j | 0 <= i < j < |ids| :: ids[i] < ids[j]
  }

  ghost predicate InOrder(first: Page, l: Life) {
    && Numbered(first, l.page, l.sent)
    && Increasing(l.executed) && first.lastCommand <= l.page.lastCommand
    && forall id | id in l.executed :: first.lastCommand < id <= l.page.lastCommand
  }

  lemma LaterIds(ids: seq<nat>, low: nat, mid: nat, more: seq<nat>, high: nat)
    requires Increasing(ids) && low <= mid <= high && forall id | id in ids :: low < id <= mid
    requires more == [] || (more == [high] && mid < high)
    ensures Increasing(ids + more) && forall id | id in ids + more :: low < id <= high
  {
    var all := ids + more;
    forall i, j | 0 <= i < j < |all| ensures all[i] < all[j] {
      assert i < |ids|;
      assert all[i] == ids[i] && ids[i] in ids;
    }
  }

  lemma NextIsOrdered(first: Page, l: Life, e: Event)
    requires InOrder(first, l)
    ensures InOrder(first, Next(l, e))
  {
    EventIsOrdered(l.page, e);
    hide After, Executed, Numbered;
    LaterIds(l.executed, first.lastCommand, l.page.lastCommand, Executed(l.page, e), After(l.page, e).0.lastCommand);
    NumberedInTurn(first, l.page, After(l.page, e).0, l.sent, After(l.page, e).1);
  }

  /** Whatever a page is sent, its reports are numbered one by one, and the commands it executes get ever newer. */
  lemma {:induction false} LivesAreOrdered(first: Page, events: seq<Event>)
    ensures InOrder(first, Run(first, events))
  {
    hide Next;
    if events != [] {
      LivesAreOrdered(first, events[..|events| - 1]);
      NextIsOrdered(first, Run(first, events[..|events| - 1]), events[|events| - 1]);
      hide InOrder;
    }
  }

  method Handle(screen: Screen, e: Event) returns (sent: seq<Report>)
    modifies screen
    ensures (screen.State(), sent) == After(old(screen.State()), e)
  {
    sent := [];
    match e
    case Arrives(state, recovery, recoveryId, freshId) =>
      var farewell, reports := screen.Arrive(state, recovery, recoveryId, freshId);
      sent := One(farewell) + One(reports.farewell) + One(reports.report);
    case Visits(freshId) =>
      if screen.latest.Some? {
        var reports := screen.Maintain(screen.latest.value, freshId);
        sent := One(reports.farewell) + One(reports.report);
      }
    case Leaves(freshId) =>
      var farewell := screen.Release(freshId);
      sent := One(farewell);
    case Changes(change) => screen.Browse(change);
    case SoundEnds =>
      if screen.sound.Some? {
        var report := screen.Finished();
        sent := One(report);
      }
    case Hears(state, reportingId, maintaining, started, now, playback, hasBuffer, starts) =>
      var report := screen.Answered(state, reportingId, maintaining, started, now, playback, hasBuffer, starts);
      sent := One(report);
    case Fails(state, reportingId, maintaining, freshId) =>
      var farewell := screen.Failed(state, reportingId, maintaining, freshId);
      sent := One(farewell);
  }

  /** A page through any events: its reports are numbered from where it was, and what it executes gets ever newer. */
  method Live(screen: Screen, events: seq<Event>) returns (sent: seq<Report>, ghost executed: seq<nat>)
    modifies screen
    ensures Life(screen.State(), sent, executed) == Run(old(screen.State()), events)
    ensures screen.sequence == old(screen.sequence) + |sent|
    ensures forall i | 0 <= i < |sent| :: sent[i].sequence == old(screen.sequence) + 1 + i
    ensures Increasing(executed) && forall id | id in executed :: old(screen.lastCommand) < id <= screen.lastCommand
  {
    ghost var first := screen.State();
    sent, executed := [], [];
    for i := 0 to |events|
      invariant Life(screen.State(), sent, executed) == Run(first, events[..i])
    {
      assert events[..i + 1][..i] == events[..i];
      executed := executed + Executed(screen.State(), events[i]);
      var reports := Handle(screen, events[i]);
      sent := sent + reports;
    }
    assert events[..|events|] == events;
    LivesAreOrdered(first, events);
  }
}

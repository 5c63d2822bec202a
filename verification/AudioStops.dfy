/** What a display can still do once a command it confirmed has been acknowledged.

  A display name belongs to one page for good, and a page executes commands in the
  order of their ids. So an acknowledged command closes the door on all before it:
  after an acknowledged `stop`, a display that confirmed it is heard only for a
  `play` that was issued later.
 */
module AudioStops {
  import opened Wrappers
  import opened AudioDesk
  import opened ScreenPage
  import opened AudioProtocol
  import opened AudioInvariant
  import opened AudioSafety
  import opened AudioLater

  /** Every name is the name of one page, now and in all it has executed. */
  ghost predicate Named(s: System) {
    && (forall m, n | m in s.sites && n in s.sites && m != n :: s.sites[m].page.displayId != s.sites[n].page.displayId)
    && (forall n | n in s.sites :: s.sites[n].page.displayId in s.story.drawn)
    && (forall e | e in s.story.executions :: e.site in s.sites && e.key.displayId in s.story.drawn)
    && (forall e, n | e in s.story.executions && n in s.sites
        && s.sites[n].page.displayId == e.key.displayId :: e.site == n)
    && forall e, f | e in s.story.executions && f in s.story.executions && e.key.displayId == f.key.displayId ::
         e.site == f.site
  }

  /** A page that sounds does so for a command no older than any it has executed. */
  ghost predicate Loud(s: System) {
    forall n, e | n in s.sites && s.sites[n].page.sound.Some? && e in s.story.executions && e.site == n ::
      e.key.id <= s.sites[n].page.currentCommand
  }

  // ---- One step ----

  function SiteOf(l: Label): nat
    requires OfPage(l)
  {
    if l.Hear? then l.answer.msg.site else if l.Lose? then l.msg.site else l.n
  }

  /** A step leaves every page but `k` as it was. */
  ghost predicate Touches(s: System, t: System, k: nat) {
    k in s.sites && t.sites.Keys == s.sites.Keys && forall n | n in s.sites && n != k :: t.sites[n] == s.sites[n]
  }

  lemma PageTouches(s: System, l: Label)
    requires Enabled(s, l) && OfPage(l) && !l.Open?
    ensures Touches(s, Next(s, l), SiteOf(l))
  {
    hide StateArrived, MaintainAudio, ReleaseAudio, ReportFailed, SoundEnded, Surround, Outgoing, AfterHear,
        AfterHearing;
    hide Draw;
  }

  lemma OnlyHearingExecutes(s: System, l: Label)
    requires Enabled(s, l) && !l.Hear?
    ensures Next(s, l).story.executions == s.story.executions
  {
    if OfPage(l) {
      hide StateArrived, MaintainAudio, ReleaseAudio, ReportFailed, SoundEnded, Surround, Outgoing, NewPage;
    } else {
      ServerLeavesPages(s, l);
      hide Do, Enabled;
    }
  }

  lemma ServerLeavesPages(s: System, l: Label)
    requires Enabled(s, l) && !OfPage(l)
    ensures LeavesPages(s, Next(s, l))
  {
    hide AudioReport, ViewOf, AcceptanceOf, Record, Recover, Playback, Confirmed, CancelUnconfirmed, StateNow, Judge,
        Issue;
  }

  /** A page that stays as it was, or falls silent. */
  ghost predicate Quieter(p: Page, q: Page) {
    q.sound.None? || (p.sound.Some? && q.currentCommand == p.currentCommand)
  }

  lemma ReleaseIsQuieter(p: Page, freshId: string)
    ensures Quieter(p, ReleaseAudio(p, freshId).0)
  {
  }

  lemma JoinIsQuieter(p: Page, state: StateView, freshId: string)
    ensures Quieter(p, JoinScope(p, state, freshId).0)
  {
  }

  lemma StartKeepsSound(p: Page, state: StateView)
    ensures var q := StartReport(p, state).0; q.sound == p.sound && q.currentCommand == p.currentCommand
  {
  }

  lemma MaintenanceIsQuieter(p: Page, state: StateView, freshId: string)
    ensures Quieter(p, MaintainAudio(p, state, freshId).0)
  {
    hide ReleaseAudio, JoinScope, StartReport, IsOpening;
    if !IsOpening(p, state) || !p.online {
      ReleaseIsQuieter(p, freshId);
    } else {
      JoinIsQuieter(p, state, freshId);
      StartKeepsSound(JoinScope(p, state, freshId).0, state);
    }
  }

  lemma ArrivalIsQuieter(p: Page, state: StateView, recovery: bool, recoveryId: string, freshId: string)
    ensures Quieter(p, StateArrived(p, state, recovery, recoveryId, freshId).0)
  {
    hide MaintainAudio, ReleaseAudio, IsOpening;
    if !(p.latest.Some? && state.revision < p.latest.value.revision) {
      var r := p.(latest := Some(state));
      ReleaseIsQuieter(r, recoveryId);
      MaintenanceIsQuieter(LetGo(r, state, recovery, recoveryId).0, state, freshId);
    }
  }

  lemma FailureIsQuieter(p: Page, state: StateView, reportingId: string, maintaining: bool, freshId: string)
    ensures Quieter(p, ReportFailed(p, state, reportingId, maintaining, freshId).0)
  {
    hide ReleaseAudio, ScopeCurrent;
    ReleaseIsQuieter(p, freshId);
  }

  lemma SurroundIsQuieter(p: Page, change: Surroundings)
    ensures Quieter(p, Surround(p, change))
  {
  }

  lemma EndIsQuieter(p: Page)
    requires p.sound.Some?
    ensures Quieter(p, SoundEnded(p).0)
  {
  }

  lemma RunningPageIsQuieter(s: System, l: Label)
    requires Enabled(s, l) && (l.Arrive? || l.Visit? || l.Lose?)
    ensures Quieter(s.sites[SiteOf(l)].page, Next(s, l).sites[SiteOf(l)].page)
  {
    hide StateArrived, MaintainAudio, ReportFailed, Outgoing, Draw, Quieter;
    var p := s.sites[SiteOf(l)].page;
    if l.Arrive? {
      ArrivalIsQuieter(p, l.state, l.recovery, l.recoveryId, l.freshId);
    } else if l.Visit? {
      MaintenanceIsQuieter(p, p.latest.value, l.freshId);
    } else {
      FailureIsQuieter(p, l.msg.state, l.msg.report.displayId, l.msg.maintaining, l.freshId);
    }
  }

  lemma LocalPageIsQuieter(s: System, l: Label)
    requires Enabled(s, l) && (l.Leave? || l.Around? || l.EndSound?)
    ensures Quieter(s.sites[SiteOf(l)].page, Next(s, l).sites[SiteOf(l)].page)
  {
    hide ReleaseAudio, Surround, SoundEnded, Outgoing, Draw, Quieter;
    var p := s.sites[l.n].page;
    if l.Leave? {
      ReleaseIsQuieter(p, l.freshId);
    } else if l.Around? {
      SurroundIsQuieter(p, l.surroundings);
    } else {
      EndIsQuieter(p);
    }
  }

  lemma PageIsQuieter(s: System, l: Label)
    requires Enabled(s, l) && OfPage(l) && !l.Open? && !l.Hear?
    ensures Quieter(s.sites[SiteOf(l)].page, Next(s, l).sites[SiteOf(l)].page)
  {
    hide Next, Quieter;
    if l.Arrive? || l.Visit? || l.Lose? {
      RunningPageIsQuieter(s, l);
    } else {
      LocalPageIsQuieter(s, l);
    }
  }

  // ---- Names ----

  lemma NamesCarry(s: System, t: System, k: nat)
    requires Named(s) && Touches(s, t, k) && (forall n | n in s.sites :: Moves(s, t, n))
    requires (forall d | d in s.story.drawn :: s.story.drawn[d] < s.tick)
    requires forall e | e in t.story.executions :: e.site in s.sites
    ensures Named(t)
  {
    forall e | e in t.story.executions
      ensures e.key.displayId in s.story.drawn
      ensures e !in s.story.executions ==> e.key.displayId == s.sites[e.site].page.displayId
    {
      assert Moves(s, t, e.site);
    }
    assert Moves(s, t, k);
  }

  lemma OpeningNames(s: System, l: Label)
    requires Named(s) && Enabled(s, l) && l.Open?
    ensures Named(Next(s, l))
  {
    assert NewPage(l.displayId, l.key).displayId == l.displayId;
    hide NewPage;
  }

  lemma DrawnBefore(s: System)
    requires Inv(s)
    ensures forall d | d in s.story.drawn :: s.story.drawn[d] < s.tick
  {
    assert IdsOk(s.story, s.tick);
  }

  lemma LastIsLatest(s: System)
    requires Inv(s)
    ensures forall e | e in s.story.executions :: e.site in s.sites && e.key.id <= s.sites[e.site].page.lastCommand
  {
    assert OrderOk(s.story, s.sites);
  }

  lemma PageKeepsNames(s: System, l: Label)
    requires Inv(s) && Named(s) && Enabled(s, l) && OfPage(l) && !l.Open?
    ensures Named(Next(s, l))
  {
    hide Inv, Do, Enabled, Moves, Named;
    PageTouches(s, l);
    DrawnBefore(s);
    NextKeepsInv(s, l);
    LastIsLatest(Next(s, l));
    forall n | n in s.sites ensures Moves(s, Next(s, l), n) {
      NextMoves(s, l, n);
    }
    NamesCarry(s, Next(s, l), SiteOf(l));
  }

  lemma StillNames(s: System, t: System)
    requires LeavesPages(s, t)
    ensures Named(s) ==> Named(t)
    ensures Loud(s) ==> Loud(t)
  {
  }

  lemma NextKeepsNames(s: System, l: Label)
    requires Inv(s) && Named(s) && Enabled(s, l)
    ensures Named(Next(s, l))
  {
    hide Inv, Named, Loud, Next, Enabled, LeavesPages;
    if l.Open? {
      OpeningNames(s, l);
    } else if OfPage(l) {
      PageKeepsNames(s, l);
    } else {
      ServerLeavesPages(s, l);
      StillNames(s, Next(s, l));
    }
  }

  // ---- Sounds ----

  lemma HearingSounds(s: System, l: Label)
    requires Enabled(s, l) && l.Hear?
    ensures var n, t := SiteOf(l), Next(s, l);
            var p, q := s.sites[n].page, t.sites[n].page;
            || (t.story.executions == s.story.executions && q.currentCommand == p.currentCommand && q.sound == p.sound)
            || q.currentCommand == q.lastCommand
  {
    var site := s.sites[SiteOf(l)];
    PageObeysWhatItTakes(site.page, l.answer, s.clock + site.offset, l.hasBuffer, l.starts);
    hide Answered, Taken, Sounds, Outgoing;
  }

  /** What has been executed, and whether and for what a page sounds. */
  lemma LoudCarries(s: System, t: System, k: nat)
    requires Loud(s) && Touches(s, t, k)
    requires forall e | e in t.story.executions :: e in s.story.executions || e.site == k
    requires forall e | e in t.story.executions && e.site == k :: e.key.id <= t.sites[k].page.lastCommand
    requires var p, q := s.sites[k].page, t.sites[k].page;
             || (t.story.executions == s.story.executions && Quieter(p, q))
             || q.currentCommand == q.lastCommand
    ensures Loud(t)
  {
  }

  lemma ExecutesHere(s: System, l: Label)
    requires Enabled(s, l) && OfPage(l)
    ensures forall e | e in Next(s, l).story.executions :: e in s.story.executions || e.site == SiteOf(l)
  {
    if l.Hear? {
      hide Answered, Taken, Sounds, Outgoing;
    } else {
      OnlyHearingExecutes(s, l);
      hide Next, Enabled;
    }
  }

  lemma PageKeepsLoud(s: System, l: Label)
    requires Inv(s) && Loud(s) && Enabled(s, l) && OfPage(l) && !l.Open?
    ensures Loud(Next(s, l))
  {
    hide Inv, Next, Enabled, Loud;
    PageTouches(s, l);
    ExecutesHere(s, l);
    NextKeepsInv(s, l);
    LastIsLatest(Next(s, l));
    if l.Hear? {
      HearingSounds(s, l);
    } else {
      OnlyHearingExecutes(s, l);
      PageIsQuieter(s, l);
    }
    LoudCarries(s, Next(s, l), SiteOf(l));
  }

  lemma OpeningIsSilent(s: System, l: Label)
    requires Inv(s) && Loud(s) && Enabled(s, l) && l.Open?
    ensures Loud(Next(s, l))
  {
    hide Inv;
    assert NewPage(l.displayId, l.key).sound.None?;
    hide NewPage;
  }

  lemma NextKeepsLoud(s: System, l: Label)
    requires Inv(s) && Loud(s) && Enabled(s, l)
    ensures Loud(Next(s, l))
  {
    hide Inv, Named, Loud, Next, Enabled, LeavesPages;
    if l.Open? {
      OpeningIsSilent(s, l);
    } else if OfPage(l) {
      PageKeepsLoud(s, l);
    } else {
      ServerLeavesPages(s, l);
      StillNames(s, Next(s, l));
    }
  }

  lemma {:induction false} RunKeepsNamesAndSounds(labels: seq<Label>)
    ensures Named(Run(labels)) && Loud(Run(labels))
  {
    if labels != [] {
      var init, l := labels[..|labels| - 1], labels[|labels| - 1];
      RunKeepsNamesAndSounds(init);
      RunKeepsInv(init);
      hide Inv, Named, Loud, Do, Enabled;
      if Enabled(Run(init), l) {
        NextKeepsNames(Run(init), l);
        NextKeepsLoud(Run(init), l);
      }
    }
  }

  // ---- After an acknowledgement ----

  /** A display that confirmed an acknowledged command has executed it, and that stays so. */
  lemma ConfirmedWasExecuted(labels: seq<Label>, k: nat, a: Ack, d: string) returns (f: Execution)
    requires k <= |labels| && a in Run(labels[..k]).story.acks && d in a.confirmed
    ensures f in Run(labels[..k]).story.executions && f in Run(labels).story.executions
    ensures f.key == Key(d, a.id, a.scope) && f.tick < Run(labels[..k]).tick
  {
    var s, key := Run(labels[..k]), Key(d, a.id, a.scope);
    AcknowledgedDisplaysActed(labels[..k], a, d);
    f :| f in s.story.executions && f.key == key;
    RunKeepsInv(labels[..k]);
    assert ExecutionOk(s.story, s.tick, f);
    LaterExecutionsAreLater(labels, k);
  }

  /** Whatever was acknowledged, a display that confirmed it executes only later commands from then on. */
  lemma ConfirmedDisplaysMoveOn(labels: seq<Label>, k: nat, a: Ack, d: string, e: Execution)
    requires k <= |labels| && a in Run(labels[..k]).story.acks && d in a.confirmed
    requires e in Run(labels).story.executions && e !in Run(labels[..k]).story.executions && e.key.displayId == d
    ensures a.id < e.key.id
  {
    var f := ConfirmedWasExecuted(labels, k, a, d);
    LaterExecutionsAreLater(labels, k);
    RunKeepsNamesAndSounds(labels);
    PagesExecuteInOrder(labels, f, e);
  }

  /** After an acknowledged `stop`, a display that confirmed it sounds only for a `play` issued later. */
  lemma AcknowledgedStopsSilence(labels: seq<Label>, k: nat, a: Ack, d: string, n: nat)
    requires k <= |labels| && a in Run(labels[..k]).story.acks && a.operation == Stop && d in a.confirmed
    requires n in Run(labels).sites && Run(labels).sites[n].page.displayId == d && Run(labels).sites[n].page.sound.Some?
    ensures var id, issues := Run(labels).sites[n].page.currentCommand, Run(labels).story.issues;
            id in issues && issues[id].operation == Play && a.id < id
  {
    hide Run, Inv, Named, Loud, Evidence;
    var f := ConfirmedWasExecuted(labels, k, a, d);
    RunKeepsNamesAndSounds(labels);
    RunKeepsInv(labels);
    SoundIsPlay(Run(labels), n);
    SoundIsLatest(Run(labels), n, f);
    AcknowledgedDisplaysActed(labels[..k], a, d);
    IssuesRemain(labels, k, a.id);
  }

  lemma SoundIsLatest(s: System, n: nat, f: Execution)
    requires Named(s) && Loud(s) && n in s.sites && f in s.story.executions
    requires s.sites[n].page.sound.Some? && s.sites[n].page.displayId == f.key.displayId
    ensures f.key.id <= s.sites[n].page.currentCommand
  {
    assert f.site == n;
  }

  lemma SoundIsPlay(s: System, n: nat)
    requires Inv(s) && n in s.sites && s.sites[n].page.sound.Some?
    ensures var id := s.sites[n].page.currentCommand; id in s.story.issues && s.story.issues[id].operation == Play
  {
    assert PageOk(s.story, s.sites[n].page);
  }
}

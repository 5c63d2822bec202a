/** What the rest of a run leaves as it was: executions and issues stay, and what is added is added later. */
module AudioLater {
  import opened Wrappers
  import opened AudioDesk
  import opened ScreenPage
  import opened AudioProtocol
  import opened AudioInvariant
  import opened AudioSafety

  /** What a step adds to the executions happens at the clock and the tick of that step. */
  ghost predicate Dates(s: System, t: System) {
    && s.clock <= t.clock && s.tick <= t.tick && s.story.executions <= t.story.executions
    && forall e | e in t.story.executions :: e in s.story.executions || (e.at == s.clock && e.tick == s.tick)
  }

  lemma HearDates(s: System, answer: Answer, hasBuffer: bool, starts: bool)
    requires answer.msg.site in s.sites
    ensures Dates(s, DoHear(s, answer, hasBuffer, starts).(tick := s.tick + 1))
  {
    hide Answered, Taken, Sounds;
  }

  lemma NextDates(s: System, l: Label)
    ensures Dates(s, Next(s, l))
  {
    if l.Hear? && Enabled(s, l) {
      HearDates(s, l.answer, l.hasBuffer, l.starts);
      hide DoHear;
    }
  }

  lemma {:induction false} LaterExecutionsAreLater(labels: seq<Label>, k: nat)
    requires k <= |labels|
    ensures Run(labels[..k]).clock <= Run(labels).clock
    ensures Run(labels[..k]).story.executions <= Run(labels).story.executions
    ensures forall e | e in Run(labels).story.executions && e !in Run(labels[..k]).story.executions ::
              e.at >= Run(labels[..k]).clock && e.tick >= Run(labels[..k]).tick
    decreases |labels|
  {
    if k == |labels| {
      assert labels[..k] == labels;
    } else {
      var init := labels[..|labels| - 1];
      assert init[..k] == labels[..k];
      LaterExecutionsAreLater(init, k);
      LaterStates(init, k);
      NextDates(Run(init), labels[|labels| - 1]);
    }
  }

  lemma {:induction false} LaterStates(labels: seq<Label>, k: nat)
    requires k <= |labels|
    ensures Run(labels[..k]).clock <= Run(labels).clock && Run(labels[..k]).tick <= Run(labels).tick
    decreases |labels|
  {
    if k == |labels| {
      assert labels[..k] == labels;
    } else {
      var init := labels[..|labels| - 1];
      assert init[..k] == labels[..k];
      LaterStates(init, k);
      NextDates(Run(init), labels[|labels| - 1]);
    }
  }

  lemma {:induction false} IssuesRemain(labels: seq<Label>, k: nat, id: nat)
    requires k <= |labels| && id in Run(labels[..k]).story.issues
    ensures id in Run(labels).story.issues && Run(labels).story.issues[id] == Run(labels[..k]).story.issues[id]
    decreases |labels|
  {
    if k == |labels| {
      assert labels[..k] == labels;
    } else {
      var init := labels[..|labels| - 1];
      assert init[..k] == labels[..k];
      IssuesRemain(init, k, id);
      RunKeepsInv(init);
      NextKeepsIssue(Run(init), labels[|labels| - 1], id);
    }
  }

  lemma HearingIssuesNothing(s: System, l: Label)
    requires Enabled(s, l) && l.Hear?
    ensures Do(s, l).story.issues == s.story.issues
  {
    hide AfterHear, TakenBy, ExecutionOf, Outgoing, Sounds;
  }

  lemma PagesIssueNothing(s: System, l: Label)
    requires Enabled(s, l) && OfPage(l) && !l.Hear?
    ensures Do(s, l).story.issues == s.story.issues
  {
    hide StateArrived, MaintainAudio, ReleaseAudio, ReportFailed, SoundEnded, NewPage, Surround, Outgoing;
  }

  lemma ServerIssuesNothing(s: System, l: Label)
    requires Enabled(s, l) && !OfPage(l) && !l.Operate?
    ensures Do(s, l).story.issues == s.story.issues
  {
    hide AudioReport, ViewOf, AcceptanceOf, Record, Recover, Playback, Confirmed, CancelUnconfirmed, StateNow;
  }

  lemma OnlyCommandsIssue(s: System, l: Label)
    requires !l.Operate?
    ensures Next(s, l).story.issues == s.story.issues
  {
    hide Do, Enabled;
    if Enabled(s, l) {
      if l.Hear? {
        HearingIssuesNothing(s, l);
      } else if OfPage(l) {
        PagesIssueNothing(s, l);
      } else {
        ServerIssuesNothing(s, l);
      }
    }
  }

  lemma NextKeepsIssue(s: System, l: Label, id: nat)
    requires Inv(s) && id in s.story.issues
    ensures id in Next(s, l).story.issues && Next(s, l).story.issues[id] == s.story.issues[id]
  {
    assert id <= s.server.desk.lastId by {
      assert DeskOk(s.story, s.server.desk);
    }
    hide Inv;
    if !l.Operate? {
      OnlyCommandsIssue(s, l);
      hide Next;
    } else {
      hide Judge, Issue;
    }
  }
}

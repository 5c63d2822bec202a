/** When is `audio_recover` safe? It expires a command at once, but cannot call back a response on its way.

  A recovery `delay` seconds after a command was issued is never followed by an
  execution of the command exactly when `delay` is at least the four seconds for
  which a display may start it. One half holds in every run; the other is a run for
  each shorter delay, step by step: a display asks, the response offers it the
  command, the operator recovers the connection, and then the response arrives.
 */
module AudioRecovery {
  import opened Wrappers
  import opened AudioDesk
  import opened ScreenPage
  import opened AudioProtocol
  import opened AudioInvariant
  import opened AudioSafety
  import opened AudioLater

  /** Step `k` recovers the scope of command `id`, `delay` seconds after it was issued. */
  ghost predicate RecoversAfter(labels: seq<Label>, k: nat, id: nat, delay: real) {
    k < |labels|
    && var s := Run(labels[..k]);
       && id in s.story.issues && labels[k] == Reconnect(s.story.issues[id].scope)
       && s.server.stage.intro && s.server.stage.scope == s.story.issues[id].scope
       && s.clock - s.story.issues[id].at == delay
  }

  /** Some display executes command `id` in step `k` or later. */
  ghost predicate ExecutedSince(labels: seq<Label>, k: nat, id: nat)
    requires k <= |labels|
  {
    exists e :: e in Run(labels).story.executions && e !in Run(labels[..k]).story.executions && e.key.id == id
  }

  /** In no run does a display execute a command after its recovery, when that comes `delay` seconds after the issue. */
  ghost predicate RecoveryIsSafe(delay: real) {
    forall labels: seq<Label>, k: nat, id: nat | RecoversAfter(labels, k, id, delay) :: !ExecutedSince(labels, k, id)
  }

  // ---- Four seconds after the issue a recovery is safe ----

  /** Four seconds after the issue, what a display has not executed it never executes: by clock and by step. */
  lemma LateRecoveriesAreSafe(labels: seq<Label>, k: nat, id: nat, delay: real, e: Execution)
    requires RecoversAfter(labels, k, id, delay) && EXECUTION_SECONDS <= delay
    requires e in Run(labels).story.executions && e.key.id == id
    ensures e in Run(labels[..k]).story.executions
    ensures e.at < Run(labels[..k]).clock && e.tick < Run(labels[..k]).tick
  {
    IssuesRemain(labels, k, id);
    ExecutionsAreTimely(labels, e);
    LaterExecutionsAreLater(labels, k);
    RunKeepsInv(labels[..k]);
    assert ExecutionOk(Run(labels[..k]).story, Run(labels[..k]).tick, e);
  }

  // ---- Before that, it is not: the values of one run ----

  const SCOPE := Scope("r", "e")
  const OPENING := Stage(SCOPE, true, true)
  const VIEW := StateView(1, OPENING, 0)
  const REQUEST := CommandRequest(0, SCOPE, "q", Play, "p")
  const GREETINGS: map<string, string> := map["p" := "u"]

  const NEW_PAGE := NewPage("d", "k")
  const JOINED_PAGE := NEW_PAGE.(latest := Some(VIEW), scope := Some(SCOPE), needsBaseline := false, sequence := 1)
  const ENABLED_PAGE := JOINED_PAGE.(ready := true, status := Idle)

  function Awaiting(p: Page): Page {
    p.(pending := Some("d"))
  }

  const SECOND_PAGE := ENABLED_PAGE.(sequence := 2)
  const THIRD_PAGE := ENABLED_PAGE.(sequence := 3)

  const FIRST := Msg(0, Report("d", "k", SCOPE, 1, true, 0, false, Blocked, 0), VIEW, true, 0.0, 0.0, false, 3)
  const SECOND := Msg(0, Report("d", "k", SCOPE, 2, true, 0, true, Idle, 0), VIEW, true, 0.0, 0.0, false, 8)
  const THIRD := Msg(0, Report("d", "k", SCOPE, 3, true, 0, true, Idle, 0), VIEW, true, 0.0, 0.0, false, 12)

  const ISSUED := Command("q", SCOPE, Play, "p", "u", {"d"}, 0.0, COMMAND_SECONDS)
  const OFFER := PlaybackView(1, SCOPE, Play, "p", {"d"}, EXECUTION_SECONDS)
  const OFFERED := Answer(THIRD, Some(OFFER))

  function Row(sequence: nat, ready: bool, status: Status, commandId: nat): AudioRow {
    AudioRow(SCOPE, sequence, LEASE_SECONDS, 0.0, ready, status, commandId, "k")
  }

  const KNOWN := Desk(map["d" := Row(1, false, Blocked, 0)], map[], 0)
  const READY := Desk(map["d" := Row(2, true, Idle, 0)], map[], 0)
  const GIVEN := Desk(map["d" := Row(2, true, Idle, 1)], map[1 := ISSUED], 1)
  const ASKED := Desk(map["d" := Row(3, true, Idle, 1)], map[1 := ISSUED], 1)

  /** The run: the page joins, is enabled by a click, and asks again when the command is there. */
  function LabelNo(k: nat, delay: real): Label {
    match k
    case 0 => Restage(OPENING)
    case 1 => Open(0, "d", "k", 0.0)
    case 2 => ServeState
    case 3 => Arrive(0, VIEW, false, "a", "b")
    case 4 => Deliver(FIRST, 0.0)
    case 5 => Hear(Answer(FIRST, None), true, true)
    case 6 => Around(0, Ready(true))
    case 7 => Around(0, Reset(Idle))
    case 8 => Visit(0, "c")
    case 9 => Deliver(SECOND, 0.0)
    case 10 => Hear(Answer(SECOND, None), true, true)
    case 11 => Operate(REQUEST, GREETINGS, 0.0)
    case 12 => Visit(0, "f")
    case 13 => Deliver(THIRD, 0.0)
    case 14 => Elapse(delay)
    case 15 => Reconnect(SCOPE)
    case _ => Hear(OFFERED, true, true)
  }

  function Labels(n: nat, delay: real): seq<Label> {
    seq(n, k requires 0 <= k < n => LabelNo(k, delay))
  }

  // ---- The functions on these values ----

  lemma PageAsks()
    ensures StateArrived(NEW_PAGE, VIEW, false, "a", "b")
         == (Awaiting(JOINED_PAGE), None, Sent(None, Some(FIRST.report)))
    ensures MaintainAudio(ENABLED_PAGE, VIEW, "c") == (Awaiting(SECOND_PAGE), Sent(None, Some(SECOND.report)))
    ensures MaintainAudio(SECOND_PAGE, VIEW, "f") == (Awaiting(THIRD_PAGE), Sent(None, Some(THIRD.report)))
  {
  }

  lemma DeskAnswers()
    ensures AudioReport(OPENING, NEW_DESK, FIRST.report, 0.0) == (KNOWN, Accepted)
    ensures ViewOf(OPENING, KNOWN, 0.0) == None
    ensures AudioReport(OPENING, KNOWN, SECOND.report, 0.0) == (READY, Accepted)
    ensures ViewOf(OPENING, READY, 0.0) == None
  {
    assert AudioReport(OPENING, KNOWN, SECOND.report, 0.0).0.displays == READY.displays;
  }

  lemma DeskOffers()
    ensures AudioReport(OPENING, GIVEN, THIRD.report, 0.0) == (ASKED, Accepted)
    ensures ViewOf(OPENING, ASKED, 0.0) == Some(OFFER)
  {
    assert AudioReport(OPENING, GIVEN, THIRD.report, 0.0).0.displays == ASKED.displays;
  }

  lemma DeskIssues()
    ensures Judge(OPENING, READY, NO_RECEIPTS, GREETINGS, REQUEST, 0.0, 0.0) == Grant(ISSUED)
    ensures Issue(READY, ISSUED) == GIVEN
  {
    assert LiveDisplays(OPENING, READY, 0.0) == {"d"};
    assert Targets(OPENING, READY, NO_RECEIPTS, REQUEST, 0.0) == {"d"};
    var issued := map[1 := ISSUED];
    assert (set other | other in issued && other > 1) == {};
    assert Newest(issued) == issued;
    assert Assign(READY.displays, {"d"}, 1) == GIVEN.displays;
  }

  lemma PageHears()
    ensures Answered(Awaiting(JOINED_PAGE), Answer(FIRST, None), 0.0, true, true) == (JOINED_PAGE, None)
    ensures Answered(Awaiting(SECOND_PAGE), Answer(SECOND, None), 0.0, true, true) == (SECOND_PAGE, None)
    ensures Taken(Awaiting(JOINED_PAGE), Answer(FIRST, None), 0.0) == None
    ensures Taken(Awaiting(SECOND_PAGE), Answer(SECOND, None), 0.0) == None
  {
  }

  lemma PageStarts(delay: real)
    requires delay < EXECUTION_SECONDS
    ensures Taken(Awaiting(THIRD_PAGE), OFFERED, delay) == Some(OFFER)
    ensures Sounds(Awaiting(THIRD_PAGE), OFFER, VIEW, true, true)
  {
  }

  // ---- The run ----

  lemma RunIsNext(k: nat, delay: real)
    ensures Run(Labels(k + 1, delay)) == Next(Run(Labels(k, delay)), LabelNo(k, delay))
  {
    assert |Labels(k + 1, delay)| == k + 1 && Labels(k + 1, delay)[k] == LabelNo(k, delay);
    assert Labels(k + 1, delay)[..k] == Labels(k, delay);
    hide LabelNo, Next;
  }

  function PageAt(k: nat): Page {
    if k < 4 then NEW_PAGE
    else if k < 6 then Awaiting(JOINED_PAGE)
    else if k == 6 then JOINED_PAGE
    else if k == 7 then JOINED_PAGE.(ready := true)
    else if k == 8 then ENABLED_PAGE
    else if k < 11 then Awaiting(SECOND_PAGE)
    else if k < 13 then SECOND_PAGE
    else Awaiting(THIRD_PAGE)
  }

  function DeskAt(k: nat, delay: real): Desk {
    if k < 5 then NEW_DESK
    else if k < 10 then KNOWN
    else if k < 12 then READY
    else if k < 14 then GIVEN
    else if k < 16 then ASKED
    else Recover(OPENING, ASKED, SCOPE, delay).0
  }

  function NamesAt(k: nat): set<string> {
    {"d"} + (if k < 4 then {} else {"a", "b"}) + (if k < 9 then {} else {"c"}) + (if k < 13 then {} else {"f"})
  }

  /** The message or the response that the next steps are about. */
  ghost predicate Carries(net: Net, k: nat) {
    && (k >= 3 ==> VIEW in net.states)
    && (k == 4 ==> FIRST in net.msgs) && (k == 5 ==> Answer(FIRST, None) in net.answers)
    && (k == 9 ==> SECOND in net.msgs) && (k == 10 ==> Answer(SECOND, None) in net.answers)
    && (k == 13 ==> THIRD in net.msgs) && (k >= 14 ==> OFFERED in net.answers)
  }

  /** Where the run stands after `k` steps. */
  ghost predicate StandsAt(k: nat, s: System, delay: real) {
    && s.clock == (if k < 15 then 0.0 else delay) && s.tick == k
    && s.server == Server(1, OPENING, DeskAt(k, delay), NO_RECEIPTS)
    && s.sites == map[0 := Site(PageAt(k), 0.0)] && s.story.drawn.Keys == NamesAt(k) && Carries(s.net, k)
    && s.story.executions == {} && s.story.sounded == {}
    && (k >= 12 ==> 1 in s.story.issues && s.story.issues[1] == Issuance(SCOPE, Play, {"d"}, 0.0, 11))
  }

  lemma Begins(delay: real)
    ensures StandsAt(2, Run(Labels(2, delay)), delay)
  {
    RunIsNext(0, delay);
    RunIsNext(1, delay);
    assert Labels(0, delay) == [];
    assert Enabled(Run(Labels(1, delay)), LabelNo(1, delay));
  }

  lemma Joins(s: System, delay: real)
    requires StandsAt(3, s, delay)
    ensures StandsAt(4, Next(s, LabelNo(3, delay)), delay)
  {
    PageAsks();
    hide StateArrived, MaintainAudio, Recover;
    assert Enabled(s, LabelNo(3, delay));
  }

  lemma AsksReady(s: System, delay: real)
    requires StandsAt(8, s, delay)
    ensures StandsAt(9, Next(s, LabelNo(8, delay)), delay)
  {
    PageAsks();
    hide StateArrived, MaintainAudio, Recover;
    assert Enabled(s, LabelNo(8, delay));
  }

  lemma AsksAgain(s: System, delay: real)
    requires StandsAt(12, s, delay)
    ensures StandsAt(13, Next(s, LabelNo(12, delay)), delay)
  {
    PageAsks();
    hide StateArrived, MaintainAudio, Recover;
    assert Enabled(s, LabelNo(12, delay));
  }

  lemma IsKnown(s: System, delay: real)
    requires StandsAt(4, s, delay)
    ensures StandsAt(5, Next(s, LabelNo(4, delay)), delay)
  {
    DeskAnswers();
    hide AudioReport, ViewOf, Recover;
    assert Enabled(s, LabelNo(4, delay));
  }

  lemma IsReady(s: System, delay: real)
    requires StandsAt(9, s, delay)
    ensures StandsAt(10, Next(s, LabelNo(9, delay)), delay)
  {
    DeskAnswers();
    hide AudioReport, ViewOf, Recover;
    assert Enabled(s, LabelNo(9, delay));
  }

  lemma IsOffered(s: System, delay: real)
    requires StandsAt(13, s, delay)
    ensures StandsAt(14, Next(s, LabelNo(13, delay)), delay)
  {
    DeskOffers();
    hide AudioReport, ViewOf, Recover;
    assert Enabled(s, LabelNo(13, delay));
  }

  lemma HearsNothing(k: nat, s: System, delay: real)
    requires k in {5, 10} && StandsAt(k, s, delay)
    ensures StandsAt(k + 1, Next(s, LabelNo(k, delay)), delay)
  {
    PageHears();
    hide Answered, Taken, Sounds, Recover;
    assert Enabled(s, LabelNo(k, delay));
  }

  lemma IsCommanded(s: System, delay: real)
    requires StandsAt(11, s, delay)
    ensures StandsAt(12, Next(s, LabelNo(11, delay)), delay)
  {
    DeskIssues();
    hide Judge, Issue, Recover;
    assert Enabled(s, LabelNo(11, delay));
  }

  lemma IsServed(s: System, delay: real)
    requires StandsAt(2, s, delay)
    ensures StandsAt(3, Next(s, LabelNo(2, delay)), delay)
  {
    hide Recover, Playback;
    NothingOffered();
    assert Enabled(s, LabelNo(2, delay));
  }

  lemma IsEnabled(k: nat, s: System, delay: real)
    requires k in {6, 7} && StandsAt(k, s, delay)
    ensures StandsAt(k + 1, Next(s, LabelNo(k, delay)), delay)
  {
    hide Recover;
    assert Enabled(s, LabelNo(k, delay));
  }

  lemma Waits(s: System, delay: real)
    requires StandsAt(14, s, delay) && 0.0 <= delay
    ensures StandsAt(15, Next(s, LabelNo(14, delay)), delay)
  {
    assert Enabled(s, LabelNo(14, delay));
  }

  lemma Recovers(s: System, delay: real)
    requires StandsAt(15, s, delay)
    ensures StandsAt(16, Next(s, LabelNo(15, delay)), delay)
  {
    hide Recover;
    assert Enabled(s, LabelNo(15, delay));
  }

  lemma NothingOffered()
    ensures Playback(OPENING, NEW_DESK, 0.0) == None
  {
    PlaybackIsNewest(OPENING, NEW_DESK, 0.0);
  }

  lemma {:induction false} StandsAfter(k: nat, delay: real)
    requires 2 <= k <= 16 && 0.0 <= delay
    ensures StandsAt(k, Run(Labels(k, delay)), delay)
  {
    hide StandsAt, Labels, LabelNo, Run, Next;
    if k == 2 {
      Begins(delay);
    } else {
      var s := Run(Labels(k - 1, delay));
      StandsAfter(k - 1, delay);
      RunIsNext(k - 1, delay);
      match k - 1
      case 2 => IsServed(s, delay);
      case 3 => Joins(s, delay);
      case 4 => IsKnown(s, delay);
      case 5 => HearsNothing(5, s, delay);
      case 6 => IsEnabled(6, s, delay);
      case 7 => IsEnabled(7, s, delay);
      case 8 => AsksReady(s, delay);
      case 9 => IsReady(s, delay);
      case 10 => HearsNothing(10, s, delay);
      case 11 => IsCommanded(s, delay);
      case 12 => AsksAgain(s, delay);
      case 13 => IsOffered(s, delay);
      case 14 => Waits(s, delay);
      case _ => Recovers(s, delay);
    }
  }

  lemma Starts(s: System, delay: real)
    requires 0.0 <= delay < EXECUTION_SECONDS && StandsAt(16, s, delay)
    ensures var key, t := Key("d", 1, SCOPE), Next(s, LabelNo(16, delay));
            Execution(0, key, delay, 16) in t.story.executions && key in t.story.sounded
  {
    PageStarts(delay);
    hide Answered, Taken, Sounds, Recover;
    assert Enabled(s, LabelNo(16, delay));
    assert TakenBy(s, OFFERED) == Some(OFFER);
  }

  lemma RunRecovers(delay: real)
    requires 0.0 <= delay
    ensures RecoversAfter(Labels(17, delay), 15, 1, delay)
    ensures Labels(17, delay)[..15] == Labels(15, delay) && Labels(17, delay)[..16] == Labels(16, delay)
  {
    var labels := Labels(17, delay);
    assert labels[..15] == Labels(15, delay) && labels[..16] == Labels(16, delay);
    assert labels[15] == Reconnect(SCOPE);
    StandsAfter(15, delay);
    hide Run, Labels, LabelNo, DeskAt, PageAt, NamesAt, Carries;
  }

  lemma RunStarts(delay: real)
    requires 0.0 <= delay < EXECUTION_SECONDS
    ensures var key, before, after := Key("d", 1, SCOPE), Run(Labels(16, delay)), Run(Labels(17, delay));
            && before.story.executions == {} && Execution(0, key, delay, 16) in after.story.executions
            && before.story.sounded == {} && key in after.story.sounded
            && Playback(OPENING, before.server.desk, delay) == None
  {
    StandsAfter(16, delay);
    RunIsNext(16, delay);
    NothingToPlay(delay);
    hide Run, Labels, Recover, Next, LabelNo, PageAt, NamesAt, Carries, Playback;
    Starts(Run(Labels(16, delay)), delay);
  }

  /** After any shorter delay, a display can still start the sound of a command that has been recovered. */
  lemma EarlyRecoveriesCanBeOvertaken(delay: real)
    requires 0.0 <= delay < EXECUTION_SECONDS
    ensures var labels := Labels(17, delay);
            && RecoversAfter(labels, 15, 1, delay) && ExecutedSince(labels, 15, 1)
            && Playback(OPENING, Run(labels[..16]).server.desk, delay) == None
            && Key("d", 1, SCOPE) !in Run(labels[..16]).story.sounded
            && Key("d", 1, SCOPE) in Run(labels).story.sounded
  {
    RunRecovers(delay);
    RunStarts(delay);
    StandsAfter(15, delay);
    hide Run, Labels, RecoversAfter, Playback, DeskAt, PageAt, NamesAt, Carries;
    assert Execution(0, Key("d", 1, SCOPE), delay, 16).key.id == 1;
  }

  lemma NothingToPlay(delay: real)
    ensures Playback(OPENING, Recover(OPENING, ASKED, SCOPE, delay).0, delay) == None
  {
    PlaybackIsNewest(OPENING, Recover(OPENING, ASKED, SCOPE, delay).0, delay);
  }

  // ---- The exact condition ----

  /** A recovery is safe in every run exactly when the command's four seconds are over. */
  lemma RecoveryIsSafeAfterFourSeconds(delay: real)
    requires 0.0 <= delay
    ensures RecoveryIsSafe(delay) <==> EXECUTION_SECONDS <= delay
  {
    if delay < EXECUTION_SECONDS {
      EarlyRecoveriesCanBeOvertaken(delay);
    } else {
      forall labels: seq<Label>, k: nat, id: nat | RecoversAfter(labels, k, id, delay)
        ensures !ExecutedSince(labels, k, id)
      {
        forall e | e in Run(labels).story.executions && e.key.id == id ensures e in Run(labels[..k]).story.executions {
          LateRecoveriesAreSafe(labels, k, id, delay, e);
        }
      }
    }
  }
}

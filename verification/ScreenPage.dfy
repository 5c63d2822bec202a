/** The audio side of one display page, apps/showcase/static/screen.js.

  `Page` holds the module variables the protocol reads and writes. Each function
  is the code that runs between two `await`s, so each is atomic in a browser. The
  class at the end makes the same updates in place, statement by statement.
 */
module ScreenPage {
  import opened Wrappers
  import opened AudioDesk

  /** What a page keeps of a `/api/state` response; `playbackId` is 0 when there is none. */
  datatype StateView = StateView(revision: nat, stage: Stage, playbackId: nat)

  /** A playing source, with the state its `onended` handler closes over. */
  datatype Sound = Sound(state: StateView)

  datatype Page = Page(
    key: string,
    displayId: string,
    sequence: nat,
    scope: Option<Scope>,
    latest: Option<StateView>,
    status: Status,
    ready: bool,
    sound: Option<Sound>,
    lastCommand: nat,
    currentCommand: nat,
    needsBaseline: bool,
    pending: Option<string>,
    probeNo: nat,
    visible: bool,
    online: bool,
    closing: bool)

  function NewPage(displayId: string, key: string): Page {
    Page(key, displayId, 0, None, None, Blocked, false, None, 0, 0, true, None, 0, true, true, false)
  }

  /** The command part of a report's response. */
  datatype PlaybackView = PlaybackView(
    id: nat, scope: Scope, operation: Operation, participantId: string, displayIds: set<string>, validFor: real)

  predicate IsOpening(p: Page, state: StateView) {
    !p.closing && state.stage.published && state.stage.intro
  }

  predicate ScopeCurrent(p: Page, state: StateView) {
    && IsOpening(p, state)
    && p.scope == Some(state.stage.scope)
    && p.latest.Some? && p.latest.value.stage.scope == state.stage.scope
  }

  function Quiet(p: Page): Status {
    if p.ready then Idle else Blocked
  }

  function StopSound(p: Page, status: Status): Page {
    p.(sound := None, status := status)
  }

  /** A page with a live scope leaves it for good: a last report, and a fresh display id. */
  function ReleaseAudio(p: Page, freshId: string): (Page, Option<Report>) {
    var quiet := StopSound(p.(needsBaseline := true), Quiet(p));
    if p.scope.None? then (quiet, None)
    else
      (quiet.(sequence := p.sequence + 1, scope := None, displayId := freshId),
       Some(Report(p.displayId, p.key, p.scope.value, p.sequence + 1, false, 0, false,
                   quiet.status, p.currentCommand)))
  }

  function ReportAudio(p: Page, state: StateView): (Page, Option<Report>) {
    if !ScopeCurrent(p, state) then (p, None)
    else
      (p.(sequence := p.sequence + 1),
       Some(Report(p.displayId, p.key, p.scope.value, p.sequence + 1, true, p.probeNo, p.ready,
                   if !p.visible && !p.ready then Hidden else p.status, p.currentCommand)))
  }

  /** The page takes the command for itself: newer than any before, of this scope, and addressed to it. */
  predicate Executes(p: Page, command: PlaybackView, state: StateView) {
    && command.id > p.lastCommand
    && ScopeCurrent(p, state)
    && command.scope == state.stage.scope
    && p.displayId in command.displayIds
  }

  /** `hasBuffer`: the recording is decoded; `starts`: `AudioBufferSourceNode.start` does not throw. */
  predicate Sounds(p: Page, command: PlaybackView, state: StateView, hasBuffer: bool, starts: bool) {
    Executes(p, command, state) && command.operation == Play && p.ready && hasBuffer && starts
  }

  /** Start or stop the sound as the command asks. */
  function Obey(p: Page, command: PlaybackView, state: StateView, hasBuffer: bool, starts: bool): Page {
    var stopped := StopSound(p.(lastCommand := command.id, currentCommand := command.id), Quiet(p));
    if command.operation == Stop then stopped
    else if !p.ready || !hasBuffer then stopped.(status := Blocked)
    else if starts then stopped.(sound := Some(Sound(state)), status := Playing)
    else stopped.(status := Error)
  }

  function ProcessCommand(p: Page, command: Option<PlaybackView>, state: StateView, hasBuffer: bool, starts: bool)
    : (Page, Option<Report>)
  {
    if command.None? || command.value.id <= p.lastCommand then (p, None)
    else if !Executes(p, command.value, state) then (p.(lastCommand := command.value.id), None)
    else ReportAudio(Obey(p, command.value, state, hasBuffer, starts), state)
  }

  /** What a page sends: at most one farewell for the scope it leaves, and one report. */
  datatype Sent = Sent(farewell: Option<Report>, report: Option<Report>)

  const NOTHING_SENT := Sent(None, None)

  function Baseline(p: Page, state: StateView): Page {
    if !p.needsBaseline then p
    else p.(lastCommand := if p.lastCommand < state.playbackId then state.playbackId else p.lastCommand,
            needsBaseline := false)
  }

  /** Take up the scope of `state`, leaving another one first. */
  function JoinScope(p: Page, state: StateView, freshId: string): (Page, Option<Report>) {
    var (q, farewell) :=
      if p.scope.Some? && p.scope.value != state.stage.scope then ReleaseAudio(p, freshId) else (p, None);
    (Baseline(q.(scope := Some(state.stage.scope)), state), farewell)
  }

  /** Send a maintaining report unless one is under way for this display id. */
  function StartReport(p: Page, state: StateView): (Page, Option<Report>) {
    if p.pending == Some(p.displayId) then (p, None)
    else
      var (q, report) := ReportAudio(p, state);
      (q.(pending := if report.Some? then Some(p.displayId) else None), report)
  }

  lemma ReportsIgnorePending(p: Page, state: StateView, pending: Option<string>)
    ensures var (q, report) := ReportAudio(p, state);
            ReportAudio(p.(pending := pending), state) == (q.(pending := pending), report)
  {
  }

  /** `maintainAudio` up to the `await` of its report. */
  function MaintainAudio(p: Page, state: StateView, freshId: string): (Page, Sent) {
    if !IsOpening(p, state) || !p.online then
      var (q, farewell) := ReleaseAudio(p, freshId);
      (q, Sent(farewell, None))
    else
      var (joined, farewell) := JoinScope(p, state, freshId);
      var (q, report) := StartReport(joined, state);
      (q, Sent(farewell, report))
  }

  /** A remote recovery the page has not followed yet: it lets go of the sound and its buffers. */
  function LetGo(p: Page, state: StateView, recovery: bool, recoveryId: string): (Page, Option<Report>) {
    if !recovery || !IsOpening(p, state) || !p.online then (p, None)
    else
      var (q, farewell) := ReleaseAudio(p, recoveryId);
      (q.(ready := false), farewell)
  }

  /** `poll` when its state arrives: an older revision is dropped. */
  function StateArrived(p: Page, state: StateView, recovery: bool, recoveryId: string, freshId: string)
    : (Page, Option<Report>, Sent)
  {
    if p.latest.Some? && state.revision < p.latest.value.revision then (p, None, NOTHING_SENT)
    else
      var (q, farewell) := LetGo(p.(latest := Some(state)), state, recovery, recoveryId);
      var (r, sent) := MaintainAudio(q, state, freshId);
      (r, farewell, sent)
  }

  function Settled(p: Page, reportingId: string, maintaining: bool): Page {
    if maintaining && p.pending == Some(reportingId) then p.(pending := None) else p
  }

  /** The response is still worth acting on: its validity has not run out since the request started. */
  function StillValid(playback: Option<PlaybackView>, started: real, now: real): Option<PlaybackView> {
    if playback.Some? && playback.value.validFor <= now - started then None else playback
  }

  predicate MayProcess(p: Page, state: StateView, reportingId: string) {
    && p.displayId == reportingId
    && IsOpening(p, state)
    && p.scope.Some? && p.scope.value.epoch == state.stage.scope.epoch
    && p.latest.Some? && p.latest.value.stage.scope.epoch == state.stage.scope.epoch
  }

  /** A report's response arrives; only a maintaining report acts on the command in it. */
  function ReportAnswered(p: Page, state: StateView, reportingId: string, maintaining: bool, started: real, now: real,
                          playback: Option<PlaybackView>, hasBuffer: bool, starts: bool): (Page, Option<Report>)
  {
    var (q, report) :=
      if maintaining && MayProcess(p, state, reportingId)
      then ProcessCommand(p, StillValid(playback, started, now), state, hasBuffer, starts) else (p, None);
    (Settled(q, reportingId, maintaining), report)
  }

  /** A report fails or times out. */
  function ReportFailed(p: Page, state: StateView, reportingId: string, maintaining: bool, freshId: string)
    : (Page, Option<Report>)
  {
    if ScopeCurrent(p, state) && p.displayId == reportingId then
      var (q, farewell) := ReleaseAudio(p, freshId);
      (Settled(q.(status := Error), reportingId, maintaining), farewell)
    else (Settled(p, reportingId, maintaining), None)
  }

  function SoundEnded(p: Page): (Page, Option<Report>)
    requires p.sound.Some?
  {
    ReportAudio(p.(sound := None, status := Ended), p.sound.value.state)
  }

  /** Everything else that touches these variables: browser events, and the status resets of `enableAudio`. */
  datatype Surroundings =
    | Ready(ready: bool)
    | Visible(visible: bool)
    | Online(online: bool)
    | Closing(closing: bool)
    | ProbeSeen(probeNo: nat)
    | Reset(status: Status)

  function Surround(p: Page, s: Surroundings): Page {
    match s
    case Ready(ready) => p.(ready := ready)
    case Visible(visible) => p.(visible := visible)
    case Online(online) => p.(online := online)
    case Closing(closing) => p.(closing := closing)
    case ProbeSeen(probeNo) => p.(probeNo := probeNo)
    case Reset(status) => if status in {Idle, Blocked, Error} then p.(status := status) else p
  }

  // ---- The module variables, updated in place ----

  class Screen {
    const key: string
    var displayId: string
    var sequence: nat
    var scope: Option<Scope>
    var latest: Option<StateView>
    var status: Status
    var ready: bool
    var sound: Option<Sound>
    var lastCommand: nat
    var currentCommand: nat
    var needsBaseline: bool
    var pending: Option<string>
    var probeNo: nat
    var visible: bool
    var online: bool
    var closing: bool

    constructor (displayId: string, key: string)
      ensures State() == NewPage(displayId, key)
    {
      this.key := key;
      this.displayId := displayId;
      sequence, scope, latest, status := 0, None, None, Blocked;
      ready, sound, lastCommand, currentCommand := false, None, 0, 0;
      needsBaseline, pending, probeNo := true, None, 0;
      visible, online, closing := true, true, false;
    }

    ghost function State(): Page
      reads this
    {
      Page(key, displayId, sequence, scope, latest, status, ready, sound, lastCommand, currentCommand,
           needsBaseline, pending, probeNo, visible, online, closing)
    }

    method Stop(status: Status)
      modifies this
      ensures State() == StopSound(old(State()), status)
    {
      sound := None;
      this.status := status;
    }

    method Release(freshId: string) returns (farewell: Option<Report>)
      modifies this
      ensures (State(), farewell) == ReleaseAudio(old(State()), freshId)
    {
      needsBaseline := true;
      Stop(if ready then Idle else Blocked);
      if scope.None? {
        return None;
      }
      sequence := sequence + 1;
      farewell := Some(Report(displayId, key, scope.value, sequence, false, 0, false, status, currentCommand));
      scope := None;
      displayId := freshId;
    }

    method IsCurrent(state: StateView) returns (current: bool)
      ensures current == ScopeCurrent(State(), state)
    {
      current := !closing && state.stage.published && state.stage.intro
        && scope == Some(state.stage.scope) && latest.Some? && latest.value.stage.scope == state.stage.scope;
    }

    method SendReport(state: StateView) returns (report: Option<Report>)
      modifies this
      ensures (State(), report) == ReportAudio(old(State()), state)
    {
      var current := IsCurrent(state);
      if !current {
        return None;
      }
      sequence := sequence + 1;
      report := Some(Report(displayId, key, scope.value, sequence, true, probeNo, ready,
                            if !visible && !ready then Hidden else status, currentCommand));
    }

    /** The part of `processCommand` that starts or stops the sound; `lastCommand` is set already. */
    method Follow(command: PlaybackView, state: StateView, hasBuffer: bool, starts: bool)
      requires lastCommand == command.id
      modifies this
      ensures State() == Obey(old(State()), command, state, hasBuffer, starts)
    {
      currentCommand := command.id;
      Stop(if ready then Idle else Blocked);
      if command.operation == Play {
        if !ready || !hasBuffer {
          status := Blocked;
        } else if starts {
          sound := Some(Sound(state));
          status := Playing;
        } else {
          Stop(Error);
        }
      }
    }

    method Process(command: Option<PlaybackView>, state: StateView, hasBuffer: bool, starts: bool)
      returns (report: Option<Report>)
      modifies this
      ensures (State(), report) == ProcessCommand(old(State()), command, state, hasBuffer, starts)
    {
      if command.None? || command.value.id <= lastCommand {
        return None;
      }
      var c := command.value;
      lastCommand := c.id;
      var current := IsCurrent(state);
      if !current || c.scope != state.stage.scope || displayId !in c.displayIds {
        return None;
      }
      Follow(c, state, hasBuffer, starts);
      report := SendReport(state);
    }

    method Join(state: StateView, freshId: string) returns (farewell: Option<Report>)
      modifies this
      ensures (State(), farewell) == JoinScope(old(State()), state, freshId)
    {
      farewell := None;
      if scope.Some? && scope.value != state.stage.scope {
        farewell := Release(freshId);
      }
      scope := Some(state.stage.scope);
      if needsBaseline {
        if lastCommand < state.playbackId {
          lastCommand := state.playbackId;
        }
        needsBaseline := false;
      }
    }

    method Begin(state: StateView) returns (report: Option<Report>)
      modifies this
      ensures (State(), report) == StartReport(old(State()), state)
    {
      hide ReportAudio;
      if pending == Some(displayId) {
        return None;
      }
      ReportsIgnorePending(State(), state, Some(displayId));
      pending := Some(displayId);
      assert State() == old(State()).(pending := pending);
      report := SendReport(state);
      if report.None? {
        pending := None;
      }
    }

    method Maintain(state: StateView, freshId: string) returns (sent: Sent)
      modifies this
      ensures (State(), sent) == MaintainAudio(old(State()), state, freshId)
    {
      if closing || !state.stage.published || !state.stage.intro || !online {
        var farewell := Release(freshId);
        return Sent(farewell, None);
      }
      var farewell := Join(state, freshId);
      var report := Begin(state);
      return Sent(farewell, report);
    }

    method Recover(state: StateView, recovery: bool, recoveryId: string) returns (farewell: Option<Report>)
      modifies this
      ensures (State(), farewell) == LetGo(old(State()), state, recovery, recoveryId)
    {
      farewell := None;
      if recovery && !closing && state.stage.published && state.stage.intro && online {
        farewell := Release(recoveryId);
        ready := false;
      }
    }

    method Arrive(state: StateView, recovery: bool, recoveryId: string, freshId: string)
      returns (farewell: Option<Report>, sent: Sent)
      modifies this
      ensures (State(), farewell, sent) == StateArrived(old(State()), state, recovery, recoveryId, freshId)
    {
      if latest.Some? && state.revision < latest.value.revision {
        return None, NOTHING_SENT;
      }
      latest := Some(state);
      farewell := Recover(state, recovery, recoveryId);
      sent := Maintain(state, freshId);
    }

    method Answered(state: StateView, reportingId: string, maintaining: bool, started: real, now: real,
                    playback: Option<PlaybackView>, hasBuffer: bool, starts: bool) returns (report: Option<Report>)
      modifies this
      ensures (State(), report)
           == ReportAnswered(old(State()), state, reportingId, maintaining, started, now, playback, hasBuffer, starts)
    {
      report := None;
      if maintaining {
        var command := playback;
        if command.Some? && command.value.validFor <= now - started {
          command := None;
        }
        if displayId == reportingId && !closing && state.stage.published && state.stage.intro
           && scope.Some? && scope.value.epoch == state.stage.scope.epoch
           && latest.Some? && latest.value.stage.scope.epoch == state.stage.scope.epoch {
          report := Process(command, state, hasBuffer, starts);
        }
        if pending == Some(reportingId) {
          pending := None;
        }
      }
    }

    method Failed(state: StateView, reportingId: string, maintaining: bool, freshId: string)
      returns (farewell: Option<Report>)
      modifies this
      ensures (State(), farewell) == ReportFailed(old(State()), state, reportingId, maintaining, freshId)
    {
      farewell := None;
      var current := IsCurrent(state);
      if current && displayId == reportingId {
        farewell := Release(freshId);
        status := Error;
      }
      if maintaining && pending == Some(reportingId) {
        pending := None;
      }
    }

    method Finished() returns (report: Option<Report>)
      requires sound.Some?
      modifies this
      ensures (State(), report) == SoundEnded(old(State()))
    {
      var state := sound.value.state;
      sound := None;
      status := Ended;
      report := SendReport(state);
    }

    method Browse(change: Surroundings)
      modifies this
      ensures State() == Surround(old(State()), change)
    {
      match change
      case Ready(r) => ready := r;
      case Visible(v) => visible := v;
      case Online(o) => online := o;
      case Closing(c) => closing := c;
      case ProbeSeen(no) => probeNo := no;
      case Reset(s) =>
        if s in {Idle, Blocked, Error} {
          status := s;
        }
    }
  }
}

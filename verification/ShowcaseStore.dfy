/** The tables of apps/showcase/app.py and the in-memory receipts, updated in place.

  Each method is one handler body, statement by statement, inside its transaction;
  a refusal puts back what it had deleted. The methods are proved to do what the
  functions of `RoundLedger` and `AudioDesk` say, which is what the runs are about.
  `Serve` puts a store and its receipts through any sequence of requests.
 */
module ShowcaseStore {
  import opened Wrappers
  import L = RoundLedger
  import A = AudioDesk
  import H = AudioHistory
  import P = AudioProtocol
  import S = ScreenPage
  import Tally
  import RoundAccounts
  import AudioAccounts

  /** The current round as the audio handlers see it. */
  function StageOf(l: L.Ledger): A.Stage {
    A.Stage(A.Scope(l.current, L.CurrentEpoch(l)), L.Current(l).published.Some?, L.InPhase(l, L.Intro))
  }

  class Store {
    var rounds: map<string, L.Round>
    var current: string
    var votes: map<(string, string), Tally.Ballot>
    var leases: map<string, L.Lease>
    var displays: map<string, A.AudioRow>
    var commands: map<nat, A.Command>
    var lastId: nat

    predicate Valid()
      reads this
    {
      current in rounds
    }

    ghost function Ledger(): L.Ledger
      reads this
      requires Valid()
    {
      L.Tables(rounds, current, votes, leases)
    }

    ghost function Desk(): A.Desk
      reads this
    {
      A.Desk(displays, commands, lastId)
    }

    constructor (roundId: string, draft: L.Content)
      ensures Valid() && Ledger() == L.NewStore(roundId, draft) && Desk() == A.NEW_DESK
    {
      rounds, current, votes, leases := map[roundId := L.Round(0, draft, None)], roundId, map[], map[];
      displays, commands, lastId := map[], map[], 0;
    }

    // ---- Rounds and ballots ----

    method Epoch() returns (epoch: string)
      requires Valid()
      ensures epoch == L.CurrentEpoch(Ledger())
    {
      var row := rounds[current];
      epoch := if row.published.Some? then row.published.value.epoch else "";
    }

    method IsPhase(phase: L.Phase) returns (yes: bool)
      requires Valid()
      ensures yes == L.InPhase(Ledger(), phase)
    {
      var row := rounds[current];
      yes := row.published.Some? && row.published.value.content.phase == phase;
    }

    /** `collection`. */
    method Collecting(now: real) returns (collecting: bool)
      requires Valid()
      ensures collecting == L.Collecting(Ledger(), now)
    {
      var epoch := Epoch();
      var voting := IsPhase(L.Vote);
      var active := set d | d in leases && leases[d].roundId == current && leases[d].epoch == epoch
          && leases[d].expires > now;
      assert active == L.ActiveDisplays(Ledger(), now);
      collecting := voting && |active| > 0;
    }

    method DisplayLease(req: L.LeaseRequest, stamp: real) returns (outcome: L.Outcome)
      requires Valid()
      modifies `leases
      ensures Valid() && (Ledger(), outcome) == L.DisplayLease(old(Ledger()), req, stamp)
    {
      var epoch := Epoch();
      if req.epoch == "" {
        return L.Refused(422);
      }
      if req.roundId != current || req.epoch != epoch {
        return L.Refused(409);
      }
      var before := leases;
      leases := L.KeepLeases(leases, stamp - L.LEASE_RETENTION);
      if req.displayId in leases && req.sequence <= leases[req.displayId].sequence {
        return L.Stale;
      }
      if req.displayId !in leases && |leases| >= L.LEASE_LIMIT {
        leases := before;
        return L.Refused(429);
      }
      var voting := IsPhase(L.Vote);
      var expires := if req.active && voting then stamp + L.LEASE_SECONDS else 0.0;
      leases := leases[req.displayId := L.Lease(current, req.epoch, req.sequence, expires, stamp)];
      return L.Accepted;
    }

    method Vote(req: L.VoteRequest, voter: string, now: real) returns (outcome: L.Outcome)
      requires Valid()
      modifies `votes
      ensures Valid() && (Ledger(), outcome) == L.CastVote(old(Ledger()), req, voter, now)
    {
      if req.roundId != current {
        return L.Refused(409);
      }
      var collecting := Collecting(now);
      if !collecting {
        return L.Refused(409);
      }
      if (current, voter) in votes {
        return L.Refused(409);
      }
      votes := votes[(current, voter) := L.BallotOf(req)];
      return L.Accepted;
    }

    method Draft(revision: nat, content: L.Content) returns (outcome: L.Outcome)
      requires Valid()
      modifies `rounds
      ensures Valid() && (Ledger(), outcome) == L.SaveDraft(old(Ledger()), revision, content)
    {
      var row := rounds[current];
      if row.revision != revision {
        return L.Refused(409);
      }
      if (exists key | key in votes :: key.0 == current) && L.FixtureOf(content) != L.FixtureOf(row.draft) {
        return L.Refused(409);
      }
      rounds := rounds[current := row.(draft := content, revision := row.revision + 1)];
      return L.Accepted;
    }

    method Publish(revision: nat, epoch: string) returns (outcome: L.Outcome)
      requires Valid()
      modifies `rounds
      ensures Valid() && (Ledger(), outcome) == L.Publish(old(Ledger()), revision, epoch)
    {
      var row := rounds[current];
      if row.revision != revision {
        return L.Refused(409);
      }
      var content := row.draft.(votingOpen := row.draft.phase == L.Vote);
      rounds := rounds[current := row.(published := Some(L.Published(content, epoch)), revision := row.revision + 1)];
      return L.Accepted;
    }

    method Withdraw(revision: nat) returns (outcome: L.Outcome)
      requires Valid()
      modifies `rounds, `leases
      ensures Valid() && (Ledger(), outcome) == L.Withdraw(old(Ledger()), revision)
    {
      var row := rounds[current];
      if row.revision != revision {
        return L.Refused(409);
      }
      leases := map d | d in leases && leases[d].roundId != current :: leases[d];
      rounds := rounds[current := row.(published := None, revision := row.revision + 1)];
      return L.Accepted;
    }

    method NewRound(revision: nat, roundId: string) returns (outcome: L.Outcome)
      requires Valid()
      modifies `rounds, `current
      ensures Valid() && (Ledger(), outcome) == L.NewRound(old(Ledger()), revision, roundId)
    {
      var row := rounds[current];
      if row.revision != revision {
        return L.Refused(409);
      }
      if roundId in rounds {
        return L.Refused(500);
      }
      var content := row.draft.(phase := L.Vote, resultView := L.Audience, votingOpen := false);
      content := content.(comments := "", winner := "", best := "");
      rounds := rounds[roundId := L.Round(row.revision + 1, content, None)];
      current := roundId;
      return L.Accepted;
    }

    // ---- Audio ----

    method Stage() returns (stage: A.Stage)
      requires Valid()
      ensures stage == StageOf(Ledger())
    {
      var epoch := Epoch();
      var intro := IsPhase(L.Intro);
      stage := A.Stage(A.Scope(current, epoch), rounds[current].published.Some?, intro);
    }

    /** `Store.playback`: newest command of the current scope first. */
    method Playback(now: real) returns (id: Option<nat>)
      requires Valid()
      ensures id == A.Playback(StageOf(Ledger()), Desk(), now)
    {
      var stage := Stage();
      if !stage.intro {
        return None;
      }
      var n := lastId;
      while n > 0 && !(n in commands && commands[n].scope == stage.scope)
        invariant A.NewestUpTo(Desk(), stage.scope, lastId) == A.NewestUpTo(Desk(), stage.scope, n)
      {
        n := n - 1;
      }
      if n == 0 || commands[n].expires <= now {
        return None;
      }
      return Some(n);
    }

    /** `Store.playback` with the time a display still has to start the command. */
    method Offer(now: real) returns (offer: Option<S.PlaybackView>)
      requires Valid()
      ensures offer == P.ViewOf(StageOf(Ledger()), Desk(), now)
    {
      var id := Playback(now);
      if id.None? {
        return None;
      }
      A.PlaybackIsNewest(StageOf(Ledger()), Desk(), now);
      var c := commands[id.value];
      var executeBefore := if c.expires <= c.issuedAt + A.EXECUTION_SECONDS then c.expires
                           else c.issuedAt + A.EXECUTION_SECONDS;
      var left := if executeBefore - now < 0.0 then 0.0 else executeBefore - now;
      return Some(S.PlaybackView(id.value, c.scope, c.operation, c.participantId, c.displayIds, left));
    }

    /** `POST /api/audio-display`: the row it writes, and the command it offers in return. */
    method AudioDisplay(req: A.Report, stamp: real, now: real)
      returns (outcome: A.Outcome, offer: Option<S.PlaybackView>)
      requires Valid()
      modifies `displays
      ensures Valid() && Ledger() == old(Ledger())
      ensures (Desk(), outcome) == A.AudioReport(StageOf(Ledger()), old(Desk()), req, stamp)
      ensures offer == if outcome.Refused? then None else P.ViewOf(StageOf(Ledger()), Desk(), now)
    {
      offer := None;
      outcome := WriteRow(req, stamp);
      if !outcome.Refused? {
        offer := Offer(now);
      }
    }

    method WriteRow(req: A.Report, stamp: real) returns (outcome: A.Outcome)
      requires Valid()
      modifies `displays
      ensures Valid() && Ledger() == old(Ledger())
      ensures (Desk(), outcome) == A.AudioReport(StageOf(Ledger()), old(Desk()), req, stamp)
    {
      var stage := Stage();
      if req.scope.epoch == "" {
        return A.Refused(422);
      }
      if req.scope != stage.scope {
        return A.Refused(409);
      }
      var before := displays;
      displays := A.KeepRows(displays, stamp - A.HIDDEN_SECONDS);
      var known := req.displayId in displays;
      if known && displays[req.displayId].keyHash != req.keyHash {
        displays := before;
        return A.Refused(403);
      }
      if known && req.sequence <= displays[req.displayId].sequence {
        return A.Stale;
      }
      if !known && |displays| >= A.DISPLAY_LIMIT {
        displays := before;
        return A.Refused(429);
      }
      var active := req.active && stage.intro;
      var given := if known && displays[req.displayId].scope == stage.scope
          then displays[req.displayId].commandId else 0;
      var status := if req.commandId == given then req.status
                    else if known && given != 0 then displays[req.displayId].status else A.Idle;
      var lease := A.LEASE_SECONDS;
      if req.status == A.Hidden {
        status, lease := A.Hidden, A.HIDDEN_SECONDS;
      }
      displays := displays[req.displayId :=
        A.AudioRow(stage.scope, req.sequence, if active then stamp + lease else 0.0, stamp,
                   active && req.ready && status != A.Hidden, if active then status else A.Idle, given, req.keyHash)];
      return A.Accepted;
    }

    /** The command of a request id, if it is retained. */
    method FindRequest(requestId: string) returns (id: Option<nat>)
      ensures id == A.RequestUpTo(Desk(), requestId, lastId)
    {
      var n := lastId;
      while n > 0 && !(n in commands && commands[n].requestId == requestId)
        invariant A.RequestUpTo(Desk(), requestId, lastId) == A.RequestUpTo(Desk(), requestId, n)
      {
        n := n - 1;
      }
      id := if n == 0 then None else Some(n);
    }

    /** One `UPDATE audio_displays` for each target. */
    method Assign(targets: set<string>, id: nat)
      modifies `displays
      ensures displays == A.Assign(old(displays), targets, id)
    {
      var left := targets;
      while left != {}
        invariant left <= targets && displays == A.Assign(old(displays), targets - left, id)
        decreases |left|
      {
        var d :| d in left;
        if d in displays {
          var row := displays[d];
          displays :=
            displays[d := row.(commandId := id, status := if row.status == A.Hidden then A.Hidden else A.Idle)];
        }
        left := left - {d};
      }
      assert targets - left == targets;
    }

    /** Of the live displays, those that are ready and, if there was a probe, have answered it. */
    method ReadyDisplays(receipts: AudioReceipts, live: set<string>, scope: A.Scope, probeNo: nat)
      returns (targets: set<string>)
      requires live <= displays.Keys
      ensures targets == set d | d in live && A.CanPlay(displays, receipts.State(), d, scope, probeNo)
    {
      hide A.FreshReceipt;
      targets := {};
      var left := live;
      while left != {}
        invariant left <= live
        invariant forall d ::
          d in targets <==> d in live - left && A.CanPlay(displays, receipts.State(), d, scope, probeNo)
        decreases |left|
      {
        var d :| d in left;
        var answered := true;
        if probeNo != 0 {
          answered := receipts.Fresh(d, scope, probeNo);
        }
        if displays[d].ready && answered {
          targets := targets + {d};
        }
        left := left - {d};
      }
    }

    /** The command goes in under the next id, to its targets, and the table is trimmed. */
    method Insert(command: A.Command)
      modifies `displays, `commands, `lastId
      ensures Desk() == A.Issue(old(Desk()), command) && lastId == old(lastId) + 1
    {
      lastId := lastId + 1;
      commands := commands[lastId := command];
      Assign(command.displayIds, lastId);
      commands := A.Newest(commands);
    }

    method PlaybackCommand(receipts: AudioReceipts, greetings: map<string, string>, req: A.CommandRequest,
                           stamp: real, now: real)
      returns (outcome: A.CommandOutcome)
      requires Valid()
      modifies `displays, `commands, `lastId
      ensures Valid() && Ledger() == old(Ledger())
      ensures (Desk(), outcome)
           == A.PlaybackCommand(StageOf(Ledger()), old(Desk()), receipts.State(), greetings, req, stamp, now)
    {
      hide A.Issue, A.CanPlay;
      var stage := Stage();
      if !stage.published || req.scope != stage.scope {
        return A.Rejected(409);
      }
      var previous := FindRequest(req.requestId);
      A.RequestIsFound(Desk(), req.requestId, lastId);
      if previous.Some? {
        var earlier := commands[previous.value];
        if earlier.scope != stage.scope || earlier.operation != req.operation
            || earlier.participantId != req.participantId {
          return A.Rejected(409);
        }
        return A.Duplicate(previous.value);
      }
      var live :=
        if stage.intro then set d | d in displays && displays[d].scope == stage.scope && displays[d].expires > now
                  else {};
      assert live == A.LiveDisplays(stage, Desk(), now);
      var targets, url := live, "";
      if req.operation == A.Play {
        if !stage.intro || req.participantId !in greetings {
          return A.Rejected(409);
        }
        targets := ReadyDisplays(receipts, live, stage.scope, req.probeNo);
        if targets == {} {
          return A.Rejected(409);
        }
        url := greetings[req.participantId];
      }
      assert targets == A.Targets(stage, Desk(), receipts.State(), req, now);
      Insert(A.Command(req.requestId, stage.scope, req.operation, req.participantId, url, targets,
                       stamp, stamp + A.COMMAND_SECONDS));
      return A.Issued(lastId);
    }

    /** One `UPDATE audio_displays` for each display that did not confirm. */
    method Fault(dropped: set<string>, id: nat)
      modifies `displays
      ensures displays == map d | d in old(displays) ::
                if d in dropped && old(displays)[d].commandId == id
                then old(displays)[d].(ready := false, status := A.Error) else old(displays)[d]
    {
      ghost var before := displays;
      var left := dropped;
      while left != {}
        invariant left <= dropped
        invariant displays == map d | d in before ::
                    if d in dropped - left && before[d].commandId == id
                    then before[d].(ready := false, status := A.Error) else before[d]
        decreases |left|
      {
        var d :| d in left;
        if d in displays && displays[d].commandId == id {
          displays := displays[d := displays[d].(ready := false, status := A.Error)];
        }
        left := left - {d};
      }
    }

    /** The confirm loop's list: the command's displays whose receipts confirm it. */
    method Confirmed(receipts: AudioReceipts, command: A.Command, scope: A.Scope, id: nat)
      returns (confirmed: set<string>)
      ensures confirmed == P.Confirmed(receipts.State(), command, scope, id)
    {
      confirmed := {};
      var left := command.displayIds;
      while left != {}
        invariant left <= command.displayIds
        invariant confirmed == set d | d in command.displayIds - left
                                     && A.Confirms(receipts.State(), d, scope, id, command.operation)
        decreases |left|
      {
        var d :| d in left;
        var confirms := receipts.Confirms(d, scope, id, command.operation);
        if confirms {
          confirmed := confirmed + {d};
        }
        left := left - {d};
      }
    }

    method CancelUnconfirmed(scope: A.Scope, id: nat, confirmed: set<string>, now: real)
      requires Valid()
      modifies `displays, `commands
      ensures Valid() && Ledger() == old(Ledger())
      ensures Desk() == A.CancelUnconfirmed(StageOf(Ledger()), old(Desk()), scope, id, confirmed, now)
    {
      A.PlaybackIsNewest(StageOf(Ledger()), Desk(), now);
      var playing := Playback(now);
      if playing != Some(id) || commands[id].scope != scope {
        return;
      }
      var command := commands[id];
      if confirmed != {} {
        commands := commands[id := command.(displayIds := confirmed)];
      } else {
        commands := commands[id := command.(expires := now - 1.0)];
      }
      Fault(command.displayIds - confirmed, id);
    }

    method AudioRecover(scope: A.Scope, now: real) returns (outcome: A.Outcome)
      requires Valid()
      modifies `displays, `commands
      ensures Valid() && Ledger() == old(Ledger())
      ensures (Desk(), outcome) == A.Recover(StageOf(Ledger()), old(Desk()), scope, now)
    {
      var stage := Stage();
      if stage.scope != scope || !stage.intro {
        return A.Refused(409);
      }
      commands := map id | id in commands ::
        if commands[id].scope == scope then commands[id].(expires := now - 1.0) else commands[id];
      displays := map d | d in displays ::
        if displays[d].scope == scope then displays[d].(ready := false) else displays[d];
      return A.Accepted;
    }
  }

  /** `AudioReceipts` of apps/showcase/audio_events.py; each method runs under its lock. */
  class AudioReceipts {
    var probeNo: nat
    var reports: map<string, A.Receipt>

    ghost function State(): A.Receipts
      reads this
    {
      A.Receipts(probeNo, reports)
    }

    constructor ()
      ensures State() == A.NO_RECEIPTS
    {
      probeNo, reports := 0, map[];
    }

    method Probe() returns (no: nat)
      modifies `probeNo
      ensures State() == A.Probe(old(State())) && no == probeNo
    {
      probeNo := probeNo + 1;
      return probeNo;
    }

    /** `min(self.reports, key=lambda k: self.reports[k][0])`. */
    method Oldest() returns (victim: string)
      requires reports != map[]
      ensures A.IsOldest(reports, victim)
    {
      victim :| victim in reports;
      var left := reports.Keys - {victim};
      while left != {}
        invariant victim in reports && left <= reports.Keys
        invariant forall d | d in reports && d !in left :: reports[victim].at <= reports[d].at
        decreases |left|
      {
        var d :| d in left;
        if reports[d].at < reports[victim].at {
          victim := d;
        }
        left := left - {d};
      }
    }

    method Record(report: A.Report, active: bool, now: real) returns (ghost victim: string)
      modifies `reports
      ensures A.IsVictim(old(State()), report, active, now, victim)
      ensures State() == A.Record(old(State()), report, active, now, victim)
    {
      victim := "";
      reports := map d | d in reports && reports[d].at > now - A.HIDDEN_SECONDS :: reports[d];
      assert reports == A.RecentReports(old(reports), now);
      if !active {
        reports := reports - {report.displayId};
      } else if report.probeNo <= probeNo {
        if |reports| >= A.DISPLAY_LIMIT && report.displayId !in reports {
          var oldest := Oldest();
          victim := oldest;
          reports := reports - {oldest};
        }
        var receipt := A.Receipt(now, report.scope, report.probeNo, report.commandId, report.status);
        reports := reports[report.displayId := receipt];
      }
    }

    method Fresh(displayId: string, scope: A.Scope, no: nat) returns (isFresh: bool)
      ensures isFresh == A.FreshReceipt(State(), displayId, scope, no)
    {
      if displayId !in reports {
        return false;
      }
      var report := reports[displayId];
      isFresh := report.scope == scope && 0 < no <= report.probeNo <= probeNo;
    }

    method Confirms(displayId: string, scope: A.Scope, commandId: nat, operation: A.Operation) returns (confirms: bool)
      ensures confirms == A.Confirms(State(), displayId, scope, commandId, operation)
    {
      if displayId !in reports {
        return false;
      }
      var report := reports[displayId];
      confirms := report.scope == scope && report.commandId == commandId
        && if operation == A.Play then report.status in {A.Playing, A.Ended} else report.status != A.Playing;
    }
  }

  // ---- Any sequence of requests ----

  datatype Call = RoundCall(action: L.Action, at: real) | AudioCall(event: H.Event, at: real)

  /** The clock never runs back, and a stamp is never ahead of the clock. */
  predicate Timely(call: Call, clock: real) {
    && clock <= call.at
    && match call
       case RoundCall(Report(_, stamp), _) => stamp <= call.at
       case AudioCall(Reported(_, stamp), _) => stamp <= call.at
       case AudioCall(Commanded(_, _, stamp), _) => stamp <= call.at
       case _ => true
  }

  method ServeRound(store: Store, action: L.Action, at: real)
    requires store.Valid()
    modifies store
    ensures store.Valid() && store.Desk() == old(store.Desk())
    ensures store.Ledger() == L.Handle(old(store.Ledger()), L.Step(action, at)).0
  {
    match action
    case Report(lease, stamp) => var _ := store.DisplayLease(lease, stamp);
    case Cast(ballot, voter) => var _ := store.Vote(ballot, voter, at);
    case Draft(revision, content) => var _ := store.Draft(revision, content);
    case Show(revision, epoch) => var _ := store.Publish(revision, epoch);
    case Hide(revision) => var _ := store.Withdraw(revision);
    case Replace(revision, roundId) => var _ := store.NewRound(revision, roundId);
  }

  /** The event as it was served: what a record evicted is not the caller's choice. */
  function Served(event: H.Event, victim: string): H.Event {
    if event.Recorded? then event.(victim := victim) else event
  }

  /** `victim` is the receipt that a record evicted, if it did. */
  method ServeAudio(store: Store, receipts: AudioReceipts, event: H.Event, at: real, ghost w: H.World)
    returns (ghost victim: string)
    requires store.Valid() && w.desk == store.Desk() && w.receipts == receipts.State()
    requires Timely(AudioCall(event, at), w.clock)
    modifies store, receipts
    ensures store.Valid() && store.Ledger() == old(store.Ledger())
    ensures var step := H.Step(Served(event, victim), StageOf(store.Ledger()), at);
            && H.Possible(w, step)
            && H.Next(w, step).desk == store.Desk() && H.Next(w, step).receipts == receipts.State()
  {
    victim := "";
    match event
    case Reported(report, stamp) => var _, _ := store.AudioDisplay(report, stamp, at);
    case Recorded(report, active, _) => victim := receipts.Record(report, active, at);
    case Probed => var _ := receipts.Probe();
    case Commanded(request, greetings, stamp) =>
      var _ := store.PlaybackCommand(receipts, greetings, request, stamp, at);
    case Cancelled(scope, id, confirmed) => store.CancelUnconfirmed(scope, id, confirmed, at);
    case Recovered(scope) => var _ := store.AudioRecover(scope, at);
  }

  // ---- What the calls amount to ----

  /** The requests about rounds, as steps of the ledger. */
  ghost function RoundSteps(calls: seq<Call>): seq<L.Step> {
    if calls == [] then []
    else
      var init, last := calls[..|calls| - 1], calls[|calls| - 1];
      RoundSteps(init) + if last.RoundCall? then [L.Step(last.action, last.at)] else []
  }

  ghost function Rounds(roundId: string, draft: L.Content, calls: seq<Call>): L.History {
    L.Run(L.Fresh(roundId, draft), RoundSteps(calls))
  }

  /** The requests about audio, each under the stage that the rounds were in when it came. */
  ghost function AudioSteps(roundId: string, draft: L.Content, calls: seq<Call>, victims: seq<string>): seq<H.Step>
    requires |victims| == |calls|
  {
    if calls == [] then []
    else
      var n := |calls| - 1;
      AudioSteps(roundId, draft, calls[..n], victims[..n])
      + if calls[n].RoundCall? then []
        else [H.Step(Served(calls[n].event, victims[n]), StageOf(Rounds(roundId, draft, calls[..n]).ledger),
            calls[n].at)]
  }

  ghost function Audio(roundId: string, draft: L.Content, calls: seq<Call>, victims: seq<string>): H.World
    requires |victims| == |calls|
  {
    H.Run(H.START, AudioSteps(roundId, draft, calls, victims))
  }

  ghost predicate IsNew(store: Store, receipts: AudioReceipts, roundId: string, draft: L.Content)
    reads store, receipts
  {
    store.Valid() && store.Ledger() == L.NewStore(roundId, draft) && store.Desk() == A.NEW_DESK
    && receipts.State() == A.NO_RECEIPTS
  }

  /** The clock when request `i` comes in, at the earliest. */
  function ClockBefore(calls: seq<Call>, i: nat): real
    requires i <= |calls|
  {
    if i == 0 then 0.0 else calls[i - 1].at
  }

  ghost predicate InOrder(calls: seq<Call>) {
    forall i | 0 <= i < |calls| :: Timely(calls[i], ClockBefore(calls, i))
  }

  /**
   * A new store and its receipts, taken through any requests in the order of the clock, are what the ledger and the
   * desk make of these requests; no request is passed over, and what holds of every run holds of these objects.
   */
  method Serve(store: Store, receipts: AudioReceipts, calls: seq<Call>, ghost roundId: string, ghost draft: L.Content)
    returns (ghost victims: seq<string>)
    requires IsNew(store, receipts, roundId, draft) && InOrder(calls)
    modifies store, receipts
    ensures |victims| == |calls| && store.Valid()
    ensures store.Ledger() == Rounds(roundId, draft, calls).ledger
    ensures store.Desk() == Audio(roundId, draft, calls, victims).desk
    ensures receipts.State() == Audio(roundId, draft, calls, victims).receipts
    ensures Audio(roundId, draft, calls, victims).tick == |AudioSteps(roundId, draft, calls, victims)|
    ensures RoundAccounts.Agrees(store.Ledger(), RoundAccounts.BookOf(roundId, draft, RoundSteps(calls)))
    ensures var account := AudioAccounts.AccountOf(AudioSteps(roundId, draft, calls, victims));
            && AudioAccounts.RowsAgree(store.Desk(), account) && AudioAccounts.CommandsAgree(store.Desk(), account)
            && AudioAccounts.ReceiptsAgree(receipts.State(), account)
    ensures L.RevisionsCount(Rounds(roundId, draft, calls)) && L.BallotsAreLogged(Rounds(roundId, draft, calls))
    ensures H.RowsAreBacked(Audio(roundId, draft, calls, victims))
    ensures H.TableIsRecent(Audio(roundId, draft, calls, victims))
    ensures forall key | key in store.votes :: key.0 in store.rounds && Tally.CameThroughVote(store.votes[key])
    ensures forall id: nat :: id in store.commands <==> 1 <= id <= store.lastId < id + A.COMMAND_LIMIT
    ensures |receipts.reports| <= A.DISPLAY_LIMIT
    ensures forall d | d in receipts.reports :: receipts.reports[d].probeNo <= receipts.probeNo
  {
    hide L.Next, L.Handle, L.Run, H.Next, H.Run, Rounds, Audio, StoodAt, RoundAccounts.Agrees;
    hide AudioAccounts.RowsAgree, AudioAccounts.CommandsAgree, AudioAccounts.ReceiptsAgree;
    victims := [];
    NothingServed(roundId, draft, calls);
    for i := 0 to |calls|
      invariant store.Valid() && |victims| == i
      invariant StoodAt(roundId, draft, calls, victims, store.Ledger(), store.Desk(), receipts.State())
    {
      assert Timely(calls[i], ClockBefore(calls, i));
      ghost var before, ledger, desk, state := victims, store.Ledger(), store.Desk(), receipts.State();
      StandsAt(roundId, draft, calls, before, ledger, desk, state);
      match calls[i]
      case RoundCall(action, at) =>
        ServeRound(store, action, at);
        victims := before + [""];
        RoundServed(roundId, draft, calls, before, ledger, desk, state);
      case AudioCall(event, at) =>
        ghost var victim := ServeAudio(store, receipts, event, at, Audio(roundId, draft, calls[..i], before));
        victims := before + [victim];
        AudioServed(roundId, draft, calls, before, ledger, desk, state, victim);
    }
    assert calls[..|calls|] == calls;
    StandsAt(roundId, draft, calls, victims, store.Ledger(), store.Desk(), receipts.State());
    Guarantees(roundId, draft, calls, victims);
    Accounts(roundId, draft, calls, victims);
    TableAndReceipts(Audio(roundId, draft, calls, victims));
  }

  /** The objects after the first `|victims|` of the calls. */
  ghost predicate StoodAt(roundId: string, draft: L.Content, calls: seq<Call>, victims: seq<string>, ledger: L.Ledger,
                          desk: A.Desk, receipts: A.Receipts)
    requires |victims| <= |calls|
  {
    var before := calls[..|victims|];
    var h, w := Rounds(roundId, draft, before), Audio(roundId, draft, before, victims);
    && h.ledger == ledger && w.desk == desk && w.receipts == receipts
    && h.clock <= ClockBefore(calls, |victims|) && w.clock <= ClockBefore(calls, |victims|)
    && w.tick == |AudioSteps(roundId, draft, before, victims)|
  }

  lemma StandsAt(roundId: string, draft: L.Content, calls: seq<Call>, victims: seq<string>, ledger: L.Ledger,
                 desk: A.Desk, receipts: A.Receipts)
    requires |victims| <= |calls| && StoodAt(roundId, draft, calls, victims, ledger, desk, receipts)
    ensures var before := calls[..|victims|];
            var w := Audio(roundId, draft, before, victims);
            && Rounds(roundId, draft, before).ledger == ledger && w.desk == desk && w.receipts == receipts
            && w.clock <= ClockBefore(calls, |victims|) && w.tick == |AudioSteps(roundId, draft, before, victims)|
  {
  }

  lemma NothingServed(roundId: string, draft: L.Content, calls: seq<Call>)
    ensures StoodAt(roundId, draft, calls, [], L.NewStore(roundId, draft), A.NEW_DESK, A.NO_RECEIPTS)
  {
    assert calls[..0] == [];
  }

  lemma OneMoreRound(roundId: string, draft: L.Content, calls: seq<Call>, n: nat)
    requires n < |calls| && calls[n].RoundCall?
    ensures Rounds(roundId, draft, calls[..n + 1])
         == L.Next(Rounds(roundId, draft, calls[..n]), L.Step(calls[n].action, calls[n].at))
  {
    hide L.Next;
    assert calls[..n + 1][..n] == calls[..n];
    var steps, step := RoundSteps(calls[..n]), L.Step(calls[n].action, calls[n].at);
    assert RoundSteps(calls[..n + 1]) == steps + [step];
    assert (steps + [step])[..|steps|] == steps;
  }

  lemma NextOfPossible(h: L.History, step: L.Step)
    requires L.Possible(h, step)
    ensures L.Next(h, step).ledger == L.Handle(h.ledger, step).0 && L.Next(h, step).clock == step.at
  {
    hide L.Handle;
  }

  lemma RoundServed(roundId: string, draft: L.Content, calls: seq<Call>, victims: seq<string>, ledger: L.Ledger,
                    desk: A.Desk, receipts: A.Receipts)
    requires |victims| < |calls| && StoodAt(roundId, draft, calls, victims, ledger, desk, receipts)
    requires calls[|victims|].RoundCall? && Timely(calls[|victims|], ClockBefore(calls, |victims|))
    ensures var c := calls[|victims|];
            StoodAt(roundId, draft, calls, victims + [""], L.Handle(ledger, L.Step(c.action, c.at)).0, desk, receipts)
  {
    var n := |victims|;
    var now, step := calls[..n + 1], L.Step(calls[n].action, calls[n].at);
    OneMoreRound(roundId, draft, calls, n);
    NextOfPossible(Rounds(roundId, draft, calls[..n]), step);
    hide L.Next, L.Handle, L.Run, StageOf, H.Run, Rounds;
    assert now[..n] == calls[..n] && (victims + [""])[..n] == victims;
    assert AudioSteps(roundId, draft, now, victims + [""]) == AudioSteps(roundId, draft, calls[..n], victims);
  }

  lemma AudioServed(roundId: string, draft: L.Content, calls: seq<Call>, victims: seq<string>, ledger: L.Ledger,
                    desk: A.Desk, receipts: A.Receipts, victim: string)
    requires |victims| < |calls| && StoodAt(roundId, draft, calls, victims, ledger, desk, receipts)
    requires calls[|victims|].AudioCall? && Timely(calls[|victims|], ClockBefore(calls, |victims|))
    requires var c, w := calls[|victims|], Audio(roundId, draft, calls[..|victims|], victims);
             H.Possible(w, H.Step(Served(c.event, victim), StageOf(ledger), c.at))
    ensures var c, w := calls[|victims|], Audio(roundId, draft, calls[..|victims|], victims);
            var v := H.Next(w, H.Step(Served(c.event, victim), StageOf(ledger), c.at));
            StoodAt(roundId, draft, calls, victims + [victim], ledger, v.desk, v.receipts)
  {
    hide H.NextReport, H.NextRecord, H.NextCommand, L.Run, StageOf;
    var n := |victims|;
    var now, c := calls[..n + 1], calls[n];
    assert now[..n] == calls[..n] && (victims + [victim])[..n] == victims;
    assert RoundSteps(now) == RoundSteps(calls[..n]);
    var steps := AudioSteps(roundId, draft, calls[..n], victims);
    var step := H.Step(Served(c.event, victim), StageOf(ledger), c.at);
    assert AudioSteps(roundId, draft, now, victims + [victim]) == steps + [step];
    assert (steps + [step])[..|steps|] == steps;
  }

  lemma TableAndReceipts(w: H.World)
    requires H.TableIsRecent(w) && H.ReceiptsAreTimed(w)
    ensures forall id: nat :: id in w.desk.commands <==> 1 <= id <= w.desk.lastId < id + A.COMMAND_LIMIT
    ensures |w.receipts.reports| <= A.DISPLAY_LIMIT
    ensures forall d | d in w.receipts.reports :: w.receipts.reports[d].probeNo <= w.receipts.probeNo
  {
  }

  lemma Accounts(roundId: string, draft: L.Content, calls: seq<Call>, victims: seq<string>)
    requires |victims| == |calls|
    ensures RoundAccounts.Agrees(Rounds(roundId, draft, calls).ledger,
                                 RoundAccounts.BookOf(roundId, draft, RoundSteps(calls)))
    ensures var w := Audio(roundId, draft, calls, victims);
            var account := AudioAccounts.AccountOf(AudioSteps(roundId, draft, calls, victims));
            && AudioAccounts.RowsAgree(w.desk, account) && AudioAccounts.CommandsAgree(w.desk, account)
            && AudioAccounts.ReceiptsAgree(w.receipts, account)
  {
    hide L.Run, H.Run, RoundAccounts.Agrees, RoundAccounts.BookOf, AudioAccounts.AccountOf;
    hide AudioAccounts.RowsAgree, AudioAccounts.CommandsAgree, AudioAccounts.ReceiptsAgree;
    RoundAccounts.LedgerIsAsRequested(roundId, draft, RoundSteps(calls));
    AudioAccounts.TablesAreAsTold(AudioSteps(roundId, draft, calls, victims));
  }

  lemma Guarantees(roundId: string, draft: L.Content, calls: seq<Call>, victims: seq<string>)
    requires |victims| == |calls|
    ensures L.RevisionsCount(Rounds(roundId, draft, calls)) && L.BallotsAreLogged(Rounds(roundId, draft, calls))
    ensures H.RowsAreBacked(Audio(roundId, draft, calls, victims))
    ensures H.TableIsRecent(Audio(roundId, draft, calls, victims))
    ensures H.ReceiptsAreTimed(Audio(roundId, draft, calls, victims))
  {
    hide L.Run, H.Run;
    L.RevisionCountsWrites(roundId, draft, RoundSteps(calls));
    L.BallotsStay(roundId, draft, RoundSteps(calls));
    H.HeardRowsReported(AudioSteps(roundId, draft, calls, victims));
    H.TableStaysRecent(AudioSteps(roundId, draft, calls, victims));
    H.ReceiptsStayTimed(AudioSteps(roundId, draft, calls, victims));
  }
}

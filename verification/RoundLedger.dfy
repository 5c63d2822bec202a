/** Rounds, display leases and ballots of apps/showcase/app.py.

  Every function is one handler, run as one transaction: a refusal rolls back.
  `now` is the clock inside the transaction; `stamp` is the clock a handler reads
  before it gets the lock. The second half follows whole runs from a new store.
 */
module RoundLedger {
  import opened Wrappers
  import Tally

  datatype Phase = Intro | Vote | Review | Results

  datatype ResultView = Audience | Judge

  datatype Participant = Participant(id: string, name: string, kind: string, avatar: string)

  datatype Content = Content(
    title: string,
    topic: string,
    affirmative: string,
    negative: string,
    participants: seq<Participant>,
    phase: Phase,
    resultView: ResultView,
    votingOpen: bool,
    comments: string,
    winner: string,
    best: string)

  /** The part of the content that the first vote of a round freezes. */
  datatype Fixture = Fixture(topic: string, affirmative: string, negative: string, participants: seq<Participant>)

  function FixtureOf(c: Content): Fixture {
    Fixture(c.topic, c.affirmative, c.negative, c.participants)
  }

  datatype Published = Published(content: Content, epoch: string)

  datatype Round = Round(revision: nat, draft: Content, published: Option<Published>)

  datatype Lease = Lease(roundId: string, epoch: string, sequence: nat, expires: real, updatedAt: real)

  /** `votes` has the primary key (round, voter). */
  datatype Tables = Tables(
    rounds: map<string, Round>,
    current: string,
    votes: map<(string, string), Tally.Ballot>,
    leases: map<string, Lease>)

  const BLANK := Content("", "", "", "", [], Vote, Audience, false, "", "", "")

  /** `current_round` always names an existing round. */
  type Ledger = t: Tables | t.current in t.rounds witness Tables(map["" := Round(0, BLANK, None)], "", map[], map[])

  datatype Outcome = Accepted | Stale | Refused(code: nat)

  const LEASE_SECONDS := 6.0
  const LEASE_RETENTION := 60.0
  const LEASE_LIMIT := 512

  function NewStore(roundId: string, draft: Content): Ledger {
    Tables(map[roundId := Round(0, draft, None)], roundId, map[], map[])
  }

  function Current(l: Ledger): Round {
    l.rounds[l.current]
  }

  /** `""` while nothing is published. */
  function CurrentEpoch(l: Ledger): string {
    if Current(l).published.Some? then Current(l).published.value.epoch else ""
  }

  predicate InPhase(l: Ledger, phase: Phase) {
    Current(l).published.Some? && Current(l).published.value.content.phase == phase
  }

  function ActiveDisplays(l: Ledger, now: real): set<string> {
    set d | d in l.leases && l.leases[d].roundId == l.current && l.leases[d].epoch == CurrentEpoch(l)
            && l.leases[d].expires > now
  }

  /** `Store.collection`: ballots are taken only while a display shows the voting page. */
  predicate Collecting(l: Ledger, now: real) {
    InPhase(l, Vote) && |ActiveDisplays(l, now)| > 0
  }

  predicate HasVotes(l: Ledger, roundId: string) {
    exists key | key in l.votes :: key.0 == roundId
  }

  // ---- Handlers ----

  datatype LeaseRequest = LeaseRequest(
    displayId: string, roundId: string, epoch: string, sequence: nat, active: bool)

  function KeepLeases(leases: map<string, Lease>, since: real): map<string, Lease> {
    map d | d in leases && leases[d].updatedAt >= since :: leases[d]
  }

  /** `POST /api/display`; an empty epoch never passes request validation. */
  function DisplayLease(l: Ledger, req: LeaseRequest, stamp: real): (Ledger, Outcome) {
    if req.epoch == "" then (l, Refused(422))
    else if req.roundId != l.current || req.epoch != CurrentEpoch(l) then (l, Refused(409))
    else
      var kept := KeepLeases(l.leases, stamp - LEASE_RETENTION);
      if req.displayId in kept && req.sequence <= kept[req.displayId].sequence then (l.(leases := kept), Stale)
      else if req.displayId !in kept && |kept| >= LEASE_LIMIT then (l, Refused(429))
      else
        var active := req.active && InPhase(l, Vote);
        var lease := Lease(l.current, req.epoch, req.sequence, if active then stamp + LEASE_SECONDS else 0.0, stamp);
        (l.(leases := kept[req.displayId := lease]), Accepted)
  }

  datatype VoteRequest = VoteRequest(roundId: string, winner: Tally.Side, best: Tally.Seat)

  function BallotOf(req: VoteRequest): Tally.Ballot {
    Tally.Ballot(Some(req.winner), [Tally.IDS[req.best]])
  }

  /** `POST /api/vote` for a browser whose signed cookie names `voter`. */
  function CastVote(l: Ledger, req: VoteRequest, voter: string, now: real): (Ledger, Outcome) {
    if req.roundId != l.current then (l, Refused(409))
    else if !Collecting(l, now) then (l, Refused(409))
    else if (l.current, voter) in l.votes then (l, Refused(409))
    else (l.(votes := l.votes[(l.current, voter) := BallotOf(req)]), Accepted)
  }

  /** `PUT /api/admin/draft`. */
  function SaveDraft(l: Ledger, revision: nat, content: Content): (Ledger, Outcome) {
    var row := Current(l);
    if row.revision != revision then (l, Refused(409))
    else if HasVotes(l, l.current) && FixtureOf(content) != FixtureOf(row.draft) then (l, Refused(409))
    else (l.(rounds := l.rounds[l.current := row.(draft := content, revision := row.revision + 1)]), Accepted)
  }

  function PublishedContent(draft: Content): Content {
    draft.(votingOpen := draft.phase == Vote)
  }

  /** `POST /api/admin/publish`; `epoch` is the random token of this publication. */
  function Publish(l: Ledger, revision: nat, epoch: string): (Ledger, Outcome) {
    var row := Current(l);
    if row.revision != revision then (l, Refused(409))
    else
      var published := Some(Published(PublishedContent(row.draft), epoch));
      (l.(rounds := l.rounds[l.current := row.(published := published, revision := row.revision + 1)]), Accepted)
  }

  /** `POST /api/admin/withdraw`. */
  function Withdraw(l: Ledger, revision: nat): (Ledger, Outcome) {
    var row := Current(l);
    if row.revision != revision then (l, Refused(409))
    else
      (l.(rounds := l.rounds[l.current := row.(published := None, revision := row.revision + 1)],
          leases := map d | d in l.leases && l.leases[d].roundId != l.current :: l.leases[d]),
       Accepted)
  }

  function NextDraft(draft: Content): Content {
    draft.(phase := Vote, resultView := Audience, votingOpen := false, comments := "", winner := "", best := "")
  }

  /** `POST /api/admin/new-round`; a random id that exists already breaks the primary key. */
  function NewRound(l: Ledger, revision: nat, roundId: string): (Ledger, Outcome) {
    var row := Current(l);
    if row.revision != revision then (l, Refused(409))
    else if roundId in l.rounds then (l, Refused(500))
    else
      (l.(rounds := l.rounds[roundId := Round(row.revision + 1, NextDraft(row.draft), None)], current := roundId),
       Accepted)
  }

  // ---- Runs ----

  datatype Action =
    | Report(lease: LeaseRequest, stamp: real)
    | Cast(ballot: VoteRequest, voter: string)
    | Draft(revision: nat, content: Content)
    | Show(revision: nat, epoch: string)
    | Hide(revision: nat)
    | Replace(revision: nat, roundId: string)

  datatype Step = Step(action: Action, at: real)

  /** What a run has accepted, in order. */
  datatype Entry =
    | Wrote(roundId: string, base: nat, published: Option<Content>)
    | Voted(roundId: string, voter: string, ballot: Tally.Ballot, epoch: string, phase: Option<Phase>,
            fixture: Fixture, at: real)
    | Reported(displayId: string, roundId: string, epoch: string, active: bool, at: real)

  datatype History = History(ledger: Ledger, clock: real, log: seq<Entry>)

  function Handle(l: Ledger, step: Step): (Ledger, Outcome) {
    match step.action
    case Report(lease, stamp) => DisplayLease(l, lease, stamp)
    case Cast(ballot, voter) => CastVote(l, ballot, voter, step.at)
    case Draft(revision, content) => SaveDraft(l, revision, content)
    case Show(revision, epoch) => Publish(l, revision, epoch)
    case Hide(revision) => Withdraw(l, revision)
    case Replace(revision, roundId) => NewRound(l, revision, roundId)
  }

  /** The log entry of an accepted step, read off the ledger before it. */
  function EntryOf(l: Ledger, step: Step): Entry {
    var row := Current(l);
    match step.action
    case Report(lease, _) =>
      Reported(lease.displayId, l.current, lease.epoch, lease.active && InPhase(l, Vote), step.at)
    case Cast(ballot, voter) =>
      Voted(l.current, voter, BallotOf(ballot), CurrentEpoch(l),
            if row.published.Some? then Some(row.published.value.content.phase) else None,
            FixtureOf(row.draft), step.at)
    case Show(revision, _) => Wrote(l.current, revision, Some(PublishedContent(row.draft)))
    case Draft(revision, _) => Wrote(l.current, revision, None)
    case Hide(revision) => Wrote(l.current, revision, None)
    case Replace(revision, _) => Wrote(l.current, revision, None)
  }

  /** The clock never runs back and a stamp is never ahead of it; other steps do not occur. */
  predicate Possible(h: History, step: Step) {
    h.clock <= step.at && (step.action.Report? ==> step.action.stamp <= step.at)
  }

  function Next(h: History, step: Step): History {
    if !Possible(h, step) then h
    else
      var (l, outcome) := Handle(h.ledger, step);
      History(l, step.at, if outcome == Accepted then h.log + [EntryOf(h.ledger, step)] else h.log)
  }

  function Run(first: History, steps: seq<Step>): History {
    if steps == [] then first else Next(Run(first, steps[..|steps| - 1]), steps[|steps| - 1])
  }

  function Fresh(roundId: string, draft: Content): History {
    History(NewStore(roundId, draft), 0.0, [])
  }

  function Writes(log: seq<Entry>): nat {
    if log == [] then 0 else Writes(log[..|log| - 1]) + if log[|log| - 1].Wrote? then 1 else 0
  }

  lemma WritesAppend(log: seq<Entry>, e: Entry)
    ensures Writes(log + [e]) == Writes(log) + if e.Wrote? then 1 else 0
  {
    assert (log + [e])[..|log|] == log;
  }

  lemma {:induction false} WritesGrow(log: seq<Entry>, i: nat, j: nat)
    requires i <= j <= |log|
    ensures Writes(log[..i]) <= Writes(log[..j])
    ensures i < j && log[i].Wrote? ==> Writes(log[..i]) < Writes(log[..j])
  {
    if i < j {
      WritesGrow(log, i, j - 1);
      assert log[..j][..j - 1] == log[..j - 1];
    }
  }

  // ---- Revisions ----

  ghost predicate RevisionsCount(h: History) {
    && Current(h.ledger).revision == Writes(h.log)
    && forall i | 0 <= i < |h.log| && h.log[i].Wrote? :: h.log[i].base == Writes(h.log[..i])
  }

  lemma LogGrowsByOne(h: History, n: History, e: Entry)
    requires RevisionsCount(h) && n.log == h.log + [e]
    requires Current(n.ledger).revision == Current(h.ledger).revision + if e.Wrote? then 1 else 0
    requires e.Wrote? ==> e.base == Current(h.ledger).revision
    ensures RevisionsCount(n)
  {
    WritesAppend(h.log, e);
    assert forall i | 0 <= i <= |h.log| :: n.log[..i] == h.log[..i];
  }

  lemma StepOnRevision(l: Ledger, step: Step)
    ensures var (m, outcome) := Handle(l, step);
            if outcome == Accepted
            then var e := EntryOf(l, step);
                 && Current(m).revision == Current(l).revision + (if e.Wrote? then 1 else 0)
                 && (e.Wrote? ==> e.base == Current(l).revision)
            else Current(m).revision == Current(l).revision
  {
  }

  lemma {:induction false} RevisionCountsWrites(roundId: string, draft: Content, steps: seq<Step>)
    ensures RevisionsCount(Run(Fresh(roundId, draft), steps))
  {
    if steps != [] {
      var h, step := Run(Fresh(roundId, draft), steps[..|steps| - 1]), steps[|steps| - 1];
      RevisionCountsWrites(roundId, draft, steps[..|steps| - 1]);
      StepOnRevision(h.ledger, step);
      hide Handle, EntryOf;
      if Possible(h, step) && Handle(h.ledger, step).1 == Accepted {
        LogGrowsByOne(h, Next(h, step), EntryOf(h.ledger, step));
      }
    }
  }

  /** Optimistic locking: of the writes based on one revision, at most one is accepted. */
  lemma OneWritePerRevision(roundId: string, draft: Content, steps: seq<Step>, i: nat, j: nat)
    requires var log := Run(Fresh(roundId, draft), steps).log;
             i < j < |log| && log[i].Wrote? && log[j].Wrote?
    ensures var log := Run(Fresh(roundId, draft), steps).log; log[i].base < log[j].base
  {
    RevisionCountsWrites(roundId, draft, steps);
    WritesGrow(Run(Fresh(roundId, draft), steps).log, i, j);
  }

  // ---- Ballots ----

  /** Some entry of the log is the acceptance of the ballot stored under `key`. */
  ghost predicate WasCast(h: History, key: (string, string)) {
    exists i :: 0 <= i < |h.log| && h.log[i].Voted? && (h.log[i].roundId, h.log[i].voter) == key
  }

  /** The stored ballots are exactly the accepted ones, each as it was cast. */
  ghost predicate BallotsAreLogged(h: History) {
    && (forall i | 0 <= i < |h.log| && h.log[i].Voted? ::
          && h.log[i].roundId in h.ledger.rounds
          && (h.log[i].roundId, h.log[i].voter) in h.ledger.votes
          && h.ledger.votes[(h.log[i].roundId, h.log[i].voter)] == h.log[i].ballot)
    && (forall i, j | 0 <= i < j < |h.log| && h.log[i].Voted? && h.log[j].Voted? ::
          (h.log[i].roundId, h.log[i].voter) != (h.log[j].roundId, h.log[j].voter))
    && forall key | key in h.ledger.votes ::
         WasCast(h, key) && key.0 in h.ledger.rounds && Tally.CameThroughVote(h.ledger.votes[key])
  }

  lemma BallotCameThroughVote(req: VoteRequest)
    ensures Tally.CameThroughVote(BallotOf(req))
  {
    assert Tally.IDS[req.best] == BallotOf(req).ranking[0];
  }

  /** What a step other than a vote leaves alone, and what a vote adds. */
  lemma StepOnBallots(l: Ledger, step: Step)
    ensures var (m, outcome) := Handle(l, step);
            && l.rounds.Keys <= m.rounds.Keys
            && (step.action.Cast? && outcome == Accepted ==>
                  (l.current, step.action.voter) !in l.votes
                  && m == l.(votes := l.votes[(l.current, step.action.voter) := BallotOf(step.action.ballot)]))
            && (!(step.action.Cast? && outcome == Accepted) ==> m.votes == l.votes)
  {
  }

  lemma BallotsAreKept(h: History, n: History, e: Option<Entry>)
    requires BallotsAreLogged(h) && h.ledger.rounds.Keys <= n.ledger.rounds.Keys
    requires n.ledger.votes == h.ledger.votes && (e.Some? ==> !e.value.Voted?)
    requires n.log == h.log + if e.Some? then [e.value] else []
    ensures BallotsAreLogged(n)
  {
    forall key | key in h.ledger.votes ensures WasCast(n, key) {
      CastsStay(h, n, key);
    }
  }

  lemma CastsStay(h: History, n: History, key: (string, string))
    requires WasCast(h, key) && h.log <= n.log
    ensures WasCast(n, key)
  {
    var i :| 0 <= i < |h.log| && h.log[i].Voted? && (h.log[i].roundId, h.log[i].voter) == key;
    assert n.log[i] == h.log[i];
  }

  lemma BallotIsAdded(h: History, n: History, voter: string, ballot: Tally.Ballot, e: Entry)
    requires BallotsAreLogged(h) && Tally.CameThroughVote(ballot)
    requires (h.ledger.current, voter) !in h.ledger.votes
    requires n.ledger == h.ledger.(votes := h.ledger.votes[(h.ledger.current, voter) := ballot])
    requires e.Voted? && e.roundId == h.ledger.current && e.voter == voter && e.ballot == ballot
    requires n.log == h.log + [e]
    ensures BallotsAreLogged(n)
  {
    assert n.log[|h.log|] == e;
    forall key | key in h.ledger.votes ensures WasCast(n, key) {
      CastsStay(h, n, key);
    }
  }

  lemma {:induction false} BallotsStay(roundId: string, draft: Content, steps: seq<Step>)
    ensures BallotsAreLogged(Run(Fresh(roundId, draft), steps))
  {
    if steps != [] {
      var h, step := Run(Fresh(roundId, draft), steps[..|steps| - 1]), steps[|steps| - 1];
      BallotsStay(roundId, draft, steps[..|steps| - 1]);
      StepOnBallots(h.ledger, step);
      if Possible(h, step) {
        var n, e := Next(h, step), EntryOf(h.ledger, step);
        var accepted := Handle(h.ledger, step).1 == Accepted;
        if step.action.Cast? && accepted {
          BallotCameThroughVote(step.action.ballot);
          BallotIsAdded(h, n, step.action.voter, BallotOf(step.action.ballot), e);
        } else {
          BallotsAreKept(h, n, if accepted then Some(e) else None);
        }
      }
    }
  }

  /** An accepted ballot is the only one of its (round, voter), and the table keeps it as it was cast. */
  lemma OneBallotPerVoter(roundId: string, draft: Content, steps: seq<Step>, i: nat, j: nat)
    requires var log := Run(Fresh(roundId, draft), steps).log; i < j < |log| && log[i].Voted? && log[j].Voted?
    ensures var h := Run(Fresh(roundId, draft), steps);
            && (h.log[i].roundId, h.log[i].voter) != (h.log[j].roundId, h.log[j].voter)
            && (h.log[i].roundId, h.log[i].voter) in h.ledger.votes
            && h.ledger.votes[(h.log[i].roundId, h.log[i].voter)] == h.log[i].ballot
  {
    BallotsStay(roundId, draft, steps);
  }

  /** Every ballot a new store ever takes counts once for a side and once for a seat. */
  lemma ReachableTalliesAddUp(roundId: string, draft: Content, steps: seq<Step>, rows: seq<Tally.Ballot>)
    requires var votes := Run(Fresh(roundId, draft), steps).ledger.votes;
             forall b | b in rows :: exists key | key in votes :: votes[key] == b
    ensures Tally.SideVotes(rows, Tally.Affirmative) + Tally.SideVotes(rows, Tally.Negative) == |rows|
    ensures Tally.SumPoints(rows, 8) == |rows|
  {
    BallotsStay(roundId, draft, steps);
    Tally.SumsMatchTotal(rows);
  }

  // ---- Voting needs a live display ----

  /** A display of this round and epoch reported the voting page at or after `from`. */
  ghost predicate ReportedSince(log: seq<Entry>, roundId: string, epoch: string, from: real, until: real) {
    exists i :: 0 <= i < |log| && log[i].Reported? && log[i].active && log[i].roundId == roundId
                && log[i].epoch == epoch && from <= log[i].at <= until
  }

  /** The page was open for voting, and a display reported it less than six seconds before. */
  ghost predicate VoteWasOpen(log: seq<Entry>, i: nat)
    requires i < |log| && log[i].Voted?
  {
    log[i].phase == Some(Vote)
    && exists j :: 0 <= j < i && log[j].Reported? && log[j].active && log[j].roundId == log[i].roundId
                   && log[j].epoch == log[i].epoch && log[i].at - LEASE_SECONDS < log[j].at <= log[i].at
  }

  ghost predicate LeaseIsBacked(h: History, lease: Lease) {
    lease.expires > 0.0 ==>
      ReportedSince(h.log, lease.roundId, lease.epoch, lease.expires - LEASE_SECONDS, h.clock)
  }

  ghost predicate LeasesAreBacked(h: History) {
    && h.clock >= 0.0
    && (forall d | d in h.ledger.leases :: LeaseIsBacked(h, h.ledger.leases[d]))
    && forall i | 0 <= i < |h.log| && h.log[i].Voted? :: VoteWasOpen(h.log, i)
  }

  lemma OldFactsStay(h: History, n: History, e: Option<Entry>)
    requires LeasesAreBacked(h) && h.clock <= n.clock
    requires n.log == h.log + if e.Some? then [e.value] else []
    ensures forall d | d in h.ledger.leases :: LeaseIsBacked(n, h.ledger.leases[d])
    ensures forall i | 0 <= i < |h.log| && n.log[i].Voted? :: VoteWasOpen(n.log, i)
  {
    forall d | d in h.ledger.leases ensures LeaseIsBacked(n, h.ledger.leases[d]) {
      var lease := h.ledger.leases[d];
      assert LeaseIsBacked(h, lease);
      if lease.expires > 0.0 {
        var i :| 0 <= i < |h.log| && h.log[i].Reported? && h.log[i].active && h.log[i].roundId == lease.roundId
                 && h.log[i].epoch == lease.epoch && lease.expires - LEASE_SECONDS <= h.log[i].at <= h.clock;
        assert n.log[i] == h.log[i];
      }
    }
    forall i | 0 <= i < |h.log| && n.log[i].Voted? ensures VoteWasOpen(n.log, i) {
      assert VoteWasOpen(h.log, i) && n.log[i] == h.log[i];
      var j :| 0 <= j < i && h.log[j].Reported? && h.log[j].active && h.log[j].roundId == h.log[i].roundId
               && h.log[j].epoch == h.log[i].epoch && h.log[i].at - LEASE_SECONDS < h.log[j].at <= h.log[i].at;
      assert n.log[j] == h.log[j];
    }
  }

  /** An accepted report is the only step that writes a lease, and it is its own evidence. */
  lemma StepOnLeases(l: Ledger, step: Step, d: string)
    requires d in Handle(l, step).0.leases && (d !in l.leases || Handle(l, step).0.leases[d] != l.leases[d])
    requires step.action.Report? ==> step.action.stamp <= step.at
    ensures var lease := Handle(l, step).0.leases[d];
            Handle(l, step).1 == Accepted && step.action.Report?
            && (lease.expires > 0.0 ==>
                  EntryOf(l, step) == Reported(d, lease.roundId, lease.epoch, true, step.at)
                  && lease.expires - LEASE_SECONDS <= step.at)
  {
  }

  lemma AcceptedVoteWasOpen(h: History, step: Step)
    requires LeasesAreBacked(h) && Possible(h, step)
    requires step.action.Cast? && Handle(h.ledger, step).1 == Accepted
    ensures VoteWasOpen(h.log + [EntryOf(h.ledger, step)], |h.log|)
  {
    var log := h.log + [EntryOf(h.ledger, step)];
    var live := ActiveDisplays(h.ledger, step.at);
    assert live != {};
    var d :| d in live;
    var lease := h.ledger.leases[d];
    assert LeaseIsBacked(h, lease);
    var j :| 0 <= j < |h.log| && h.log[j].Reported? && h.log[j].active && h.log[j].roundId == lease.roundId
             && h.log[j].epoch == lease.epoch && lease.expires - LEASE_SECONDS <= h.log[j].at <= h.clock;
    assert log[j] == h.log[j];
  }

  lemma NextKeepsLeasesBacked(h: History, step: Step)
    requires LeasesAreBacked(h)
    ensures LeasesAreBacked(Next(h, step))
  {
    if Possible(h, step) {
      var (l, outcome) := Handle(h.ledger, step);
      var n, e := Next(h, step), EntryOf(h.ledger, step);
      OldFactsStay(h, n, if outcome == Accepted then Some(e) else None);
      forall d | d in l.leases ensures LeaseIsBacked(n, l.leases[d]) {
        if d !in h.ledger.leases || h.ledger.leases[d] != l.leases[d] {
          StepOnLeases(h.ledger, step, d);
          assert n.log[|h.log|] == e;
        }
      }
      if step.action.Cast? && outcome == Accepted {
        AcceptedVoteWasOpen(h, step);
      }
    }
  }

  lemma {:induction false} RunKeepsLeasesBacked(roundId: string, draft: Content, steps: seq<Step>)
    ensures LeasesAreBacked(Run(Fresh(roundId, draft), steps))
  {
    if steps != [] {
      RunKeepsLeasesBacked(roundId, draft, steps[..|steps| - 1]);
      NextKeepsLeasesBacked(Run(Fresh(roundId, draft), steps[..|steps| - 1]), steps[|steps| - 1]);
    }
  }

  /** At the moment of an accepted ballot the round was published for voting and freshly on display. */
  lemma BallotsNeedLiveDisplay(roundId: string, draft: Content, steps: seq<Step>, i: nat)
    requires var log := Run(Fresh(roundId, draft), steps).log; i < |log| && log[i].Voted?
    ensures VoteWasOpen(Run(Fresh(roundId, draft), steps).log, i)
  {
    RunKeepsLeasesBacked(roundId, draft, steps);
  }

  // ---- The first vote freezes the fixture ----

  ghost predicate FixtureIsFrozen(h: History) {
    && (forall i | 0 <= i < |h.log| && h.log[i].Voted? ::
          h.log[i].roundId in h.ledger.rounds
          && h.log[i].fixture == FixtureOf(h.ledger.rounds[h.log[i].roundId].draft))
    && forall i, j | 0 <= i < j < |h.log| && h.log[i].Voted? && h.log[j].Wrote? && h.log[j].published.Some?
                     && h.log[i].roundId == h.log[j].roundId ::
         FixtureOf(h.log[j].published.value) == h.log[i].fixture
  }

  /** A step changes the fixture on a draft only before the first vote, and publishes the draft's fixture. */
  lemma StepOnFixture(l: Ledger, step: Step)
    ensures var m := Handle(l, step).0;
            forall r | r in l.rounds ::
              && r in m.rounds
              && (HasVotes(l, r) ==> FixtureOf(m.rounds[r].draft) == FixtureOf(l.rounds[r].draft))
    ensures var e := EntryOf(l, step);
            (e.Wrote? && e.published.Some? ==> FixtureOf(e.published.value) == FixtureOf(Current(l).draft))
            && (e.Voted? ==> e.fixture == FixtureOf(Current(l).draft))
            && (!e.Reported? ==> e.roundId == l.current)
            && (Handle(l, step).1 == Accepted && e.Voted? ==> Handle(l, step).0.rounds == l.rounds)
  {
  }

  lemma FixtureStays(h: History, n: History, e: Option<Entry>)
    requires FixtureIsFrozen(h) && BallotsAreLogged(h)
    requires forall r | r in h.ledger.rounds ::
      && r in n.ledger.rounds
      && (HasVotes(h.ledger, r) ==> FixtureOf(n.ledger.rounds[r].draft) == FixtureOf(h.ledger.rounds[r].draft))
    requires n.log == h.log + if e.Some? then [e.value] else []
    requires e.Some? && e.value.Wrote? && e.value.published.Some? ==>
      e.value.roundId == h.ledger.current
      && FixtureOf(e.value.published.value) == FixtureOf(Current(h.ledger).draft)
    requires e.Some? && e.value.Voted? ==>
      e.value.roundId == h.ledger.current && e.value.fixture == FixtureOf(Current(h.ledger).draft)
      && n.ledger.rounds == h.ledger.rounds
    ensures FixtureIsFrozen(n)
  {
    hide WasCast;
    forall i | 0 <= i < |h.log| && h.log[i].Voted? ensures HasVotes(h.ledger, h.log[i].roundId) {
      assert (h.log[i].roundId, h.log[i].voter) in h.ledger.votes;
    }
  }

  lemma {:induction false} RunKeepsFixture(roundId: string, draft: Content, steps: seq<Step>)
    ensures FixtureIsFrozen(Run(Fresh(roundId, draft), steps))
  {
    if steps != [] {
      var h, step := Run(Fresh(roundId, draft), steps[..|steps| - 1]), steps[|steps| - 1];
      RunKeepsFixture(roundId, draft, steps[..|steps| - 1]);
      BallotsStay(roundId, draft, steps[..|steps| - 1]);
      if Possible(h, step) {
        StepOnFixture(h.ledger, step);
        var accepted := Handle(h.ledger, step).1 == Accepted;
        FixtureStays(h, Next(h, step), if accepted then Some(EntryOf(h.ledger, step)) else None);
      }
    }
  }

  /** Once a round has a vote, everything published for it has the fixture that was on the draft at that vote. */
  lemma LaterPublicationsAgree(roundId: string, draft: Content, steps: seq<Step>, i: nat, j: nat)
    requires var log := Run(Fresh(roundId, draft), steps).log;
             && i < j < |log| && log[i].Voted? && log[j].Wrote? && log[j].published.Some?
             && log[i].roundId == log[j].roundId
    ensures var log := Run(Fresh(roundId, draft), steps).log;
            FixtureOf(log[j].published.value) == log[i].fixture
  {
    RunKeepsFixture(roundId, draft, steps);
  }

  // ---- Archived rounds ----

  function BallotsOf(l: Ledger, roundId: string): map<(string, string), Tally.Ballot> {
    map key | key in l.votes && key.0 == roundId :: l.votes[key]
  }

  ghost predicate SameArchive(a: Ledger, b: Ledger, roundId: string)
    requires roundId in a.rounds
  {
    && roundId in b.rounds && b.current != roundId
    && b.rounds[roundId] == a.rounds[roundId]
    && BallotsOf(b, roundId) == BallotsOf(a, roundId)
  }

  lemma StepKeepsArchive(l: Ledger, step: Step, roundId: string)
    requires roundId in l.rounds && l.current != roundId
    ensures SameArchive(l, Handle(l, step).0, roundId)
  {
    var m := Handle(l, step).0;
    StepOnBallots(l, step);
    assert BallotsOf(m, roundId) == BallotsOf(l, roundId);
  }

  /** A round that is no longer current never changes again, whatever happens next. */
  lemma {:induction false} ArchivedRoundsNeverChange(h: History, steps: seq<Step>, roundId: string)
    requires roundId in h.ledger.rounds && h.ledger.current != roundId
    ensures SameArchive(h.ledger, Run(h, steps).ledger, roundId)
  {
    if steps != [] {
      ArchivedRoundsNeverChange(h, steps[..|steps| - 1], roundId);
      StepKeepsArchive(Run(h, steps[..|steps| - 1]).ledger, steps[|steps| - 1], roundId);
    }
  }

  /** `new-round` archives the round it replaces. */
  lemma NewRoundArchives(l: Ledger, revision: nat, roundId: string)
    requires NewRound(l, revision, roundId).1 == Accepted
    ensures SameArchive(l, NewRound(l, revision, roundId).0, l.current)
  {
    assert BallotsOf(NewRound(l, revision, roundId).0, l.current) == BallotsOf(l, l.current);
  }
}

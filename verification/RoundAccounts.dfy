/** What the ledger holds, told by the requests it accepted and nothing else.

  A `Book` follows a run from the outside: it knows which requests were accepted and
  reads only the fields of those. The theorems say that the ledger agrees with the
  book in every reachable state, when each request is accepted, and that the totals
  of a round count exactly the votes that were asked for.
 */
module RoundAccounts {
  import opened Wrappers
  import opened RoundLedger
  import Tally

  /** Round and voter. */
  type Key = (string, string)

  /** A vote as the voter asked for it. */
  datatype Choice = Choice(roundId: string, voter: string, side: Tally.Side, seat: Tally.Seat)

  /** A page as it was shown: the draft of that moment, and the token of the publication. */
  datatype Shown = Shown(draft: Content, epoch: string)

  /** A display report, and whether the voting page was up. */
  datatype Told = Told(request: LeaseRequest, stamp: real, voting: bool)

  datatype Book = Book(
    current: string,
    drafts: map<string, Content>,
    shown: map<string, Shown>,
    /** How many of the accepted requests wrote to a round. */
    writes: nat,
    choices: seq<Choice>,
    told: map<string, Told>)

  function Opened(roundId: string, draft: Content): Book {
    Book(roundId, map[roundId := draft], map[], 0, [], map[])
  }

  /** The voting page is up. */
  predicate Voting(b: Book) {
    b.current in b.shown && b.shown[b.current].draft.phase == Vote
  }

  /** The next round of the same match: nothing decided yet. */
  function NextOpening(c: Content): Content {
    Content(c.title, c.topic, c.affirmative, c.negative, c.participants, Vote, Audience, false, "", "", "")
  }

  /** What an accepted request adds to the book. */
  function Entered(b: Book, action: Action): Book
    requires b.current in b.drafts
  {
    match action
    case Report(lease, stamp) => b.(told := b.told[lease.displayId := Told(lease, stamp, Voting(b))])
    case Cast(ballot, voter) => b.(choices := b.choices + [Choice(b.current, voter, ballot.winner, ballot.best)])
    case Draft(_, content) => b.(drafts := b.drafts[b.current := content], writes := b.writes + 1)
    case Show(_, epoch) => 
      b.(shown := b.shown[b.current := Shown(b.drafts[b.current], epoch)], writes := b.writes + 1)
    case Hide(_) =>
      b.(shown := b.shown - {b.current}, writes := b.writes + 1,
         told := map d | d in b.told && b.told[d].request.roundId != b.current :: b.told[d])
    case Replace(_, roundId) =>
      b.(current := roundId, writes := b.writes + 1, drafts := b.drafts[roundId := NextOpening(b.drafts[b.current])])
  }

  predicate IsAccepted(h: History, step: Step) {
    Possible(h, step) && Handle(h.ledger, step).1 == Accepted
  }

  /** The book after the requests of a run. */
  function BookOf(roundId: string, draft: Content, steps: seq<Step>): (b: Book)
    ensures b.current in b.drafts
  {
    if steps == [] then Opened(roundId, draft)
    else
      var init, step := steps[..|steps| - 1], steps[|steps| - 1];
      var before := BookOf(roundId, draft, init);
      if IsAccepted(Run(Fresh(roundId, draft), init), step) then Entered(before, step.action) else before
  }

  // ---- The ledger agrees with the book ----

  ghost predicate Chose(choices: seq<Choice>, key: Key) {
    exists i :: 0 <= i < |choices| && (choices[i].roundId, choices[i].voter) == key
  }

  /** What is published of a round is its draft when it was shown, open for votes in the voting phase alone. */
  ghost predicate ShowsAs(round: Round, shown: Shown) {
    && round.published.Some? && round.published.value.epoch == shown.epoch
    && var content := round.published.value.content;
       && (content.votingOpen <==> shown.draft.phase == Vote)
       && content.(votingOpen := shown.draft.votingOpen) == shown.draft
  }

  ghost predicate RoundsAgree(l: Ledger, b: Book) {
    && l.current == b.current && l.rounds.Keys == b.drafts.Keys && b.shown.Keys <= b.drafts.Keys
    && Current(l).revision == b.writes
    && (forall r | r in l.rounds :: l.rounds[r].draft == b.drafts[r])
    && forall r | r in l.rounds ::
         if r in b.shown then ShowsAs(l.rounds[r], b.shown[r]) else l.rounds[r].published.None?
  }

  /** A stored ballot is for the side and the seat that its voter asked for. */
  ghost predicate IsFor(ballot: Tally.Ballot, choice: Choice) {
    ballot.winner == Some(choice.side) && ballot.ranking == [Tally.IDS[choice.seat]]
  }

  ghost predicate BallotsAgree(l: Ledger, b: Book) {
    && (forall key | key in l.votes :: Chose(b.choices, key))
    && (forall i | 0 <= i < |b.choices| ::
          var key := (b.choices[i].roundId, b.choices[i].voter); key in l.votes && IsFor(l.votes[key], b.choices[i]))
    && forall i, j | 0 <= i < j < |b.choices| ::
         (b.choices[i].roundId, b.choices[i].voter) != (b.choices[j].roundId, b.choices[j].voter)
  }

  /** A lease is what its display told last: live for six seconds if it showed the voting page, and else not at all. */
  ghost predicate LeaseIs(lease: Lease, t: Told) {
    && lease.roundId == t.request.roundId && lease.epoch == t.request.epoch && lease.sequence == t.request.sequence
    && lease.updatedAt == t.stamp
    && lease.expires == if t.request.active && t.voting then t.stamp + LEASE_SECONDS else 0.0
  }

  ghost predicate LeasesAgree(l: Ledger, b: Book) {
    forall d | d in l.leases :: d in b.told && LeaseIs(l.leases[d], b.told[d])
  }

  ghost predicate Agrees(l: Ledger, b: Book) {
    RoundsAgree(l, b) && BallotsAgree(l, b) && LeasesAgree(l, b)
  }

  lemma VotingAgrees(l: Ledger, b: Book)
    requires RoundsAgree(l, b)
    ensures InPhase(l, Vote) <==> Voting(b)
  {
  }

  lemma DraftedRounds(l: Ledger, b: Book, revision: nat, content: Content)
    requires RoundsAgree(l, b) && SaveDraft(l, revision, content).1 == Accepted
    ensures RoundsAgree(SaveDraft(l, revision, content).0, Entered(b, Draft(revision, content)))
  {
    hide HasVotes, FixtureOf;
  }

  lemma ShownRounds(l: Ledger, b: Book, revision: nat, epoch: string)
    requires RoundsAgree(l, b) && Publish(l, revision, epoch).1 == Accepted
    ensures RoundsAgree(Publish(l, revision, epoch).0, Entered(b, Show(revision, epoch)))
  {
    var m, c := Publish(l, revision, epoch).0, Entered(b, Show(revision, epoch));
    assert ShowsAs(m.rounds[l.current], c.shown[b.current]);
    hide ShowsAs;
  }

  lemma HiddenRounds(l: Ledger, b: Book, revision: nat)
    requires RoundsAgree(l, b) && Withdraw(l, revision).1 == Accepted
    ensures RoundsAgree(Withdraw(l, revision).0, Entered(b, Hide(revision)))
  {
    hide ShowsAs;
  }

  lemma ReplacedRounds(l: Ledger, b: Book, revision: nat, roundId: string)
    requires RoundsAgree(l, b) && NewRound(l, revision, roundId).1 == Accepted
    ensures RoundsAgree(NewRound(l, revision, roundId).0, Entered(b, Replace(revision, roundId)))
  {
    assert NextDraft(Current(l).draft) == NextOpening(Current(l).draft);
    hide ShowsAs, NextDraft, NextOpening;
  }

  lemma AcceptedRounds(l: Ledger, b: Book, step: Step)
    requires RoundsAgree(l, b) && Handle(l, step).1 == Accepted
    ensures RoundsAgree(Handle(l, step).0, Entered(b, step.action))
  {
    hide ShowsAs, SaveDraft, Publish, Withdraw, NewRound;
    match step.action
    case Draft(revision, content) => DraftedRounds(l, b, revision, content);
    case Show(revision, epoch) => ShownRounds(l, b, revision, epoch);
    case Hide(revision) => HiddenRounds(l, b, revision);
    case Replace(revision, roundId) => ReplacedRounds(l, b, revision, roundId);
    case Report(_, _) =>
    case Cast(_, _) =>
  }

  lemma CastBallots(l: Ledger, b: Book, ballot: VoteRequest, voter: string, at: real)
    requires l.current == b.current && l.current in b.drafts && BallotsAgree(l, b)
    requires CastVote(l, ballot, voter, at).1 == Accepted
    ensures BallotsAgree(CastVote(l, ballot, voter, at).0, Entered(b, Cast(ballot, voter)))
  {
    var m, c, n := CastVote(l, ballot, voter, at).0, Entered(b, Cast(ballot, voter)), |b.choices|;
    hide Collecting;
    assert c.choices[n] == Choice(b.current, voter, ballot.winner, ballot.best);
    forall key | key in m.votes ensures Chose(c.choices, key) {
      if key in l.votes {
        var i :| 0 <= i < n && (b.choices[i].roundId, b.choices[i].voter) == key;
        assert c.choices[i] == b.choices[i];
      }
    }
  }

  lemma OtherBallots(l: Ledger, b: Book, step: Step)
    requires b.current in b.drafts && !step.action.Cast?
    ensures Handle(l, step).0.votes == l.votes && Entered(b, step.action).choices == b.choices
  {
  }

  lemma AcceptedBallots(l: Ledger, b: Book, step: Step)
    requires l.current == b.current && l.current in b.drafts && BallotsAgree(l, b) && Handle(l, step).1 == Accepted
    ensures BallotsAgree(Handle(l, step).0, Entered(b, step.action))
  {
    if step.action.Cast? {
      CastBallots(l, b, step.action.ballot, step.action.voter, step.at);
    } else {
      OtherBallots(l, b, step);
      hide Handle, Entered;
    }
  }

  lemma ReportedLeases(l: Ledger, b: Book, lease: LeaseRequest, stamp: real)
    requires RoundsAgree(l, b) && LeasesAgree(l, b) && DisplayLease(l, lease, stamp).1 == Accepted
    ensures LeasesAgree(DisplayLease(l, lease, stamp).0, Entered(b, Report(lease, stamp)))
  {
    VotingAgrees(l, b);
    hide InPhase, Voting, RoundsAgree;
  }

  lemma OtherLeases(l: Ledger, b: Book, step: Step)
    requires RoundsAgree(l, b) && LeasesAgree(l, b) && Handle(l, step).1 == Accepted && !step.action.Report?
    ensures LeasesAgree(Handle(l, step).0, Entered(b, step.action))
  {
    hide Collecting, HasVotes, ShowsAs;
    if !step.action.Hide? {
      assert Handle(l, step).0.leases == l.leases && Entered(b, step.action).told == b.told;
    }
  }

  lemma AcceptedLeases(l: Ledger, b: Book, step: Step)
    requires RoundsAgree(l, b) && LeasesAgree(l, b) && Handle(l, step).1 == Accepted
    ensures LeasesAgree(Handle(l, step).0, Entered(b, step.action))
  {
    if step.action.Report? {
      ReportedLeases(l, b, step.action.lease, step.action.stamp);
      hide Entered, LeasesAgree, RoundsAgree;
    } else {
      OtherLeases(l, b, step);
      hide Handle, Entered;
    }
  }

  lemma RefusedAgrees(l: Ledger, b: Book, step: Step)
    requires Agrees(l, b) && Handle(l, step).1 != Accepted
    ensures Agrees(Handle(l, step).0, b)
  {
  }

  /** In every reachable state the ledger is what the accepted requests say. */
  lemma {:induction false} LedgerIsAsRequested(roundId: string, draft: Content, steps: seq<Step>)
    ensures Agrees(Run(Fresh(roundId, draft), steps).ledger, BookOf(roundId, draft, steps))
  {
    if steps != [] {
      var init, step := steps[..|steps| - 1], steps[|steps| - 1];
      var h, b := Run(Fresh(roundId, draft), init), BookOf(roundId, draft, init);
      LedgerIsAsRequested(roundId, draft, init);
      if IsAccepted(h, step) {
        AcceptedRounds(h.ledger, b, step);
        AcceptedBallots(h.ledger, b, step);
        AcceptedLeases(h.ledger, b, step);
      } else if Possible(h, step) {
        RefusedAgrees(h.ledger, b, step);
      }
      hide Handle, Entered, RoundsAgree, BallotsAgree, LeasesAgree;
    }
  }

  // ---- When a request is accepted ----

  /** What a request finds when it is accepted, in terms of the book; the live leases are those of the ledger. */
  ghost predicate Acceptable(l: Ledger, b: Book, step: Step) {
    match step.action
    case Report(req, stamp) =>
      && req.epoch != "" && req.roundId == b.current && b.current in b.shown && b.shown[b.current].epoch == req.epoch
      && if IsKept(l, req.displayId, stamp) then l.leases[req.displayId].sequence < req.sequence
         else |set d | d in l.leases && IsKept(l, d, stamp)| < LEASE_LIMIT
    case Cast(req, voter) =>
      && req.roundId == b.current && Voting(b) && !Chose(b.choices, (b.current, voter))
      && exists d :: d in l.leases && IsLive(l.leases[d], b, step.at)
    case Draft(revision, content) =>
      && revision == b.writes && b.current in b.drafts
      && (HasChoice(b) ==>
            var draft := b.drafts[b.current];
            && content.topic == draft.topic && content.affirmative == draft.affirmative
            && content.negative == draft.negative && content.participants == draft.participants)
    case Show(revision, _) => revision == b.writes
    case Hide(revision) => revision == b.writes
    case Replace(revision, roundId) => revision == b.writes && roundId !in b.drafts
  }

  /** The lease is recent enough to stay when a report stamped `stamp` comes. */
  predicate IsKept(l: Ledger, d: string, stamp: real) {
    d in l.leases && l.leases[d].updatedAt >= stamp - LEASE_RETENTION
  }

  predicate IsLive(lease: Lease, b: Book, now: real) {
    b.current in b.shown && lease.roundId == b.current && lease.epoch == b.shown[b.current].epoch && lease.expires > now
  }

  /** Somebody has voted in the current round. */
  ghost predicate HasChoice(b: Book) {
    exists i :: 0 <= i < |b.choices| && b.choices[i].roundId == b.current
  }

  lemma VotesAreChoices(l: Ledger, b: Book)
    requires RoundsAgree(l, b) && BallotsAgree(l, b)
    ensures HasVotes(l, l.current) <==> HasChoice(b)
    ensures forall key :: key in l.votes <==> Chose(b.choices, key)
  {
    if HasVotes(l, l.current) {
      var key :| key in l.votes && key.0 == l.current;
      var i :| 0 <= i < |b.choices| && (b.choices[i].roundId, b.choices[i].voter) == key;
      assert b.choices[i].roundId == b.current;
    }
    if HasChoice(b) {
      var i :| 0 <= i < |b.choices| && b.choices[i].roundId == b.current;
      var key := (b.choices[i].roundId, b.choices[i].voter);
      assert key in l.votes && key.0 == l.current;
    }
  }

  lemma SomeDisplayIsLive(l: Ledger, b: Book, now: real)
    requires RoundsAgree(l, b) && b.current in b.shown
    ensures |ActiveDisplays(l, now)| > 0 <==> exists d :: d in l.leases && IsLive(l.leases[d], b, now)
  {
    var live := ActiveDisplays(l, now);
    assert CurrentEpoch(l) == b.shown[b.current].epoch;
    if live != {} {
      var d :| d in live;
      assert IsLive(l.leases[d], b, now);
    }
    if d :| d in l.leases && IsLive(l.leases[d], b, now) {
      assert d in live;
    }
  }

  lemma ReportAcceptedExactly(l: Ledger, b: Book, req: LeaseRequest, stamp: real, at: real)
    requires RoundsAgree(l, b)
    ensures DisplayLease(l, req, stamp).1 == Accepted <==> Acceptable(l, b, Step(Report(req, stamp), at))
  {
    var kept := KeepLeases(l.leases, stamp - LEASE_RETENTION);
    assert kept.Keys == set d | d in l.leases && IsKept(l, d, stamp);
    assert |kept| == |kept.Keys|;
  }

  lemma VoteAcceptedExactly(l: Ledger, b: Book, req: VoteRequest, voter: string, at: real)
    requires RoundsAgree(l, b) && BallotsAgree(l, b)
    ensures CastVote(l, req, voter, at).1 == Accepted <==> Acceptable(l, b, Step(Cast(req, voter), at))
  {
    VotingAgrees(l, b);
    VotesAreChoices(l, b);
    if b.current in b.shown {
      SomeDisplayIsLive(l, b, at);
    }
    hide ActiveDisplays, IsLive, InPhase, RoundsAgree, BallotsAgree, Chose;
    assert l.current == b.current;
  }

  /** A request is accepted exactly under these conditions. */
  lemma AcceptedExactly(l: Ledger, b: Book, step: Step)
    requires Agrees(l, b)
    ensures Handle(l, step).1 == Accepted <==> Acceptable(l, b, step)
  {
    match step.action
    case Report(req, stamp) => ReportAcceptedExactly(l, b, req, stamp, step.at);
    case Cast(req, voter) => VoteAcceptedExactly(l, b, req, voter, step.at);
    case Draft(_, _) =>
      VotesAreChoices(l, b);
      hide ShowsAs, HasChoice, HasVotes, LeasesAgree, BallotsAgree;
    case Show(_, _) =>
    case Hide(_) =>
    case Replace(_, _) =>
  }

  /** Why a request is refused: the status code of the answer. */
  lemma RefusedAs(l: Ledger, b: Book, step: Step)
    requires Agrees(l, b) && Handle(l, step).1.Refused?
    ensures var code := Handle(l, step).1.code;
            match step.action
            case Report(req, _) =>
              code == (if req.epoch == "" then 422
                       else if req.roundId == b.current && b.current in b.shown && b.shown[b.current].epoch == req.epoch
                       then 429 else 409)
            case Replace(revision, _) => code == if revision == b.writes then 500 else 409
            case _ => code == 409
  {
    hide Collecting, HasVotes, BallotsAgree, LeasesAgree, FixtureOf;
  }

  /** A report is stale, and only cleans up, exactly when its display has reported that number or a later one. */
  lemma StaleExactly(l: Ledger, b: Book, step: Step)
    requires Agrees(l, b)
    ensures Handle(l, step).1 == Stale <==>
      && step.action.Report?
      && var req := step.action.lease;
         && req.epoch != "" && req.roundId == b.current && b.current in b.shown && b.shown[b.current].epoch == req.epoch
         && IsKept(l, req.displayId, step.action.stamp) && req.sequence <= l.leases[req.displayId].sequence
  {
    hide Collecting, HasVotes, BallotsAgree, LeasesAgree, FixtureOf;
  }

  /** Over every run: what is accepted next, judged by what was accepted before. */
  lemma RunAcceptsExactly(roundId: string, draft: Content, steps: seq<Step>, step: Step)
    ensures var l := Run(Fresh(roundId, draft), steps).ledger;
            Handle(l, step).1 == Accepted <==> Acceptable(l, BookOf(roundId, draft, steps), step)
  {
    LedgerIsAsRequested(roundId, draft, steps);
    AcceptedExactly(Run(Fresh(roundId, draft), steps).ledger, BookOf(roundId, draft, steps), step);
  }

  /** Which leases a step leaves: a report clears those a minute old, a withdrawal those of its round. */
  lemma LeasesAfter(l: Ledger, step: Step, d: string)
    ensures var (m, outcome) := Handle(l, step);
            match step.action
            case Report(req, stamp) =>
              if outcome.Refused? then m.leases == l.leases
              else if d == req.displayId && outcome == Accepted then d in m.leases
              else (d in m.leases <==> IsKept(l, d, stamp)) && (d in m.leases ==> m.leases[d] == l.leases[d])
            case Hide(_) =>
              if outcome.Refused? then m.leases == l.leases
              else (d in m.leases <==> d in l.leases && l.leases[d].roundId != l.current)
                   && (d in m.leases ==> m.leases[d] == l.leases[d])
            case _ => m.leases == l.leases
  {
    hide Collecting, HasVotes;
  }

  // ---- The totals count what was asked for ----

  /** `rows` lists the ballots of a round, each once. */
  ghost predicate Lists(rows: seq<Tally.Ballot>, keys: seq<Key>, l: Ledger, roundId: string) {
    && |rows| == |keys|
    && (forall i | 0 <= i < |keys| :: keys[i] in l.votes && keys[i].0 == roundId && rows[i] == l.votes[keys[i]])
    && (forall i, j | 0 <= i < j < |keys| :: keys[i] != keys[j])
    && forall key | key in l.votes && key.0 == roundId :: key in keys
  }

  function ForSide(choices: seq<Choice>, roundId: string, side: Tally.Side): nat {
    if choices == [] then 0
    else
      var last := choices[|choices| - 1];
      ForSide(choices[..|choices| - 1], roundId, side) + if last.roundId == roundId && last.side == side then 1 else 0
  }

  function ForSeat(choices: seq<Choice>, roundId: string, seat: Tally.Seat): nat {
    if choices == [] then 0
    else
      var last := choices[|choices| - 1];
      ForSeat(choices[..|choices| - 1], roundId, seat) + if last.roundId == roundId && last.seat == seat then 1 else 0
  }

  // Both counts count marked keys: the keys of a round's ballots, and those of the choices made in it.

  function Count(marks: seq<bool>): nat {
    if marks == [] then 0 else Count(marks[..|marks| - 1]) + if marks[|marks| - 1] then 1 else 0
  }

  ghost predicate AllDiffer(keys: seq<Key>) {
    forall i, j | 0 <= i < j < |keys| :: keys[i] != keys[j]
  }

  ghost function Marked(keys: seq<Key>, marks: seq<bool>): set<Key>
    requires |keys| == |marks|
  {
    set i | 0 <= i < |keys| && marks[i] :: keys[i]
  }

  lemma MarkOneMore(keys: seq<Key>, marks: seq<bool>)
    requires |keys| == |marks| > 0
    ensures var n := |keys| - 1;
            var before := Marked(keys[..n], marks[..n]);
            Marked(keys, marks) == if marks[n] then before + {keys[n]} else before
  {
    var n := |keys| - 1;
    var before, all := Marked(keys[..n], marks[..n]), Marked(keys, marks);
    forall key | key in before ensures key in all {
      var i :| 0 <= i < n && marks[..n][i] && keys[..n][i] == key;
      assert marks[i] && keys[i] == key;
    }
    forall key | key in all ensures key in before || (marks[n] && key == keys[n]) {
      var i :| 0 <= i < |keys| && marks[i] && keys[i] == key;
      if i < n {
        assert marks[..n][i] && keys[..n][i] == key;
      }
    }
  }

  lemma LastIsNew(keys: seq<Key>, marks: seq<bool>)
    requires |keys| == |marks| > 0 && AllDiffer(keys)
    ensures var n := |keys| - 1; keys[n] !in Marked(keys[..n], marks[..n])
  {
  }

  lemma {:induction false} MarkedCount(keys: seq<Key>, marks: seq<bool>)
    requires |keys| == |marks| && AllDiffer(keys)
    ensures |Marked(keys, marks)| == Count(marks)
  {
    if keys != [] {
      var n := |keys| - 1;
      MarkOneMore(keys, marks);
      LastIsNew(keys, marks);
      MarkedCount(keys[..n], marks[..n]);
      hide Marked;
    }
  }

  function SideMarks(rows: seq<Tally.Ballot>, side: Tally.Side): seq<bool> {
    seq(|rows|, i requires 0 <= i < |rows| => rows[i].winner == Some(side))
  }

  function SeatMarks(rows: seq<Tally.Ballot>, seat: Tally.Seat): seq<bool> {
    seq(|rows|, i requires 0 <= i < |rows| => Tally.FirstChoice(rows[i]) == Some(seat))
  }

  lemma {:induction false} TallyIsCount(rows: seq<Tally.Ballot>, side: Tally.Side, seat: Tally.Seat)
    ensures Tally.SideVotes(rows, side) == Count(SideMarks(rows, side))
    ensures Tally.SeatPoints(rows, seat) == Count(SeatMarks(rows, seat))
  {
    hide Tally.FirstChoice;
    if rows != [] {
      var n := |rows| - 1;
      TallyIsCount(rows[..n], side, seat);
      assert SideMarks(rows, side)[..n] == SideMarks(rows[..n], side);
      assert SeatMarks(rows, seat)[..n] == SeatMarks(rows[..n], seat);
    }
  }

  function ChoiceKeys(choices: seq<Choice>): seq<Key> {
    seq(|choices|, i requires 0 <= i < |choices| => (choices[i].roundId, choices[i].voter))
  }

  function SideAsked(choices: seq<Choice>, roundId: string, side: Tally.Side): seq<bool> {
    seq(|choices|, i requires 0 <= i < |choices| => choices[i].roundId == roundId && choices[i].side == side)
  }

  function SeatAsked(choices: seq<Choice>, roundId: string, seat: Tally.Seat): seq<bool> {
    seq(|choices|, i requires 0 <= i < |choices| => choices[i].roundId == roundId && choices[i].seat == seat)
  }

  lemma {:induction false} AskedIsCount(choices: seq<Choice>, roundId: string, side: Tally.Side, seat: Tally.Seat)
    ensures ForSide(choices, roundId, side) == Count(SideAsked(choices, roundId, side))
    ensures ForSeat(choices, roundId, seat) == Count(SeatAsked(choices, roundId, seat))
  {
    if choices != [] {
      var n := |choices| - 1;
      AskedIsCount(choices[..n], roundId, side, seat);
      assert SideAsked(choices, roundId, side)[..n] == SideAsked(choices[..n], roundId, side);
      assert SeatAsked(choices, roundId, seat)[..n] == SeatAsked(choices[..n], roundId, seat);
    }
  }

  lemma SeatsDiffer(a: Tally.Seat, b: Tally.Seat)
    requires Tally.IDS[a] == Tally.IDS[b]
    ensures a == b
  {
    assert Tally.IDS[a][0] == Tally.IDS[b][0] && Tally.IDS[a][4] == Tally.IDS[b][4];
  }

  /** A ballot counts for the seat it names first, and for no other. */
  lemma FirstChoiceExactly(ballot: Tally.Ballot, seat: Tally.Seat)
    ensures Tally.FirstChoice(ballot) == Some(seat) <==>
              ballot.ranking != [] && ballot.ranking[0] == Tally.IDS[seat]
  {
    if ballot.ranking != [] && ballot.ranking[0] == Tally.IDS[seat] {
      SeatsDiffer(Tally.FirstChoice(ballot).value, seat);
    }
  }

  lemma FirstChoiceIsSeat(ballot: Tally.Ballot, seat: Tally.Seat)
    requires ballot.ranking == [Tally.IDS[seat]]
    ensures Tally.FirstChoice(ballot) == Some(seat)
  {
    SeatsDiffer(Tally.FirstChoice(ballot).value, seat);
  }

  /** The ballots of a round that carry a mark are those whose choices were asked with it. */
  lemma SameMarks(l: Ledger, b: Book, rows: seq<Tally.Ballot>, keys: seq<Key>, roundId: string, has: seq<bool>,
                  asked: seq<bool>)
    requires BallotsAgree(l, b) && Lists(rows, keys, l, roundId) && |has| == |rows| && |asked| == |b.choices|
    requires forall j | 0 <= j < |asked| && asked[j] :: b.choices[j].roundId == roundId
    requires forall i, j | 0 <= i < |has| && 0 <= j < |asked| ::
               keys[i] == (b.choices[j].roundId, b.choices[j].voter) ==> has[i] == asked[j]
    ensures Marked(keys, has) == Marked(ChoiceKeys(b.choices), asked)
  {
    var chosen := ChoiceKeys(b.choices);
    forall key | key in Marked(keys, has) ensures key in Marked(chosen, asked) {
      var i :| 0 <= i < |keys| && has[i] && keys[i] == key;
      assert Chose(b.choices, key);
      var j :| 0 <= j < |b.choices| && (b.choices[j].roundId, b.choices[j].voter) == key;
      assert chosen[j] == key && asked[j];
    }
    forall key | key in Marked(chosen, asked) ensures key in Marked(keys, has) {
      var j :| 0 <= j < |chosen| && asked[j] && chosen[j] == key;
      assert key in l.votes && key.0 == roundId;
      var i :| 0 <= i < |keys| && keys[i] == key;
      assert has[i];
    }
  }

  lemma MarksAgree(l: Ledger, b: Book, rows: seq<Tally.Ballot>, keys: seq<Key>, roundId: string, side: Tally.Side,
                   seat: Tally.Seat, i: nat, j: nat)
    requires BallotsAgree(l, b) && Lists(rows, keys, l, roundId) && i < |rows| && j < |b.choices|
    requires keys[i] == (b.choices[j].roundId, b.choices[j].voter)
    ensures SideMarks(rows, side)[i] == SideAsked(b.choices, roundId, side)[j]
    ensures SeatMarks(rows, seat)[i] == SeatAsked(b.choices, roundId, seat)[j]
  {
    assert IsFor(rows[i], b.choices[j]);
    FirstChoiceIsSeat(rows[i], b.choices[j].seat);
  }

  lemma SidesCountAsAsked(l: Ledger, b: Book, rows: seq<Tally.Ballot>, keys: seq<Key>, round: string, side: Tally.Side)
    requires BallotsAgree(l, b) && Lists(rows, keys, l, round)
    ensures Count(SideMarks(rows, side)) == Count(SideAsked(b.choices, round, side))
  {
    forall i, j | 0 <= i < |rows| && 0 <= j < |b.choices| && keys[i] == (b.choices[j].roundId, b.choices[j].voter)
      ensures SideMarks(rows, side)[i] == SideAsked(b.choices, round, side)[j]
    {
      MarksAgree(l, b, rows, keys, round, side, 0, i, j);
    }
    SameMarks(l, b, rows, keys, round, SideMarks(rows, side), SideAsked(b.choices, round, side));
    assert AllDiffer(keys) && AllDiffer(ChoiceKeys(b.choices));
    MarkedCount(keys, SideMarks(rows, side));
    MarkedCount(ChoiceKeys(b.choices), SideAsked(b.choices, round, side));
  }

  lemma SeatsCountAsAsked(l: Ledger, b: Book, rows: seq<Tally.Ballot>, keys: seq<Key>, round: string, seat: Tally.Seat)
    requires BallotsAgree(l, b) && Lists(rows, keys, l, round)
    ensures Count(SeatMarks(rows, seat)) == Count(SeatAsked(b.choices, round, seat))
  {
    forall i, j | 0 <= i < |rows| && 0 <= j < |b.choices| && keys[i] == (b.choices[j].roundId, b.choices[j].voter)
      ensures SeatMarks(rows, seat)[i] == SeatAsked(b.choices, round, seat)[j]
    {
      MarksAgree(l, b, rows, keys, round, Tally.Affirmative, seat, i, j);
    }
    SameMarks(l, b, rows, keys, round, SeatMarks(rows, seat), SeatAsked(b.choices, round, seat));
    assert AllDiffer(keys) && AllDiffer(ChoiceKeys(b.choices));
    MarkedCount(keys, SeatMarks(rows, seat));
    MarkedCount(ChoiceKeys(b.choices), SeatAsked(b.choices, round, seat));
  }

  /** In every reachable state, each side and each seat of a round has as many votes as accepted requests asked for. */
  lemma VotesCountAsAsked(roundId: string, draft: Content, steps: seq<Step>, round: string, rows: seq<Tally.Ballot>,
                          keys: seq<Key>, side: Tally.Side, seat: Tally.Seat)
    requires Lists(rows, keys, Run(Fresh(roundId, draft), steps).ledger, round)
    ensures var choices := BookOf(roundId, draft, steps).choices;
            && Tally.SideVotes(rows, side) == ForSide(choices, round, side)
            && Tally.SeatPoints(rows, seat) == ForSeat(choices, round, seat)
  {
    var l, b := Run(Fresh(roundId, draft), steps).ledger, BookOf(roundId, draft, steps);
    LedgerIsAsRequested(roundId, draft, steps);
    hide Run, BookOf, BallotsAgree, RoundsAgree, LeasesAgree, Lists;
    TallyIsCount(rows, side, seat);
    AskedIsCount(b.choices, round, side, seat);
    SidesCountAsAsked(l, b, rows, keys, round, side);
    SeatsCountAsAsked(l, b, rows, keys, round, seat);
  }

  /** An accepted vote raises the counts of its side and its seat by one, in its round, and no other of any round. */
  lemma VoteCountsOnce(roundId: string, draft: Content, steps: seq<Step>, req: VoteRequest, voter: string, at: real,
                       round: string, side: Tally.Side, seat: Tally.Seat)
    requires IsAccepted(Run(Fresh(roundId, draft), steps), Step(Cast(req, voter), at))
    ensures var before, after := BookOf(roundId, draft, steps).choices,
                                 BookOf(roundId, draft, steps + [Step(Cast(req, voter), at)]).choices;
            && ForSide(after, round, side)
               == ForSide(before, round, side) + (if round == req.roundId && side == req.winner then 1 else 0)
            && ForSeat(after, round, seat)
               == ForSeat(before, round, seat) + (if round == req.roundId && seat == req.best then 1 else 0)
  {
    var step := Step(Cast(req, voter), at);
    var more, b := steps + [step], BookOf(roundId, draft, steps);
    assert more[..|more| - 1] == steps;
    LedgerIsAsRequested(roundId, draft, steps);
    var after := BookOf(roundId, draft, more).choices;
    assert after == b.choices + [Choice(b.current, voter, req.winner, req.best)];
    assert after[..|after| - 1] == b.choices;
  }
}

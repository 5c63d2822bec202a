/** Audience results: `Store.totals` of apps/showcase/app.py and the winner selection of screen.js. */
module Tally {
  import opened Wrappers

  const IDS: seq<string> := ["aff-1", "aff-2", "aff-3", "aff-4", "neg-1", "neg-2", "neg-3", "neg-4"]

  /** A seat is its index in `IDS`; the keys of the `scores` dictionary are the seats in that order. */
  type Seat = k: nat | k < 8

  datatype Side = Affirmative | Negative

  /** A stored ballot. Historical ones may rank several seats, name none, or name an unknown side. */
  datatype Ballot = Ballot(winner: Option<Side>, ranking: seq<string>)

  /** What the `vote` handler writes. */
  predicate CameThroughVote(b: Ballot) {
    b.winner.Some? && |b.ranking| == 1 && SeatOf(b.ranking[0]).Some?
  }

  datatype Place = Place(seat: Seat, points: nat, rank: nat, tied: bool)

  datatype Totals = Totals(total: nat, winners: map<Side, nat>, ranking: seq<Place>)

  function SeatFrom(id: string, from: nat): (r: Option<Seat>)
    requires from <= 8
    ensures r.Some? ==> from <= r.value && IDS[r.value] == id
    ensures r.None? ==> forall k: Seat | from <= k :: IDS[k] != id
    decreases 8 - from
  {
    if from == 8 then None else if IDS[from] == id then Some(from) else SeatFrom(id, from + 1)
  }

  function SeatOf(id: string): Option<Seat> {
    SeatFrom(id, 0)
  }

  function FirstChoice(b: Ballot): Option<Seat> {
    if b.ranking == [] then None else SeatOf(b.ranking[0])
  }

  // ---- The mathematical tally ----

  function SideVotes(rows: seq<Ballot>, side: Side): nat {
    if rows == [] then 0
    else SideVotes(rows[..|rows| - 1], side) + if rows[|rows| - 1].winner == Some(side) then 1 else 0
  }

  function SeatPoints(rows: seq<Ballot>, seat: Seat): nat {
    if rows == [] then 0
    else SeatPoints(rows[..|rows| - 1], seat) + if FirstChoice(rows[|rows| - 1]) == Some(seat) then 1 else 0
  }

  type Scores = s: seq<nat> | |s| == 8 witness [0, 0, 0, 0, 0, 0, 0, 0]

  function PointsOf(rows: seq<Ballot>): Scores {
    seq(8, k requires 0 <= k < 8 => SeatPoints(rows, k))
  }

  /** More points first, seat order on equal points. */
  predicate Ahead(scores: Scores, a: Seat, b: Seat) {
    scores[a] > scores[b] || (scores[a] == scores[b] && a < b)
  }

  ghost predicate SharesPoints(scores: Scores, seat: Seat) {
    exists other: Seat :: other != seat && scores[other] == scores[seat]
  }

  ghost predicate Occupied(ranking: seq<Place>, seat: Seat) {
    exists i :: 0 <= i < |ranking| && ranking[i].seat == seat
  }

  /** Each seat once, in order, with its points, its place and whether another seat has as many points. */
  ghost predicate IsRanking(scores: Scores, ranking: seq<Place>) {
    && |ranking| == 8
    && (forall seat: Seat :: Occupied(ranking, seat))
    && (forall i, j | 0 <= i < j < 8 :: Ahead(scores, ranking[i].seat, ranking[j].seat))
    && forall i | 0 <= i < 8 ::
         && ranking[i].points == scores[ranking[i].seat]
         && ranking[i].rank == i + 1
         && (ranking[i].tied <==> SharesPoints(scores, ranking[i].seat))
  }

  ghost predicate IsTally(rows: seq<Ballot>, t: Totals) {
    && t.total == |rows|
    && t.winners.Keys == {Affirmative, Negative}
    && (forall side | side in t.winners :: t.winners[side] == SideVotes(rows, side))
    && (if rows == [] then t.ranking == [] else IsRanking(PointsOf(rows), t.ranking))
  }

  // ---- The computation ----

  function InsertSeat(scores: Scores, seat: Seat, sorted: seq<Seat>): seq<Seat> {
    if sorted == [] then [seat]
    else if Ahead(scores, seat, sorted[0]) then [seat] + sorted
    else [sorted[0]] + InsertSeat(scores, seat, sorted[1..])
  }

  ghost predicate Ordered(scores: Scores, seats: seq<Seat>) {
    forall i, j | 0 <= i < j < |seats| :: Ahead(scores, seats[i], seats[j])
  }

  lemma {:induction false} InsertKeepsOrder(scores: Scores, seat: Seat, sorted: seq<Seat>)
    requires Ordered(scores, sorted) && seat !in sorted
    ensures Ordered(scores, InsertSeat(scores, seat, sorted))
    ensures |InsertSeat(scores, seat, sorted)| == |sorted| + 1
    ensures forall s :: s in InsertSeat(scores, seat, sorted) <==> s == seat || s in sorted
  {
    if sorted != [] {
      assert sorted == [sorted[0]] + sorted[1..];
      if !Ahead(scores, seat, sorted[0]) {
        InsertKeepsOrder(scores, seat, sorted[1..]);
        var rest := InsertSeat(scores, seat, sorted[1..]);
        forall j | 0 <= j < |rest| ensures Ahead(scores, sorted[0], rest[j]) {
          assert rest[j] in rest;
          if rest[j] != seat {
            var i :| 0 <= i < |sorted[1..]| && sorted[1..][i] == rest[j];
            assert sorted[i + 1] == rest[j];
          }
        }
      }
    }
  }

  /** `sorted(IDS, key=...)`. */
  method SortSeats(scores: Scores) returns (sorted: seq<Seat>)
    ensures Ordered(scores, sorted) && |sorted| == 8
    ensures forall seat: Seat :: seat in sorted
  {
    sorted := [];
    for n := 0 to 8
      invariant Ordered(scores, sorted) && |sorted| == n
      invariant forall s: Seat :: s in sorted <==> s < n
    {
      InsertKeepsOrder(scores, n, sorted);
      sorted := InsertSeat(scores, n, sorted);
    }
  }

  /** How many of the first `n` seats have this many points: `list(scores.values()).count(points)`. */
  function CountPoints(scores: Scores, n: nat, points: nat): nat
    requires n <= 8
  {
    if n == 0 then 0 else CountPoints(scores, n - 1, points) + if scores[n - 1] == points then 1 else 0
  }

  lemma {:induction false} CountFindsSeats(scores: Scores, n: nat, seat: Seat)
    requires n <= 8
    ensures var others := CountPoints(scores, n, scores[seat]) - if seat < n then 1 else 0;
            others >= 0
            && (others > 0 <==> exists other: Seat :: other < n && other != seat && scores[other] == scores[seat])
  {
    if n > 0 {
      CountFindsSeats(scores, n - 1, seat);
      var last: Seat := n - 1;
    }
  }

  /** The loop over the ballots. */
  method CountBallots(rows: seq<Ballot>) returns (total: nat, scores: Scores, winners: map<Side, nat>)
    ensures total == |rows| && scores == PointsOf(rows)
    ensures winners == map[Affirmative := SideVotes(rows, Affirmative), Negative := SideVotes(rows, Negative)]
  {
    hide FirstChoice;
    scores := [0, 0, 0, 0, 0, 0, 0, 0];
    winners := map[Affirmative := 0, Negative := 0];
    total := 0;
    for n := 0 to |rows|
      invariant total == n
      invariant forall seat: Seat :: scores[seat] == SeatPoints(rows[..n], seat)
      invariant winners.Keys == {Affirmative, Negative}
      invariant forall side | side in winners :: winners[side] == SideVotes(rows[..n], side)
    {
      var row := rows[n];
      assert rows[..n + 1][..n] == rows[..n];
      total := total + 1;
      if row.winner.Some? && row.winner.value in winners {
        winners := winners[row.winner.value := winners[row.winner.value] + 1];
      }
      var choice := FirstChoice(row);
      if choice.Some? {
        scores := scores[choice.value := scores[choice.value] + 1];
      }
    }
    assert rows[..|rows|] == rows;
  }

  /** The ranking list over the sorted seats. */
  method BuildRanking(scores: Scores) returns (ranking: seq<Place>)
    ensures IsRanking(scores, ranking)
  {
    var ordered := SortSeats(scores);
    ranking := [];
    for i := 0 to 8
      invariant |ranking| == i
      invariant forall k | 0 <= k < i ::
        && ranking[k].seat == ordered[k]
        && ranking[k].rank == k + 1
        && ranking[k].points == scores[ordered[k]]
        && (ranking[k].tied <==> SharesPoints(scores, ordered[k]))
    {
      var seat := ordered[i];
      CountFindsSeats(scores, 8, seat);
      ranking := ranking + [Place(seat, scores[seat], i + 1, CountPoints(scores, 8, scores[seat]) > 1)];
    }
    forall seat: Seat ensures Occupied(ranking, seat) {
      assert seat in ordered;
      var i :| 0 <= i < 8 && ordered[i] == seat;
      assert ranking[i].seat == seat;
    }
  }

  method Count(rows: seq<Ballot>) returns (t: Totals)
    ensures IsTally(rows, t)
  {
    var total, scores, winners := CountBallots(rows);
    var ranking: seq<Place> := [];
    if total > 0 {
      ranking := BuildRanking(scores);
    }
    t := Totals(total, winners, ranking);
  }

  // ---- What the tally promises ----

  function SumPoints(rows: seq<Ballot>, n: nat): nat
    requires n <= 8
  {
    if n == 0 then 0 else SumPoints(rows, n - 1) + SeatPoints(rows, n - 1)
  }

  lemma {:induction false} OneMoreBallot(rows: seq<Ballot>, row: Ballot, n: nat)
    requires n <= 8
    ensures SumPoints(rows + [row], n)
         == SumPoints(rows, n) + if FirstChoice(row).Some? && FirstChoice(row).value < n then 1 else 0
  {
    if n > 0 {
      assert (rows + [row])[..|rows|] == rows;
      OneMoreBallot(rows, row, n - 1);
    }
  }

  lemma {:induction false} NoPoints(n: nat)
    requires n <= 8
    ensures SumPoints([], n) == 0
  {
    if n > 0 {
      NoPoints(n - 1);
    }
  }

  lemma {:induction false} SidesMatchTotal(rows: seq<Ballot>)
    ensures SideVotes(rows, Affirmative) + SideVotes(rows, Negative) <= |rows|
    ensures (forall b | b in rows :: b.winner.Some?) ==>
              SideVotes(rows, Affirmative) + SideVotes(rows, Negative) == |rows|
  {
    if rows != [] {
      var init, row := rows[..|rows| - 1], rows[|rows| - 1];
      assert rows == init + [row] && row in rows;
      assert forall b | b in init :: b in rows;
      SidesMatchTotal(init);
      assert row.winner.Some? ==> row.winner.value == Affirmative || row.winner.value == Negative;
    }
  }

  lemma {:induction false} PointsMatchTotal(rows: seq<Ballot>)
    ensures SumPoints(rows, 8) <= |rows|
    ensures (forall b | b in rows :: FirstChoice(b).Some?) ==> SumPoints(rows, 8) == |rows|
  {
    hide FirstChoice;
    if rows == [] {
      NoPoints(8);
    } else {
      var init, row := rows[..|rows| - 1], rows[|rows| - 1];
      assert rows == init + [row] && row in rows;
      assert forall b | b in init :: b in rows;
      PointsMatchTotal(init);
      OneMoreBallot(init, row, 8);
    }
  }

  /** Points and side counts never exceed the ballots, and match them when all came through `vote`. */
  lemma SumsMatchTotal(rows: seq<Ballot>)
    ensures SideVotes(rows, Affirmative) + SideVotes(rows, Negative) <= |rows|
    ensures SumPoints(rows, 8) <= |rows|
    ensures (forall b | b in rows :: CameThroughVote(b)) ==>
              SideVotes(rows, Affirmative) + SideVotes(rows, Negative) == |rows| && SumPoints(rows, 8) == |rows|
  {
    SidesMatchTotal(rows);
    PointsMatchTotal(rows);
  }

  lemma {:induction false} OrderIsUnique(scores: Scores, a: seq<Seat>, b: seq<Seat>)
    requires Ordered(scores, a) && Ordered(scores, b) && |a| == |b|
    requires forall s :: s in a <==> s in b
    ensures a == b
  {
    if a != [] {
      assert a == [a[0]] + a[1..] && b == [b[0]] + b[1..];
      assert a[0] in b && b[0] in a;
      assert a[0] == b[0];
      assert a[0] !in a[1..] && b[0] !in b[1..];
      forall s ensures s in a[1..] <==> s in b[1..] {
        assert s in a <==> s == a[0] || s in a[1..];
        assert s in b <==> s == b[0] || s in b[1..];
      }
      OrderIsUnique(scores, a[1..], b[1..]);
    }
  }

  /** Only one ranking fits the points. */
  lemma RankingIsUnique(scores: Scores, a: seq<Place>, b: seq<Place>)
    requires IsRanking(scores, a) && IsRanking(scores, b)
    ensures a == b
  {
    var seatsA := seq(8, i requires 0 <= i < 8 => a[i].seat);
    var seatsB := seq(8, i requires 0 <= i < 8 => b[i].seat);
    forall s: Seat ensures s in seatsA && s in seatsB {
      assert Occupied(a, s) && Occupied(b, s);
      var i :| 0 <= i < 8 && a[i].seat == s;
      var j :| 0 <= j < 8 && b[j].seat == s;
      assert seatsA[i] == s && seatsB[j] == s;
    }
    OrderIsUnique(scores, seatsA, seatsB);
    forall i | 0 <= i < 8 ensures a[i] == b[i] {
      assert seatsA[i] == seatsB[i];
    }
  }

  // ---- screen.js: audienceResults ----

  function Max(a: nat, b: nat): nat {
    if a < b then b else a
  }

  function HighestPoints(ranking: seq<Place>): nat {
    if ranking == [] then 0 else Max(ranking[0].points, HighestPoints(ranking[1..]))
  }

  /** The winning sides, in display order. */
  function Winners(t: Totals): seq<Side>
    requires Affirmative in t.winners && Negative in t.winners
  {
    if t.total == 0 then []
    else
      var most := Max(t.winners[Affirmative], t.winners[Negative]);
      (if most > 0 && t.winners[Affirmative] == most then [Affirmative] else [])
      + (if most > 0 && t.winners[Negative] == most then [Negative] else [])
  }

  function KeepPoints(ranking: seq<Place>, points: nat): seq<Seat> {
    if ranking == [] then []
    else (if ranking[0].points == points then [ranking[0].seat] else []) + KeepPoints(ranking[1..], points)
  }

  /** The best debaters, in ranking order. */
  function Best(t: Totals): seq<Seat> {
    var highest := HighestPoints(t.ranking);
    if t.total == 0 || highest == 0 then [] else KeepPoints(t.ranking, highest)
  }

  lemma {:induction false} HighestIsMaximum(ranking: seq<Place>)
    ensures forall i | 0 <= i < |ranking| :: ranking[i].points <= HighestPoints(ranking)
    ensures ranking != [] ==> exists i :: 0 <= i < |ranking| && ranking[i].points == HighestPoints(ranking)
  {
    if ranking != [] {
      HighestIsMaximum(ranking[1..]);
      assert forall i | 1 <= i < |ranking| :: ranking[i] == ranking[1..][i - 1];
      if |ranking| > 1 && HighestPoints(ranking) != ranking[0].points {
        var i :| 0 <= i < |ranking[1..]| && ranking[1..][i].points == HighestPoints(ranking[1..]);
        assert ranking[i + 1].points == HighestPoints(ranking[1..]);
      } else {
        assert ranking[0].points == HighestPoints(ranking);
      }
    }
  }

  lemma {:induction false} KeptSeats(ranking: seq<Place>, points: nat, seat: Seat)
    ensures seat in KeepPoints(ranking, points)
       <==> exists i :: 0 <= i < |ranking| && ranking[i].seat == seat && ranking[i].points == points
  {
    if ranking != [] {
      KeptSeats(ranking[1..], points, seat);
      assert forall i | 1 <= i < |ranking| :: ranking[i] == ranking[1..][i - 1];
      assert forall i | 0 <= i < |ranking[1..]| :: ranking[1..][i] == ranking[i + 1];
    }
  }

  ghost predicate TopSeat(scores: Scores, seat: Seat) {
    scores[seat] > 0 && forall other: Seat :: scores[other] <= scores[seat]
  }

  function Opponent(side: Side): Side {
    if side == Affirmative then Negative else Affirmative
  }

  ghost predicate TopSide(rows: seq<Ballot>, side: Side) {
    SideVotes(rows, side) > 0 && SideVotes(rows, Opponent(side)) <= SideVotes(rows, side)
  }

  lemma SeatIsBest(scores: Scores, ranking: seq<Place>, seat: Seat)
    requires IsRanking(scores, ranking)
    ensures var highest := HighestPoints(ranking);
            highest > 0 && seat in KeepPoints(ranking, highest) <==> TopSeat(scores, seat)
  {
    var highest := HighestPoints(ranking);
    HighestIsMaximum(ranking);
    KeptSeats(ranking, highest, seat);
    forall other: Seat ensures scores[other] <= highest {
      assert Occupied(ranking, other);
      var i :| 0 <= i < 8 && ranking[i].seat == other;
      assert ranking[i].points <= highest;
    }
    var best :| 0 <= best < 8 && ranking[best].points == highest;
    assert Occupied(ranking, seat);
    var i :| 0 <= i < 8 && ranking[i].seat == seat;
    assert scores[ranking[best].seat] == highest && ranking[i].points == scores[seat];
  }

  /** The page announces exactly the sides, and exactly the seats, with a positive maximum. */
  lemma PageAnnouncesMaxima(rows: seq<Ballot>, t: Totals)
    requires IsTally(rows, t)
    ensures forall side: Side :: side in Winners(t) <==> TopSide(rows, side)
    ensures forall seat: Seat :: seat in Best(t) <==> TopSeat(PointsOf(rows), seat)
  {
    assert Affirmative in t.winners && Negative in t.winners;
    forall side: Side ensures side in Winners(t) <==> TopSide(rows, side) {
      assert side == Affirmative || side == Negative;
    }
    if rows != [] {
      forall seat: Seat ensures seat in Best(t) <==> TopSeat(PointsOf(rows), seat) {
        SeatIsBest(PointsOf(rows), t.ranking, seat);
      }
    }
  }
}

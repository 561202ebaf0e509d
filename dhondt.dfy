/**
 * The D'Hondt baseline run of a province (`initial_distribution`) and the
 * table of seats already held entering each pre-decided round (`build_S`).
 *
 * Parties are the positions 0..n-1 of `parties_names`; a row of `matrix_A`
 * or `matrix_S` is the sequence of its values in that order.
 */
module DHondt {
  import opened Seqs
  import opened Ballot

  /** The D'Hondt quotient `votes / (wins + 1)`, computed exactly. */
  function Quotient(votes: nat, wins: nat): real {
    votes as real / (wins + 1) as real
  }

  /**
   * The scan over parties 0..j-1 that keeps the current party and replaces
   * it only when a later party's quotient is strictly larger.
   */
  function Leader(votes: seq<nat>, wins: seq<nat>, j: nat): (c: nat)
    requires |wins| == |votes| && 1 <= j <= |votes|
    ensures c < j
  {
    if j == 1 then 0
    else
      var c := Leader(votes, wins, j - 1);
      if Quotient(votes[c], wins[c]) < Quotient(votes[j - 1], wins[j - 1]) then j - 1 else c
  }

  /** The party that wins a round in which the parties hold `wins` seats. */
  function Winner(votes: seq<nat>, wins: seq<nat>): nat
    requires |wins| == |votes| > 0
  {
    Leader(votes, wins, |votes|)
  }

  /**
   * `c` has the largest quotient, and every party before it in
   * `parties_names` has a strictly smaller one: ties go to the earliest party.
   */
  ghost predicate IsFirstMaximum(votes: seq<nat>, wins: seq<nat>, c: nat)
    requires |wins| == |votes|
  {
    && c < |votes|
    && (forall q :: 0 <= q < |votes| ==> Quotient(votes[q], wins[q]) <= Quotient(votes[c], wins[c]))
    && (forall q :: 0 <= q < c ==> Quotient(votes[q], wins[q]) < Quotient(votes[c], wins[c]))
  }

  lemma {:induction false} LeaderIsFirstMaximum(votes: seq<nat>, wins: seq<nat>, j: nat)
    requires |wins| == |votes| && 1 <= j <= |votes|
    ensures var c := Leader(votes, wins, j);
      && (forall q :: 0 <= q < j ==> Quotient(votes[q], wins[q]) <= Quotient(votes[c], wins[c]))
      && (forall q :: 0 <= q < c ==> Quotient(votes[q], wins[q]) < Quotient(votes[c], wins[c]))
  {
    if j > 1 {
      LeaderIsFirstMaximum(votes, wins, j - 1);
    }
  }

  /** The round winner is exactly the first party with the largest quotient. */
  lemma WinnerIsFirstMaximum(votes: seq<nat>, wins: seq<nat>, c: nat)
    requires |wins| == |votes| > 0
    ensures IsFirstMaximum(votes, wins, c) <==> c == Winner(votes, wins)
  {
    LeaderIsFirstMaximum(votes, wins, |votes|);
  }

  /** Seats won by each party after `r` rounds of the baseline run. */
  function WinsAfter(votes: seq<nat>, r: nat): (w: seq<nat>)
    requires |votes| > 0 || r == 0
    ensures |w| == |votes|
  {
    if r == 0 then Zeros(|votes|)
    else
      var prev := WinsAfter(votes, r - 1);
      var c := Winner(votes, prev);
      prev[c := prev[c] + 1]
  }

  /** The winner of round `i` (0-based), given the seats won before it. */
  function RoundWinner(votes: seq<nat>, i: nat): nat
    requires |votes| > 0
  {
    Winner(votes, WinsAfter(votes, i))
  }

  /** `{p: int(current_party == p) for p in parties_names}`. */
  function OneHot(n: nat, c: nat): (row: seq<nat>)
    ensures |row| == n
  {
    seq(n, p => if p == c then 1 else 0)
  }

  /** `matrix_A` after `r` rounds: one one-hot row per round. */
  function MatrixA(votes: seq<nat>, r: nat): (a: seq<seq<nat>>)
    requires |votes| > 0 || r == 0
    ensures |a| == r
  {
    seq(r, i requires 0 <= i < r => OneHot(|votes|, RoundWinner(votes, i)))
  }

  /** `parties_dhont[p]`: original votes, current quotient, wins and wing. */
  datatype Standing = Standing(originalVotes: nat, quotient: real, wins: nat, wing: string)

  /** `parties_dhont` after `r` rounds, in `parties_names` order. */
  function StandingsAfter(ps: seq<PartyEntry>, r: nat): (s: seq<Standing>)
    requires |ps| > 0 || r == 0
    ensures |s| == |ps|
  {
    var wins := WinsAfter(Votes(ps), r);
    seq(|ps|, p requires 0 <= p < |ps| =>
      Standing(ps[p].votes, Quotient(ps[p].votes, wins[p]), wins[p], ps[p].wing))
  }

  /** Before any round every quotient is the party's vote count. */
  lemma StandingsStart(ps: seq<PartyEntry>)
    ensures forall p :: 0 <= p < |ps| ==>
      StandingsAfter(ps, 0)[p] == Standing(ps[p].votes, ps[p].votes as real, 0, ps[p].wing)
  {
  }

  /** One round: the winner gains a seat and its quotient drops to `votes/(wins+1)`. */
  lemma StandingsStep(ps: seq<PartyEntry>, i: nat)
    requires |ps| > 0
    ensures var c := RoundWinner(Votes(ps), i);
      var before := StandingsAfter(ps, i);
      c < |ps| &&
      StandingsAfter(ps, i + 1) == before[c := before[c].(
        wins := before[c].wins + 1,
        quotient := before[c].originalVotes as real / (before[c].wins + 1 + 1) as real)]
  {
    LeaderIsFirstMaximum(Votes(ps), WinsAfter(Votes(ps), i), |ps|);
  }

  lemma MatrixAStep(votes: seq<nat>, i: nat)
    requires |votes| > 0
    ensures MatrixA(votes, i + 1) == MatrixA(votes, i) + [OneHot(|votes|, RoundWinner(votes, i))]
  {
  }

  /**
   * `initial_distribution`: start every quotient at the party's votes, then
   * for `num_seats` rounds give the seat to the first party with the largest
   * quotient, record a one-hot row and reset the winner's quotient.
   * An empty party list with seats to give raises IndexError in the source.
   */
  method InitialDistribution(ps: seq<PartyEntry>, numSeats: nat)
    returns (partiesDhont: seq<Standing>, matrixA: seq<seq<nat>>)
    requires |ps| > 0 || numSeats == 0
    ensures partiesDhont == StandingsAfter(ps, numSeats)
    ensures matrixA == MatrixA(Votes(ps), numSeats)
  {
    ghost var votes := Votes(ps);
    partiesDhont := StartStandings(ps);
    matrixA := [];
    for i := 0 to numSeats
      invariant partiesDhont == StandingsAfter(ps, i)
      invariant matrixA == MatrixA(votes, i)
    {
      var current := RoundLeader(ps, partiesDhont, i);
      var row := seq(|ps|, p => if current == p then 1 else 0);
      assert row == OneHot(|ps|, current);
      MatrixAStep(votes, i);
      matrixA := matrixA + [row];
      StandingsStep(ps, i);
      var won := partiesDhont[current].wins + 1;
      partiesDhont := partiesDhont[current := partiesDhont[current].(
        wins := won,
        quotient := partiesDhont[current].originalVotes as real / (won + 1) as real)];
    }
  }

  /** The first loop of `initial_distribution`: every party at its votes and no wins. */
  method StartStandings(ps: seq<PartyEntry>) returns (partiesDhont: seq<Standing>)
    ensures partiesDhont == StandingsAfter(ps, 0)
  {
    partiesDhont := [];
    StandingsStart(ps);
    for p := 0 to |ps|
      invariant |partiesDhont| == p
      invariant forall j :: 0 <= j < p ==>
        partiesDhont[j] == Standing(ps[j].votes, ps[j].votes as real, 0, ps[j].wing)
    {
      partiesDhont := partiesDhont + [Standing(ps[p].votes, ps[p].votes as real, 0, ps[p].wing)];
    }
  }

  /**
   * The scan of one round: `current` starts at the first party and moves to
   * a later one only when its quotient is strictly larger.
   */
  method RoundLeader(ghost ps: seq<PartyEntry>, partiesDhont: seq<Standing>, ghost i: nat) returns (current: nat)
    requires |ps| > 0 && partiesDhont == StandingsAfter(ps, i)
    ensures current == RoundWinner(Votes(ps), i)
  {
    ghost var votes, wins := Votes(ps), WinsAfter(Votes(ps), i);
    current := 0;
    for c := 1 to |partiesDhont|
      invariant current == Leader(votes, wins, c)
    {
      if partiesDhont[current].quotient < partiesDhont[c].quotient {
        current := c;
      }
    }
  }

  /** Entry `p` of every row, summed: the seats `p` holds after those rows. */
  function ColumnSum(rows: seq<seq<nat>>, p: nat): nat
    requires forall i :: 0 <= i < |rows| ==> p < |rows[i]|
  {
    if rows == [] then 0 else ColumnSum(rows[..|rows| - 1], p) + rows[|rows| - 1][p]
  }

  /** Every row has one entry per party. */
  ghost predicate Rectangular(rows: seq<seq<nat>>, n: nat) {
    forall i :: 0 <= i < |rows| ==> |rows[i]| == n
  }

  /** Column sums of all rows: a row of `matrix_S`. */
  function ColumnSums(rows: seq<seq<nat>>, n: nat): (s: seq<nat>)
    requires Rectangular(rows, n)
    ensures |s| == n
  {
    seq(n, p requires 0 <= p < n => ColumnSum(rows, p))
  }

  /** Pointwise sum of two rows. */
  function AddRow(s: seq<nat>, a: seq<nat>): (r: seq<nat>)
    requires |a| == |s|
    ensures |r| == |s| && forall p :: 0 <= p < |s| ==> r[p] == s[p] + a[p]
  {
    seq(|s|, p requires 0 <= p < |s| => s[p] + a[p])
  }

  /** Every row of `matrix_A` is one-hot, and the columns count each party's wins. */
  lemma {:induction false} MatrixAOneHot(votes: seq<nat>, r: nat)
    requires |votes| > 0 || r == 0
    ensures Rectangular(MatrixA(votes, r), |votes|)
    ensures forall i :: 0 <= i < r ==> Sum(MatrixA(votes, r)[i]) == 1
    ensures forall i, p :: 0 <= i < r && 0 <= p < |votes| ==>
      MatrixA(votes, r)[i][p] == (if p == RoundWinner(votes, i) then 1 else 0)
  {
    forall i | 0 <= i < r ensures Sum(MatrixA(votes, r)[i]) == 1 {
      var c := RoundWinner(votes, i);
      OneHotSum(|votes|, c);
    }
  }

  lemma {:induction false} OneHotSum(n: nat, c: nat)
    requires c < n
    ensures Sum(OneHot(n, c)) == 1
  {
    SumZeros(n);
    assert OneHot(n, c) == Zeros(n)[c := 1];
    SumUpdate(Zeros(n), c, 1);
  }

  /** The first rows of a longer run are the rows of the shorter run. */
  lemma MatrixAPrefix(votes: seq<nat>, r: nat, i: nat)
    requires |votes| > 0 && i <= r
    ensures MatrixA(votes, r)[..i] == MatrixA(votes, i)
  {
  }

  /** Each party's wins equal its column sum in `matrix_A`. */
  lemma {:induction false} WinsAreColumnSums(votes: seq<nat>, r: nat)
    requires |votes| > 0 || r == 0
    ensures Rectangular(MatrixA(votes, r), |votes|)
    ensures WinsAfter(votes, r) == ColumnSums(MatrixA(votes, r), |votes|)
  {
    MatrixAOneHot(votes, r);
    if r > 0 {
      WinsAreColumnSums(votes, r - 1);
      MatrixAPrefix(votes, r, r - 1);
      MatrixAOneHot(votes, r - 1);
    }
  }

  /** The run hands out exactly `r` seats in `r` rounds. */
  lemma {:induction false} TotalWins(votes: seq<nat>, r: nat)
    requires |votes| > 0 || r == 0
    ensures Sum(WinsAfter(votes, r)) == r
  {
    if r == 0 {
      SumZeros(|votes|);
    } else {
      TotalWins(votes, r - 1);
      var prev := WinsAfter(votes, r - 1);
      var c := Winner(votes, prev);
      SumUpdate(prev, c, prev[c] + 1);
    }
  }

  /**
   * `build_S`: `matrix_S[0]` is all zeros and each later row adds the
   * matching row of `matrix_A`, for rows 1..first_contested_seat-1.
   */
  method BuildS(matrixA: seq<seq<nat>>, n: nat, firstContestedSeat: nat)
    returns (matrixS: seq<seq<nat>>)
    requires Rectangular(matrixA, n)
    requires 1 <= firstContestedSeat <= |matrixA| + 1
    ensures |matrixS| == firstContestedSeat
    ensures matrixS[0] == Zeros(n)
    ensures forall i {:trigger matrixA[i]} :: 0 <= i < firstContestedSeat - 1 ==>
      |matrixS[i]| == n && matrixS[i + 1] == AddRow(matrixS[i], matrixA[i])
    ensures forall i :: 0 <= i < firstContestedSeat ==> matrixS[i] == ColumnSums(matrixA[..i], n)
  {
    matrixS := [Zeros(n)];
    assert matrixA[..0] == [];
    for i := 1 to firstContestedSeat
      invariant |matrixS| == i
      invariant matrixS[0] == Zeros(n)
      invariant forall j {:trigger matrixA[j]} :: 0 <= j < i - 1 ==>
        |matrixS[j]| == n && matrixS[j + 1] == AddRow(matrixS[j], matrixA[j])
      invariant forall j :: 0 <= j < i ==> matrixS[j] == ColumnSums(matrixA[..j], n)
    {
      var sEntry := matrixS[i - 1];
      var aEntry := matrixA[i - 1];
      for p := 0 to n
        invariant |sEntry| == n
        invariant forall q :: 0 <= q < p ==> sEntry[q] == matrixS[i - 1][q] + aEntry[q]
        invariant forall q :: p <= q < n ==> sEntry[q] == matrixS[i - 1][q]
      {
        sEntry := sEntry[p := sEntry[p] + aEntry[p]];
      }
      assert matrixA[..i][..i - 1] == matrixA[..i - 1];
      assert sEntry == AddRow(matrixS[i - 1], aEntry);
      assert sEntry == ColumnSums(matrixA[..i], n);
      matrixS := matrixS + [sEntry];
    }
  }

  /**
   * Entering round `i`, `matrix_S[i]` holds exactly the seats each party
   * won in the baseline's first `i` rounds, and they add up to `i`.
   */
  lemma HeldSeats(votes: seq<nat>, r: nat, i: nat)
    requires |votes| > 0 && i <= r
    ensures Rectangular(MatrixA(votes, r), |votes|)
    ensures ColumnSums(MatrixA(votes, r)[..i], |votes|) == WinsAfter(votes, i)
    ensures Sum(ColumnSums(MatrixA(votes, r)[..i], |votes|)) == i
  {
    MatrixAOneHot(votes, r);
    MatrixAPrefix(votes, r, i);
    WinsAreColumnSums(votes, i);
    TotalWins(votes, i);
  }

  /**
   * The ordering the optimizer keeps for a pre-decided round `i`: with the
   * seats `s` held entering it, the round's winner `p` satisfies
   * `(1/(1+s[p])) * votes[p] >= (1/(1+s[q])) * votes[q]` for every party `q`.
   */
  ghost predicate KeepsRoundOrder(votes: seq<nat>, s: seq<nat>, p: nat)
    requires |s| == |votes| && p < |votes|
  {
    forall q :: 0 <= q < |votes| ==> Scaled(votes[p], s[p]) >= Scaled(votes[q], s[q])
  }

  /** The constraint's left and right sides: `(1/(1 + s)) * votes`. */
  function Scaled(votes: nat, s: nat): real {
    (1.0 / (1 + s) as real) * votes as real
  }

  /** The winner of a round satisfies that round's ordering. */
  lemma WinnerKeepsRoundOrder(votes: seq<nat>, s: seq<nat>)
    requires |s| == |votes| > 0
    ensures Winner(votes, s) < |votes|
    ensures KeepsRoundOrder(votes, s, Winner(votes, s))
  {
    var p := Winner(votes, s);
    LeaderIsFirstMaximum(votes, s, |votes|);
    forall q | 0 <= q < |votes|
      ensures Scaled(votes[p], s[p]) >= Scaled(votes[q], s[q])
    {
      assert Quotient(votes[q], s[q]) <= Quotient(votes[p], s[p]);
      ScaledOrder(votes[p], s[p], votes[q], s[q]);
    }
  }

  /** The baseline winner of every round satisfies that round's ordering. */
  lemma BaselineKeepsRoundOrder(votes: seq<nat>, i: nat)
    requires |votes| > 0
    ensures RoundWinner(votes, i) < |votes|
    ensures KeepsRoundOrder(votes, WinsAfter(votes, i), RoundWinner(votes, i))
  {
    WinnerKeepsRoundOrder(votes, WinsAfter(votes, i));
  }

  /** The constraint's form `(1/(1+s)) * v` orders parties as their quotients do. */
  lemma ScaledOrder(vp: nat, sp: nat, vq: nat, sq: nat)
    requires Quotient(vq, sq) <= Quotient(vp, sp)
    ensures Scaled(vp, sp) >= Scaled(vq, sq)
  {
    assert Scaled(vp, sp) == Quotient(vp, sp);
    assert Scaled(vq, sq) == Quotient(vq, sq);
  }
}

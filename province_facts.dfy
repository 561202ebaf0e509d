/**
 * What a built district guarantees to the constraints seats.py emits for
 * it: the pre-decided rounds' ordering, the seat budget, the indicator
 * ranges, and the wing totals.
 */
module ProvinceFacts {
  import opened Wrappers
  import opened Seqs
  import opened Ballot
  import opened DHondt
  import opened Tally
  import opened Provinces

  /** The rounds still to be decided, `range(first_contested_seat, num_seats + 1)`. */
  function ContestedRounds(prov: Province): seq<int> {
    Range(prov.firstContestedSeat, prov.numSeats + 1)
  }

  /** The fields of a built district that the lemmas below rely on. */
  lemma Built(name: string, n: nat, ps: seq<PartyEntry>, fcs: int, prov: Province)
    requires ProvinceOf(name, n, ps, fcs) == Ok(prov)
    ensures |ps| > 0 || n == 0
    ensures 1 <= fcs <= n + 1 && prov.firstContestedSeat == fcs && prov.numSeats == n
    ensures prov.matrixA == MatrixA(Votes(ps), n) && Rectangular(prov.matrixA, |ps|)
    ensures prov.matrixS == PrefixTable(prov.matrixA, |ps|, fcs)
    ensures prov.lastlineS == prov.matrixS[fcs - 1]
    ensures prov.totalVotes == TotalVotes(ps)
    ensures prov.partiesDhont == StandingsAfter(ps, n)
    ensures prov.wingsNames == Keys(PartyShares(ps)) && prov.wingsData == WingsDataOf(PartyShares(ps))
    ensures prov.wingsDhont == WingWinsOf(WinShares(Names(ps), prov.partiesDhont))
  {
    MatrixAOneHot(Votes(ps), n);
  }

  /**
   * `lastline_S` holds the seats each party won in the baseline before the
   * first contested seat, and they add up to `first_contested_seat - 1`.
   */
  lemma HeldSeatsBeforeContest(name: string, n: nat, ps: seq<PartyEntry>, fcs: int, prov: Province)
    requires ProvinceOf(name, n, ps, fcs) == Ok(prov)
    ensures |prov.lastlineS| == |ps|
    ensures prov.lastlineS == WinsAfter(Votes(ps), prov.firstContestedSeat - 1)
    ensures Sum(prov.lastlineS) == prov.firstContestedSeat - 1
  {
    LastLineColumns(name, n, ps, fcs, prov);
    if |ps| > 0 {
      HeldSeats(Votes(ps), n, fcs - 1);
    } else {
      assert prov.lastlineS == [] == WinsAfter(Votes(ps), 0);
    }
  }

  /** `lastline_S` sums the first `first_contested_seat - 1` rows of `matrix_A`. */
  lemma LastLineColumns(name: string, n: nat, ps: seq<PartyEntry>, fcs: int, prov: Province)
    requires ProvinceOf(name, n, ps, fcs) == Ok(prov)
    ensures |ps| > 0 || n == 0
    ensures 1 <= fcs <= n + 1 && prov.firstContestedSeat == fcs
    ensures Rectangular(MatrixA(Votes(ps), n), |ps|)
    ensures prov.lastlineS == ColumnSums(MatrixA(Votes(ps), n)[..fcs - 1], |ps|)
  {
    MatrixAOneHot(Votes(ps), n);
  }

  /** A district built from a dict of parties is what its `Party` objects expect. */
  lemma BuiltIsConsistent(name: string, n: nat, ps: seq<PartyEntry>, fcs: int, prov: Province)
    requires ProvinceOf(name, n, ps, fcs) == Ok(prov) && DistinctNames(ps)
    ensures Consistent(prov)
  {
    HeldSeatsBeforeContest(name, n, ps, fcs, prov);
    WingsConsistent(name, n, ps, fcs, prov);
  }

  /** The wing half of `Consistent`: `wings_names` is the key list of `wings_data` and `wings_dhont`. */
  lemma WingsConsistent(name: string, n: nat, ps: seq<PartyEntry>, fcs: int, prov: Province)
    requires ProvinceOf(name, n, ps, fcs) == Ok(prov)
    ensures Distinct(prov.wingsNames)
    ensures forall w :: w in prov.wingsNames <==> w in prov.wingsData
    ensures forall w :: w in prov.wingsNames ==> w in prov.wingsDhont
  {
    WingsNames(name, n, ps, fcs, prov, "");
    forall w
      ensures w in prov.wingsNames <==> w in prov.wingsData
      ensures w in prov.wingsNames ==> w in prov.wingsDhont
    {
      WingsNames(name, n, ps, fcs, prov, w);
    }
  }

  /**
   * The seat budget: one seat per contested round (seats.py:774-775) plus
   * the seats already held (seats.py:801) is exactly `num_seats`.
   */
  lemma SeatBudget(name: string, n: nat, ps: seq<PartyEntry>, fcs: int, prov: Province)
    requires ProvinceOf(name, n, ps, fcs) == Ok(prov)
    ensures |ContestedRounds(prov)| + Sum(prov.lastlineS) == prov.numSeats
  {
    HeldSeatsBeforeContest(name, n, ps, fcs, prov);
  }

  /**
   * Every pre-decided round `i` (seats.py:673-679): the party `p` that won
   * it in the baseline satisfies
   * `(1/(1 + S[i][p])) * votes(p) >= (1/(1 + S[i][q])) * votes(q)` for all `q`.
   */
  lemma PreDecidedOrder(name: string, n: nat, ps: seq<PartyEntry>, fcs: int, prov: Province, i: nat, p: nat)
    requires ProvinceOf(name, n, ps, fcs) == Ok(prov)
    requires i < prov.firstContestedSeat - 1 && p < |ps|
    requires prov.matrixA[i][p] == 1
    ensures |prov.matrixS[i]| == |ps|
    ensures KeepsRoundOrder(Votes(ps), prov.matrixS[i], p)
  {
    Built(name, n, ps, fcs, prov);
    var votes := Votes(ps);
    HeldSeats(votes, n, i);
    MatrixAOneHot(votes, n);
    BaselineKeepsRoundOrder(votes, i);
    assert p == RoundWinner(votes, i);
  }

  /**
   * The range `m in [sij, k)` of `seats_before_k_indicators` is never empty
   * for a generated round `k > first_contested_seat`: a party holds at most
   * `first_contested_seat - 1` seats before the contest.
   */
  lemma IndicatorRangeNonEmpty(name: string, n: nat, ps: seq<PartyEntry>, fcs: int, prov: Province, p: nat, k: int)
    requires ProvinceOf(name, n, ps, fcs) == Ok(prov)
    requires p < |ps| && prov.firstContestedSeat + 1 <= k <= prov.numSeats
    ensures p < |prov.lastlineS| && prov.lastlineS[p] < k
    ensures |Range(prov.lastlineS[p], k)| > 0
  {
    HeldSeatsBeforeContest(name, n, ps, fcs, prov);
    EntryBelowSum(prov.lastlineS, p);
  }

  /** `wings_names` lists each wing once, and exactly the wings of the parties. */
  lemma WingsNames(name: string, n: nat, ps: seq<PartyEntry>, fcs: int, prov: Province, w: string)
    requires ProvinceOf(name, n, ps, fcs) == Ok(prov)
    ensures Distinct(prov.wingsNames)
    ensures w in prov.wingsNames <==> exists i :: 0 <= i < |ps| && ps[i].wing == w
    ensures w in prov.wingsData <==> w in prov.wingsNames
    ensures w in prov.wingsDhont <==> w in prov.wingsNames
  {
    Built(name, n, ps, fcs, prov);
    KeysDistinct(PartyShares(ps));
    KeyMembership(PartyShares(ps), w);
    SharesAgree(ps, n);
  }

  /**
   * Each party is listed in exactly one wing's `parties`: its own
   * (seats.py:357-365; party names are the keys of `parties_data`).
   */
  lemma PartyInOneWing(name: string, n: nat, ps: seq<PartyEntry>, fcs: int, prov: Province, i: nat, w: string)
    requires ProvinceOf(name, n, ps, fcs) == Ok(prov)
    requires DistinctNames(ps) && i < |ps| && w in prov.wingsData
    ensures ps[i].name in prov.wingsData[w].parties <==> w == ps[i].wing
  {
    assert prov.wingsData == WingsDataOf(PartyShares(ps));
    PartyInOneWingOf(ps, i, w);
  }

  /** The same, of the wing walk over the parties themselves. */
  lemma PartyInOneWingOf(ps: seq<PartyEntry>, i: nat, w: string)
    requires DistinctNames(ps) && i < |ps| && w in WingsDataOf(PartyShares(ps))
    ensures ps[i].name in WingsDataOf(PartyShares(ps))[w].parties <==> w == ps[i].wing
  {
    var cs := PartyShares(ps);
    LabelMembership(cs, w, ps[i].name);
    if ps[i].name in WingsDataOf(cs)[w].parties {
      var j :| 0 <= j < |cs| && cs[j].key == w && cs[j].item == ps[i].name;
      assert Names(ps)[j] == Names(ps)[i];
    }
  }

  /** The wings' `votes` add up to the district's `total_votes` (seats.py:355-365). */
  lemma WingVotesTotal(name: string, n: nat, ps: seq<PartyEntry>, fcs: int, prov: Province)
    requires ProvinceOf(name, n, ps, fcs) == Ok(prov)
    ensures forall w :: w in prov.wingsNames ==> w in prov.wingsData
    ensures Sum(WingVotes(prov)) == prov.totalVotes
  {
    var cs := PartyShares(ps);
    assert prov.wingsNames == Keys(cs) && prov.wingsData == WingsDataOf(cs);
    assert prov.totalVotes == TotalVotes(ps);
    PartySharesTotal(ps);
    assert WingVotes(prov) == Totals(Keys(cs), cs, VotesOf);
  }

  /** The wings' `votes`, in `wings_names` order. */
  function WingVotes(prov: Province): (r: seq<nat>)
    requires forall w :: w in prov.wingsNames ==> w in prov.wingsData
    ensures |r| == |prov.wingsNames|
    ensures forall j :: 0 <= j < |r| ==> r[j] == prov.wingsData[prov.wingsNames[j]].votes
  {
    seq(|prov.wingsNames|, j requires 0 <= j < |prov.wingsNames| => prov.wingsData[prov.wingsNames[j]].votes)
  }

  /** The wings' baseline `wins`, in `wings_names` order. */
  function WingWins(prov: Province): (r: seq<nat>)
    requires forall w :: w in prov.wingsNames ==> w in prov.wingsDhont
    ensures |r| == |prov.wingsNames|
    ensures forall j :: 0 <= j < |r| ==> r[j] == prov.wingsDhont[prov.wingsNames[j]]
  {
    seq(|prov.wingsNames|, j requires 0 <= j < |prov.wingsNames| => prov.wingsDhont[prov.wingsNames[j]])
  }

  /** Grouping the parties' votes by wing keeps their sum. */
  lemma PartySharesTotal(ps: seq<PartyEntry>)
    ensures var cs := PartyShares(ps);
      Sum(Totals(Keys(cs), cs, VotesOf)) == TotalVotes(ps)
  {
    var cs := PartyShares(ps);
    GroupTotals(cs, VotesOf);
    OverallIsSum(cs, VotesOf, Votes(ps));
  }

  /** `wings_names` and `wings_dhont` as the walk over the parties' baseline wins leaves them. */
  lemma WingWinsFields(name: string, n: nat, ps: seq<PartyEntry>, fcs: int, prov: Province)
    requires ProvinceOf(name, n, ps, fcs) == Ok(prov)
    ensures |ps| > 0 || n == 0
    ensures prov.numSeats == n
    ensures var cs := WinShares(Names(ps), StandingsAfter(ps, n));
      prov.wingsNames == Keys(cs) && prov.wingsDhont == WingWinsOf(cs)
  {
    SharesAgree(ps, n);
  }

  /** Grouping the baseline wins by wing keeps their sum, `num_seats`. */
  lemma WinSharesTotal(ps: seq<PartyEntry>, n: nat)
    requires |ps| > 0 || n == 0
    ensures var cs := WinShares(Names(ps), StandingsAfter(ps, n));
      Sum(Totals(Keys(cs), cs, SeatsOf)) == n
  {
    var cs := WinShares(Names(ps), StandingsAfter(ps, n));
    GroupTotals(cs, SeatsOf);
    OverallIsSum(cs, SeatsOf, WinsAfter(Votes(ps), n));
    TotalWins(Votes(ps), n);
  }

  /**
   * The wings' baseline `wins` (`wings_dhont`, seats.py:415-419) add up to
   * `num_seats`, as the parties' wins do.
   */
  lemma WingWinsTotal(name: string, n: nat, ps: seq<PartyEntry>, fcs: int, prov: Province)
    requires ProvinceOf(name, n, ps, fcs) == Ok(prov)
    ensures forall w :: w in prov.wingsNames ==> w in prov.wingsDhont
    ensures Sum(WingWins(prov)) == prov.numSeats
  {
    WingWinsFields(name, n, ps, fcs, prov);
    WinSharesTotal(ps, n);
    var cs := WinShares(Names(ps), StandingsAfter(ps, n));
    assert WingWins(prov) == Totals(Keys(cs), cs, SeatsOf);
  }

  /**
   * `lastline_S = matrix_S[first_contested_seat - 1]` as Python evaluates
   * it: a negative index counts from the end, so 0 selects the last row.
   */
  function LastLineAsWritten(matrixS: seq<seq<nat>>, fcs: int): (r: Option<seq<nat>>)
    ensures r.Some? <==> -|matrixS| <= fcs - 1 < |matrixS|
  {
    var j := fcs - 1;
    if 0 <= j < |matrixS| then Some(matrixS[j])
    else if -|matrixS| <= j < 0 then Some(matrixS[|matrixS| + j])
    else None
  }

  /**
   * `build_S` as written for any `first_contested_seat`: the zero row, then
   * one row per `i` in `range(1, first_contested_seat)`.
   */
  function PrefixTableAsWritten(matrixA: seq<seq<nat>>, n: nat, fcs: int): (s: seq<seq<nat>>)
    requires Rectangular(matrixA, n) && fcs <= |matrixA| + 1
    ensures |s| == if fcs <= 1 then 1 else fcs
  {
    if fcs <= 1 then [Zeros(n)] else PrefixTable(matrixA, n, fcs)
  }

  /**
   * With `first_contested_seat = 0` the code raises nothing: `lastline_S`
   * is the zero row, and the contested rounds `range(0, num_seats + 1)`
   * are one more than the district's seats.
   */
  lemma ZeroFirstSeatOverAssigns(ps: seq<PartyEntry>, n: nat)
    requires |ps| > 0
    ensures Rectangular(MatrixA(Votes(ps), n), |ps|)
    ensures var line := LastLineAsWritten(PrefixTableAsWritten(MatrixA(Votes(ps), n), |ps|, 0), 0);
      && line == Some(Zeros(|ps|))
      && |Range(0, n + 1)| + Sum(line.value) == n + 1
  {
    MatrixAOneHot(Votes(ps), n);
    SumZeros(|ps|);
  }

  /**
   * The extra contested round makes the district's constraints unsatisfiable.
   * With `fcs = 0` round 0 is contested, so exactly one party is assigned it
   * (seats.py:774-775). That seat plus `sij` is then the party's
   * `seats_before_k_var(k)` for `k = 1` when round 1 exists (seats.py:779-780),
   * bounded above by `k - 1` (party.py:95), or its `seats_var()` when there
   * are no seats (seats.py:801), bounded above by `num_seats`, here 0
   * (party.py:124). `seat0` is any assignment of round 0, one count per party
   * adding up to 1: the party holding the seat exceeds that bound, so the
   * solver finds the district's model infeasible.
   */
  lemma ZeroFirstSeatInfeasible(ps: seq<PartyEntry>, n: nat, seat0: seq<nat>) returns (p: nat)
    requires |ps| > 0 && |seat0| == |ps| && Sum(seat0) == 1
    ensures Rectangular(MatrixA(Votes(ps), n), |ps|)
    ensures var fcs, k := 0, 1;
      var line := LastLineAsWritten(PrefixTableAsWritten(MatrixA(Votes(ps), n), |ps|, fcs), fcs);
      && fcs in Range(fcs, n + 1)
      && (n >= 1 ==> k in Range(fcs + 1, n + 1))
      && line.Some? && p < |line.value| && p < |seat0|
      && seat0[p] + line.value[p] > (if n >= 1 then k - 1 else n)
  {
    ZeroFirstSeatOverAssigns(ps, n);
    p := PositiveEntry(seat0);
  }
}

/**
 * One electoral district (`Province` in seats.py): the quantities its
 * constructor derives from `parties_data`, `num_seats` and
 * `first_contested_seat` before any solver variable exists — total votes,
 * `wings_data`, the D'Hondt baseline, `wings_dhont`, `matrix_S` and
 * `lastline_S`, each assigned once. The lists `parties` and `wings`, which
 * `create_parties`/`create_wings` fill later, are kept per district in
 * `Nation.SeatsModel` instead.
 */
module Provinces {
  import opened Wrappers
  import opened Seqs
  import opened Ballot
  import opened DHondt
  import opened Tally

  /** An entry of `wings_data`: the wing's parties, in input order, and their votes. */
  datatype WingEntry = WingEntry(parties: seq<string>, votes: nat)

  /** Party `i` as a contribution to its wing, for `wings_data`. */
  function PartyShares(ps: seq<PartyEntry>): (cs: seq<Contribution>)
    ensures |cs| == |ps|
    ensures forall i :: 0 <= i < |ps| ==> cs[i] == Contribution(ps[i].wing, ps[i].name, ps[i].votes, 0)
  {
    seq(|ps|, i requires 0 <= i < |ps| => Contribution(ps[i].wing, ps[i].name, ps[i].votes, 0))
  }

  /** Party `names[i]` as a contribution of its baseline wins to its wing, for `wings_dhont`. */
  function WinShares(names: seq<string>, st: seq<Standing>): (cs: seq<Contribution>)
    requires |names| == |st|
    ensures |cs| == |st|
    ensures forall i :: 0 <= i < |st| ==>
      cs[i] == Contribution(st[i].wing, names[i], st[i].originalVotes, st[i].wins)
  {
    seq(|st|, i requires 0 <= i < |st| =>
      Contribution(st[i].wing, names[i], st[i].originalVotes, st[i].wins))
  }

  /** `wings_data` as the walk over `cs` leaves it. */
  function WingsDataOf(cs: seq<Contribution>): map<string, WingEntry> {
    map w | w in Keys(cs) :: WingEntry(Labels(cs, w), Total(cs, w, VotesOf))
  }

  /** `wings_dhont` (the `"wins"` of each wing) as the walk over `cs` leaves it. */
  function WingWinsOf(cs: seq<Contribution>): map<string, nat> {
    map w | w in Keys(cs) :: Total(cs, w, SeatsOf)
  }

  /** Where `wings_data` one party further differs from `wings_data`: at most at the party's wing. */
  lemma WingsDataStepAt(cs: seq<Contribution>, c: Contribution, w: string)
    requires w in WingsDataOf(cs + [c])
    ensures w != c.key ==> w in WingsDataOf(cs) && WingsDataOf(cs + [c])[w] == WingsDataOf(cs)[w]
    ensures w == c.key && c.key in WingsDataOf(cs) ==>
      WingsDataOf(cs + [c])[w] == WingEntry(WingsDataOf(cs)[w].parties + [c.item], WingsDataOf(cs)[w].votes + c.votes)
    ensures w == c.key && c.key !in WingsDataOf(cs) ==> WingsDataOf(cs + [c])[w] == WingEntry([c.item], c.votes)
  {
    WalkStep(cs, c, w);
    if c.key !in Keys(cs) {
      Unseen(cs, c.key);
    }
  }

  /** `wings_data` one party further. */
  lemma WingsDataStep(cs: seq<Contribution>, c: Contribution)
    ensures WingsDataOf(cs + [c]) ==
      if c.key in WingsDataOf(cs) then
        WingsDataOf(cs)[c.key := WingEntry(WingsDataOf(cs)[c.key].parties + [c.item],
                                           WingsDataOf(cs)[c.key].votes + c.votes)]
      else WingsDataOf(cs)[c.key := WingEntry([c.item], c.votes)]
  {
    var before := WingsDataOf(cs);
    var after := WingsDataOf(cs + [c]);
    var expected := if c.key in before then
        before[c.key := WingEntry(before[c.key].parties + [c.item], before[c.key].votes + c.votes)]
      else before[c.key := WingEntry([c.item], c.votes)];
    WalkStep(cs, c, c.key);
    assert after.Keys == expected.Keys;
    forall w | w in after
      ensures after[w] == expected[w]
    {
      WingsDataStepAt(cs, c, w);
    }
  }

  /**
   * The loop building `wings_data` (seats.py:357-365): a wing seen for the
   * first time gets `{parties: [p], votes: votes(p)}`, later parties of the
   * wing are appended and their votes added. `wingsNames` is the dict's
   * key order, the list `wings_names` of seats.py:368.
   */
  method BuildWingsData(ps: seq<PartyEntry>)
    returns (wingsNames: seq<string>, wingsData: map<string, WingEntry>)
    ensures wingsNames == Keys(PartyShares(ps))
    ensures wingsData == WingsDataOf(PartyShares(ps))
  {
    ghost var cs := PartyShares(ps);
    wingsNames := [];
    wingsData := map[];
    for i := 0 to |ps|
      invariant wingsNames == Keys(cs[..i])
      invariant wingsData == WingsDataOf(cs[..i])
    {
      assert cs[..i + 1] == cs[..i] + [cs[i]];
      WalkStep(cs[..i], cs[i], cs[i].key);
      WingsDataStep(cs[..i], cs[i]);
      var wing := ps[i].wing;
      if wing !in wingsData {
        wingsData := wingsData[wing := WingEntry([ps[i].name], ps[i].votes)];
        wingsNames := wingsNames + [wing];
      } else {
        wingsData := wingsData[wing := WingEntry(wingsData[wing].parties + [ps[i].name],
                                                 wingsData[wing].votes + ps[i].votes)];
      }
    }
    assert cs[..|ps|] == cs;
  }

  /**
   * `initial_distribution_wings` (seats.py:415-419): every wing starts at
   * zero wins and each party's baseline wins are added to its wing. A party
   * whose wing is not a key would raise `KeyError`; the caller passes the
   * keys of `wings_data`, which hold every party's wing.
   */
  method InitialDistributionWings(partiesNames: seq<string>, wingsNames: seq<string>, partiesDhont: seq<Standing>)
    returns (wingsDhont: map<string, nat>)
    requires |partiesNames| == |partiesDhont|
    requires forall i :: 0 <= i < |partiesDhont| ==> partiesDhont[i].wing in wingsNames
    ensures wingsDhont.Keys == set w | w in wingsNames
    ensures forall w :: w in wingsDhont ==>
      wingsDhont[w] == Total(WinShares(partiesNames, partiesDhont), w, SeatsOf)
  {
    ghost var cs := WinShares(partiesNames, partiesDhont);
    wingsDhont := map w | w in wingsNames :: 0;
    for i := 0 to |partiesDhont|
      invariant wingsDhont.Keys == set w | w in wingsNames
      invariant forall w :: w in wingsDhont ==> wingsDhont[w] == Total(cs[..i], w, SeatsOf)
    {
      assert cs[..i + 1] == cs[..i] + [cs[i]];
      forall w | w in wingsDhont
        ensures Total(cs[..i + 1], w, SeatsOf) == Total(cs[..i], w, SeatsOf) + (if cs[i].key == w then cs[i].seats else 0)
      {
        WalkStep(cs[..i], cs[i], w);
      }
      var wing := partiesDhont[i].wing;
      wingsDhont := wingsDhont[wing := wingsDhont[wing] + partiesDhont[i].wins];
    }
    assert cs[..|partiesDhont|] == cs;
  }

  /**
   * Why a district is not built: the Python code raises `IndexError` in
   * these cases, except at `first_contested_seat = 0`, which the code builds
   * and the model rejects as the corrected behaviour.
   */
  datatype ProvinceError =
    | NoParties                // `parties_names[0]` with seats to assign and no party
    | ContestedSeatOutOfRange  // `matrix_A[i - 1]` or `matrix_S[first_contested_seat - 1]` out of range, or 0

  /** A built district: every field the constructor assigns before variables are created. */
  datatype Province = Province(
    name: string,
    numSeats: nat,
    partiesData: seq<PartyEntry>,
    firstContestedSeat: nat,
    totalVotes: nat,
    partiesNames: seq<string>,
    wingsNames: seq<string>,
    wingsData: map<string, WingEntry>,
    partiesDhont: seq<Standing>,
    matrixA: seq<seq<nat>>,
    wingsDhont: map<string, nat>,
    matrixS: seq<seq<nat>>,
    lastlineS: seq<nat>)

  /**
   * What a `Party` or a `Wing` reads from its district: the party names are
   * the keys of `parties_data`, `lastline_S` and `parties_dhont` have an
   * entry per party, and the wing names are the keys of `wings_data`, each
   * once, each with an entry in `wings_dhont`.
   */
  ghost predicate Consistent(prov: Province) {
    && DistinctNames(prov.partiesData)
    && prov.partiesNames == Names(prov.partiesData)
    && |prov.lastlineS| == |prov.partiesData|
    && |prov.partiesDhont| == |prov.partiesData|
    && Distinct(prov.wingsNames)
    && (forall w :: w in prov.wingsNames <==> w in prov.wingsData)
    && (forall w :: w in prov.wingsNames ==> w in prov.wingsDhont)
  }

  /** `matrix_S`: row `i` holds the column sums of the first `i` rows of `matrix_A`. */
  function PrefixTable(matrixA: seq<seq<nat>>, n: nat, rows: nat): (s: seq<seq<nat>>)
    requires Rectangular(matrixA, n) && rows <= |matrixA| + 1
    ensures |s| == rows
  {
    seq(rows, i requires 0 <= i < rows => ColumnSums(matrixA[..i], n))
  }

  /**
   * The district the constructor builds, or the error it raises. Only
   * `first_contested_seat` between 1 and `num_seats + 1` is accepted; the
   * Python code also accepts 0, whose model is infeasible (see
   * `ZeroFirstSeatInfeasible`).
   */
  function ProvinceOf(name: string, numSeats: nat, ps: seq<PartyEntry>, firstContestedSeat: int)
    : Result<Province, ProvinceError>
  {
    if |ps| == 0 && numSeats > 0 then Err(NoParties)
    else if firstContestedSeat < 1 || firstContestedSeat > numSeats + 1 then Err(ContestedSeatOutOfRange)
    else
      var votes := Votes(ps);
      var st := StandingsAfter(ps, numSeats);
      var a := MatrixA(votes, numSeats);
      MatrixAOneHot(votes, numSeats);
      var s := PrefixTable(a, |ps|, firstContestedSeat);
      Ok(Province(name, numSeats, ps, firstContestedSeat, TotalVotes(ps), Names(ps),
                  Keys(PartyShares(ps)), WingsDataOf(PartyShares(ps)), st, a,
                  WingWinsOf(WinShares(Names(ps), st)), s, s[firstContestedSeat - 1]))
  }

  /** The per-party and the per-wing walks list the same wings and parties. */
  lemma SharesAgree(ps: seq<PartyEntry>, r: nat)
    requires |ps| > 0 || r == 0
    ensures Keys(WinShares(Names(ps), StandingsAfter(ps, r))) == Keys(PartyShares(ps))
    ensures forall w :: Labels(WinShares(Names(ps), StandingsAfter(ps, r)), w) == Labels(PartyShares(ps), w)
  {
    SameWalk(WinShares(Names(ps), StandingsAfter(ps, r)), PartyShares(ps));
  }

  /**
   * `Province.__init__` (seats.py:335-386) up to `lastline_S`: the record it
   * builds is `ProvinceOf`'s, and it fails exactly where `ProvinceOf` does.
   */
  method NewProvince(name: string, numSeats: nat, ps: seq<PartyEntry>, firstContestedSeat: int)
    returns (r: Result<Province, ProvinceError>)
    ensures r == ProvinceOf(name, numSeats, ps, firstContestedSeat)
  {
    var totalVotes := TotalVotes(ps);
    var wingsNames, wingsData := BuildWingsData(ps);
    var partiesNames := Names(ps);
    if |ps| == 0 && numSeats > 0 {
      return Err(NoParties);
    }
    var partiesDhont, matrixA := InitialDistribution(ps, numSeats);
    SharesAgree(ps, numSeats);
    forall i | 0 <= i < |partiesDhont|
      ensures partiesDhont[i].wing in wingsNames
    {
      KeyMembership(PartyShares(ps), ps[i].wing);
    }
    var wingsDhont := InitialDistributionWings(partiesNames, wingsNames, partiesDhont);
    if firstContestedSeat < 1 || firstContestedSeat > numSeats + 1 {
      return Err(ContestedSeatOutOfRange);
    }
    MatrixAOneHot(Votes(ps), numSeats);
    var matrixS := BuildS(matrixA, |ps|, firstContestedSeat);
    assert matrixS == PrefixTable(matrixA, |ps|, firstContestedSeat);
    assert wingsDhont == WingWinsOf(WinShares(partiesNames, partiesDhont));
    r := Ok(Province(name, numSeats, ps, firstContestedSeat, totalVotes, partiesNames,
                     wingsNames, wingsData, partiesDhont, matrixA, wingsDhont,
                     matrixS, matrixS[firstContestedSeat - 1]));
  }
}

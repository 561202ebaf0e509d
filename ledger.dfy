/**
 * The national dicts that the first step of `create_global_variables`
 * fills (seats.py:515-534). They are stated as walks (module Tally) over
 * every district's parties and then its wings, in `province_object_list`
 * order. Beside them is the same figure defined district by district: a
 * party's or a wing's votes and baseline seats summed over the districts
 * where it stands, and those districts' names.
 */
module Ledger {
  import opened Seqs
  import opened Ballot
  import opened DHondt
  import opened Tally
  import opened Provinces
  import opened ProvinceFacts
  import opened ModelSettings

  /** An entry of `all_parties` or `all_wings`: `{"votes", "seats", "provinces"}`. */
  datatype NationalEntry = NationalEntry(votes: nat, seats: nat, provinces: seq<string>)

  /** The dict the walk over `cs` leaves. */
  function Entries(cs: seq<Contribution>): map<string, NationalEntry> {
    map k | k in Keys(cs) :: NationalEntry(Total(cs, k, VotesOf), Total(cs, k, SeatsOf), Labels(cs, k))
  }

  /** The entry of `c.key` once `c` is credited: a new entry, or the old one with `c` added. */
  function Credit(entries: map<string, NationalEntry>, c: Contribution): NationalEntry {
    if c.key in entries then
      var e := entries[c.key];
      NationalEntry(e.votes + c.votes, e.seats + c.seats, e.provinces + [c.item])
    else NationalEntry(c.votes, c.seats, [c.item])
  }

  /** One contribution further, only the contribution's key changes, as `Credit` says. */
  lemma EntriesStep(cs: seq<Contribution>, c: Contribution)
    ensures c.key in Entries(cs) <==> c.key in Keys(cs)
    ensures Keys(cs + [c]) == if c.key in Entries(cs) then Keys(cs) else Keys(cs) + [c.key]
    ensures Overall(cs + [c], VotesOf) == Overall(cs, VotesOf) + c.votes
    ensures Overall(cs + [c], SeatsOf) == Overall(cs, SeatsOf) + c.seats
    ensures Entries(cs + [c]) == Entries(cs)[c.key := Credit(Entries(cs), c)]
  {
    WalkStep(cs, c, c.key);
    assert (cs + [c])[..|cs|] == cs;
    var after := Entries(cs)[c.key := Credit(Entries(cs), c)];
    forall k | k in Keys(cs + [c])
      ensures Entries(cs + [c])[k] == after[k]
    {
      EntryStep(cs, c, k);
    }
    assert Entries(cs + [c]).Keys == after.Keys;
  }

  /** The entry of one key, one contribution further. */
  lemma EntryStep(cs: seq<Contribution>, c: Contribution, k: string)
    requires k in Keys(cs + [c])
    ensures Entries(cs + [c])[k] == Entries(cs)[c.key := Credit(Entries(cs), c)][k]
  {
    WalkStep(cs, c, k);
    if k != c.key {
      assert k in Keys(cs);
    } else if c.key !in Keys(cs) {
      Unseen(cs, c.key);
    }
  }

  /** One figure of an entry. */
  function Figure(e: NationalEntry, m: Measure): nat {
    match m
    case VotesOf => e.votes
    case SeatsOf => e.seats
  }

  /** A figure of every entry, in key order. */
  function Column(order: seq<string>, entries: map<string, NationalEntry>, m: Measure): (col: seq<nat>)
    ensures |col| == |order|
  {
    seq(|order|, j requires 0 <= j < |order| => if order[j] in entries then Figure(entries[order[j]], m) else 0)
  }

  lemma ColumnIsTotals(cs: seq<Contribution>, m: Measure)
    ensures Column(Keys(cs), Entries(cs), m) == Totals(Keys(cs), cs, m)
  {
  }

  /** Every district of `provs` is as the rest of the model reads it. */
  ghost predicate AllConsistent(provs: seq<Province>) {
    forall k :: 0 <= k < |provs| ==> Consistent(provs[k])
  }

  /** Every district of `provs` is as the `Province` constructor built it. */
  ghost predicate AllBuilt(provs: seq<Province>) {
    forall k :: 0 <= k < |provs| ==> WellBuilt(provs[k]) && Consistent(provs[k])
  }

  /** `province_object_list` is a dict: no two districts share a name. */
  ghost predicate DistinctDistricts(provs: seq<Province>) {
    forall i, j :: 0 <= i < j < |provs| ==> provs[i].name != provs[j].name
  }

  /** District `prov`'s parties as step 1 walks them: name, votes and baseline wins. */
  function PartyItems(prov: Province): (cs: seq<Contribution>)
    requires Consistent(prov)
    ensures |cs| == |prov.partiesData|
    ensures forall i :: 0 <= i < |cs| ==>
      cs[i] == Contribution(prov.partiesData[i].name, prov.name, prov.partiesData[i].votes, prov.partiesDhont[i].wins)
  {
    seq(|prov.partiesData|, i requires 0 <= i < |prov.partiesData| =>
      Contribution(prov.partiesData[i].name, prov.name, prov.partiesData[i].votes, prov.partiesDhont[i].wins))
  }

  /** District `prov`'s wings as step 1 walks them: name, votes and baseline wins. */
  function WingItems(prov: Province): (cs: seq<Contribution>)
    requires Consistent(prov)
    ensures |cs| == |prov.wingsNames|
    ensures forall j :: 0 <= j < |cs| ==>
      cs[j] == Contribution(prov.wingsNames[j], prov.name, prov.wingsData[prov.wingsNames[j]].votes,
                            prov.wingsDhont[prov.wingsNames[j]])
  {
    seq(|prov.wingsNames|, j requires 0 <= j < |prov.wingsNames| =>
      Contribution(prov.wingsNames[j], prov.name, prov.wingsData[prov.wingsNames[j]].votes,
                   prov.wingsDhont[prov.wingsNames[j]]))
  }

  /** Every party of every district, district by district. */
  function PartyLedger(provs: seq<Province>): seq<Contribution>
    requires AllConsistent(provs)
  {
    if provs == [] then []
    else PartyLedger(provs[..|provs| - 1]) + PartyItems(provs[|provs| - 1])
  }

  /** Every wing of every district, district by district. */
  function WingLedger(provs: seq<Province>): seq<Contribution>
    requires AllConsistent(provs)
  {
    if provs == [] then []
    else WingLedger(provs[..|provs| - 1]) + WingItems(provs[|provs| - 1])
  }

  /** The seats of all districts, `all_seats`. */
  function SeatTotal(provs: seq<Province>): nat {
    if provs == [] then 0 else SeatTotal(provs[..|provs| - 1]) + provs[|provs| - 1].numSeats
  }

  /** The `total_votes` of all districts. */
  function VoteTotal(provs: seq<Province>): nat {
    if provs == [] then 0 else VoteTotal(provs[..|provs| - 1]) + provs[|provs| - 1].totalVotes
  }

  /**
   * Party `q`'s national figures, district by district: its votes and its
   * baseline wins summed over the districts where it stands, and the names
   * of those districts, in order.
   */
  function PartyReference(provs: seq<Province>, q: string): (e: NationalEntry)
    requires AllConsistent(provs)
    ensures forall x :: x in e.provinces ==> exists k :: 0 <= k < |provs| && provs[k].name == x
  {
    if provs == [] then NationalEntry(0, 0, [])
    else
      var e := PartyReference(provs[..|provs| - 1], q);
      var prov := provs[|provs| - 1];
      if Listed(prov.partiesData, q) then
        var i := IndexOf(prov.partiesData, q);
        NationalEntry(e.votes + prov.partiesData[i].votes, e.seats + prov.partiesDhont[i].wins, e.provinces + [prov.name])
      else e
  }

  /** Wing `w`'s national figures, district by district, as `PartyReference`. */
  function WingReference(provs: seq<Province>, w: string): (e: NationalEntry)
    requires AllConsistent(provs)
    ensures forall x :: x in e.provinces ==> exists k :: 0 <= k < |provs| && provs[k].name == x
  {
    if provs == [] then NationalEntry(0, 0, [])
    else
      var e := WingReference(provs[..|provs| - 1], w);
      var prov := provs[|provs| - 1];
      if w in prov.wingsData then
        NationalEntry(e.votes + prov.wingsData[w].votes, e.seats + prov.wingsDhont[w], e.provinces + [prov.name])
      else e
  }

  /** A party gets a district's name exactly when it stands there. */
  lemma {:induction false} PartyStandsWhereListed(provs: seq<Province>, q: string)
    requires AllConsistent(provs)
    ensures PartyReference(provs, q).provinces != [] <==>
      exists k :: 0 <= k < |provs| && Listed(provs[k].partiesData, q)
  {
    if provs != [] {
      var init := provs[..|provs| - 1];
      PartyStandsWhereListed(init, q);
      assert forall k :: 0 <= k < |init| ==> init[k] == provs[k];
    }
  }

  /** A wing gets a district's name exactly when it exists there. */
  lemma {:induction false} WingStandsWhereListed(provs: seq<Province>, w: string)
    requires AllConsistent(provs)
    ensures WingReference(provs, w).provinces != [] <==>
      exists k :: 0 <= k < |provs| && w in provs[k].wingsData
  {
    if provs != [] {
      var init := provs[..|provs| - 1];
      WingStandsWhereListed(init, w);
      assert forall k :: 0 <= k < |init| ==> init[k] == provs[k];
    }
  }

  /** What one district's parties credit party `q`: its entry there, if it stands there. */
  lemma DistrictParties(prov: Province, q: string)
    requires Consistent(prov)
    ensures Labels(PartyItems(prov), q) == if Listed(prov.partiesData, q) then [prov.name] else []
    ensures Total(PartyItems(prov), q, VotesOf) ==
      if Listed(prov.partiesData, q) then prov.partiesData[IndexOf(prov.partiesData, q)].votes else 0
    ensures Total(PartyItems(prov), q, SeatsOf) ==
      if Listed(prov.partiesData, q) then prov.partiesDhont[IndexOf(prov.partiesData, q)].wins else 0
  {
    var cs := PartyItems(prov);
    if Listed(prov.partiesData, q) {
      var i := IndexOf(prov.partiesData, q);
      assert forall j :: 0 <= j < |cs| && j != i ==> Names(prov.partiesData)[j] != Names(prov.partiesData)[i];
      SingleItem(cs, q, i, VotesOf);
      SingleItem(cs, q, i, SeatsOf);
    } else {
      NoItem(cs, q, VotesOf);
      NoItem(cs, q, SeatsOf);
    }
  }

  /** What one district's wings credit wing `w`: its entry there, if it exists there. */
  lemma DistrictWings(prov: Province, w: string)
    requires Consistent(prov)
    ensures Labels(WingItems(prov), w) == if w in prov.wingsData then [prov.name] else []
    ensures Total(WingItems(prov), w, VotesOf) == if w in prov.wingsData then prov.wingsData[w].votes else 0
    ensures Total(WingItems(prov), w, SeatsOf) == if w in prov.wingsData then prov.wingsDhont[w] else 0
  {
    var cs := WingItems(prov);
    if w in prov.wingsData {
      var i :| 0 <= i < |prov.wingsNames| && prov.wingsNames[i] == w;
      SingleItem(cs, w, i, VotesOf);
      SingleItem(cs, w, i, SeatsOf);
    } else {
      NoItem(cs, w, VotesOf);
      NoItem(cs, w, SeatsOf);
    }
  }

  /** The walk credits party `q` exactly its district-by-district figures. */
  lemma {:induction false} PartyLedgerWalk(provs: seq<Province>, q: string)
    requires AllConsistent(provs)
    ensures Labels(PartyLedger(provs), q) == PartyReference(provs, q).provinces
    ensures Total(PartyLedger(provs), q, VotesOf) == PartyReference(provs, q).votes
    ensures Total(PartyLedger(provs), q, SeatsOf) == PartyReference(provs, q).seats
  {
    if provs != [] {
      var init := provs[..|provs| - 1];
      var prov := provs[|provs| - 1];
      PartyLedgerWalk(init, q);
      WalkAppend(PartyLedger(init), PartyItems(prov), q, VotesOf);
      WalkAppend(PartyLedger(init), PartyItems(prov), q, SeatsOf);
      DistrictParties(prov, q);
    }
  }

  /** The walk credits wing `w` exactly its district-by-district figures. */
  lemma {:induction false} WingLedgerWalk(provs: seq<Province>, w: string)
    requires AllConsistent(provs)
    ensures Labels(WingLedger(provs), w) == WingReference(provs, w).provinces
    ensures Total(WingLedger(provs), w, VotesOf) == WingReference(provs, w).votes
    ensures Total(WingLedger(provs), w, SeatsOf) == WingReference(provs, w).seats
  {
    if provs != [] {
      var init := provs[..|provs| - 1];
      var prov := provs[|provs| - 1];
      WingLedgerWalk(init, w);
      WalkAppend(WingLedger(init), WingItems(prov), w, VotesOf);
      WalkAppend(WingLedger(init), WingItems(prov), w, SeatsOf);
      DistrictWings(prov, w);
    }
  }

  /**
   * `all_parties` holds exactly the parties standing somewhere, and each
   * entry sums the party's votes and baseline wins over exactly the
   * districts listed in its `provinces`: those where it stands, in order.
   */
  lemma NationalParty(provs: seq<Province>, q: string)
    requires AllConsistent(provs)
    ensures q in Entries(PartyLedger(provs)) <==> exists k :: 0 <= k < |provs| && Listed(provs[k].partiesData, q)
    ensures q in Entries(PartyLedger(provs)) ==> Entries(PartyLedger(provs))[q] == PartyReference(provs, q)
  {
    PartyLedgerWalk(provs, q);
    KeysLabelled(PartyLedger(provs), q);
    PartyStandsWhereListed(provs, q);
  }

  /** `all_wings`, as `NationalParty` states for `all_parties`. */
  lemma NationalWing(provs: seq<Province>, w: string)
    requires AllConsistent(provs)
    ensures w in Entries(WingLedger(provs)) <==> exists k :: 0 <= k < |provs| && w in provs[k].wingsData
    ensures w in Entries(WingLedger(provs)) ==> Entries(WingLedger(provs))[w] == WingReference(provs, w)
  {
    WingLedgerWalk(provs, w);
    KeysLabelled(WingLedger(provs), w);
    WingStandsWhereListed(provs, w);
  }

  /** A built district's parties carry its `total_votes` and its `num_seats`. */
  lemma DistrictPartyTotals(prov: Province)
    requires WellBuilt(prov) && Consistent(prov)
    ensures Overall(PartyItems(prov), VotesOf) == prov.totalVotes
    ensures Overall(PartyItems(prov), SeatsOf) == prov.numSeats
  {
    var ps := prov.partiesData;
    Built(prov.name, prov.numSeats, ps, prov.firstContestedSeat, prov);
    OverallIsSum(PartyItems(prov), VotesOf, Votes(ps));
    OverallIsSum(PartyItems(prov), SeatsOf, WinsAfter(Votes(ps), prov.numSeats));
    TotalWins(Votes(ps), prov.numSeats);
  }

  /** A built district's wings carry its `total_votes` and its `num_seats` too. */
  lemma DistrictWingTotals(prov: Province)
    requires WellBuilt(prov) && Consistent(prov)
    ensures Overall(WingItems(prov), VotesOf) == prov.totalVotes
    ensures Overall(WingItems(prov), SeatsOf) == prov.numSeats
  {
    DistrictWingVotes(prov);
    DistrictWingSeats(prov);
  }

  lemma DistrictWingVotes(prov: Province)
    requires WellBuilt(prov) && Consistent(prov)
    ensures Overall(WingItems(prov), VotesOf) == prov.totalVotes
  {
    WingVotesTotal(prov.name, prov.numSeats, prov.partiesData, prov.firstContestedSeat, prov);
    OverallIsSum(WingItems(prov), VotesOf, WingVotes(prov));
  }

  lemma DistrictWingSeats(prov: Province)
    requires WellBuilt(prov) && Consistent(prov)
    ensures Overall(WingItems(prov), SeatsOf) == prov.numSeats
  {
    WingWinsTotal(prov.name, prov.numSeats, prov.partiesData, prov.firstContestedSeat, prov);
    OverallIsSum(WingItems(prov), SeatsOf, WingWins(prov));
  }

  /** Both walks carry every district's votes and seats, whichever of the two counts them. */
  lemma LedgerOverall(provs: seq<Province>)
    requires AllBuilt(provs)
    ensures Overall(PartyLedger(provs), VotesOf) == VoteTotal(provs)
    ensures Overall(PartyLedger(provs), SeatsOf) == SeatTotal(provs)
    ensures Overall(WingLedger(provs), VotesOf) == VoteTotal(provs)
    ensures Overall(WingLedger(provs), SeatsOf) == SeatTotal(provs)
  {
    PartyLedgerOverall(provs);
    WingLedgerOverall(provs);
  }

  /** The parties' walk carries every district's votes and seats. */
  lemma {:induction false} PartyLedgerOverall(provs: seq<Province>)
    requires AllBuilt(provs)
    ensures Overall(PartyLedger(provs), VotesOf) == VoteTotal(provs)
    ensures Overall(PartyLedger(provs), SeatsOf) == SeatTotal(provs)
  {
    if provs != [] {
      var init := provs[..|provs| - 1];
      var prov := provs[|provs| - 1];
      PartyLedgerOverall(init);
      WalkAppend(PartyLedger(init), PartyItems(prov), "", VotesOf);
      WalkAppend(PartyLedger(init), PartyItems(prov), "", SeatsOf);
      DistrictPartyTotals(prov);
    }
  }

  /** The wings' walk carries every district's votes and seats. */
  lemma {:induction false} WingLedgerOverall(provs: seq<Province>)
    requires AllBuilt(provs)
    ensures Overall(WingLedger(provs), VotesOf) == VoteTotal(provs)
    ensures Overall(WingLedger(provs), SeatsOf) == SeatTotal(provs)
  {
    if provs != [] {
      var init := provs[..|provs| - 1];
      var prov := provs[|provs| - 1];
      WingLedgerOverall(init);
      WalkAppend(WingLedger(init), WingItems(prov), "", VotesOf);
      WalkAppend(WingLedger(init), WingItems(prov), "", SeatsOf);
      DistrictWingTotals(prov);
    }
  }

  /**
   * The national entries split the whole: the parties' votes add up to the
   * districts' votes and their seats to `all_seats`, and so do the wings'
   * (the comment at seats.py:519 says either may be used to count votes).
   */
  lemma NationalSums(provs: seq<Province>)
    requires AllBuilt(provs)
    ensures var cs := PartyLedger(provs);
      && Sum(Column(Keys(cs), Entries(cs), VotesOf)) == VoteTotal(provs)
      && Sum(Column(Keys(cs), Entries(cs), SeatsOf)) == SeatTotal(provs)
    ensures var cs := WingLedger(provs);
      && Sum(Column(Keys(cs), Entries(cs), VotesOf)) == VoteTotal(provs)
      && Sum(Column(Keys(cs), Entries(cs), SeatsOf)) == SeatTotal(provs)
  {
    LedgerOverall(provs);
    var ps := PartyLedger(provs);
    var ws := WingLedger(provs);
    ColumnIsTotals(ps, VotesOf);
    ColumnIsTotals(ps, SeatsOf);
    ColumnIsTotals(ws, VotesOf);
    ColumnIsTotals(ws, SeatsOf);
    GroupTotals(ps, VotesOf);
    GroupTotals(ps, SeatsOf);
    GroupTotals(ws, VotesOf);
    GroupTotals(ws, SeatsOf);
  }

  /** The districts where both parties stand, in order; empty exactly when they never meet. */
  function PartyPairDistricts(provs: seq<Province>, p: string, q: string): (r: seq<string>)
    ensures r != [] <==> exists k :: 0 <= k < |provs| && Listed(provs[k].partiesData, p) && Listed(provs[k].partiesData, q)
  {
    if provs == [] then []
    else
      var prov := provs[|provs| - 1];
      assert forall k :: 0 <= k < |provs| - 1 ==> provs[..|provs| - 1][k] == provs[k];
      PartyPairDistricts(provs[..|provs| - 1], p, q)
        + (if Listed(prov.partiesData, p) && Listed(prov.partiesData, q) then [prov.name] else [])
  }

  /** The districts where both wings exist, in order; empty exactly when they never meet. */
  function WingPairDistricts(provs: seq<Province>, v: string, w: string): (r: seq<string>)
    ensures r != [] <==> exists k :: 0 <= k < |provs| && v in provs[k].wingsData && w in provs[k].wingsData
  {
    if provs == [] then []
    else
      var prov := provs[|provs| - 1];
      assert forall k :: 0 <= k < |provs| - 1 ==> provs[..|provs| - 1][k] == provs[k];
      WingPairDistricts(provs[..|provs| - 1], v, w)
        + (if v in prov.wingsData && w in prov.wingsData then [prov.name] else [])
  }

  /** One district further, a party's list gains the district exactly when the party stands there. */
  lemma PartyDistrictsStep(provs: seq<Province>, q: string)
    requires provs != [] && AllConsistent(provs)
    ensures var prov := provs[|provs| - 1];
      PartyReference(provs, q).provinces == PartyReference(provs[..|provs| - 1], q).provinces
        + (if Listed(prov.partiesData, q) then [prov.name] else [])
  {
  }

  /** One district further, a wing's list gains the district exactly when the wing exists there. */
  lemma WingDistrictsStep(provs: seq<Province>, w: string)
    requires provs != [] && AllConsistent(provs)
    ensures var prov := provs[|provs| - 1];
      WingReference(provs, w).provinces == WingReference(provs[..|provs| - 1], w).provinces
        + (if w in prov.wingsData then [prov.name] else [])
  {
  }

  /** The last district's name is not among the earlier ones. */
  lemma LastIsNew(provs: seq<Province>, xs: seq<string>)
    requires provs != [] && DistinctDistricts(provs)
    requires forall x :: x in xs ==> exists k :: 0 <= k < |provs| - 1 && provs[k].name == x
    ensures provs[|provs| - 1].name !in xs
  {
  }

  /**
   * `[prov for prov in p_provinces if prov in q_provinces]` (seats.py:625,
   * 654) over the reference lists: the districts where both parties stand,
   * in order.
   */
  lemma {:induction false} SharedPartyDistricts(provs: seq<Province>, p: string, q: string)
    requires AllConsistent(provs) && DistinctDistricts(provs)
    ensures Intersect(PartyReference(provs, p).provinces, PartyReference(provs, q).provinces) ==
      PartyPairDistricts(provs, p, q)
  {
    if provs != [] {
      var init := provs[..|provs| - 1];
      var prov := provs[|provs| - 1];
      assert forall k :: 0 <= k < |init| ==> init[k] == provs[k];
      SharedPartyDistricts(init, p, q);
      var a := PartyReference(init, p).provinces;
      var b := PartyReference(init, q).provinces;
      LastIsNew(provs, a);
      LastIsNew(provs, b);
      PartyDistrictsStep(provs, p);
      PartyDistrictsStep(provs, q);
      IntersectGrow(a, b, prov.name, Listed(prov.partiesData, p), Listed(prov.partiesData, q));
    }
  }

  /** The same comprehension over two wings' lists (seats.py:643, 661). */
  lemma {:induction false} SharedWingDistricts(provs: seq<Province>, v: string, w: string)
    requires AllConsistent(provs) && DistinctDistricts(provs)
    ensures Intersect(WingReference(provs, v).provinces, WingReference(provs, w).provinces) ==
      WingPairDistricts(provs, v, w)
  {
    if provs != [] {
      var init := provs[..|provs| - 1];
      var prov := provs[|provs| - 1];
      assert forall k :: 0 <= k < |init| ==> init[k] == provs[k];
      SharedWingDistricts(init, v, w);
      var a := WingReference(init, v).provinces;
      var b := WingReference(init, w).provinces;
      LastIsNew(provs, a);
      LastIsNew(provs, b);
      WingDistrictsStep(provs, v);
      WingDistrictsStep(provs, w);
      IntersectGrow(a, b, prov.name, v in prov.wingsData, w in prov.wingsData);
    }
  }
}

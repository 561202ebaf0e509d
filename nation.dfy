/**
 * `SeatsModel` (seats.py:435-534): the districts built from
 * `province_list` and `settings`, the parties and wings `create_model`
 * creates for each district on one shared solver, and the national dicts
 * of the first step of `create_global_variables`.
 */
module Nation {
  import opened Wrappers
  import opened Seqs
  import opened Ballot
  import opened Tally
  import opened Provinces
  import opened MipSolver
  import opened PartyVars
  import opened WingVars
  import opened Rosters
  import opened ModelSettings
  import opened Ledger

  /** `province_list` and every `parties_data` are dicts: their keys are distinct. */
  ghost predicate InputsAreDicts(inputs: seq<ProvinceInput>) {
    && Distinct(InputNames(inputs))
    && forall i :: 0 <= i < |inputs| ==> DistinctNames(inputs[i].partiesData)
  }

  class SeatsModel {
    const solver: Solver
    /** The values of `province_object_list`, in `province_list` order. */
    const provinces: seq<Province>
    const defaultProvinces: seq<string>
    /** `prov.parties` and `prov.wings` of each district, once `create_model` has made them. */
    var partyRosters: seq<seq<Party>>
    var wingRosters: seq<seq<Wing>>
    var allVotes: nat
    var allSeats: nat
    /** The keys of `all_parties`, in insertion order. */
    var partyOrder: seq<string>
    var allParties: map<string, NationalEntry>
    /** The keys of `all_wings`, in insertion order. */
    var wingOrder: seq<string>
    var allWings: map<string, NationalEntry>

    /** The national figures as `__init__` leaves them: nothing counted yet. */
    ghost predicate Unpopulated()
      reads this`allVotes, this`allSeats, this`partyOrder, this`allParties, this`wingOrder, this`allWings
    {
      && allVotes == 0 && allSeats == 0
      && partyOrder == [] && allParties == map[]
      && wingOrder == [] && allWings == map[]
    }

    /** `all_votes`, `all_parties` and its key order as the walk over `cs` leaves them. */
    ghost predicate PartiesHold(cs: seq<Contribution>)
      reads this`allVotes, this`partyOrder, this`allParties
    {
      allVotes == Overall(cs, VotesOf) && partyOrder == Keys(cs) && allParties == Entries(cs)
    }

    /** `all_wings` and its key order as the walk over `cs` leaves them. */
    ghost predicate WingsHold(cs: seq<Contribution>)
      reads this`wingOrder, this`allWings
    {
      wingOrder == Keys(cs) && allWings == Entries(cs)
    }

    /** The first `n` districts have their parties and wings, each built from its district. */
    ghost predicate RosteredUpTo(n: nat)
      requires AllConsistent(provinces)
      reads this`partyRosters, this`wingRosters
    {
      && n <= |provinces| && |partyRosters| == n && |wingRosters| == n
      && forall k :: 0 <= k < n ==> RosterFits(provinces[k], partyRosters[k], wingRosters[k])
    }

    constructor (solver: Solver, provinces: seq<Province>, defaultProvinces: seq<string>)
      ensures this.solver == solver && this.provinces == provinces && this.defaultProvinces == defaultProvinces
      ensures partyRosters == [] && wingRosters == []
      ensures Unpopulated()
    {
      this.solver := solver;
      this.provinces := provinces;
      this.defaultProvinces := defaultProvinces;
      partyRosters := [];
      wingRosters := [];
      allVotes := 0;
      allSeats := 0;
      partyOrder := [];
      allParties := map[];
      wingOrder := [];
      allWings := map[];
    }

    /**
     * `create_model`, up to the national variables: every district creates
     * its parties and its wings, then step 1 of `create_global_variables`
     * fills the national figures.
     */
    method CreateModel()
      requires AllBuilt(provinces) && partyRosters == [] && wingRosters == [] && Unpopulated()
      modifies this, solver
      ensures old(solver.vars) <= solver.vars
      ensures RosteredUpTo(|provinces|) && RostersLive(partyRosters, wingRosters, solver, solver.vars)
      ensures allSeats == SeatTotal(provinces)
      ensures PartiesHold(PartyLedger(provinces)) && WingsHold(WingLedger(provinces))
    {
      CreateRosters();
      ghost var prs, wrs, vs := partyRosters, wingRosters, solver.vars;
      ModelNotRoster(prs, wrs, this);
      assert RostersLive(prs, wrs, solver, vs);
      CreateGlobalTotals();
      assert vs == solver.vars;
      assert prs == partyRosters && wrs == wingRosters;
      assert RostersLive(prs, wrs, solver, vs);
    }

    /** The loop of `create_model` calling `create_parties` and `create_wings` for every district. */
    method CreateRosters()
      requires AllConsistent(provinces) && partyRosters == [] && wingRosters == []
      modifies this`partyRosters, this`wingRosters, solver
      ensures old(solver.vars) <= solver.vars
      ensures RosteredUpTo(|provinces|) && RostersLive(partyRosters, wingRosters, solver, solver.vars)
    {
      for k := 0 to |provinces|
        invariant old(solver.vars) <= solver.vars
        invariant RosteredUpTo(k) && RostersLive(partyRosters, wingRosters, solver, solver.vars)
      {
        AddRosters(k);
      }
    }

    /**
     * District `k` creates its parties, then its wings; the variables of the
     * earlier districts' parties and wings stay valid in the longer log.
     */
    method AddRosters(k: nat)
      requires AllConsistent(provinces) && k < |provinces| && RosteredUpTo(k)
      requires RostersLive(partyRosters, wingRosters, solver, solver.vars)
      modifies this`partyRosters, this`wingRosters, solver
      ensures old(solver.vars) <= solver.vars
      ensures RosteredUpTo(k + 1) && RostersLive(partyRosters, wingRosters, solver, solver.vars)
      ensures partyRosters == old(partyRosters) + [partyRosters[k]]
      ensures wingRosters == old(wingRosters) + [wingRosters[k]]
    {
      var prov := provinces[k];
      assert Consistent(prov);
      var parties := JoinParties(prov, solver, partyRosters, wingRosters);
      var wings := JoinWings(prov, solver, partyRosters + [parties], wingRosters);
      RostersGrow(provinces, partyRosters, wingRosters, parties, wings);
      Record(parties, wings);
    }

    /** `prov.parties` and `prov.wings` of the next district are kept, live as they were. */
    method Record(parties: seq<Party>, wings: seq<Wing>)
      requires RostersLive(partyRosters + [parties], wingRosters + [wings], solver, solver.vars)
      modifies this`partyRosters, this`wingRosters
      ensures partyRosters == old(partyRosters) + [parties] && wingRosters == old(wingRosters) + [wings]
      ensures RostersLive(partyRosters, wingRosters, solver, solver.vars)
    {
      partyRosters := partyRosters + [parties];
      wingRosters := wingRosters + [wings];
    }

    /**
     * Step 1 of `create_global_variables`: `all_seats` adds up every
     * district's seats, `all_votes` every party's votes, and `all_parties`
     * and `all_wings` hold the walks over every district's parties and wings.
     */
    method CreateGlobalTotals()
      requires AllConsistent(provinces) && RosteredUpTo(|provinces|) && Unpopulated()
      modifies this`allVotes, this`allSeats, this`partyOrder, this`allParties, this`wingOrder, this`allWings
      ensures allSeats == SeatTotal(provinces)
      ensures PartiesHold(PartyLedger(provinces)) && WingsHold(WingLedger(provinces))
    {
      ghost var parties: seq<Contribution> := [];
      ghost var wings: seq<Contribution> := [];
      for k := 0 to |provinces|
        invariant AllConsistent(provinces[..k])
        invariant parties == PartyLedger(provinces[..k]) && wings == WingLedger(provinces[..k])
        invariant allSeats == SeatTotal(provinces[..k])
        invariant PartiesHold(parties) && WingsHold(wings)
      {
        LedgerPrefix(provinces, k);
        var prov := provinces[k];
        assert Consistent(prov);
        AddDistrict(k, parties, wings);
        parties := parties + PartyItems(prov);
        wings := wings + WingItems(prov);
      }
      assert provinces[..|provinces|] == provinces;
    }

    /** One iteration of step 1: district `k`'s seats, then its parties, then its wings. */
    method AddDistrict(k: nat, ghost parties: seq<Contribution>, ghost wings: seq<Contribution>)
      requires AllConsistent(provinces) && RosteredUpTo(|provinces|) && k < |provinces|
      requires PartiesHold(parties) && WingsHold(wings)
      modifies this`allVotes, this`allSeats, this`partyOrder, this`allParties, this`wingOrder, this`allWings
      ensures allSeats == old(allSeats) + provinces[k].numSeats
      ensures PartiesHold(parties + PartyItems(provinces[k])) && WingsHold(wings + WingItems(provinces[k]))
    {
      assert Consistent(provinces[k]);
      assert RosterFits(provinces[k], partyRosters[k], wingRosters[k]);
      allSeats := allSeats + provinces[k].numSeats;
      AddParties(k, parties);
      AddWings(k, wings);
    }

    /** The loop over `prov_obj.parties` for district `k`. */
    method AddParties(k: nat, ghost before: seq<Contribution>)
      requires k < |provinces| && k < |partyRosters| && Consistent(provinces[k])
      requires PartiesDerived(provinces[k], partyRosters[k], provinces[k].partiesNames)
      requires |partyRosters[k]| == |provinces[k].partiesNames|
      requires PartiesHold(before)
      modifies this`allVotes, this`partyOrder, this`allParties
      ensures PartiesHold(before + PartyItems(provinces[k]))
    {
      var prov := provinces[k];
      var parties := partyRosters[k];
      assert Consistent(prov) && PartiesDerived(prov, parties, prov.partiesNames);
      ghost var items := PartyItems(prov);
      PartyRosterItems(prov, parties);
      ghost var done := before;
      assert before + items[..0] == before;
      for i := 0 to |parties|
        invariant done == before + items[..i]
        invariant PartiesHold(done)
      {
        var p := parties[i];
        var wins := prov.partiesDhont[i].wins;
        AppendSliceStep(before, items, i);
        CountParty(done, p.name, prov.name, p.myVotes, wins);
        done := done + [Contribution(p.name, prov.name, p.myVotes, wins)];
      }
      assert items[..|parties|] == items;
    }

    /** One iteration over `prov_obj.parties`: party `name` counted with its votes and its wins in `province`. */
    method CountParty(ghost done: seq<Contribution>, name: string, province: string, votes: nat, wins: nat)
      requires PartiesHold(done)
      modifies this`allVotes, this`partyOrder, this`allParties
      ensures PartiesHold(done + [Contribution(name, province, votes, wins)])
    {
      ghost var c := Contribution(name, province, votes, wins);
      EntriesStep(done, c);
      allVotes := allVotes + votes;
      if name !in allParties {
        allParties := allParties[name := NationalEntry(votes, wins, [province])];
        partyOrder := partyOrder + [name];
      } else {
        var e := allParties[name];
        allParties := allParties[name := NationalEntry(e.votes + votes, e.seats + wins, e.provinces + [province])];
      }
      assert allParties == Entries(done + [c]);
    }

    /** The loop over `prov_obj.wings` for district `k`. */
    method AddWings(k: nat, ghost before: seq<Contribution>)
      requires k < |provinces| && k < |wingRosters| && Consistent(provinces[k])
      requires WingsDerived(provinces[k], wingRosters[k], provinces[k].wingsNames)
      requires |wingRosters[k]| == |provinces[k].wingsNames|
      requires WingsHold(before)
      modifies this`wingOrder, this`allWings
      ensures WingsHold(before + WingItems(provinces[k]))
    {
      var prov := provinces[k];
      var wings := wingRosters[k];
      assert Consistent(prov) && WingsDerived(prov, wings, prov.wingsNames);
      ghost var items := WingItems(prov);
      WingRosterItems(prov, wings);
      ghost var done := before;
      assert before + items[..0] == before;
      for j := 0 to |wings|
        invariant done == before + items[..j]
        invariant WingsHold(done)
      {
        var w := wings[j];
        AppendSliceStep(before, items, j);
        var wins := prov.wingsDhont[w.name];
        CountWing(done, w.name, prov.name, w.myVotes, wins);
        done := done + [Contribution(w.name, prov.name, w.myVotes, wins)];
      }
      assert items[..|wings|] == items;
    }

    /** One iteration over `prov_obj.wings`: wing `name` counted with its votes and its wins in `province`. */
    method CountWing(ghost done: seq<Contribution>, name: string, province: string, votes: nat, wins: nat)
      requires WingsHold(done)
      modifies this`wingOrder, this`allWings
      ensures WingsHold(done + [Contribution(name, province, votes, wins)])
    {
      ghost var c := Contribution(name, province, votes, wins);
      EntriesStep(done, c);
      if name !in allWings {
        allWings := allWings[name := NationalEntry(votes, wins, [province])];
        wingOrder := wingOrder + [name];
      } else {
        var e := allWings[name];
        allWings := allWings[name := NationalEntry(e.votes + votes, e.seats + wins, e.provinces + [province])];
      }
      assert allWings == Entries(done + [c]);
    }
  }

  /** The ledgers of the first `k + 1` districts are those of the first `k` and district `k`'s items. */
  lemma LedgerPrefix(provs: seq<Province>, k: nat)
    requires AllConsistent(provs) && k < |provs|
    ensures AllConsistent(provs[..k]) && AllConsistent(provs[..k + 1])
    ensures PartyLedger(provs[..k + 1]) == PartyLedger(provs[..k]) + PartyItems(provs[k])
    ensures WingLedger(provs[..k + 1]) == WingLedger(provs[..k]) + WingItems(provs[k])
    ensures SeatTotal(provs[..k + 1]) == SeatTotal(provs[..k]) + provs[k].numSeats
  {
    assert provs[..k + 1][..k] == provs[..k];
  }

  /** A district's parties and wings, one for each of its party and wing names, built from it. */
  ghost predicate RosterFits(prov: Province, ps: seq<Party>, ws: seq<Wing>)
    requires Consistent(prov)
  {
    && |ps| == |prov.partiesNames| && PartiesDerived(prov, ps, prov.partiesNames)
    && |ws| == |prov.wingsNames| && WingsDerived(prov, ws, prov.wingsNames)
  }

  /** The parties and wings of every roster, as objects. */
  ghost function RosterObjects(prs: seq<seq<Party>>, wrs: seq<seq<Wing>>): set<object> {
    (set k, j | 0 <= k < |prs| && 0 <= j < |prs[k]| :: prs[k][j] as object)
    + (set k, j | 0 <= k < |wrs| && 0 <= j < |wrs[k]| :: wrs[k][j] as object)
  }

  /** The model is none of its parties and wings. */
  lemma ModelNotRoster(prs: seq<seq<Party>>, wrs: seq<seq<Wing>>, m: SeatsModel)
    ensures m !in RosterObjects(prs, wrs)
  {
  }

  /** The parties and wings of every roster work on `solver`, their variables generated and valid in `vs`. */
  ghost predicate RostersLive(prs: seq<seq<Party>>, wrs: seq<seq<Wing>>, solver: Solver, vs: seq<VarInfo>)
    reads RosterObjects(prs, wrs)
  {
    && (forall k :: 0 <= k < |prs| ==> PartiesLive(prs[k], solver, vs))
    && (forall k :: 0 <= k < |wrs| ==> WingsLive(wrs[k], solver, vs))
  }

  /** Variables appended to the log by later districts leave earlier rosters valid. */
  lemma RostersLiveGrow(prs: seq<seq<Party>>, wrs: seq<seq<Wing>>, solver: Solver, vs: seq<VarInfo>, us: seq<VarInfo>)
    requires RostersLive(prs, wrs, solver, vs) && vs <= us
    ensures RostersLive(prs, wrs, solver, us)
  {
    forall k | 0 <= k < |prs|
      ensures PartiesLive(prs[k], solver, us)
    {
      PartiesGrow(prs[k], solver, vs, us);
    }
    forall k | 0 <= k < |wrs|
      ensures WingsLive(wrs[k], solver, us)
    {
      WingsGrow(wrs[k], solver, vs, us);
    }
  }

  /** A district's parties, live in the same log, join the live rosters. */
  lemma RostersWithParties(prs: seq<seq<Party>>, wrs: seq<seq<Wing>>, ps: seq<Party>, solver: Solver, vs: seq<VarInfo>)
    requires RostersLive(prs, wrs, solver, vs) && PartiesLive(ps, solver, vs)
    ensures RostersLive(prs + [ps], wrs, solver, vs)
  {
    assert forall k :: 0 <= k < |prs| ==> (prs + [ps])[k] == prs[k];
  }

  /** A district's wings, live in the same log, join the live rosters. */
  lemma RostersWithWings(prs: seq<seq<Party>>, wrs: seq<seq<Wing>>, ws: seq<Wing>, solver: Solver, vs: seq<VarInfo>)
    requires RostersLive(prs, wrs, solver, vs) && WingsLive(ws, solver, vs)
    ensures RostersLive(prs, wrs + [ws], solver, vs)
  {
    assert forall k :: 0 <= k < |wrs| ==> (wrs + [ws])[k] == wrs[k];
  }

  /**
   * `prov.create_parties()` on the shared solver: the new parties fit the
   * district, and they and the earlier rosters `prs`, `wrs` are live in the
   * grown log.
   */
  method JoinParties(prov: Province, solver: Solver, ghost prs: seq<seq<Party>>, ghost wrs: seq<seq<Wing>>)
    returns (parties: seq<Party>)
    requires Consistent(prov) && RostersLive(prs, wrs, solver, solver.vars)
    modifies solver
    ensures old(solver.vars) <= solver.vars
    ensures |parties| == |prov.partiesNames| && PartiesDerived(prov, parties, prov.partiesNames)
    ensures RostersLive(prs + [parties], wrs, solver, solver.vars)
  {
    ghost var before := solver.vars;
    var partiesDict;
    parties, partiesDict := CreateParties(prov, solver);
    RostersLiveGrow(prs, wrs, solver, before, solver.vars);
    RostersWithParties(prs, wrs, parties, solver, solver.vars);
  }

  /**
   * `prov.create_wings()` on the shared solver: the new wings fit the
   * district, and they and the earlier rosters `prs`, `wrs` are live in the
   * grown log.
   */
  method JoinWings(prov: Province, solver: Solver, ghost prs: seq<seq<Party>>, ghost wrs: seq<seq<Wing>>)
    returns (wings: seq<Wing>)
    requires Consistent(prov) && RostersLive(prs, wrs, solver, solver.vars)
    modifies solver
    ensures old(solver.vars) <= solver.vars
    ensures |wings| == |prov.wingsNames| && WingsDerived(prov, wings, prov.wingsNames)
    ensures RostersLive(prs, wrs + [wings], solver, solver.vars)
  {
    ghost var before := solver.vars;
    var wingsDict;
    wings, wingsDict := CreateWings(prov, solver);
    RostersLiveGrow(prs, wrs, solver, before, solver.vars);
    RostersWithWings(prs, wrs, wings, solver, solver.vars);
  }

  /** One district further, the earlier districts keep their parties and wings. */
  lemma RostersGrow(provs: seq<Province>, prs: seq<seq<Party>>, wrs: seq<seq<Wing>>, ps: seq<Party>, ws: seq<Wing>)
    requires AllConsistent(provs) && |prs| == |wrs| < |provs|
    requires forall k :: 0 <= k < |prs| ==> RosterFits(provs[k], prs[k], wrs[k])
    requires RosterFits(provs[|prs|], ps, ws)
    ensures forall k :: 0 <= k < |prs| + 1 ==> RosterFits(provs[k], (prs + [ps])[k], (wrs + [ws])[k])
  {
    forall k | 0 <= k < |prs| + 1
      ensures RosterFits(provs[k], (prs + [ps])[k], (wrs + [ws])[k])
    {
      if k < |prs| {
        assert (prs + [ps])[k] == prs[k] && (wrs + [ws])[k] == wrs[k];
      }
    }
  }

  /** `parties_derived` without the variables: the `j`-th party was built for `names[j]`. */
  lemma {:induction false} PartyDerivedAt(prov: Province, ps: seq<Party>, names: seq<string>, j: nat)
    requires Consistent(prov) && PartiesDerived(prov, ps, names) && j < |ps|
    ensures names[j] in prov.partiesNames && ps[j].DerivedFrom(prov, names[j])
    decreases |ps|
  {
    if j < |ps| - 1 {
      PartyDerivedAt(prov, ps[..|ps| - 1], names, j);
    }
  }

  /** `wings_derived` without the variables: the `j`-th wing was built for `names[j]`. */
  lemma {:induction false} WingDerivedAt(prov: Province, ws: seq<Wing>, names: seq<string>, j: nat)
    requires Consistent(prov) && WingsDerived(prov, ws, names) && j < |ws|
    ensures names[j] in prov.wingsData && ws[j].DerivedFrom(prov, names[j])
    decreases |ws|
  {
    if j < |ws| - 1 {
      WingDerivedAt(prov, ws[..|ws| - 1], names, j);
    }
  }

  /** The `i`-th party of a district's roster has the name and the votes of `parties_data`'s `i`-th item. */
  lemma PartyFigures(prov: Province, ps: seq<Party>, i: nat)
    requires Consistent(prov) && PartiesDerived(prov, ps, prov.partiesNames) && i < |ps|
    ensures ps[i].name == prov.partiesData[i].name && ps[i].myVotes == prov.partiesData[i].votes
  {
    PartyDerivedAt(prov, ps, prov.partiesNames, i);
    assert Names(prov.partiesData)[ps[i].index] == Names(prov.partiesData)[i];
  }

  /** The district's party items are its roster's parties, with their names, votes and baseline wins. */
  lemma PartyRosterItems(prov: Province, ps: seq<Party>)
    requires Consistent(prov) && PartiesDerived(prov, ps, prov.partiesNames)
    requires |ps| == |prov.partiesNames|
    ensures |PartyItems(prov)| == |ps| <= |prov.partiesDhont|
    ensures forall i :: 0 <= i < |ps| ==>
      PartyItems(prov)[i] == Contribution(ps[i].name, prov.name, ps[i].myVotes, prov.partiesDhont[i].wins)
  {
    forall i | 0 <= i < |ps|
      ensures PartyItems(prov)[i] == Contribution(ps[i].name, prov.name, ps[i].myVotes, prov.partiesDhont[i].wins)
    {
      PartyFigures(prov, ps, i);
    }
  }

  /** The district's wing items are its roster's wings, with their names, votes and baseline wins. */
  lemma WingRosterItems(prov: Province, ws: seq<Wing>)
    requires Consistent(prov) && WingsDerived(prov, ws, prov.wingsNames)
    requires |ws| == |prov.wingsNames|
    ensures |WingItems(prov)| == |ws|
    ensures forall j :: 0 <= j < |ws| ==> ws[j].name in prov.wingsDhont
    ensures forall j :: 0 <= j < |ws| ==>
      WingItems(prov)[j] == Contribution(ws[j].name, prov.name, ws[j].myVotes, prov.wingsDhont[ws[j].name])
  {
    forall j | 0 <= j < |ws|
      ensures ws[j].name in prov.wingsDhont
      ensures WingItems(prov)[j] == Contribution(ws[j].name, prov.name, ws[j].myVotes, prov.wingsDhont[ws[j].name])
    {
      WingFigures(prov, ws, j);
    }
  }

  /** The `j`-th wing of a district's roster has the name and the votes of `wings_names[j]`. */
  lemma WingFigures(prov: Province, ws: seq<Wing>, j: nat)
    requires Consistent(prov) && WingsDerived(prov, ws, prov.wingsNames) && j < |ws|
    ensures prov.wingsNames[j] in prov.wingsData && prov.wingsNames[j] in prov.wingsDhont
    ensures ws[j].name == prov.wingsNames[j] && ws[j].myVotes == prov.wingsData[prov.wingsNames[j]].votes
  {
    WingDerivedAt(prov, ws, prov.wingsNames, j);
  }

  /**
   * `SeatsModel.__init__`: each district gets the settings entry that
   * `SettingsKey` names and is built with its `first_contested_seat`;
   * the districts with an entry of their own are removed from
   * `default_provinces`. The first exception stops the construction.
   */
  method NewSeatsModel(inputs: seq<ProvinceInput>, settings: map<string, SettingsEntry>)
    returns (r: Result<SeatsModel, ModelError>)
    ensures ProvincesOf(settings, inputs).Err? ==> r.Err? && r.error == ProvincesOf(settings, inputs).error
    ensures ProvincesOf(settings, inputs).Ok? ==>
      && r.Ok? && fresh(r.value) && fresh(r.value.solver) && r.value.solver.vars == []
      && r.value.provinces == ProvincesOf(settings, inputs).value
      && r.value.defaultProvinces == Unlisted(InputNames(inputs), settings)
      && r.value.partyRosters == [] && r.value.wingRosters == [] && r.value.Unpopulated()
  {
    var solver := new Solver();
    var built := BuildDistricts(inputs, settings);
    if built.Err? {
      return Err(built.error);
    }
    var model := new SeatsModel(solver, built.value.0, built.value.1);
    return Ok(model);
  }

  /**
   * The loop of `__init__` over `province_list`: the districts, in order,
   * and `default_provinces` once the districts with an entry of their own
   * are removed, or the first exception.
   */
  method BuildDistricts(inputs: seq<ProvinceInput>, settings: map<string, SettingsEntry>)
    returns (r: Result<(seq<Province>, seq<string>), ModelError>)
    ensures ProvincesOf(settings, inputs).Err? ==> r == Err(ProvincesOf(settings, inputs).error)
    ensures ProvincesOf(settings, inputs).Ok? ==>
      r == Ok((ProvincesOf(settings, inputs).value, Unlisted(InputNames(inputs), settings)))
  {
    var names := InputNames(inputs);
    var defaults := names;
    var provs: seq<Province> := [];
    for i := 0 to |inputs|
      invariant ProvincesOf(settings, inputs[..i]) == Ok(provs)
      invariant defaults == Unlisted(names[..i], settings) + names[i..]
    {
      var next := BuildNext(settings, inputs, i, provs);
      if next.Err? {
        ErrorPersists(settings, inputs, i + 1);
        return Err(next.error);
      }
      provs := next.value;
      defaults := DropListed(names, settings, i, defaults);
    }
    WholeInput(settings, inputs, provs, defaults);
    return Ok((provs, defaults));
  }

  /** Once the loop of `__init__` is over, the prefixes are the whole of `province_list`. */
  lemma WholeInput(settings: map<string, SettingsEntry>, inputs: seq<ProvinceInput>, provs: seq<Province>, defaults: seq<string>)
    requires ProvincesOf(settings, inputs[..|inputs|]) == Ok(provs)
    requires defaults == Unlisted(InputNames(inputs)[..|inputs|], settings) + InputNames(inputs)[|inputs|..]
    ensures ProvincesOf(settings, inputs) == Ok(provs)
    ensures defaults == Unlisted(InputNames(inputs), settings)
  {
    assert inputs[..|inputs|] == inputs;
    assert InputNames(inputs)[..|inputs|] == InputNames(inputs);
    assert InputNames(inputs)[|inputs|..] == [];
  }

  /** One iteration of the loop of `__init__`: the `i`-th district appended to the ones built so far, or its exception. */
  method BuildNext(settings: map<string, SettingsEntry>, inputs: seq<ProvinceInput>, i: nat, provs: seq<Province>)
    returns (r: Result<seq<Province>, ModelError>)
    requires i < |inputs| && ProvincesOf(settings, inputs[..i]) == Ok(provs)
    ensures r == ProvincesOf(settings, inputs[..i + 1])
  {
    var built := BuildProvince(settings, inputs[i]);
    ProvincesOfStep(settings, inputs, i, provs);
    if built.Err? {
      return Err(built.error);
    }
    return Ok(provs + [built.value]);
  }

  /** `default_provinces.remove(p)` for the `i`-th district, when it has an entry of its own. */
  method DropListed(names: seq<string>, settings: map<string, SettingsEntry>, i: nat, defaults: seq<string>)
    returns (r: seq<string>)
    requires i < |names| && defaults == Unlisted(names[..i], settings) + names[i..]
    ensures r == Unlisted(names[..i + 1], settings) + names[i + 1..]
  {
    DefaultsStep(names, settings, i, defaults);
    r := defaults;
    if names[i] in settings {
      r := Remove(defaults, names[i]);
    }
  }

  /** One iteration on `default_provinces`: `remove(p)` drops `p` where the list is still untouched. */
  lemma DefaultsStep(names: seq<string>, settings: map<string, SettingsEntry>, i: nat, defaults: seq<string>)
    requires i < |names| && defaults == Unlisted(names[..i], settings) + names[i..]
    ensures names[i] in settings ==>
      names[i] in defaults && Remove(defaults, names[i]) == Unlisted(names[..i + 1], settings) + names[i + 1..]
    ensures names[i] !in settings ==> defaults == Unlisted(names[..i + 1], settings) + names[i + 1..]
  {
    var a := Unlisted(names[..i], settings);
    UnlistedStep(names, settings, i);
    assert names[i..] == [names[i]] + names[i + 1..];
    assert defaults == a + [names[i]] + names[i + 1..];
    if names[i] in settings {
      UnlistedMembers(names[..i], settings);
      RemoveAfter(a, names[i], names[i + 1..]);
    }
  }

  /** The body of the loop of `__init__` for one district: its settings entry, then the `Province`. */
  method BuildProvince(settings: map<string, SettingsEntry>, input: ProvinceInput)
    returns (r: Result<Province, ModelError>)
    ensures r == ProvinceFor(settings, input)
  {
    var key: string;
    if input.name in settings {
      var own := settings[input.name];
      if own.group.Some? {
        if own.group.value !in settings {
          return Err(MissingGroup(own.group.value));
        }
        key := own.group.value;
      } else {
        key := input.name;
      }
    } else {
      if Default !in settings {
        return Err(MissingDefault);
      }
      key := Default;
    }
    var entry := settings[key];
    if entry.firstContestedSeat.None? {
      return Err(MissingFirstContestedSeat(key));
    }
    var prov := NewProvince(input.name, input.numSeats, input.partiesData, entry.firstContestedSeat.value);
    if prov.Err? {
      return Err(BadProvince(input.name, prov.error));
    }
    return Ok(prov.value);
  }

  /**
   * The districts of a constructed model are what the rest of the model
   * relies on: each built by the `Province` constructor, with distinct
   * party names, and no two with the same name.
   */
  lemma {:induction false} ModelDistrictsSound(settings: map<string, SettingsEntry>, inputs: seq<ProvinceInput>)
    requires InputsAreDicts(inputs) && ProvincesOf(settings, inputs).Ok?
    ensures AllBuilt(ProvincesOf(settings, inputs).value)
    ensures DistinctDistricts(ProvincesOf(settings, inputs).value)
  {
    var provs := ProvincesOf(settings, inputs).value;
    forall k | 0 <= k < |provs|
      ensures WellBuilt(provs[k]) && Consistent(provs[k]) && provs[k].name == inputs[k].name
    {
      ProvinceForBuilds(settings, inputs[k]);
    }
    assert forall i, j :: 0 <= i < j < |provs| ==> InputNames(inputs)[i] != InputNames(inputs)[j];
  }
}

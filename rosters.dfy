/**
 * `Province.create_parties` and `Province.create_wings` (seats.py:421-431):
 * one `Party` per name of `parties_names` and one `Wing` per name of
 * `wings_names`, in that order, all sharing one solver, then a dict from
 * name to object. The per-object facts are kept in two recursive
 * predicates: one about what each object derived from the district, one
 * about its variables, which later objects' variables leave valid.
 */
module Rosters {
  import opened Provinces
  import opened MipSolver
  import opened PartyVars
  import opened WingVars

  /** `ps[j]` is the party `names[j]` of `prov`, for every `j < |ps|`. */
  ghost predicate PartiesDerived(prov: Province, ps: seq<Party>, names: seq<string>)
    requires Consistent(prov)
    decreases |ps|
  {
    && |ps| <= |names|
    && (ps != [] ==>
          var j := |ps| - 1;
          && names[j] in prov.partiesNames
          && ps[j].DerivedFrom(prov, names[j])
          && PartiesDerived(prov, ps[..j], names))
  }

  /** Every `ps[j]` works on `solver` and has generated its variables, all valid in `vs`. */
  ghost predicate PartiesLive(ps: seq<Party>, solver: Solver, vs: seq<VarInfo>)
    reads ps
    decreases |ps|
  {
    ps != [] ==>
      var j := |ps| - 1;
      && ps[j].solver == solver && ps[j].ValidIn(vs) && ps[j].Generated()
      && PartiesLive(ps[..j], solver, vs)
  }

  lemma {:induction false} PartyAt(prov: Province, ps: seq<Party>, names: seq<string>, solver: Solver, vs: seq<VarInfo>, j: nat)
    requires Consistent(prov) && PartiesDerived(prov, ps, names) && PartiesLive(ps, solver, vs) && j < |ps|
    ensures names[j] in prov.partiesNames && ps[j].DerivedFrom(prov, names[j])
    ensures ps[j].solver == solver && ps[j].ValidIn(vs) && ps[j].Generated()
    decreases |ps|
  {
    if j < |ps| - 1 {
      PartyAt(prov, ps[..|ps| - 1], names, solver, vs, j);
    }
  }

  /**
   * What `create_parties` leaves, read entry by entry: the `i`-th party is the
   * one of `parties_names[i]`, on the shared solver, with its variables generated
   * and valid in `vs`.
   */
  lemma PartiesEach(prov: Province, ps: seq<Party>, solver: Solver, vs: seq<VarInfo>)
    requires Consistent(prov) && |ps| == |prov.partiesNames|
    requires PartiesDerived(prov, ps, prov.partiesNames) && PartiesLive(ps, solver, vs)
    ensures forall i :: 0 <= i < |ps| ==> prov.partiesNames[i] in prov.partiesNames
    ensures forall i :: 0 <= i < |ps| ==>
      && ps[i].name == prov.partiesNames[i] && ps[i].solver == solver
      && ps[i].ValidIn(vs) && ps[i].Generated()
  {
    forall i | 0 <= i < |ps|
      ensures prov.partiesNames[i] in prov.partiesNames
      ensures ps[i].name == prov.partiesNames[i] && ps[i].solver == solver
      ensures ps[i].ValidIn(vs) && ps[i].Generated()
    {
      PartyAt(prov, ps, prov.partiesNames, solver, vs, i);
    }
  }

  lemma PartiesDerivedAppend(prov: Province, ps: seq<Party>, p: Party, names: seq<string>)
    requires Consistent(prov) && PartiesDerived(prov, ps, names) && |ps| < |names|
    requires names[|ps|] in prov.partiesNames && p.DerivedFrom(prov, names[|ps|])
    ensures PartiesDerived(prov, ps + [p], names)
  {
    var qs := ps + [p];
    assert qs[..|qs| - 1] == ps && qs[|qs| - 1] == p;
  }

  lemma PartiesLiveAppend(ps: seq<Party>, p: Party, solver: Solver, vs: seq<VarInfo>)
    requires PartiesLive(ps, solver, vs)
    requires p.solver == solver && p.ValidIn(vs) && p.Generated()
    ensures PartiesLive(ps + [p], solver, vs)
  {
    var qs := ps + [p];
    assert qs[..|qs| - 1] == ps && qs[|qs| - 1] == p;
  }

  lemma {:induction false} PartiesGrow(ps: seq<Party>, solver: Solver, vs: seq<VarInfo>, us: seq<VarInfo>)
    requires PartiesLive(ps, solver, vs) && vs <= us
    ensures PartiesLive(ps, solver, us)
    decreases |ps|
  {
    if ps != [] {
      ps[|ps| - 1].ValidGrows(vs, us);
      PartiesGrow(ps[..|ps| - 1], solver, vs, us);
    }
  }

  /** `ps[j]` is the last party of its name in `ps`. */
  ghost predicate LastPartyOfName(ps: seq<Party>, j: int) {
    0 <= j < |ps| && forall k :: j < k < |ps| ==> ps[k].name != ps[j].name
  }

  /** `{party.name: party for party in parties}`: a later party of the same name replaces an earlier one. */
  function PartiesByName(ps: seq<Party>): (d: map<string, Party>)
    ensures forall q :: q in d <==> exists j :: 0 <= j < |ps| && ps[j].name == q
    ensures forall j {:trigger LastPartyOfName(ps, j)} :: LastPartyOfName(ps, j) ==> d[ps[j].name] == ps[j]
  {
    if ps == [] then map[]
    else
      var last := ps[|ps| - 1];
      var d := PartiesByName(ps[..|ps| - 1])[last.name := last];
      assert forall j :: 0 <= j < |ps| - 1 ==> ps[..|ps| - 1][j] == ps[j];
      assert forall j :: LastPartyOfName(ps, j) && j < |ps| - 1 ==> LastPartyOfName(ps[..|ps| - 1], j);
      d
  }

  /** A new party of the next name, its variables generated after the earlier parties' ones. */
  lemma PartiesAppend(prov: Province, ps: seq<Party>, p: Party, solver: Solver, vs: seq<VarInfo>, us: seq<VarInfo>)
    requires Consistent(prov) && |ps| < |prov.partiesNames|
    requires PartiesDerived(prov, ps, prov.partiesNames) && PartiesLive(ps, solver, vs) && vs <= us
    requires p.DerivedFrom(prov, prov.partiesNames[|ps|]) && p.solver == solver && p.ValidIn(us) && p.Generated()
    ensures PartiesDerived(prov, ps + [p], prov.partiesNames) && PartiesLive(ps + [p], solver, us)
  {
    PartiesGrow(ps, solver, vs, us);
    PartiesDerivedAppend(prov, ps, p, prov.partiesNames);
    PartiesLiveAppend(ps, p, solver, us);
  }

  /** One iteration of the loop of `create_parties`: the party of the next name. */
  method NextParty(prov: Province, solver: Solver, parties: seq<Party>) returns (party: Party)
    requires Consistent(prov) && |parties| < |prov.partiesNames|
    requires PartiesDerived(prov, parties, prov.partiesNames) && PartiesLive(parties, solver, solver.vars)
    modifies solver
    ensures old(solver.vars) <= solver.vars
    ensures PartiesDerived(prov, parties + [party], prov.partiesNames) && PartiesLive(parties + [party], solver, solver.vars)
  {
    ghost var vs := solver.vars;
    var name := prov.partiesNames[|parties|];
    assert name in prov.partiesNames;
    party := NewParty(prov, name, solver);
    PartiesAppend(prov, parties, party, solver, vs, solver.vars);
  }

  /**
   * `create_parties`: the `i`-th party is built for `parties_names[i]` and has generated
   * its variables, which stay valid while the later parties create theirs;
   * `parties_dict` maps each name to its party.
   */
  method CreateParties(prov: Province, solver: Solver)
    returns (parties: seq<Party>, partiesDict: map<string, Party>)
    requires Consistent(prov)
    modifies solver
    ensures old(solver.vars) <= solver.vars
    ensures |parties| == |prov.partiesNames|
    ensures PartiesDerived(prov, parties, prov.partiesNames) && PartiesLive(parties, solver, solver.vars)
    ensures partiesDict == PartiesByName(parties)
  {
    parties := [];
    while |parties| < |prov.partiesNames|
      invariant old(solver.vars) <= solver.vars
      invariant |parties| <= |prov.partiesNames|
      invariant PartiesDerived(prov, parties, prov.partiesNames) && PartiesLive(parties, solver, solver.vars)
      decreases |prov.partiesNames| - |parties|
    {
      var party := NextParty(prov, solver, parties);
      parties := parties + [party];
    }
    partiesDict := PartiesByName(parties);
  }

  /** `ws[j]` is the wing `names[j]` of `prov`, for every `j < |ws|`. */
  ghost predicate WingsDerived(prov: Province, ws: seq<Wing>, names: seq<string>)
    requires Consistent(prov)
    decreases |ws|
  {
    && |ws| <= |names|
    && (ws != [] ==>
          var j := |ws| - 1;
          && names[j] in prov.wingsData
          && ws[j].DerivedFrom(prov, names[j])
          && WingsDerived(prov, ws[..j], names))
  }

  /** Every `ws[j]` works on `solver` and has generated its variables, all valid in `vs`. */
  ghost predicate WingsLive(ws: seq<Wing>, solver: Solver, vs: seq<VarInfo>)
    reads ws
    decreases |ws|
  {
    ws != [] ==>
      var j := |ws| - 1;
      && ws[j].solver == solver && ws[j].ValidIn(vs) && ws[j].Generated()
      && WingsLive(ws[..j], solver, vs)
  }

  lemma {:induction false} WingAt(prov: Province, ws: seq<Wing>, names: seq<string>, solver: Solver, vs: seq<VarInfo>, j: nat)
    requires Consistent(prov) && WingsDerived(prov, ws, names) && WingsLive(ws, solver, vs) && j < |ws|
    ensures names[j] in prov.wingsData && ws[j].DerivedFrom(prov, names[j])
    ensures ws[j].solver == solver && ws[j].ValidIn(vs) && ws[j].Generated()
    decreases |ws|
  {
    if j < |ws| - 1 {
      WingAt(prov, ws[..|ws| - 1], names, solver, vs, j);
    }
  }

  /**
   * What `create_wings` leaves, read entry by entry: the `i`-th wing is the
   * one of `wings_names[i]`, on the shared solver, with its variables generated
   * and valid in `vs`.
   */
  lemma WingsEach(prov: Province, ws: seq<Wing>, solver: Solver, vs: seq<VarInfo>)
    requires Consistent(prov) && |ws| == |prov.wingsNames|
    requires WingsDerived(prov, ws, prov.wingsNames) && WingsLive(ws, solver, vs)
    ensures forall i :: 0 <= i < |ws| ==> prov.wingsNames[i] in prov.wingsData
    ensures forall i :: 0 <= i < |ws| ==>
      && ws[i].name == prov.wingsNames[i] && ws[i].solver == solver
      && ws[i].ValidIn(vs) && ws[i].Generated()
  {
    forall i | 0 <= i < |ws|
      ensures prov.wingsNames[i] in prov.wingsData
      ensures ws[i].name == prov.wingsNames[i] && ws[i].solver == solver
      ensures ws[i].ValidIn(vs) && ws[i].Generated()
    {
      WingAt(prov, ws, prov.wingsNames, solver, vs, i);
    }
  }

  lemma WingsDerivedAppend(prov: Province, ws: seq<Wing>, w: Wing, names: seq<string>)
    requires Consistent(prov) && WingsDerived(prov, ws, names) && |ws| < |names|
    requires names[|ws|] in prov.wingsData && w.DerivedFrom(prov, names[|ws|])
    ensures WingsDerived(prov, ws + [w], names)
  {
    var ws' := ws + [w];
    assert ws'[..|ws'| - 1] == ws && ws'[|ws'| - 1] == w;
  }

  lemma WingsLiveAppend(ws: seq<Wing>, w: Wing, solver: Solver, vs: seq<VarInfo>)
    requires WingsLive(ws, solver, vs)
    requires w.solver == solver && w.ValidIn(vs) && w.Generated()
    ensures WingsLive(ws + [w], solver, vs)
  {
    var ws' := ws + [w];
    assert ws'[..|ws'| - 1] == ws && ws'[|ws'| - 1] == w;
  }

  lemma {:induction false} WingsGrow(ws: seq<Wing>, solver: Solver, vs: seq<VarInfo>, us: seq<VarInfo>)
    requires WingsLive(ws, solver, vs) && vs <= us
    ensures WingsLive(ws, solver, us)
    decreases |ws|
  {
    if ws != [] {
      ws[|ws| - 1].ValidGrows(vs, us);
      WingsGrow(ws[..|ws| - 1], solver, vs, us);
    }
  }

  /** `ws[j]` is the last wing of its name in `ws`. */
  ghost predicate LastWingOfName(ws: seq<Wing>, j: int) {
    0 <= j < |ws| && forall k :: j < k < |ws| ==> ws[k].name != ws[j].name
  }

  /** `{wing.name: wing for wing in wings}`: a later wing of the same name replaces an earlier one. */
  function WingsByName(ws: seq<Wing>): (d: map<string, Wing>)
    ensures forall w :: w in d <==> exists j :: 0 <= j < |ws| && ws[j].name == w
    ensures forall j {:trigger LastWingOfName(ws, j)} :: LastWingOfName(ws, j) ==> d[ws[j].name] == ws[j]
  {
    if ws == [] then map[]
    else
      var last := ws[|ws| - 1];
      var d := WingsByName(ws[..|ws| - 1])[last.name := last];
      assert forall j :: 0 <= j < |ws| - 1 ==> ws[..|ws| - 1][j] == ws[j];
      assert forall j :: LastWingOfName(ws, j) && j < |ws| - 1 ==> LastWingOfName(ws[..|ws| - 1], j);
      d
  }

  /** One iteration of the loop of `create_wings`: the wing of the next name. */
  method NextWing(prov: Province, solver: Solver, wings: seq<Wing>) returns (wing: Wing)
    requires Consistent(prov) && |wings| < |prov.wingsNames|
    requires WingsDerived(prov, wings, prov.wingsNames) && WingsLive(wings, solver, solver.vars)
    modifies solver
    ensures old(solver.vars) <= solver.vars
    ensures WingsDerived(prov, wings + [wing], prov.wingsNames) && WingsLive(wings + [wing], solver, solver.vars)
  {
    var name := prov.wingsNames[|wings|];
    assert name in prov.wingsData;
    wing := NewWing(prov, name, solver);
    WingsGrow(wings, solver, old(solver.vars), solver.vars);
    WingsDerivedAppend(prov, wings, wing, prov.wingsNames);
    WingsLiveAppend(wings, wing, solver, solver.vars);
  }

  /**
   * `create_wings`: the `i`-th wing is built for `wings_names[i]` and has generated
   * its variables, which stay valid while the later wings create theirs;
   * `wings_dict` maps each name to its wing.
   */
  method CreateWings(prov: Province, solver: Solver)
    returns (wings: seq<Wing>, wingsDict: map<string, Wing>)
    requires Consistent(prov)
    modifies solver
    ensures old(solver.vars) <= solver.vars
    ensures |wings| == |prov.wingsNames|
    ensures WingsDerived(prov, wings, prov.wingsNames) && WingsLive(wings, solver, solver.vars)
    ensures wingsDict == WingsByName(wings)
  {
    wings := [];
    while |wings| < |prov.wingsNames|
      invariant old(solver.vars) <= solver.vars
      invariant |wings| <= |prov.wingsNames|
      invariant WingsDerived(prov, wings, prov.wingsNames) && WingsLive(wings, solver, solver.vars)
      decreases |prov.wingsNames| - |wings|
    {
      var wing := NextWing(prov, solver, wings);
      wings := wings + [wing];
    }
    wingsDict := WingsByName(wings);
  }
}

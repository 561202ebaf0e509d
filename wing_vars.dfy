/**
 * `Wing` (wing.py): a wing of one district, the quantities it reads from
 * the district's `wings_data`, and its solver variables. As in `Party`,
 * each variable is created on first request by its `*_var` accessor and
 * remembered; `generate_variables` requests the whole index universe once.
 */
module WingVars {
  import opened Wrappers
  import opened Seqs
  import opened Provinces
  import opened MipSolver
  import opened Tables

  class Wing {
    const name: string
    const province: string
    const myVotes: nat
    const myParties: seq<string>
    const totalVotes: nat
    const otherVotes: int
    const otherWings: seq<string>
    const numSeats: nat
    /** The district's `wings_data`. */
    const wingsData: map<string, WingEntry>
    const solver: Solver

    var votes: Option<Handle>
    var deltaPosVotesByWing: map<string, Handle>
    var deltaNegVotesByWing: map<string, Handle>
    /** `__seats`: `{}` (falsy) until `seats_var` stores a variable. */
    var seats: Option<Handle>

    /** Every remembered variable exists in `vs` with the kind and bounds its accessor gives it. */
    ghost predicate ValidIn(vs: seq<VarInfo>)
      reads this
    {
      && (votes.Some? ==> Holds(vs, votes.value, VarInfo(Continuous, 0, totalVotes)))
      && (forall w :: w in deltaPosVotesByWing ==>
            w in wingsData && Holds(vs, deltaPosVotesByWing[w], VarInfo(Continuous, 0, wingsData[w].votes)))
      && (forall w :: w in deltaNegVotesByWing ==>
            Holds(vs, deltaNegVotesByWing[w], VarInfo(Continuous, 0, myVotes)))
      && (seats.Some? ==> Holds(vs, seats.value, VarInfo(Integer, 0, numSeats)))
    }

    /**
     * The quantities `Wing.__init__` (wing.py:8-21) reads for the wing
     * `name`: its entry of `wings_data` unchanged, the district's totals,
     * and the other wings.
     */
    ghost predicate DerivedFrom(prov: Province, name: string)
      requires Consistent(prov) && name in prov.wingsData
    {
      && this.name == name && province == prov.name
      && wingsData == prov.wingsData
      && myVotes == prov.wingsData[name].votes && myParties == prov.wingsData[name].parties
      && totalVotes == prov.totalVotes && numSeats == prov.numSeats
      && otherVotes == totalVotes - myVotes
      && (forall w :: w in otherWings <==> w in prov.wingsNames && w != name)
      && |otherWings| == |prov.wingsNames| - 1
    }

    /** The tables as `__init__` creates them: no variable yet. */
    ghost predicate Empty()
      reads this
    {
      votes.None? && seats.None? && deltaPosVotesByWing == map[] && deltaNegVotesByWing == map[]
    }

    /** The tables after `generate_variables` from empty ones. */
    ghost predicate Generated()
      reads this
    {
      && votes.Some? && seats.Some?
      && (forall w :: w in deltaPosVotesByWing <==> w in otherWings)
      && (forall w :: w in deltaNegVotesByWing <==> w in otherWings)
    }

    /**
     * `Wing.__init__` (wing.py:7-28) up to `generate_variables`. A name that
     * is not a key of `wings_data` would fail at `my_data.get('votes')`.
     */
    constructor (prov: Province, name: string, solver: Solver)
      requires Consistent(prov) && name in prov.wingsData
      ensures DerivedFrom(prov, name) && this.solver == solver
      ensures otherWings == Without(prov.wingsNames, name)
      ensures Empty()
    {
      this.name := name;
      this.solver := solver;
      province := prov.name;
      wingsData := prov.wingsData;
      myVotes := prov.wingsData[name].votes;
      myParties := prov.wingsData[name].parties;
      totalVotes := prov.totalVotes;
      otherVotes := prov.totalVotes - prov.wingsData[name].votes;
      otherWings := Without(prov.wingsNames, name);
      numSeats := prov.numSeats;
      votes := None;
      deltaPosVotesByWing := map[];
      deltaNegVotesByWing := map[];
      seats := None;
      new;
      WithoutLength(prov.wingsNames, name);
    }

    /**
     * `generate_variables` (wing.py:70-76): votes, seats, then for every
     * other wing its `delta_neg` and its `delta_pos`. Existing entries are
     * kept; the delta tables end up holding their old keys plus `other_wings`.
     */
    method GenerateVariables()
      requires ValidIn(solver.vars)
      requires forall w :: w in otherWings ==> w in wingsData
      modifies this`votes, this`seats, this`deltaPosVotesByWing, this`deltaNegVotesByWing, solver
      ensures ValidIn(solver.vars) && old(solver.vars) <= solver.vars
      ensures votes.Some? && (old(votes).Some? ==> votes == old(votes))
      ensures seats.Some? && (old(seats).Some? ==> seats == old(seats))
      ensures forall w :: w in deltaPosVotesByWing <==> w in old(deltaPosVotesByWing) || w in otherWings
      ensures Extends(old(deltaPosVotesByWing), deltaPosVotesByWing)
      ensures forall w :: w in deltaNegVotesByWing <==> w in old(deltaNegVotesByWing) || w in otherWings
      ensures Extends(old(deltaNegVotesByWing), deltaNegVotesByWing)
      ensures old(Empty()) ==> Generated()
    {
      var _ := VotesVar();
      var _ := SeatsVar();
      GenerateDeltas();
    }

    /** The `w in other_wings` loop of `generate_variables`. */
    method GenerateDeltas()
      requires ValidIn(solver.vars)
      requires forall w :: w in otherWings ==> w in wingsData
      modifies this`deltaPosVotesByWing, this`deltaNegVotesByWing, solver
      ensures ValidIn(solver.vars) && old(solver.vars) <= solver.vars
      ensures forall w :: w in deltaPosVotesByWing <==> w in old(deltaPosVotesByWing) || w in otherWings
      ensures Extends(old(deltaPosVotesByWing), deltaPosVotesByWing)
      ensures forall w :: w in deltaNegVotesByWing <==> w in old(deltaNegVotesByWing) || w in otherWings
      ensures Extends(old(deltaNegVotesByWing), deltaNegVotesByWing)
    {
      ghost var v0 := solver.vars;
      ghost var pos0, neg0 := deltaPosVotesByWing, deltaNegVotesByWing;
      for j := 0 to |otherWings|
        invariant ValidIn(solver.vars) && v0 <= solver.vars
        invariant forall w :: w in deltaPosVotesByWing <==> w in pos0 || w in otherWings[..j]
        invariant Extends(pos0, deltaPosVotesByWing)
        invariant forall w :: w in deltaNegVotesByWing <==> w in neg0 || w in otherWings[..j]
        invariant Extends(neg0, deltaNegVotesByWing)
      {
        assert otherWings[..j + 1] == otherWings[..j] + [otherWings[j]];
        GenerateDeltasFor(otherWings[j]);
      }
      assert otherWings[..|otherWings|] == otherWings;
    }

    /** One iteration of the `other_wings` loop: the two deltas towards wing `w`. */
    method GenerateDeltasFor(w: string)
      requires ValidIn(solver.vars) && w in wingsData
      modifies this`deltaPosVotesByWing, this`deltaNegVotesByWing, solver
      ensures ValidIn(solver.vars) && old(solver.vars) <= solver.vars
      ensures forall x :: x in deltaPosVotesByWing <==> x in old(deltaPosVotesByWing) || x == w
      ensures Extends(old(deltaPosVotesByWing), deltaPosVotesByWing)
      ensures forall x :: x in deltaNegVotesByWing <==> x in old(deltaNegVotesByWing) || x == w
      ensures Extends(old(deltaNegVotesByWing), deltaNegVotesByWing)
    {
      var _ := DeltaNegVotesByWingVar(w);
      var _ := DeltaPosVotesByWingVar(w);
    }

    /** Other objects sharing the solver may create variables; this wing's stay valid. */
    lemma ValidGrows(vs: seq<VarInfo>, ws: seq<VarInfo>)
      requires ValidIn(vs) && vs <= ws
      ensures ValidIn(ws)
    {
      forall h, info | Holds(vs, h, info)
        ensures Holds(ws, h, info)
      {
        HoldsGrows(vs, ws, h, info);
      }
    }

    /** `votes_var` (wing.py:47-50): final votes, in `[0, total_votes]`. */
    method VotesVar() returns (h: Handle)
      requires ValidIn(solver.vars)
      modifies this`votes, solver
      ensures ValidIn(solver.vars)
      ensures votes == Some(h) && Holds(solver.vars, h, VarInfo(Continuous, 0, totalVotes))
      ensures old(votes).Some? ==> h == old(votes).value && solver.vars == old(solver.vars)
      ensures old(votes).None? ==>
        h == |old(solver.vars)| && solver.vars == old(solver.vars) + [VarInfo(Continuous, 0, totalVotes)]
    {
      if votes.None? {
        var v := solver.NewVar(Continuous, 0, totalVotes);
        ValidGrows(old(solver.vars), solver.vars);
        votes := Some(v);
      }
      h := votes.value;
    }

    /**
     * `delta_pos_votes_by_wing_var` (wing.py:52-56): votes won from wing `w`,
     * in `[0, votes(w)]`. An unknown `w` would fail at `wings_data.get(w).get`.
     */
    method DeltaPosVotesByWingVar(w: string) returns (h: Handle)
      requires ValidIn(solver.vars) && w in wingsData
      modifies this`deltaPosVotesByWing, solver
      ensures ValidIn(solver.vars)
      ensures deltaPosVotesByWing == old(deltaPosVotesByWing)[w := h]
      ensures Holds(solver.vars, h, VarInfo(Continuous, 0, wingsData[w].votes))
      ensures w in old(deltaPosVotesByWing) ==>
        h == old(deltaPosVotesByWing)[w] && deltaPosVotesByWing == old(deltaPosVotesByWing)
        && solver.vars == old(solver.vars)
      ensures w !in old(deltaPosVotesByWing) ==>
        h == |old(solver.vars)| && solver.vars == old(solver.vars) + [VarInfo(Continuous, 0, wingsData[w].votes)]
    {
      if w !in deltaPosVotesByWing {
        var v := solver.NewVar(Continuous, 0, wingsData[w].votes);
        ValidGrows(old(solver.vars), solver.vars);
        deltaPosVotesByWing := deltaPosVotesByWing[w := v];
      }
      h := deltaPosVotesByWing[w];
    }

    /** `delta_neg_votes_by_wing_var` (wing.py:58-61): votes lost to wing `w`, in `[0, my_votes]`. */
    method DeltaNegVotesByWingVar(w: string) returns (h: Handle)
      requires ValidIn(solver.vars)
      modifies this`deltaNegVotesByWing, solver
      ensures ValidIn(solver.vars)
      ensures deltaNegVotesByWing == old(deltaNegVotesByWing)[w := h]
      ensures Holds(solver.vars, h, VarInfo(Continuous, 0, myVotes))
      ensures w in old(deltaNegVotesByWing) ==>
        h == old(deltaNegVotesByWing)[w] && deltaNegVotesByWing == old(deltaNegVotesByWing)
        && solver.vars == old(solver.vars)
      ensures w !in old(deltaNegVotesByWing) ==>
        h == |old(solver.vars)| && solver.vars == old(solver.vars) + [VarInfo(Continuous, 0, myVotes)]
    {
      if w !in deltaNegVotesByWing {
        var v := solver.NewVar(Continuous, 0, myVotes);
        ValidGrows(old(solver.vars), solver.vars);
        deltaNegVotesByWing := deltaNegVotesByWing[w := v];
      }
      h := deltaNegVotesByWing[w];
    }

    /** `seats_var` (wing.py:63-66): final seats, in `[0, num_seats]`. */
    method SeatsVar() returns (h: Handle)
      requires ValidIn(solver.vars)
      modifies this`seats, solver
      ensures ValidIn(solver.vars)
      ensures seats == Some(h) && Holds(solver.vars, h, VarInfo(Integer, 0, numSeats))
      ensures old(seats).Some? ==> h == old(seats).value && solver.vars == old(solver.vars)
      ensures old(seats).None? ==>
        h == |old(solver.vars)| && solver.vars == old(solver.vars) + [VarInfo(Integer, 0, numSeats)]
    {
      if seats.None? {
        var v := solver.NewVar(Integer, 0, numSeats);
        ValidGrows(old(solver.vars), solver.vars);
        seats := Some(v);
      }
      h := seats.value;
    }
  }

  /**
   * `Wing(name, province)` (wing.py:7-32): the wing with the quantities it
   * reads, whose `generate_variables` has created its votes and seats and a
   * `delta_neg` and a `delta_pos` for exactly the other wings.
   */
  method NewWing(prov: Province, name: string, solver: Solver) returns (w: Wing)
    requires Consistent(prov) && name in prov.wingsData
    modifies solver
    ensures fresh(w) && w.solver == solver && w.DerivedFrom(prov, name)
    ensures w.ValidIn(solver.vars) && old(solver.vars) <= solver.vars
    ensures w.Generated()
  {
    w := new Wing(prov, name, solver);
    w.GenerateVariables();
  }
}

/**
 * `Party` (party.py): a party of one district, the quantities it derives
 * from its district, and its solver variables. Each variable is created on
 * first request by its `*_var` accessor and remembered in a private dict;
 * `generate_variables` requests the whole index universe once.
 */
module PartyVars {
  import opened Wrappers
  import opened Seqs
  import opened Ballot
  import opened Provinces
  import opened MipSolver
  import opened Tables

  class Party {
    const name: string
    const province: string
    const myWing: string
    const myVotes: nat
    const numSeats: nat
    const totalVotes: nat
    const otherVotes: int
    const otherParties: seq<string>
    const partiesNumber: nat
    const firstContestedSeat: nat
    /** `lastline_S[name]`: the seats this party holds before the first contested seat. */
    const sij: nat
    /** `parties_data[q]["votes"]` for every party `q` of the district. */
    const votesOf: map<string, nat>
    /** The party's position in `parties_data`. */
    ghost const index: nat
    const solver: Solver

    var votes: Option<Handle>
    var deltaPosVotesByParty: map<string, Handle>
    var deltaNegVotesByParty: map<string, Handle>
    var seatKIsAssigned: map<int, Handle>
    var seatsBeforeK: map<int, Handle>
    var quotientBeforeK: map<int, Handle>
    var seatsBeforeKIndicators: map<(int, int), Handle>
    var partialWinsIndicators: map<(int, string), Handle>
    var roundWinsIndicators: map<int, Handle>
    var seats: Option<Handle>

    /** Every remembered variable exists in `vs` with the kind and bounds its accessor gives it. */
    ghost predicate ValidIn(vs: seq<VarInfo>)
      reads this
    {
      && (votes.Some? ==> Holds(vs, votes.value, VarInfo(Continuous, 0, totalVotes)))
      && (forall q :: q in deltaPosVotesByParty ==>
            q in votesOf && Holds(vs, deltaPosVotesByParty[q], VarInfo(Continuous, 0, votesOf[q])))
      && (forall q :: q in deltaNegVotesByParty ==>
            Holds(vs, deltaNegVotesByParty[q], VarInfo(Continuous, 0, myVotes)))
      && (forall k :: k in seatKIsAssigned ==> Holds(vs, seatKIsAssigned[k], BoolInfo))
      && (forall k :: k in seatsBeforeK ==> Holds(vs, seatsBeforeK[k], VarInfo(Integer, 0, k - 1)))
      && (forall k :: k in quotientBeforeK ==>
            Holds(vs, quotientBeforeK[k], VarInfo(Continuous, 0, totalVotes)))
      && (forall km :: km in seatsBeforeKIndicators ==> Holds(vs, seatsBeforeKIndicators[km], BoolInfo))
      && (forall kq :: kq in partialWinsIndicators ==> Holds(vs, partialWinsIndicators[kq], BoolInfo))
      && (forall k :: k in roundWinsIndicators ==>
            Holds(vs, roundWinsIndicators[k], VarInfo(Integer, 0, partiesNumber - 1)))
      && (seats.Some? ==> Holds(vs, seats.value, VarInfo(Integer, 0, numSeats)))
    }

    /**
     * The quantities `Party.__init__` (party.py:7-33) derives from the
     * district for the party `name`: its wing and votes, the district's
     * totals, the other parties, and `lastline_S[name]`.
     */
    ghost predicate DerivedFrom(prov: Province, name: string)
      requires Consistent(prov) && name in prov.partiesNames
    {
      && this.name == name && province == prov.name
      && index < |prov.partiesData| && prov.partiesData[index].name == name
      && myVotes == prov.partiesData[index].votes && myWing == prov.partiesData[index].wing
      && sij == prov.lastlineS[index]
      && numSeats == prov.numSeats && totalVotes == prov.totalVotes
      && firstContestedSeat == prov.firstContestedSeat
      && partiesNumber == |prov.partiesNames|
      && (forall q :: q in votesOf <==> q in prov.partiesNames)
      && (forall j :: 0 <= j < |prov.partiesData| ==>
            prov.partiesData[j].name in votesOf && votesOf[prov.partiesData[j].name] == prov.partiesData[j].votes)
      && otherVotes == totalVotes - myVotes
      && (forall q :: q in otherParties <==> q in prov.partiesNames && q != name)
      && |otherParties| == partiesNumber - 1
    }

    /**
     * `Party.__init__` (party.py:7-33) up to `generate_variables`: the derived
     * quantities and empty tables. A name that is not a party of the district
     * would fail at `parties_data.get(name).get('wing')`.
     */
    constructor (prov: Province, name: string, solver: Solver)
      requires Consistent(prov) && name in prov.partiesNames
      ensures DerivedFrom(prov, name) && this.solver == solver
      ensures otherParties == Without(prov.partiesNames, name)
      ensures Empty()
    {
      var ps := prov.partiesData;
      NamesListed(ps, name);
      var i := IndexOf(ps, name);
      index := i;
      this.name := name;
      this.solver := solver;
      province := prov.name;
      myWing := ps[i].wing;
      myVotes := ps[i].votes;
      numSeats := prov.numSeats;
      totalVotes := prov.totalVotes;
      otherVotes := prov.totalVotes - ps[i].votes;
      otherParties := Without(prov.partiesNames, name);
      partiesNumber := |prov.partiesNames|;
      firstContestedSeat := prov.firstContestedSeat;
      sij := prov.lastlineS[i];
      votesOf := VotesByName(ps);
      votes := None;
      deltaPosVotesByParty := map[];
      deltaNegVotesByParty := map[];
      seatKIsAssigned := map[];
      seatsBeforeK := map[];
      quotientBeforeK := map[];
      seatsBeforeKIndicators := map[];
      partialWinsIndicators := map[];
      roundWinsIndicators := map[];
      seats := None;
      new;
      WithoutLength(prov.partiesNames, name);
      NamesVoted(ps);
    }

    /** The tables as `__init__` creates them: no variable yet. */
    ghost predicate Empty()
      reads this
    {
      && votes.None? && seats.None?
      && deltaPosVotesByParty == map[] && deltaNegVotesByParty == map[]
      && seatKIsAssigned == map[] && roundWinsIndicators == map[] && partialWinsIndicators == map[]
      && seatsBeforeK == map[] && quotientBeforeK == map[] && seatsBeforeKIndicators == map[]
    }

    /**
     * The tables after `generate_variables` from empty ones: each holds a
     * variable for exactly the keys the loops request.
     */
    ghost predicate Generated()
      reads this
    {
      && votes.Some? && seats.Some?
      && (forall q :: q in deltaPosVotesByParty <==> q in otherParties)
      && (forall q :: q in deltaNegVotesByParty <==> q in otherParties)
      && (forall k :: k in seatKIsAssigned <==> ContestedRound(k))
      && (forall k :: k in roundWinsIndicators <==> ContestedRound(k))
      && (forall k, q :: (k, q) in partialWinsIndicators <==> ContestedRound(k) && q in otherParties)
      && (forall k :: k in seatsBeforeK <==> LaterRound(k))
      && (forall k :: k in quotientBeforeK <==> LaterRound(k))
      && (forall k, m :: (k, m) in seatsBeforeKIndicators <==> LaterRound(k) && sij <= m < k)
    }

    /** A round of `range(first_contested_seat, num_seats + 1)`: a seat still to be decided. */
    predicate ContestedRound(k: int) {
      firstContestedSeat <= k <= numSeats
    }

    /** A round of `range(first_contested_seat + 1, num_seats + 1)`: one entered after a contested seat. */
    predicate LaterRound(k: int) {
      firstContestedSeat + 1 <= k <= numSeats
    }

    /**
     * `generate_variables` (party.py:129-147): requests votes and seats, the
     * two deltas for every other party, the round-`k` variables for every
     * contested round `k`, and the entering-round variables for every later
     * round `k` with an indicator for every `m` in `range(sij, k)`. Existing
     * entries are kept; the tables end up holding their old keys plus this
     * universe, and nothing else.
     */
    method GenerateVariables()
      requires ValidIn(solver.vars)
      requires forall q :: q in otherParties ==> q in votesOf
      modifies this`votes, this`seats, this`deltaPosVotesByParty, this`deltaNegVotesByParty,
               this`seatKIsAssigned, this`roundWinsIndicators, this`partialWinsIndicators,
               this`seatsBeforeK, this`quotientBeforeK, this`seatsBeforeKIndicators, solver
      ensures ValidIn(solver.vars) && old(solver.vars) <= solver.vars
      ensures votes.Some? && (old(votes).Some? ==> votes == old(votes))
      ensures seats.Some? && (old(seats).Some? ==> seats == old(seats))
      ensures forall q :: q in deltaPosVotesByParty <==> q in old(deltaPosVotesByParty) || q in otherParties
      ensures Extends(old(deltaPosVotesByParty), deltaPosVotesByParty)
      ensures forall q :: q in deltaNegVotesByParty <==> q in old(deltaNegVotesByParty) || q in otherParties
      ensures Extends(old(deltaNegVotesByParty), deltaNegVotesByParty)
      ensures forall k :: k in seatKIsAssigned <==> k in old(seatKIsAssigned) || ContestedRound(k)
      ensures Extends(old(seatKIsAssigned), seatKIsAssigned)
      ensures forall k :: k in roundWinsIndicators <==> k in old(roundWinsIndicators) || ContestedRound(k)
      ensures Extends(old(roundWinsIndicators), roundWinsIndicators)
      ensures forall k, q :: (k, q) in partialWinsIndicators <==>
        (k, q) in old(partialWinsIndicators) || (ContestedRound(k) && q in otherParties)
      ensures Extends(old(partialWinsIndicators), partialWinsIndicators)
      ensures forall k :: k in seatsBeforeK <==> k in old(seatsBeforeK) || LaterRound(k)
      ensures Extends(old(seatsBeforeK), seatsBeforeK)
      ensures forall k :: k in quotientBeforeK <==> k in old(quotientBeforeK) || LaterRound(k)
      ensures Extends(old(quotientBeforeK), quotientBeforeK)
      ensures forall k, m :: (k, m) in seatsBeforeKIndicators <==>
        (k, m) in old(seatsBeforeKIndicators) || (LaterRound(k) && sij <= m < k)
      ensures Extends(old(seatsBeforeKIndicators), seatsBeforeKIndicators)
      ensures old(Empty()) ==> Generated()
    {
      GenerateTotals();
      GenerateDeltas();
      GenerateRounds();
    }

    /** `votes_var()` and `seats_var()`. */
    method GenerateTotals()
      requires ValidIn(solver.vars)
      modifies this`votes, this`seats, solver
      ensures ValidIn(solver.vars) && old(solver.vars) <= solver.vars
      ensures votes.Some? && (old(votes).Some? ==> votes == old(votes))
      ensures seats.Some? && (old(seats).Some? ==> seats == old(seats))
    {
      var _ := VotesVar();
      var _ := SeatsVar();
    }

    /** The two round loops of `generate_variables`. */
    method GenerateRounds()
      requires ValidIn(solver.vars)
      modifies this`seatKIsAssigned, this`roundWinsIndicators, this`partialWinsIndicators,
               this`seatsBeforeK, this`quotientBeforeK, this`seatsBeforeKIndicators, solver
      ensures ValidIn(solver.vars) && old(solver.vars) <= solver.vars
      ensures forall k :: k in seatKIsAssigned <==> k in old(seatKIsAssigned) || ContestedRound(k)
      ensures Extends(old(seatKIsAssigned), seatKIsAssigned)
      ensures forall k :: k in roundWinsIndicators <==> k in old(roundWinsIndicators) || ContestedRound(k)
      ensures Extends(old(roundWinsIndicators), roundWinsIndicators)
      ensures forall k, q :: (k, q) in partialWinsIndicators <==>
        (k, q) in old(partialWinsIndicators) || (ContestedRound(k) && q in otherParties)
      ensures Extends(old(partialWinsIndicators), partialWinsIndicators)
      ensures forall k :: k in seatsBeforeK <==> k in old(seatsBeforeK) || LaterRound(k)
      ensures Extends(old(seatsBeforeK), seatsBeforeK)
      ensures forall k :: k in quotientBeforeK <==> k in old(quotientBeforeK) || LaterRound(k)
      ensures Extends(old(quotientBeforeK), quotientBeforeK)
      ensures forall k, m :: (k, m) in seatsBeforeKIndicators <==>
        (k, m) in old(seatsBeforeKIndicators) || (LaterRound(k) && sij <= m < k)
      ensures Extends(old(seatsBeforeKIndicators), seatsBeforeKIndicators)
    {
      GenerateContestedRounds();
      GenerateLaterRounds();
    }

    /** The `q in other_parties` loop of `generate_variables`: both deltas for each other party. */
    method GenerateDeltas()
      requires ValidIn(solver.vars)
      requires forall q :: q in otherParties ==> q in votesOf
      modifies this`deltaPosVotesByParty, this`deltaNegVotesByParty, solver
      ensures ValidIn(solver.vars) && old(solver.vars) <= solver.vars
      ensures forall q :: q in deltaPosVotesByParty <==> q in old(deltaPosVotesByParty) || q in otherParties
      ensures Extends(old(deltaPosVotesByParty), deltaPosVotesByParty)
      ensures forall q :: q in deltaNegVotesByParty <==> q in old(deltaNegVotesByParty) || q in otherParties
      ensures Extends(old(deltaNegVotesByParty), deltaNegVotesByParty)
    {
      ghost var v0 := solver.vars;
      ghost var pos0, neg0 := deltaPosVotesByParty, deltaNegVotesByParty;
      for j := 0 to |otherParties|
        invariant ValidIn(solver.vars) && v0 <= solver.vars
        invariant forall q :: q in deltaPosVotesByParty <==> q in pos0 || q in otherParties[..j]
        invariant Extends(pos0, deltaPosVotesByParty)
        invariant forall q :: q in deltaNegVotesByParty <==> q in neg0 || q in otherParties[..j]
        invariant Extends(neg0, deltaNegVotesByParty)
      {
        assert otherParties[..j + 1] == otherParties[..j] + [otherParties[j]];
        GenerateDeltasFor(otherParties[j]);
      }
      assert otherParties[..|otherParties|] == otherParties;
    }

    /** One iteration of the `other_parties` loop: the two deltas towards party `q`. */
    method GenerateDeltasFor(q: string)
      requires ValidIn(solver.vars) && q in votesOf
      modifies this`deltaPosVotesByParty, this`deltaNegVotesByParty, solver
      ensures ValidIn(solver.vars) && old(solver.vars) <= solver.vars
      ensures forall x :: x in deltaPosVotesByParty <==> x in old(deltaPosVotesByParty) || x == q
      ensures Extends(old(deltaPosVotesByParty), deltaPosVotesByParty)
      ensures forall x :: x in deltaNegVotesByParty <==> x in old(deltaNegVotesByParty) || x == q
      ensures Extends(old(deltaNegVotesByParty), deltaNegVotesByParty)
    {
      var _ := DeltaPosVotesByPartyVar(q);
      var _ := DeltaNegVotesByPartyVar(q);
    }

    /** The `k in range(first_contested_seat, num_seats + 1)` loop of `generate_variables`. */
    method GenerateContestedRounds()
      requires ValidIn(solver.vars)
      modifies this`seatKIsAssigned, this`roundWinsIndicators, this`partialWinsIndicators, solver
      ensures ValidIn(solver.vars) && old(solver.vars) <= solver.vars
      ensures forall k :: k in seatKIsAssigned <==> k in old(seatKIsAssigned) || ContestedRound(k)
      ensures Extends(old(seatKIsAssigned), seatKIsAssigned)
      ensures forall k :: k in roundWinsIndicators <==> k in old(roundWinsIndicators) || ContestedRound(k)
      ensures Extends(old(roundWinsIndicators), roundWinsIndicators)
      ensures forall k, q :: (k, q) in partialWinsIndicators <==>
        (k, q) in old(partialWinsIndicators) || (ContestedRound(k) && q in otherParties)
      ensures Extends(old(partialWinsIndicators), partialWinsIndicators)
    {
      ghost var v0 := solver.vars;
      ghost var seat0, round0, wins0 := seatKIsAssigned, roundWinsIndicators, partialWinsIndicators;
      var k := firstContestedSeat;
      while k <= numSeats
        invariant k == firstContestedSeat || firstContestedSeat <= k <= numSeats + 1
        invariant ValidIn(solver.vars) && v0 <= solver.vars
        invariant forall k' :: k' in seatKIsAssigned <==> k' in seat0 || firstContestedSeat <= k' < k
        invariant Extends(seat0, seatKIsAssigned)
        invariant forall k' :: k' in roundWinsIndicators <==> k' in round0 || firstContestedSeat <= k' < k
        invariant Extends(round0, roundWinsIndicators)
        invariant forall k', q :: (k', q) in partialWinsIndicators <==>
          (k', q) in wins0 || (firstContestedSeat <= k' < k && q in otherParties)
        invariant Extends(wins0, partialWinsIndicators)
        decreases numSeats - k
      {
        GenerateContestedRound(k);
        k := k + 1;
      }
    }

    /** One round `k` of the contested loop: its two variables and its duel indicators. */
    method GenerateContestedRound(k: int)
      requires ValidIn(solver.vars)
      modifies this`seatKIsAssigned, this`roundWinsIndicators, this`partialWinsIndicators, solver
      ensures ValidIn(solver.vars) && old(solver.vars) <= solver.vars
      ensures forall k' :: k' in seatKIsAssigned <==> k' in old(seatKIsAssigned) || k' == k
      ensures Extends(old(seatKIsAssigned), seatKIsAssigned)
      ensures forall k' :: k' in roundWinsIndicators <==> k' in old(roundWinsIndicators) || k' == k
      ensures Extends(old(roundWinsIndicators), roundWinsIndicators)
      ensures forall k', q :: (k', q) in partialWinsIndicators <==>
        (k', q) in old(partialWinsIndicators) || (k' == k && q in otherParties)
      ensures Extends(old(partialWinsIndicators), partialWinsIndicators)
    {
      GenerateRoundVars(k);
      GenerateDuels(k);
    }

    /** `seat_k_is_assigned_var(k)` and `round_wins_indicators_var(k)`. */
    method GenerateRoundVars(k: int)
      requires ValidIn(solver.vars)
      modifies this`seatKIsAssigned, this`roundWinsIndicators, solver
      ensures ValidIn(solver.vars) && old(solver.vars) <= solver.vars
      ensures forall k' :: k' in seatKIsAssigned <==> k' in old(seatKIsAssigned) || k' == k
      ensures Extends(old(seatKIsAssigned), seatKIsAssigned)
      ensures forall k' :: k' in roundWinsIndicators <==> k' in old(roundWinsIndicators) || k' == k
      ensures Extends(old(roundWinsIndicators), roundWinsIndicators)
    {
      var _ := SeatKIsAssignedVar(k);
      var _ := RoundWinsIndicatorsVar(k);
    }

    /** The `q in other_parties` loop inside round `k`: one duel indicator per other party. */
    method GenerateDuels(k: int)
      requires ValidIn(solver.vars)
      modifies this`partialWinsIndicators, solver
      ensures ValidIn(solver.vars) && old(solver.vars) <= solver.vars
      ensures forall k', q :: (k', q) in partialWinsIndicators <==>
        (k', q) in old(partialWinsIndicators) || (k' == k && q in otherParties)
      ensures Extends(old(partialWinsIndicators), partialWinsIndicators)
    {
      ghost var v0 := solver.vars;
      ghost var wins0 := partialWinsIndicators;
      for j := 0 to |otherParties|
        invariant ValidIn(solver.vars) && v0 <= solver.vars
        invariant forall k', q :: (k', q) in partialWinsIndicators <==>
          (k', q) in wins0 || (k' == k && q in otherParties[..j])
        invariant Extends(wins0, partialWinsIndicators)
      {
        assert otherParties[..j + 1] == otherParties[..j] + [otherParties[j]];
        var _ := PartialWinsIndicatorsVar(k, otherParties[j]);
      }
      assert otherParties[..|otherParties|] == otherParties;
    }

    /** The `k in range(first_contested_seat + 1, num_seats + 1)` loop of `generate_variables`. */
    method GenerateLaterRounds()
      requires ValidIn(solver.vars)
      modifies this`seatsBeforeK, this`quotientBeforeK, this`seatsBeforeKIndicators, solver
      ensures ValidIn(solver.vars) && old(solver.vars) <= solver.vars
      ensures forall k :: k in seatsBeforeK <==> k in old(seatsBeforeK) || LaterRound(k)
      ensures Extends(old(seatsBeforeK), seatsBeforeK)
      ensures forall k :: k in quotientBeforeK <==> k in old(quotientBeforeK) || LaterRound(k)
      ensures Extends(old(quotientBeforeK), quotientBeforeK)
      ensures forall k, m :: (k, m) in seatsBeforeKIndicators <==>
        (k, m) in old(seatsBeforeKIndicators) || (LaterRound(k) && sij <= m < k)
      ensures Extends(old(seatsBeforeKIndicators), seatsBeforeKIndicators)
    {
      ghost var v0 := solver.vars;
      ghost var before0, quot0, ind0 := seatsBeforeK, quotientBeforeK, seatsBeforeKIndicators;
      var k := firstContestedSeat + 1;
      while k <= numSeats
        invariant k == firstContestedSeat + 1 || firstContestedSeat + 1 <= k <= numSeats + 1
        invariant ValidIn(solver.vars) && v0 <= solver.vars
        invariant forall k' :: k' in seatsBeforeK <==> k' in before0 || firstContestedSeat + 1 <= k' < k
        invariant Extends(before0, seatsBeforeK)
        invariant forall k' :: k' in quotientBeforeK <==> k' in quot0 || firstContestedSeat + 1 <= k' < k
        invariant Extends(quot0, quotientBeforeK)
        invariant forall k', m :: (k', m) in seatsBeforeKIndicators <==>
          (k', m) in ind0 || (firstContestedSeat + 1 <= k' < k && sij <= m < k')
        invariant Extends(ind0, seatsBeforeKIndicators)
        decreases numSeats - k
      {
        GenerateLaterRound(k);
        k := k + 1;
      }
    }

    /** One round `k` of the later loop: its two variables and its held-seats indicators. */
    method GenerateLaterRound(k: int)
      requires ValidIn(solver.vars)
      modifies this`seatsBeforeK, this`quotientBeforeK, this`seatsBeforeKIndicators, solver
      ensures ValidIn(solver.vars) && old(solver.vars) <= solver.vars
      ensures forall k' :: k' in seatsBeforeK <==> k' in old(seatsBeforeK) || k' == k
      ensures Extends(old(seatsBeforeK), seatsBeforeK)
      ensures forall k' :: k' in quotientBeforeK <==> k' in old(quotientBeforeK) || k' == k
      ensures Extends(old(quotientBeforeK), quotientBeforeK)
      ensures forall k', m :: (k', m) in seatsBeforeKIndicators <==>
        (k', m) in old(seatsBeforeKIndicators) || (k' == k && sij <= m < k)
      ensures Extends(old(seatsBeforeKIndicators), seatsBeforeKIndicators)
    {
      GenerateEnteringVars(k);
      GenerateHeldIndicators(k);
    }

    /** `seats_before_k_var(k)` and `quotient_before_k_var(k)`. */
    method GenerateEnteringVars(k: int)
      requires ValidIn(solver.vars)
      modifies this`seatsBeforeK, this`quotientBeforeK, solver
      ensures ValidIn(solver.vars) && old(solver.vars) <= solver.vars
      ensures forall k' :: k' in seatsBeforeK <==> k' in old(seatsBeforeK) || k' == k
      ensures Extends(old(seatsBeforeK), seatsBeforeK)
      ensures forall k' :: k' in quotientBeforeK <==> k' in old(quotientBeforeK) || k' == k
      ensures Extends(old(quotientBeforeK), quotientBeforeK)
    {
      var _ := SeatsBeforeKVar(k);
      var _ := QuotientBeforeKVar(k);
    }

    /** The `m in range(sij, k)` loop inside round `k`: one indicator per possible seat count. */
    method GenerateHeldIndicators(k: int)
      requires ValidIn(solver.vars)
      modifies this`seatsBeforeKIndicators, solver
      ensures ValidIn(solver.vars) && old(solver.vars) <= solver.vars
      ensures forall k', m :: (k', m) in seatsBeforeKIndicators <==>
        (k', m) in old(seatsBeforeKIndicators) || (k' == k && sij <= m < k)
      ensures Extends(old(seatsBeforeKIndicators), seatsBeforeKIndicators)
    {
      ghost var v0 := solver.vars;
      ghost var ind0 := seatsBeforeKIndicators;
      var m := sij;
      while m < k
        invariant m == sij || sij <= m <= k
        invariant ValidIn(solver.vars) && v0 <= solver.vars
        invariant forall k', m' :: (k', m') in seatsBeforeKIndicators <==>
          (k', m') in ind0 || (k' == k && sij <= m' < m)
        invariant Extends(ind0, seatsBeforeKIndicators)
        decreases k - m
      {
        var _ := SeatsBeforeKIndicatorsVar(k, m);
        m := m + 1;
      }
    }

    /** Other objects sharing the solver may create variables; this party's stay valid. */
    lemma ValidGrows(vs: seq<VarInfo>, ws: seq<VarInfo>)
      requires ValidIn(vs) && vs <= ws
      ensures ValidIn(ws)
    {
      forall h, info | Holds(vs, h, info)
        ensures Holds(ws, h, info)
      {
        HoldsGrows(vs, ws, h, info);
      }
    }

    /** `votes_var` (party.py:60-67): final votes, in `[0, total_votes]`. */
    method VotesVar() returns (h: Handle)
      requires ValidIn(solver.vars)
      modifies this`votes, solver
      ensures ValidIn(solver.vars)
      ensures votes == Some(h) && Holds(solver.vars, h, VarInfo(Continuous, 0, totalVotes))
      ensures old(votes).Some? ==> h == old(votes).value && solver.vars == old(solver.vars)
      ensures old(votes).None? ==>
        h == |old(solver.vars)| && solver.vars == old(solver.vars) + [VarInfo(Continuous, 0, totalVotes)]
    {
      if votes.None? {
        var v := solver.NewVar(Continuous, 0, totalVotes);
        ValidGrows(old(solver.vars), solver.vars);
        votes := Some(v);
      }
      h := votes.value;
    }

    /** `delta_pos_votes_by_party_var` (party.py:69-77): votes won from `q`, in `[0, votes(q)]`. */
    method DeltaPosVotesByPartyVar(q: string) returns (h: Handle)
      requires ValidIn(solver.vars) && q in votesOf
      modifies this`deltaPosVotesByParty, solver
      ensures ValidIn(solver.vars)
      ensures deltaPosVotesByParty == old(deltaPosVotesByParty)[q := h]
      ensures Holds(solver.vars, h, VarInfo(Continuous, 0, votesOf[q]))
      ensures q in old(deltaPosVotesByParty) ==>
        h == old(deltaPosVotesByParty)[q] && deltaPosVotesByParty == old(deltaPosVotesByParty)
        && solver.vars == old(solver.vars)
      ensures q !in old(deltaPosVotesByParty) ==>
        h == |old(solver.vars)| && solver.vars == old(solver.vars) + [VarInfo(Continuous, 0, votesOf[q])]
    {
      if q !in deltaPosVotesByParty {
        var v := solver.NewVar(Continuous, 0, votesOf[q]);
        ValidGrows(old(solver.vars), solver.vars);
        deltaPosVotesByParty := deltaPosVotesByParty[q := v];
      }
      h := deltaPosVotesByParty[q];
    }

    /** `delta_neg_votes_by_party_var` (party.py:79-86): votes lost to `q`, in `[0, my_votes]`. */
    method DeltaNegVotesByPartyVar(q: string) returns (h: Handle)
      requires ValidIn(solver.vars)
      modifies this`deltaNegVotesByParty, solver
      ensures ValidIn(solver.vars)
      ensures deltaNegVotesByParty == old(deltaNegVotesByParty)[q := h]
      ensures Holds(solver.vars, h, VarInfo(Continuous, 0, myVotes))
      ensures q in old(deltaNegVotesByParty) ==>
        h == old(deltaNegVotesByParty)[q] && deltaNegVotesByParty == old(deltaNegVotesByParty)
        && solver.vars == old(solver.vars)
      ensures q !in old(deltaNegVotesByParty) ==>
        h == |old(solver.vars)| && solver.vars == old(solver.vars) + [VarInfo(Continuous, 0, myVotes)]
    {
      if q !in deltaNegVotesByParty {
        var v := solver.NewVar(Continuous, 0, myVotes);
        ValidGrows(old(solver.vars), solver.vars);
        deltaNegVotesByParty := deltaNegVotesByParty[q := v];
      }
      h := deltaNegVotesByParty[q];
    }

    /** `seat_k_is_assigned_var` (party.py:88-91): whether seat `k` goes to this party. */
    method SeatKIsAssignedVar(k: int) returns (h: Handle)
      requires ValidIn(solver.vars)
      modifies this`seatKIsAssigned, solver
      ensures ValidIn(solver.vars)
      ensures seatKIsAssigned == old(seatKIsAssigned)[k := h]
      ensures Holds(solver.vars, h, BoolInfo)
      ensures k in old(seatKIsAssigned) ==>
        h == old(seatKIsAssigned)[k] && seatKIsAssigned == old(seatKIsAssigned) && solver.vars == old(solver.vars)
      ensures k !in old(seatKIsAssigned) ==> h == |old(solver.vars)| && solver.vars == old(solver.vars) + [BoolInfo]
    {
      if k !in seatKIsAssigned {
        var v := solver.NewVar(Boolean, 0, 1);
        ValidGrows(old(solver.vars), solver.vars);
        seatKIsAssigned := seatKIsAssigned[k := v];
      }
      h := seatKIsAssigned[k];
    }

    /** `seats_before_k_var` (party.py:93-96): seats held entering round `k`, in `[0, k - 1]`. */
    method SeatsBeforeKVar(k: int) returns (h: Handle)
      requires ValidIn(solver.vars)
      modifies this`seatsBeforeK, solver
      ensures ValidIn(solver.vars)
      ensures seatsBeforeK == old(seatsBeforeK)[k := h]
      ensures Holds(solver.vars, h, VarInfo(Integer, 0, k - 1))
      ensures k in old(seatsBeforeK) ==>
        h == old(seatsBeforeK)[k] && seatsBeforeK == old(seatsBeforeK) && solver.vars == old(solver.vars)
      ensures k !in old(seatsBeforeK) ==>
        h == |old(solver.vars)| && solver.vars == old(solver.vars) + [VarInfo(Integer, 0, k - 1)]
    {
      if k !in seatsBeforeK {
        var v := solver.NewVar(Integer, 0, k - 1);
        ValidGrows(old(solver.vars), solver.vars);
        seatsBeforeK := seatsBeforeK[k := v];
      }
      h := seatsBeforeK[k];
    }

    /** `quotient_before_k_var` (party.py:98-101): quotient entering round `k`, in `[0, total_votes]`. */
    method QuotientBeforeKVar(k: int) returns (h: Handle)
      requires ValidIn(solver.vars)
      modifies this`quotientBeforeK, solver
      ensures ValidIn(solver.vars)
      ensures quotientBeforeK == old(quotientBeforeK)[k := h]
      ensures Holds(solver.vars, h, VarInfo(Continuous, 0, totalVotes))
      ensures k in old(quotientBeforeK) ==>
        h == old(quotientBeforeK)[k] && quotientBeforeK == old(quotientBeforeK) && solver.vars == old(solver.vars)
      ensures k !in old(quotientBeforeK) ==>
        h == |old(solver.vars)| && solver.vars == old(solver.vars) + [VarInfo(Continuous, 0, totalVotes)]
    {
      if k !in quotientBeforeK {
        var v := solver.NewVar(Continuous, 0, totalVotes);
        ValidGrows(old(solver.vars), solver.vars);
        quotientBeforeK := quotientBeforeK[k := v];
      }
      h := quotientBeforeK[k];
    }

    /**
     * `seats_before_k_indicators_var` (party.py:103-108): whether the party
     * holds exactly `m` seats entering round `k`, remembered under `(k, m)`.
     */
    method SeatsBeforeKIndicatorsVar(k: int, m: int) returns (h: Handle)
      requires ValidIn(solver.vars)
      modifies this`seatsBeforeKIndicators, solver
      ensures ValidIn(solver.vars)
      ensures seatsBeforeKIndicators == old(seatsBeforeKIndicators)[(k, m) := h]
      ensures Holds(solver.vars, h, BoolInfo)
      ensures (k, m) in old(seatsBeforeKIndicators) ==>
        h == old(seatsBeforeKIndicators)[(k, m)] && seatsBeforeKIndicators == old(seatsBeforeKIndicators)
        && solver.vars == old(solver.vars)
      ensures (k, m) !in old(seatsBeforeKIndicators) ==>
        h == |old(solver.vars)| && solver.vars == old(solver.vars) + [BoolInfo]
    {
      if (k, m) !in seatsBeforeKIndicators {
        var v := solver.NewVar(Boolean, 0, 1);
        ValidGrows(old(solver.vars), solver.vars);
        seatsBeforeKIndicators := seatsBeforeKIndicators[(k, m) := v];
      }
      h := seatsBeforeKIndicators[(k, m)];
    }

    /**
     * `partial_wins_indicators_var` (party.py:110-115): whether this party's
     * quotient beats `q`'s in round `k`, remembered under `(k, q)`.
     */
    method PartialWinsIndicatorsVar(k: int, q: string) returns (h: Handle)
      requires ValidIn(solver.vars)
      modifies this`partialWinsIndicators, solver
      ensures ValidIn(solver.vars)
      ensures partialWinsIndicators == old(partialWinsIndicators)[(k, q) := h]
      ensures Holds(solver.vars, h, BoolInfo)
      ensures (k, q) in old(partialWinsIndicators) ==>
        h == old(partialWinsIndicators)[(k, q)] && partialWinsIndicators == old(partialWinsIndicators)
        && solver.vars == old(solver.vars)
      ensures (k, q) !in old(partialWinsIndicators) ==>
        h == |old(solver.vars)| && solver.vars == old(solver.vars) + [BoolInfo]
    {
      if (k, q) !in partialWinsIndicators {
        var v := solver.NewVar(Boolean, 0, 1);
        ValidGrows(old(solver.vars), solver.vars);
        partialWinsIndicators := partialWinsIndicators[(k, q) := v];
      }
      h := partialWinsIndicators[(k, q)];
    }

    /** `round_wins_indicators_var` (party.py:117-120): duels won in round `k`, in `[0, parties_number - 1]`. */
    method RoundWinsIndicatorsVar(k: int) returns (h: Handle)
      requires ValidIn(solver.vars)
      modifies this`roundWinsIndicators, solver
      ensures ValidIn(solver.vars)
      ensures roundWinsIndicators == old(roundWinsIndicators)[k := h]
      ensures Holds(solver.vars, h, VarInfo(Integer, 0, partiesNumber - 1))
      ensures k in old(roundWinsIndicators) ==>
        h == old(roundWinsIndicators)[k] && roundWinsIndicators == old(roundWinsIndicators) && solver.vars == old(solver.vars)
      ensures k !in old(roundWinsIndicators) ==>
        h == |old(solver.vars)| && solver.vars == old(solver.vars) + [VarInfo(Integer, 0, partiesNumber - 1)]
    {
      if k !in roundWinsIndicators {
        var v := solver.NewVar(Integer, 0, partiesNumber - 1);
        ValidGrows(old(solver.vars), solver.vars);
        roundWinsIndicators := roundWinsIndicators[k := v];
      }
      h := roundWinsIndicators[k];
    }

    /** `seats_var` (party.py:122-125): final seats, in `[0, num_seats]`. */
    method SeatsVar() returns (h: Handle)
      requires ValidIn(solver.vars)
      modifies this`seats, solver
      ensures ValidIn(solver.vars)
      ensures seats == Some(h) && Holds(solver.vars, h, VarInfo(Integer, 0, numSeats))
      ensures old(seats).Some? ==> h == old(seats).value && solver.vars == old(solver.vars)
      ensures old(seats).None? ==>
        h == |old(solver.vars)| && solver.vars == old(solver.vars) + [VarInfo(Integer, 0, numSeats)]
    {
      if seats.None? {
        var v := solver.NewVar(Integer, 0, numSeats);
        ValidGrows(old(solver.vars), solver.vars);
        seats := Some(v);
      }
      h := seats.value;
    }
  }

  /**
   * `Party(name, province, solver)` (party.py:7-48): the party with its
   * derived quantities, whose `generate_variables` has created a variable
   * for exactly the keys it requests, each with its kind and bounds.
   */
  method NewParty(prov: Province, name: string, solver: Solver) returns (p: Party)
    requires Consistent(prov) && name in prov.partiesNames
    modifies solver
    ensures fresh(p) && p.solver == solver && p.DerivedFrom(prov, name)
    ensures p.ValidIn(solver.vars) && old(solver.vars) <= solver.vars
    ensures p.Generated()
  {
    p := new Party(prov, name, solver);
    p.GenerateVariables();
  }
}

/**
 * The per-province input `parties_data`: an ordered dict from party name to
 * `{"votes": ..., "wing": ...}`, modelled as its items in insertion order.
 */
module Ballot {
  import opened Seqs

  /** One item of `parties_data`. */
  datatype PartyEntry = PartyEntry(name: string, votes: nat, wing: string)

  /** `parties_names = [p for p, _ in parties_data.items()]`. */
  function Names(ps: seq<PartyEntry>): (r: seq<string>)
    ensures |r| == |ps| && forall i :: 0 <= i < |ps| ==> r[i] == ps[i].name
  {
    seq(|ps|, i requires 0 <= i < |ps| => ps[i].name)
  }

  /** The vote counts in `parties_names` order. */
  function Votes(ps: seq<PartyEntry>): (r: seq<nat>)
    ensures |r| == |ps| && forall i :: 0 <= i < |ps| ==> r[i] == ps[i].votes
  {
    seq(|ps|, i requires 0 <= i < |ps| => ps[i].votes)
  }

  /** `total_votes = sum(data.get('votes') for ...)`. */
  function TotalVotes(ps: seq<PartyEntry>): nat {
    Sum(Votes(ps))
  }

  /** The items come from a dict, so the names are distinct. */
  ghost predicate DistinctNames(ps: seq<PartyEntry>) {
    Distinct(Names(ps))
  }

  /** `parties_data.get(name).get('votes')` for every name of the dict. */
  function VotesByName(ps: seq<PartyEntry>): (m: map<string, nat>)
    ensures forall q :: q in m ==> q in Names(ps)
    ensures forall i :: 0 <= i < |ps| ==> ps[i].name in m
    ensures DistinctNames(ps) ==> forall i :: 0 <= i < |ps| ==> m[ps[i].name] == ps[i].votes
  {
    if ps == [] then map[]
    else
      var init := ps[..|ps| - 1];
      DistinctInit(ps);
      assert forall i :: 0 <= i < |init| ==> init[i] == ps[i];
      VotesByName(init)[ps[|ps| - 1].name := ps[|ps| - 1].votes]
  }

  /** Dropping the last party keeps the names distinct, and none of the others is the last one's. */
  lemma DistinctInit(ps: seq<PartyEntry>)
    requires ps != []
    ensures DistinctNames(ps) ==> DistinctNames(ps[..|ps| - 1])
    ensures DistinctNames(ps) ==> forall i :: 0 <= i < |ps| - 1 ==> ps[i].name != ps[|ps| - 1].name
  {
    assert Names(ps[..|ps| - 1]) == Names(ps)[..|ps| - 1];
  }

  /** Every listed party has a vote count in `VotesByName`. */
  lemma NamesVoted(ps: seq<PartyEntry>)
    ensures forall q :: q in Names(ps) ==> q in VotesByName(ps)
  {
    forall q | q in Names(ps)
      ensures q in VotesByName(ps)
    {
      var i :| 0 <= i < |ps| && Names(ps)[i] == q;
    }
  }

  /** `name` is a key of `parties_data`. */
  predicate Listed(ps: seq<PartyEntry>, name: string) {
    exists j :: 0 <= j < |ps| && ps[j].name == name
  }

  lemma NamesListed(ps: seq<PartyEntry>, name: string)
    requires name in Names(ps)
    ensures Listed(ps, name)
  {
    var j :| 0 <= j < |ps| && Names(ps)[j] == name;
  }

  /** Position of `name` in `parties_names`. */
  function IndexOf(ps: seq<PartyEntry>, name: string): (i: nat)
    requires Listed(ps, name)
    ensures i < |ps| && ps[i].name == name
    ensures forall j :: 0 <= j < i ==> ps[j].name != name
  {
    if ps[0].name == name then 0 else 1 + IndexOf(ps[1..], name)
  }
}

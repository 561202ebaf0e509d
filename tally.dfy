/**
 * Running totals kept in an insertion-ordered dict, the pattern behind
 * `wings_data`, `wings_dhont` and the national `all_parties`/`all_wings`:
 * walk a list of contributions; the first time a key is seen it gets an
 * entry holding `[item]` and the contribution's amounts, later ones append
 * their item and add their amounts. An ordered dict is modelled as its key
 * order (`Keys`) together with a `map` from key to entry.
 */
module Tally {
  import opened Seqs

  /** One step of the walk: `votes` and `seats` credited to `key`, recorded under `item`. */
  datatype Contribution = Contribution(key: string, item: string, votes: nat, seats: nat)

  /** Which of the two amounts a total adds up. */
  datatype Measure = VotesOf | SeatsOf

  function Amount(c: Contribution, m: Measure): nat {
    match m
    case VotesOf => c.votes
    case SeatsOf => c.seats
  }

  /** The keys in order of first appearance: the dict's key order. */
  function Keys(cs: seq<Contribution>): (r: seq<string>)
    ensures |r| <= |cs|
  {
    if cs == [] then []
    else
      var ks := Keys(cs[..|cs| - 1]);
      var c := cs[|cs| - 1];
      if c.key in ks then ks else ks + [c.key]
  }

  /** The labels credited to `k`, in walk order. */
  function Labels(cs: seq<Contribution>, k: string): seq<string> {
    if cs == [] then []
    else
      var c := cs[|cs| - 1];
      Labels(cs[..|cs| - 1], k) + (if c.key == k then [c.item] else [])
  }

  /** The amounts credited to `k`, summed. */
  function Total(cs: seq<Contribution>, k: string, m: Measure): nat {
    if cs == [] then 0
    else
      var c := cs[|cs| - 1];
      Total(cs[..|cs| - 1], k, m) + (if c.key == k then Amount(c, m) else 0)
  }

  /** All amounts, summed. */
  function Overall(cs: seq<Contribution>, m: Measure): nat {
    if cs == [] then 0 else Overall(cs[..|cs| - 1], m) + Amount(cs[|cs| - 1], m)
  }

  /** The keys are exactly the keys credited by some contribution. */
  lemma {:induction false} KeyMembership(cs: seq<Contribution>, k: string)
    ensures k in Keys(cs) <==> exists i :: 0 <= i < |cs| && cs[i].key == k
  {
    if cs != [] {
      var init := cs[..|cs| - 1];
      KeyMembership(init, k);
      if k in Keys(init) {
        var i :| 0 <= i < |init| && init[i].key == k;
        assert cs[i] == init[i];
      }
    }
  }

  /** Each key appears once. */
  lemma {:induction false} KeysDistinct(cs: seq<Contribution>)
    ensures Distinct(Keys(cs))
  {
    if cs != [] {
      KeysDistinct(cs[..|cs| - 1]);
    }
  }

  /** The three walk functions, one contribution further. */
  lemma WalkStep(cs: seq<Contribution>, c: Contribution, k: string)
    ensures Keys(cs + [c]) == if c.key in Keys(cs) then Keys(cs) else Keys(cs) + [c.key]
    ensures Labels(cs + [c], k) == Labels(cs, k) + (if c.key == k then [c.item] else [])
    ensures Total(cs + [c], k, VotesOf) == Total(cs, k, VotesOf) + (if c.key == k then c.votes else 0)
    ensures Total(cs + [c], k, SeatsOf) == Total(cs, k, SeatsOf) + (if c.key == k then c.seats else 0)
  {
    assert (cs + [c])[..|cs|] == cs;
  }

  lemma TotalStep(cs: seq<Contribution>, c: Contribution, k: string, m: Measure)
    ensures Total(cs + [c], k, m) == Total(cs, k, m) + (if c.key == k then Amount(c, m) else 0)
  {
    assert (cs + [c])[..|cs|] == cs;
  }

  /** A key never credited has no labels and no total. */
  lemma {:induction false} Unseen(cs: seq<Contribution>, k: string)
    requires k !in Keys(cs)
    ensures Labels(cs, k) == [] && Total(cs, k, VotesOf) == 0 && Total(cs, k, SeatsOf) == 0
  {
    if cs != [] {
      Unseen(cs[..|cs| - 1], k);
    }
  }

  /** `item` is listed under `k` exactly when some contribution credits `k` under `item`. */
  lemma {:induction false} LabelMembership(cs: seq<Contribution>, k: string, item: string)
    ensures item in Labels(cs, k) <==> exists i :: 0 <= i < |cs| && cs[i].key == k && cs[i].item == item
  {
    if cs != [] {
      var init := cs[..|cs| - 1];
      LabelMembership(init, k, item);
      if item in Labels(init, k) {
        var i :| 0 <= i < |init| && init[i].key == k && init[i].item == item;
        assert cs[i] == init[i];
      }
    }
  }

  /** The totals of the keys, in key order. */
  function Totals(keys: seq<string>, cs: seq<Contribution>, m: Measure): (t: seq<nat>)
    ensures |t| == |keys|
  {
    seq(|keys|, j requires 0 <= j < |keys| => Total(cs, keys[j], m))
  }

  /** Grouping loses nothing: the per-key totals add up to the overall amount. */
  lemma {:induction false} GroupTotals(cs: seq<Contribution>, m: Measure)
    ensures Sum(Totals(Keys(cs), cs, m)) == Overall(cs, m)
  {
    if cs == [] {
      assert Totals(Keys(cs), cs, m) == [];
    } else {
      var init := cs[..|cs| - 1];
      var c := cs[|cs| - 1];
      assert cs == init + [c];
      GroupTotals(init, m);
      if c.key in Keys(init) {
        TotalsStepSeen(init, c, m);
      } else {
        TotalsStepNew(init, c, m);
      }
    }
  }

  lemma TotalsStepSeen(cs: seq<Contribution>, c: Contribution, m: Measure)
    requires c.key in Keys(cs)
    ensures Sum(Totals(Keys(cs + [c]), cs + [c], m)) == Sum(Totals(Keys(cs), cs, m)) + Amount(c, m)
  {
    var ks := Keys(cs);
    WalkStep(cs, c, c.key);
    var before := Totals(ks, cs, m);
    var j :| 0 <= j < |ks| && ks[j] == c.key;
    TotalsSeenAt(cs, c, m, j);
    var after := Totals(ks, cs + [c], m);
    assert after == before[j := before[j] + Amount(c, m)];
    SumUpdate(before, j, before[j] + Amount(c, m));
    assert Totals(Keys(cs + [c]), cs + [c], m) == after;
  }

  /** Only the total of the contribution's own key, at position `j`, grows. */
  lemma TotalsSeenAt(cs: seq<Contribution>, c: Contribution, m: Measure, j: nat)
    requires j < |Keys(cs)| && Keys(cs)[j] == c.key
    ensures var before := Totals(Keys(cs), cs, m);
      Totals(Keys(cs), cs + [c], m) == before[j := before[j] + Amount(c, m)]
  {
    var ks := Keys(cs);
    KeysDistinct(cs);
    var before := Totals(ks, cs, m);
    var after := Totals(ks, cs + [c], m);
    forall i | 0 <= i < |ks|
      ensures after[i] == before[i] + (if i == j then Amount(c, m) else 0)
    {
      TotalStep(cs, c, ks[i], m);
      assert ks[i] == c.key <==> i == j;
    }
  }

  lemma TotalsStepNew(cs: seq<Contribution>, c: Contribution, m: Measure)
    requires c.key !in Keys(cs)
    ensures Sum(Totals(Keys(cs + [c]), cs + [c], m)) == Sum(Totals(Keys(cs), cs, m)) + Amount(c, m)
  {
    var ks := Keys(cs);
    WalkStep(cs, c, c.key);
    var after := Totals(ks + [c.key], cs + [c], m);
    assert after[..|ks|] == Totals(ks, cs + [c], m);
    TotalsUnchanged(ks, cs, c, m);
    Unseen(cs, c.key);
    TotalStep(cs, c, c.key, m);
    assert after[|ks|] == Amount(c, m);
  }

  /** The totals of keys other than the new contribution's stay as they were. */
  lemma TotalsUnchanged(ks: seq<string>, cs: seq<Contribution>, c: Contribution, m: Measure)
    requires c.key !in ks
    ensures Totals(ks, cs + [c], m) == Totals(ks, cs, m)
  {
    forall i | 0 <= i < |ks|
      ensures Totals(ks, cs + [c], m)[i] == Totals(ks, cs, m)[i]
    {
      TotalStep(cs, c, ks[i], m);
    }
  }

  /** Two walks over the same keys and items list the same keys and the same items. */
  lemma {:induction false} SameWalk(cs: seq<Contribution>, ds: seq<Contribution>)
    requires |cs| == |ds|
    requires forall i :: 0 <= i < |cs| ==> cs[i].key == ds[i].key && cs[i].item == ds[i].item
    ensures Keys(cs) == Keys(ds)
    ensures forall k :: Labels(cs, k) == Labels(ds, k)
  {
    if cs != [] {
      SameWalk(cs[..|cs| - 1], ds[..|ds| - 1]);
    }
  }

  /** The overall amount of a walk whose amounts are `xs` is `sum(xs)`. */
  lemma {:induction false} OverallIsSum(cs: seq<Contribution>, m: Measure, xs: seq<nat>)
    requires |cs| == |xs|
    requires forall i :: 0 <= i < |cs| ==> Amount(cs[i], m) == xs[i]
    ensures Overall(cs, m) == Sum(xs)
  {
    if cs != [] {
      OverallIsSum(cs[..|cs| - 1], m, xs[..|xs| - 1]);
    }
  }

  /** A walk over `a` then `b` credits each key what the two walks credit it, in that order. */
  lemma {:induction false} WalkAppend(a: seq<Contribution>, b: seq<Contribution>, k: string, m: Measure)
    ensures Labels(a + b, k) == Labels(a, k) + Labels(b, k)
    ensures Total(a + b, k, m) == Total(a, k, m) + Total(b, k, m)
    ensures Overall(a + b, m) == Overall(a, m) + Overall(b, m)
  {
    if b == [] {
      assert a + b == a;
    } else {
      var init := b[..|b| - 1];
      assert (a + b)[..|a + b| - 1] == a + init;
      WalkAppend(a, init, k, m);
    }
  }

  /** A key credited by exactly one contribution gets that contribution's item and amount. */
  lemma {:induction false} SingleItem(cs: seq<Contribution>, k: string, i: nat, m: Measure)
    requires i < |cs| && cs[i].key == k
    requires forall j :: 0 <= j < |cs| && j != i ==> cs[j].key != k
    ensures Labels(cs, k) == [cs[i].item] && Total(cs, k, m) == Amount(cs[i], m)
  {
    var init := cs[..|cs| - 1];
    if i < |cs| - 1 {
      SingleItem(init, k, i, m);
    } else {
      NoItem(init, k, m);
    }
  }

  /** A key no contribution credits gets nothing. */
  lemma {:induction false} NoItem(cs: seq<Contribution>, k: string, m: Measure)
    requires forall j :: 0 <= j < |cs| ==> cs[j].key != k
    ensures Labels(cs, k) == [] && Total(cs, k, m) == 0
  {
    if cs != [] {
      NoItem(cs[..|cs| - 1], k, m);
    }
  }

  /** Each contribution records an item, so the keys are the keys with an item. */
  lemma {:induction false} KeysLabelled(cs: seq<Contribution>, k: string)
    ensures k in Keys(cs) <==> Labels(cs, k) != []
  {
    if cs != [] {
      KeysLabelled(cs[..|cs| - 1], k);
    }
  }
}

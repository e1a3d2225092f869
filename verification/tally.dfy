/** Counting maps: the `counts[k] = counts.get(k, 0) + 1` loops the analytics
    use, as a fold, together with the sum of a map's counts. */
module Tally {

  /** The service's counting maps are keyed by strings (colours, shape names). */
  type Key = string

  /** `m.get(k, 0)`. */
  function GetOrZero(m: map<Key, int>, k: Key): int {
    if k in m then m[k] else 0
  }

  /** One iteration of a counting loop: `m[k] = m.get(k, 0) + 1`. */
  function Bump(m: map<Key, int>, k: Key): map<Key, int> {
    m[k := GetOrZero(m, k) + 1]
  }

  /** The sum of the counts of `m` over the keys `ks`. */
  ghost function SumOver(m: map<Key, int>, ks: set<Key>): int
    requires ks <= m.Keys
    decreases ks
  {
    if ks == {} then 0
    else
      var k :| k in ks;
      m[k] + SumOver(m, ks - {k})
  }

  /** The sum of all the counts held in `m`. */
  ghost function Total(m: map<Key, int>): int {
    SumOver(m, m.Keys)
  }

  /** `m` holds, for every key of `keys`, the number of times it occurs there,
      and nothing else: the reference meaning of a counting map. */
  ghost predicate IsTallyOf(m: map<Key, int>, keys: seq<Key>) {
    && (forall k :: k in m <==> k in keys)
    && (forall k :: k in m ==> m[k] == multiset(keys)[k])
  }

  /** Any key may be taken out first: the sum does not depend on the order
      in which the keys are visited. */
  lemma {:induction false} SumOverPick(m: map<Key, int>, ks: set<Key>, k: Key)
    requires ks <= m.Keys && k in ks
    ensures SumOver(m, ks) == m[k] + SumOver(m, ks - {k})
    decreases ks
  {
    var j :| j in ks && SumOver(m, ks) == m[j] + SumOver(m, ks - {j});
    if j != k {
      SumOverPick(m, ks - {j}, k);
      SumOverPick(m, ks - {k}, j);
      assert ks - {j} - {k} == ks - {k} - {j};
    }
  }

  /** Two maps that agree on `ks` have the same sum over `ks`. */
  lemma {:induction false} SumOverAgree(m: map<Key, int>, m': map<Key, int>, ks: set<Key>)
    requires ks <= m.Keys && ks <= m'.Keys
    requires forall k :: k in ks ==> m[k] == m'[k]
    ensures SumOver(m, ks) == SumOver(m', ks)
    decreases ks
  {
    if ks != {} {
      var k :| k in ks;
      SumOverPick(m, ks, k);
      SumOverPick(m', ks, k);
      SumOverAgree(m, m', ks - {k});
    }
  }

  /** One counting step adds exactly one to the total. */
  lemma BumpTotal(m: map<Key, int>, k: Key)
    ensures Total(Bump(m, k)) == Total(m) + 1
  {
    var m' := Bump(m, k);
    SumOverPick(m', m'.Keys, k);
    if k in m {
      assert m'.Keys == m.Keys;
      SumOverPick(m, m.Keys, k);
      SumOverAgree(m, m', m.Keys - {k});
    } else {
      assert m'.Keys - {k} == m.Keys;
      SumOverAgree(m, m', m.Keys);
    }
  }

  /** The counting loop run over `keys`, first to last, from the counts `acc`.
      Every key ends up with its earlier count plus its number of occurrences,
      and the total grows by exactly `|keys|`. */
  function TallyFrom(keys: seq<Key>, acc: map<Key, int>): (r: map<Key, int>)
    ensures forall k :: k in r <==> k in acc || k in keys
    ensures forall k :: k in r ==> r[k] == GetOrZero(acc, k) + multiset(keys)[k]
    ensures Total(r) == Total(acc) + |keys|
    decreases |keys|
  {
    if |keys| == 0 then acc
    else
      assert keys == [keys[0]] + keys[1..];
      BumpTotal(acc, keys[0]);
      TallyFrom(keys[1..], Bump(acc, keys[0]))
  }

  /** The counting loop from an empty dict: the occurrence count of every key,
      summing to the number of keys. */
  function Counts(keys: seq<Key>): (r: map<Key, int>)
    ensures IsTallyOf(r, keys)
    ensures Total(r) == |keys|
    ensures forall k :: k in r ==> r[k] >= 1
  {
    TallyFrom(keys, map[])
  }

  /** A counting map is determined by the multiset of its keys: the order in
      which the loop visits them does not matter. */
  lemma {:induction false} TallyUnique(m: map<Key, int>, m': map<Key, int>, keys: seq<Key>, keys': seq<Key>)
    requires IsTallyOf(m, keys) && IsTallyOf(m', keys')
    requires multiset(keys) == multiset(keys')
    ensures m == m'
  {
  }
}

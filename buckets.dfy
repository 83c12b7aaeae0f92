/** The attachment map of a record: a `defaultdict(list)` turned into a plain
    dict.  Keys keep the order in which they were first touched, so the map
    is an association list with distinct keys. */
module Buckets {
  import opened PyJson

  type Buckets = seq<(string, seq<Json>)>

  function Keys(b: Buckets): (ks: seq<string>)
    ensures |ks| == |b| && forall k | 0 <= k < |b| :: ks[k] == b[k].0
  {
    seq(|b|, k requires 0 <= k < |b| => b[k].0)
  }

  predicate DistinctKeys(b: Buckets) {
    forall i, j | 0 <= i < j < |b| :: b[i].0 != b[j].0
  }

  /** Where `k` is stored. */
  function IndexOf(b: Buckets, k: string): (i: nat)
    requires k in Keys(b)
    ensures i < |b| && b[i].0 == k
  {
    if b[0].0 == k then 0
    else
      assert k in Keys(b[1..]) by {
        var m :| 0 <= m < |b| && Keys(b)[m] == k;
        assert Keys(b[1..])[m - 1] == k;
      }
      1 + IndexOf(b[1..], k)
  }

  lemma IndexOfUnique(b: Buckets, k: string, j: nat)
    requires DistinctKeys(b) && j < |b| && b[j].0 == k
    ensures k in Keys(b) && IndexOf(b, k) == j
  {
    assert Keys(b)[j] == k;
  }

  /** `b.get(k, default)` for the dict made from `b`: the list stored with
      `k` when the key is present (the only one, as keys are distinct), the
      default otherwise. */
  function LookupOr(b: Buckets, k: string, default: seq<Json>): (r: seq<Json>)
    ensures k in Keys(b) ==> (k, r) in b
    ensures k !in Keys(b) ==> r == default
  {
    if k in Keys(b) then b[IndexOf(b, k)].1 else default
  }

  /** The list stored under `k`, empty when the key is absent. */
  function Lookup(b: Buckets, k: string): (urls: seq<Json>) {
    LookupOr(b, k, [])
  }

  /** `b[k]` on a defaultdict: creates the key with an empty list when it is
      missing (at the end, so first-touch order is kept); changes no list. */
  function Touch(b: Buckets, k: string): (r: Buckets)
    requires DistinctKeys(b)
    ensures DistinctKeys(r)
    ensures Keys(r) == if k in Keys(b) then Keys(b) else Keys(b) + [k]
    ensures forall k' :: Lookup(r, k') == Lookup(b, k')
    ensures Grows(b, r)
  {
    if k in Keys(b) then b
    else
      var r := b + [(k, [])];
      assert Keys(r) == Keys(b) + [k];
      forall k' ensures Lookup(r, k') == Lookup(b, k') {
        if k' in Keys(b) {
          var i := IndexOf(b, k');
          IndexOfUnique(r, k', i);
        } else if k' == k {
          IndexOfUnique(r, k, |b|);
        }
      }
      r
  }

  /** `b[k].extend(vs)` once `b[k]` exists: only the list under `k` grows. */
  function Extend(b: Buckets, k: string, vs: seq<Json>): (r: Buckets)
    requires DistinctKeys(b) && k in Keys(b)
    ensures DistinctKeys(r) && Keys(r) == Keys(b)
    ensures Lookup(r, k) == Lookup(b, k) + vs
    ensures forall k' | k' != k :: Lookup(r, k') == Lookup(b, k')
    ensures Grows(b, r)
  {
    var i := IndexOf(b, k);
    var r := b[i := (k, b[i].1 + vs)];
    assert Keys(r) == Keys(b);
    IndexOfUnique(r, k, i);
    forall k' | k' != k ensures Lookup(r, k') == Lookup(b, k') {
      if k' in Keys(b) {
        var j := IndexOf(b, k');
        IndexOfUnique(r, k', j);
      }
    }
    r
  }

  /** `b[k].append(v)` once `b[k]` exists. */
  function Append(b: Buckets, k: string, v: Json): (r: Buckets)
    requires DistinctKeys(b) && k in Keys(b)
    ensures DistinctKeys(r) && Keys(r) == Keys(b)
    ensures Lookup(r, k) == Lookup(b, k) + [v]
    ensures forall k' | k' != k :: Lookup(r, k') == Lookup(b, k')
    ensures Grows(b, r)
  {
    Extend(b, k, [v])
  }

  /** Contents only grow: no key is lost or moved, no list shrinks. */
  ghost predicate Grows(before: Buckets, after: Buckets) {
    |before| <= |after| && Keys(before) == Keys(after)[..|before|] &&
    forall k :: Lookup(before, k) <= Lookup(after, k)
  }

  lemma GrowsTrans(a: Buckets, b: Buckets, c: Buckets)
    requires Grows(a, b) && Grows(b, c)
    ensures Grows(a, c)
  {
    assert Keys(a) == Keys(c)[..|b|][..|a|];
    forall k ensures Lookup(a, k) <= Lookup(c, k) {
      assert Lookup(a, k) <= Lookup(b, k);
      assert Lookup(b, k) <= Lookup(c, k);
    }
  }

  /** The list under a key of a map whose last entry was added last: that
      entry's list for its own key, the earlier map's for any other. */
  lemma LookupSnoc(b: Buckets, k: string, v: seq<Json>, key: string)
    requires DistinctKeys(b + [(k, v)])
    ensures Lookup(b + [(k, v)], key) == if key == k then v else Lookup(b, key)
  {
    var c := b + [(k, v)];
    assert Keys(c) == Keys(b) + [k];
    if key == k {
      IndexOfUnique(c, k, |b|);
    } else if key in Keys(b) {
      var j := IndexOf(b, key);
      assert c[j] == b[j];
      IndexOfUnique(c, key, j);
    }
  }
}

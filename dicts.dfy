/** The parameter dictionaries the client builds and posts. */
module Dicts {

  /** A parameter value: every value the client puts in a request is a string
      or an integer. */
  datatype Value = Str(s: string) | Int(i: int)

  /** A dict from parameter names to values. */
  type Params = map<string, Value>

  /** `r` is what `d` becomes after `d.update(other)`: every key of either,
      the value from `other` where it has the key, from `d` elsewhere. */
  ghost predicate Overrides(r: Params, d: Params, other: Params)
  {
    && r.Keys == d.Keys + other.Keys
    && (forall k | k in other :: r[k] == other[k])
    && (forall k | k in d && k !in other :: r[k] == d[k])
  }

  /** `d.update(other)`, on a copy. */
  function Update(d: Params, other: Params): (r: Params)
    ensures Overrides(r, d, other)
  {
    d + other
  }

  /** The new contents after an update are determined by the old ones. */
  lemma OverridesUnique(r1: Params, r2: Params, d: Params, other: Params)
    requires Overrides(r1, d, other) && Overrides(r2, d, other)
    ensures r1 == r2
  {
    assert forall k | k in r1 :: r1[k] == r2[k];
  }

  /** Every key of `p` begins with `prefix`. */
  ghost predicate AllPrefixed(p: Params, prefix: string)
  {
    forall k | k in p :: |prefix| <= |k| && k[..|prefix|] == prefix
  }

  /** Two prefixes that differ at a position both have never begin the same key,
      so dicts keyed under them share no key. */
  lemma PrefixedDisjoint(p: Params, q: Params, a: string, b: string, i: nat)
    requires AllPrefixed(p, a) && AllPrefixed(q, b)
    requires i < |a| && i < |b| && a[i] != b[i]
    ensures p.Keys !! q.Keys
  {
    forall k | k in p ensures k !in q {
      assert k[i] == k[..|a|][i] == a[i];
      assert !(|b| <= |k| && k[..|b|] == b) by {
        if |b| <= |k| { assert k[..|b|][i] != b[i]; }
      }
    }
  }
}

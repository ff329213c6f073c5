/**
 * Python's `collections.Counter`, as the aggregation code uses it: a dict
 * from keys to integer counts that remembers the order in which keys were
 * first inserted, whose missing keys read as 0, and where `c[k] += w`
 * inserts `k` if it was absent (even when `w` is 0).
 *
 * `Tally(s)` is the counter obtained by starting empty and performing
 * `c[k] += w` for every entry `(k, w)` of `s` in order; the ensures of
 * `Tally` say what that counter is independently of the loop that builds it.
 */
module Counters {

  /** Artist ids and genre names: the only keys the aggregation counts. */
  type Key = string

  datatype Counter = Counter(keys: seq<Key>, counts: map<Key, int>)
  {
    /** `keys` is the dict's key order: each key once, exactly the keys of `counts`. */
    ghost predicate Valid()
    {
      && (forall i, j :: 0 <= i < j < |keys| ==> keys[i] != keys[j])
      && (forall k :: k in counts <==> k in keys)
    }

    /** `c[k]`: a missing key reads as 0 and is not inserted. */
    function Get(k: Key): int
    {
      if k in counts then counts[k] else 0
    }

    /** `c[k] += w`. */
    function Add(k: Key, w: int): Counter
    {
      if k in counts then Counter(keys, counts[k := counts[k] + w])
      else Counter(keys + [k], counts[k := w])
    }

    /** `sum(c.values())`. */
    function Total(): int
      requires Valid()
    {
      SumOver(keys, counts)
    }
  }

  function Empty(): Counter
  {
    Counter([], map[])
  }

  function SumOver(ks: seq<Key>, m: map<Key, int>): int
    requires forall k :: k in ks ==> k in m
  {
    if ks == [] then 0 else SumOver(ks[..|ks| - 1], m) + m[ks[|ks| - 1]]
  }

  /** The keys of the entries, in order, repetitions included. */
  function KeysOf(s: seq<(Key, int)>): (r: seq<Key>)
    ensures |r| == |s| && forall i :: 0 <= i < |s| ==> r[i] == s[i].0
  {
    if s == [] then [] else KeysOf(s[..|s| - 1]) + [s[|s| - 1].0]
  }

  /** The elements of `s` in the order of their first occurrence, each once. */
  function Distinct(s: seq<Key>): (r: seq<Key>)
    ensures forall i, j :: 0 <= i < j < |r| ==> r[i] != r[j]
    ensures forall x :: x in r <==> x in s
  {
    if s == [] then []
    else
      var d := Distinct(s[..|s| - 1]);
      assert forall x :: x in s <==> x in s[..|s| - 1] || x == s[|s| - 1];
      if s[|s| - 1] in s[..|s| - 1] then d else d + [s[|s| - 1]]
  }

  /** The sum of the weights of the entries whose key is `k`. */
  function WeightOf(s: seq<(Key, int)>, k: Key): int
  {
    if s == [] then 0
    else WeightOf(s[..|s| - 1], k) + (if s[|s| - 1].0 == k then s[|s| - 1].1 else 0)
  }

  /** The sum of all weights. */
  function TotalWeight(s: seq<(Key, int)>): int
  {
    if s == [] then 0 else TotalWeight(s[..|s| - 1]) + s[|s| - 1].1
  }

  /** The entries `(x, 1)` for every element `x` of `s`: what `c[x] += 1` over `s` adds. */
  function Ones(s: seq<Key>): (r: seq<(Key, int)>)
    ensures |r| == |s| && forall i :: 0 <= i < |s| ==> r[i] == (s[i], 1)
  {
    if s == [] then [] else Ones(s[..|s| - 1]) + [(s[|s| - 1], 1)]
  }

  /** The counter built by `c[k] += w` over the entries of `s`, in order. */
  function Tally(s: seq<(Key, int)>): Counter
  {
    if s == [] then Empty() else Tally(s[..|s| - 1]).Add(s[|s| - 1].0, s[|s| - 1].1)
  }

  /** A tally is well formed: each key once, and exactly the keys that carry a count. */
  lemma {:induction false} TallyValid(s: seq<(Key, int)>)
    ensures Tally(s).Valid()
  {
    if s != [] {
      TallyValid(s[..|s| - 1]);
      AddKeepsValid(Tally(s[..|s| - 1]), s[|s| - 1].0, s[|s| - 1].1);
    }
  }

  /**
   * What `Tally(s)` is, independently of the loop that builds it: its key
   * order is the order in which keys first occur in `s`, and each key reads
   * as the sum of its weights (0 for a key that never occurs).
   */
  lemma TallyMeaning(s: seq<(Key, int)>)
    ensures Tally(s).keys == Distinct(KeysOf(s))
    ensures forall k :: Tally(s).Get(k) == WeightOf(s, k)
  {
    TallyKeys(s);
    forall k {
      TallyWeight(s, k);
    }
  }

  lemma {:induction false} TallyKeys(s: seq<(Key, int)>)
    ensures Tally(s).keys == Distinct(KeysOf(s))
  {
    if s != [] {
      var init := s[..|s| - 1];
      var k := s[|s| - 1].0;
      TallyKeys(init);
      TallyValid(init);
      AddKeepsValid(Tally(init), k, s[|s| - 1].1);
      assert KeysOf(s)[..|s| - 1] == KeysOf(init);
    }
  }

  lemma {:induction false} TallyWeight(s: seq<(Key, int)>, x: Key)
    ensures Tally(s).Get(x) == WeightOf(s, x)
  {
    if s != [] {
      var init := s[..|s| - 1];
      TallyWeight(init, x);
      TallyValid(init);
      AddKeepsValid(Tally(init), s[|s| - 1].0, s[|s| - 1].1);
    }
  }

  /** `c[k] += w` keeps the counter well formed, appends a new key and adds `w` to `k` only. */
  lemma AddKeepsValid(c: Counter, k: Key, w: int)
    requires c.Valid()
    ensures c.Add(k, w).Valid()
    ensures c.Add(k, w).keys == if k in c.keys then c.keys else c.keys + [k]
    ensures forall x :: c.Add(k, w).Get(x) == c.Get(x) + (if x == k then w else 0)
  {
  }

  /** Appending one entry adds its weight to its own key only. */
  lemma WeightOfSnoc(s: seq<(Key, int)>, e: (Key, int), k: Key)
    ensures WeightOf(s + [e], k) == WeightOf(s, k) + (if e.0 == k then e.1 else 0)
  {
    assert (s + [e])[..|s|] == s;
  }

  /** Counting ones: each key of `Ones(s)` weighs its multiplicity in `s`. */
  lemma {:induction false} CountOnes(s: seq<Key>, k: Key)
    ensures WeightOf(Ones(s), k) == multiset(s)[k]
  {
    if s != [] {
      var init := s[..|s| - 1];
      var last := s[|s| - 1];
      CountOnes(init, k);
      assert multiset(s) == multiset(init) + multiset{last} by {
        assert s == init + [last];
      }
      assert Ones(s) == Ones(init) + [(last, 1)];
      WeightOfSnoc(Ones(init), (last, 1), k);
    }
  }

  /** The keys of `Ones(s)` are `s`. */
  lemma OnesKeys(s: seq<Key>)
    ensures KeysOf(Ones(s)) == s
  {
  }

  lemma {:induction false} SumOverUnchanged(ks: seq<Key>, m: map<Key, int>, k: Key, v: int)
    requires forall x :: x in ks ==> x in m
    requires k !in ks
    ensures SumOver(ks, m[k := v]) == SumOver(ks, m)
  {
    if ks != [] {
      SumOverUnchanged(ks[..|ks| - 1], m, k, v);
    }
  }

  lemma {:induction false} SumOverBump(ks: seq<Key>, m: map<Key, int>, k: Key, w: int)
    requires forall x :: x in ks ==> x in m
    requires forall i, j :: 0 <= i < j < |ks| ==> ks[i] != ks[j]
    requires k in ks
    ensures SumOver(ks, m[k := m[k] + w]) == SumOver(ks, m) + w
  {
    var init := ks[..|ks| - 1];
    if ks[|ks| - 1] == k {
      assert k !in init;
      SumOverUnchanged(init, m, k, m[k] + w);
    } else {
      assert k in init;
      SumOverBump(init, m, k, w);
    }
  }

  /** `sum(c.values())` of a tally is the sum of all the weights that went into it. */
  lemma {:induction false} TallyTotal(s: seq<(Key, int)>)
    ensures Tally(s).Valid() && Tally(s).Total() == TotalWeight(s)
  {
    TallyValid(s);
    if s != [] {
      var init := s[..|s| - 1];
      var k, w := s[|s| - 1].0, s[|s| - 1].1;
      assert Tally(s) == Tally(init).Add(k, w);
      TallyTotal(init);
      AddTotal(Tally(init), k, w);
    }
  }

  /** `c[k] += w` adds `w` to `sum(c.values())`. */
  lemma AddTotal(c: Counter, k: Key, w: int)
    requires c.Valid()
    ensures c.Add(k, w).Valid()
    ensures c.Add(k, w).Total() == c.Total() + w
  {
    AddKeepsValid(c, k, w);
    if k in c.counts {
      SumOverBump(c.keys, c.counts, k, w);
    } else {
      SumOverUnchanged(c.keys, c.counts, k, w);
      var d := c.Add(k, w);
      assert d.keys[..|d.keys| - 1] == c.keys;
    }
  }

  /** Weights add up over concatenation. */
  lemma {:induction false} WeightOfAppend(a: seq<(Key, int)>, b: seq<(Key, int)>, k: Key)
    ensures WeightOf(a + b, k) == WeightOf(a, k) + WeightOf(b, k)
    decreases |b|
  {
    if b == [] {
      assert a + b == a;
    } else {
      assert (a + b)[..|a + b| - 1] == a + b[..|b| - 1];
      assert (a + b)[|a + b| - 1] == b[|b| - 1];
      WeightOfAppend(a, b[..|b| - 1], k);
    }
  }

  /** Total weights add up over concatenation. */
  lemma {:induction false} TotalWeightAppend(a: seq<(Key, int)>, b: seq<(Key, int)>)
    ensures TotalWeight(a + b) == TotalWeight(a) + TotalWeight(b)
    decreases |b|
  {
    if b == [] {
      assert a + b == a;
    } else {
      assert (a + b)[..|a + b| - 1] == a + b[..|b| - 1];
      assert (a + b)[|a + b| - 1] == b[|b| - 1];
      TotalWeightAppend(a, b[..|b| - 1]);
    }
  }
}

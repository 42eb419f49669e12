/**
 * An index of a dict display's lines by key length, and the counting
 * argument that turns it into a proof that no key is written twice.
 *
 * Keys of different lengths differ, so only keys of the same length have to
 * be compared. The index lists, for each length, the positions of the lines
 * whose key has that length; if those positions are in range, the keys they
 * name are pairwise different within each length, and the index holds as
 * many positions as the display has lines, then every line is listed exactly
 * once (pigeonhole) and no two lines share a key.
 */
module LengthIndex {
  import opened DictLiteral

  /** The positions listed under length `L` are lines whose key has that length. */
  predicate ListedAt<V>(lines: seq<Entry<V>>, index: map<nat, seq<nat>>, L: nat)
    requires L in index
  {
    forall p | 0 <= p < |index[L]| :: index[L][p] < |lines| && |lines[index[L][p]].name| == L
  }

  /** The positions listed under length `L` name pairwise different keys. */
  predicate ApartAt<V>(lines: seq<Entry<V>>, index: map<nat, seq<nat>>, L: nat)
    requires L in index && ListedAt(lines, index, L)
  {
    forall p, q | 0 <= p < q < |index[L]| :: lines[index[L][p]].name != lines[index[L][q]].name
  }

  /** Every listed position is a line whose key has the length it is listed under. */
  predicate Sound<V>(lines: seq<Entry<V>>, index: map<nat, seq<nat>>)
  {
    forall L | L in index :: ListedAt(lines, index, L)
  }

  /** Positions listed under one length name pairwise different keys. */
  predicate Apart<V>(lines: seq<Entry<V>>, index: map<nat, seq<nat>>)
    requires Sound(lines, index)
  {
    forall L | L in index :: ApartAt(lines, index, L)
  }

  /** The positions listed under the lengths below `bound`, shortest keys first. */
  function Flatten(index: map<nat, seq<nat>>, bound: nat): seq<nat>
  {
    if bound == 0 then []
    else Flatten(index, bound - 1) + (if bound - 1 in index then index[bound - 1] else [])
  }

  /** How many positions are listed under the lengths below `bound`. */
  function Count(index: map<nat, seq<nat>>, bound: nat): nat
  {
    if bound == 0 then 0
    else Count(index, bound - 1) + (if bound - 1 in index then |index[bound - 1]| else 0)
  }

  /** `index` lists each line of `lines` under the length of its key. */
  predicate Indexes<V>(lines: seq<Entry<V>>, index: map<nat, seq<nat>>, bound: nat)
  {
    Sound(lines, index) && Apart(lines, index) && Count(index, bound) == |lines|
  }

  lemma {:induction false} FlattenSize(index: map<nat, seq<nat>>, bound: nat)
    ensures |Flatten(index, bound)| == Count(index, bound)
  {
    if bound > 0 {
      FlattenSize(index, bound - 1);
    }
  }

  /** Each flattened position is a line listed under the length of its key, below `bound`. */
  lemma {:induction false} FlattenListed<V>(lines: seq<Entry<V>>, index: map<nat, seq<nat>>, bound: nat, a: nat)
    requires Sound(lines, index)
    requires a < |Flatten(index, bound)|
    ensures Flatten(index, bound)[a] < |lines|
    ensures |lines[Flatten(index, bound)[a]].name| < bound
    ensures |lines[Flatten(index, bound)[a]].name| in index
    ensures Flatten(index, bound)[a] in index[|lines[Flatten(index, bound)[a]].name|]
  {
    var front := Flatten(index, bound - 1);
    var back := if bound - 1 in index then index[bound - 1] else [];
    assert Flatten(index, bound) == front + back;
    if a < |front| {
      FlattenListed(lines, index, bound - 1, a);
      assert Flatten(index, bound)[a] == front[a];
    } else {
      var p := a - |front|;
      assert Flatten(index, bound)[a] == back[p];
      assert back[p] < |lines| && |lines[back[p]].name| == bound - 1;
    }
  }

  /** Two flattened positions name different keys. */
  lemma {:induction false} FlattenApart<V>(lines: seq<Entry<V>>, index: map<nat, seq<nat>>, bound: nat, a: nat, c: nat)
    requires Sound(lines, index) && Apart(lines, index)
    requires a < c < |Flatten(index, bound)|
    ensures Flatten(index, bound)[a] < |lines| && Flatten(index, bound)[c] < |lines|
    ensures lines[Flatten(index, bound)[a]].name != lines[Flatten(index, bound)[c]].name
  {
    FlattenListed(lines, index, bound, a);
    FlattenListed(lines, index, bound, c);
    var front := Flatten(index, bound - 1);
    var back := if bound - 1 in index then index[bound - 1] else [];
    var all := Flatten(index, bound);
    assert all == front + back;
    if c < |front| {
      FlattenApart(lines, index, bound - 1, a, c);
      assert all[a] == front[a] && all[c] == front[c];
    } else if a >= |front| {
      var p, q := a - |front|, c - |front|;
      assert all[a] == back[p] && all[c] == back[q];
      assert bound - 1 in index && p < q < |index[bound - 1]|;
    } else {
      FlattenListed(lines, index, bound - 1, a);
      assert all[a] == front[a] && all[c] == back[c - |front|];
      assert |lines[all[c]].name| == bound - 1;
    }
  }

  /** The set of elements of a sequence. */
  function Elements(s: seq<nat>): set<nat>
  {
    set x | x in s
  }

  /** A sequence without repetitions has as many distinct elements as it is long. */
  lemma {:induction false} DistinctElements(s: seq<nat>)
    requires forall a, c | 0 <= a < c < |s| :: s[a] != s[c]
    ensures |Elements(s)| == |s|
  {
    if s != [] {
      var rest := s[1..];
      forall a, c | 0 <= a < c < |rest|
        ensures rest[a] != rest[c]
      {
        assert rest[a] == s[a + 1] && rest[c] == s[c + 1];
      }
      DistinctElements(rest);
      assert Elements(s) == Elements(rest) + {s[0]} by {
        assert s == [s[0]] + rest;
      }
      assert s[0] !in Elements(rest) by {
        forall k | 0 <= k < |rest|
          ensures rest[k] != s[0]
        {
          assert rest[k] == s[k + 1];
        }
      }
    }
  }

  /** The naturals below `n`. */
  function Below(n: nat): (r: set<nat>)
    ensures forall x: nat :: x in r <==> x < n
  {
    if n == 0 then {} else Below(n - 1) + {n - 1}
  }

  /** The naturals below `n` form a set of `n` elements. */
  lemma {:induction false} BelowSize(n: nat)
    ensures |Below(n)| == n
  {
    if n > 0 {
      BelowSize(n - 1);
      var smaller := Below(n - 1);
      assert n - 1 !in smaller;
      assert Below(n) == smaller + {n - 1};
    }
  }

  /** A subset as large as its finite superset is the whole superset. */
  lemma SubsetOfSameSize(a: set<nat>, b: set<nat>)
    requires a <= b && |a| == |b|
    ensures a == b
  {
    assert b == a + (b - a);
    assert a * (b - a) == {};
    assert |b - a| == 0;
  }

  /**
   * The counting argument: an index that is sound, apart and as large as the
   * display lists every line under its key length, and no key is written twice.
   */
  lemma {:induction false} IndexedLines<V>(lines: seq<Entry<V>>, index: map<nat, seq<nat>>, bound: nat)
    requires Indexes(lines, index, bound)
    ensures DistinctNames(lines)
    ensures forall i | 0 <= i < |lines| :: |lines[i].name| in index && i in index[|lines[i].name|]
  {
    var all := Flatten(index, bound);
    FlattenSize(index, bound);
    forall a, c | 0 <= a < c < |all|
      ensures all[a] != all[c]
    {
      FlattenApart(lines, index, bound, a, c);
    }
    DistinctElements(all);
    BelowSize(|lines|);
    assert Elements(all) <= Below(|lines|) by {
      forall x | x in Elements(all)
        ensures x < |lines|
      {
        var a :| 0 <= a < |all| && all[a] == x;
        FlattenListed(lines, index, bound, a);
      }
    }
    SubsetOfSameSize(Elements(all), Below(|lines|));
    forall i | 0 <= i < |lines|
      ensures |lines[i].name| in index && i in index[|lines[i].name|]
    {
      assert i in Elements(all);
      var a :| 0 <= a < |all| && all[a] == i;
      FlattenListed(lines, index, bound, a);
    }
    forall i, j | 0 <= i < j < |lines|
      ensures lines[i].name != lines[j].name
    {
      assert i in Elements(all) && j in Elements(all);
      var a :| 0 <= a < |all| && all[a] == i;
      var c :| 0 <= c < |all| && all[c] == j;
      if a < c {
        FlattenApart(lines, index, bound, a, c);
      } else {
        FlattenApart(lines, index, bound, c, a);
      }
    }
  }

  /**
   * When every line is listed under its key length and the keys listed under
   * `L` are spelled out in `keys`, every key of length `L` is among `keys`.
   */
  lemma CoveredBy<V>(lines: seq<Entry<V>>, index: map<nat, seq<nat>>, L: nat, keys: seq<string>)
    requires forall i | 0 <= i < |lines| :: |lines[i].name| in index && i in index[|lines[i].name|]
    requires L in index && |keys| == |index[L]|
    requires forall p | 0 <= p < |index[L]| :: index[L][p] < |lines| && lines[index[L][p]].name == keys[p]
    ensures forall i | 0 <= i < |lines| && |lines[i].name| == L :: lines[i].name in keys
  {
    forall i | 0 <= i < |lines| && |lines[i].name| == L
      ensures lines[i].name in keys
    {
      var p :| 0 <= p < |index[L]| && index[L][p] == i;
      assert keys[p] == lines[i].name;
    }
  }
}

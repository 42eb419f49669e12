/**
 * The meaning of a dict display `{k1: v1, k2: v2, ...}` with string keys:
 * the lines are inserted in order, so a key written twice keeps the value
 * of its last line and the earlier line is silently lost.
 */
module DictLiteral {

  /** One `"name": value` line of a dict display. */
  datatype Entry<V> = Entry(name: string, value: V)

  /** The dict a display evaluates to, built by inserting its lines in order. */
  function DictOf<V>(lines: seq<Entry<V>>): map<string, V>
  {
    if lines == [] then map[]
    else
      var last := lines[|lines| - 1];
      DictOf(lines[..|lines| - 1])[last.name := last.value]
  }

  /** No key is written on two lines of the display. */
  predicate DistinctNames<V>(lines: seq<Entry<V>>)
  {
    forall i, j | 0 <= i < j < |lines| :: lines[i].name != lines[j].name
  }

  /** The dict has at most one key per line: a repeated key does not add one. */
  lemma {:induction false} DictOfSize<V>(lines: seq<Entry<V>>)
    ensures |DictOf(lines)| <= |lines|
  {
    if lines != [] {
      DictOfSize(lines[..|lines| - 1]);
    }
  }

  /** A key is in the dict exactly when some line of the display names it. */
  lemma {:induction false} KeysOfDictOf<V>(lines: seq<Entry<V>>, k: string)
    ensures k in DictOf(lines) <==> exists i | 0 <= i < |lines| :: lines[i].name == k
  {
    if lines != [] {
      var init := lines[..|lines| - 1];
      KeysOfDictOf(init, k);
      if k in DictOf(init) {
        var i :| 0 <= i < |init| && init[i].name == k;
        assert lines[i].name == k;
      }
      if exists i | 0 <= i < |lines| :: lines[i].name == k {
        var i :| 0 <= i < |lines| && lines[i].name == k;
        if i < |init| {
          assert init[i].name == k;
        }
      }
    }
  }

  /** Whatever the dict holds for a key was written on some line with that key. */
  lemma {:induction false} ValueFromALine<V>(lines: seq<Entry<V>>, k: string)
    requires k in DictOf(lines)
    ensures Entry(k, DictOf(lines)[k]) in lines
  {
    var init := lines[..|lines| - 1];
    var last := lines[|lines| - 1];
    if k != last.name {
      ValueFromALine(init, k);
      var i :| 0 <= i < |init| && init[i] == Entry(k, DictOf(init)[k]);
      assert lines[i] == init[i];
    }
  }

  /** A line whose key is not repeated further down keeps its value in the dict. */
  lemma {:induction false} LastLineWins<V>(lines: seq<Entry<V>>, i: nat)
    requires i < |lines|
    requires forall j | i < j < |lines| :: lines[j].name != lines[i].name
    ensures lines[i].name in DictOf(lines)
    ensures DictOf(lines)[lines[i].name] == lines[i].value
  {
    var init := lines[..|lines| - 1];
    if i < |lines| - 1 {
      assert init[i] == lines[i];
      forall j | i < j < |init|
        ensures init[j].name != init[i].name
      {
        assert init[j] == lines[j];
      }
      LastLineWins(init, i);
    }
  }

  /**
   * When no key is repeated, the dict has one key per line and every line
   * keeps its value: nothing is overwritten.
   */
  lemma {:induction false} DistinctDictOf<V>(lines: seq<Entry<V>>)
    requires DistinctNames(lines)
    ensures |DictOf(lines)| == |lines|
    ensures forall i | 0 <= i < |lines| ::
              lines[i].name in DictOf(lines) && DictOf(lines)[lines[i].name] == lines[i].value
  {
    if lines != [] {
      var init := lines[..|lines| - 1];
      var last := lines[|lines| - 1];
      assert DistinctNames(init) by {
        forall i, j | 0 <= i < j < |init|
          ensures init[i].name != init[j].name
        {
          assert init[i] == lines[i] && init[j] == lines[j];
        }
      }
      DistinctDictOf(init);
      KeysOfDictOf(init, last.name);
      forall i | 0 <= i < |lines|
        ensures lines[i].name in DictOf(lines) && DictOf(lines)[lines[i].name] == lines[i].value
      {
        LastLineWins(lines, i);
      }
    }
  }
}

/**
 * The per-suite result dictionaries. A Python `dict` remembers insertion
 * order: assigning a new key appends it, assigning an existing key replaces
 * its value where it stands. The dictionary is modelled as a sequence of
 * entries whose keys are distinct.
 */
module OrderedMap {
  import opened Strings

  datatype Entry = Entry(key: string, value: string)

  /** A suite's result dictionary: check name to captured text. */
  type Results = seq<Entry>

  predicate Distinct<T(==)>(s: seq<T>) {
    forall i, j :: 0 <= i < j < |s| ==> s[i] != s[j]
  }

  /** The keys in iteration order (`list(d)` / `d.items()` order). */
  function Keys(m: Results): (ks: seq<string>)
    ensures |ks| == |m|
    ensures forall i :: 0 <= i < |m| ==> ks[i] == m[i].key
  {
    seq(|m|, i requires 0 <= i < |m| => m[i].key)
  }

  /** Position of the first entry with key `k`. */
  function IndexOf(m: Results, k: string): (i: nat)
    requires k in Keys(m)
    ensures i < |m| && m[i].key == k
    ensures forall j :: 0 <= j < i ==> m[j].key != k
  {
    if m[0].key == k then 0
    else
      assert Keys(m) == [m[0].key] + Keys(m[1..]);
      1 + IndexOf(m[1..], k)
  }

  /** `d.get(k)`: the value stored under `k`, if any. */
  function Lookup(m: Results, k: string): (r: Option<string>)
    ensures r.Some? <==> k in Keys(m)
    ensures r.Some? ==> Entry(k, r.value) in m
  {
    if k in Keys(m) then Some(m[IndexOf(m, k)].value) else None
  }

  /** `d[k] = v`: replace in place when `k` is present, otherwise append. */
  function Assign(m: Results, k: string, v: string): (r: Results)
    ensures |r| == if k in Keys(m) then |m| else |m| + 1
    ensures Entry(k, v) in r
  {
    if k in Keys(m) then
      var i := IndexOf(m, k);
      assert m[i := Entry(k, v)][i] == Entry(k, v);
      m[i := Entry(k, v)]
    else
      assert (m + [Entry(k, v)])[|m|] == Entry(k, v);
      m + [Entry(k, v)]
  }

  /** Assignment never reorders: a present key keeps its place, a new key goes last. */
  lemma AssignKeys(m: Results, k: string, v: string)
    ensures Keys(Assign(m, k, v)) == if k in Keys(m) then Keys(m) else Keys(m) + [k]
  {
  }

  /** After `d[k] = v`, `d[k]` is `v` and every other key reads as before. */
  lemma AssignLookup(m: Results, k: string, v: string, k': string)
    ensures Lookup(Assign(m, k, v), k') == if k' == k then Some(v) else Lookup(m, k')
  {
    var r := Assign(m, k, v);
    AssignKeys(m, k, v);
    if k' != k && k' in Keys(m) {
      assert Keys(r) == Keys(m) || Keys(r) == Keys(m) + [k];
      var i := IndexOf(m, k');
      assert r[i] == m[i];
      assert forall j :: 0 <= j < i ==> r[j].key == m[j].key;
      assert IndexOf(r, k') == i;
    } else if k' == k {
      assert Keys(r) == Keys(m) || Keys(r) == Keys(m) + [k];
      if k in Keys(m) {
        assert IndexOf(r, k) == IndexOf(m, k);
      } else {
        assert IndexOf(r, k) == |m|;
      }
    }
  }

  /** Assignment keeps the keys distinct. */
  lemma AssignKeepsDistinct(m: Results, k: string, v: string)
    requires Distinct(Keys(m))
    ensures Distinct(Keys(Assign(m, k, v)))
  {
    AssignKeys(m, k, v);
  }

  /**
   * A run of assignments `d[ks[0]] = vs[0]; d[ks[1]] = vs[1]; ...`, in order.
   * Written from the back so that one more assignment is one more step.
   */
  function AssignAll(m: Results, ks: seq<string>, vs: seq<string>): (r: Results)
    requires |ks| == |vs|
    ensures |m| <= |r| <= |m| + |ks|
    decreases |ks|
  {
    if ks == [] then m
    else Assign(AssignAll(m, ks[..|ks| - 1], vs[..|vs| - 1]), ks[|ks| - 1], vs[|vs| - 1])
  }

  /** One more assignment at the end of a run. */
  lemma AssignAllStep(m: Results, ks: seq<string>, vs: seq<string>, k: string, v: string)
    requires |ks| == |vs|
    ensures AssignAll(m, ks + [k], vs + [v]) == Assign(AssignAll(m, ks, vs), k, v)
  {
    assert (ks + [k])[..|ks|] == ks;
    assert (vs + [v])[..|vs|] == vs;
  }

  /** Assigning distinct new keys to a dictionary appends them in assignment order. */
  lemma {:induction false} AssignAllFresh(m: Results, ks: seq<string>, vs: seq<string>)
    requires |ks| == |vs| && Distinct(ks)
    requires forall k <- ks :: k !in Keys(m)
    ensures Keys(AssignAll(m, ks, vs)) == Keys(m) + ks
    decreases |ks|
  {
    if ks != [] {
      var n := |ks| - 1;
      var prev := AssignAll(m, ks[..n], vs[..n]);
      assert forall k <- ks[..n] :: k in ks;
      assert Distinct(ks[..n]);
      AssignAllFresh(m, ks[..n], vs[..n]);
      assert ks[n] !in ks[..n] by {
        forall i | 0 <= i < n ensures ks[..n][i] != ks[n] {
          assert ks[..n][i] == ks[i];
        }
      }
      assert ks[n] !in Keys(prev);
      AssignKeys(prev, ks[n], vs[n]);
      assert ks == ks[..n] + [ks[n]];
    }
  }

  /** Assigning keys that are all present already leaves the key order unchanged. */
  lemma {:induction false} AssignAllExisting(m: Results, ks: seq<string>, vs: seq<string>)
    requires |ks| == |vs|
    requires forall k <- ks :: k in Keys(m)
    ensures Keys(AssignAll(m, ks, vs)) == Keys(m)
    decreases |ks|
  {
    hide Assign;
    if ks != [] {
      var n := |ks| - 1;
      assert forall k <- ks[..n] :: k in ks;
      AssignAllExisting(m, ks[..n], vs[..n]);
      AssignKeys(AssignAll(m, ks[..n], vs[..n]), ks[n], vs[n]);
    }
  }

  /** Every assigned key is present afterwards, and so is every key present before. */
  lemma {:induction false} AssignAllCovers(m: Results, ks: seq<string>, vs: seq<string>)
    requires |ks| == |vs|
    ensures forall k <- ks :: k in Keys(AssignAll(m, ks, vs))
    ensures forall k <- Keys(m) :: k in Keys(AssignAll(m, ks, vs))
    decreases |ks|
  {
    if ks != [] {
      var n := |ks| - 1;
      var prev := AssignAll(m, ks[..n], vs[..n]);
      var r := AssignAll(m, ks, vs);
      AssignAllCovers(m, ks[..n], vs[..n]);
      AssignKeys(prev, ks[n], vs[n]);
      assert forall k <- Keys(prev) :: k in Keys(r);
      forall i | 0 <= i < |ks| ensures ks[i] in Keys(r) {
        if i < n {
          assert ks[..n][i] == ks[i];
        }
      }
    }
  }

  /** Assignments keep the keys distinct. */
  lemma {:induction false} AssignAllKeepsDistinct(m: Results, ks: seq<string>, vs: seq<string>)
    requires |ks| == |vs| && Distinct(Keys(m))
    ensures Distinct(Keys(AssignAll(m, ks, vs)))
    decreases |ks|
  {
    if ks != [] {
      var n := |ks| - 1;
      AssignAllKeepsDistinct(m, ks[..n], vs[..n]);
      AssignKeepsDistinct(AssignAll(m, ks[..n], vs[..n]), ks[n], vs[n]);
    }
  }

  /**
   * With distinct keys, each assigned key reads back the value assigned to
   * it, and every key not assigned reads as it did before.
   */
  lemma {:induction false} AssignAllLookup(m: Results, ks: seq<string>, vs: seq<string>)
    requires |ks| == |vs| && Distinct(ks)
    ensures forall i :: 0 <= i < |ks| ==> Lookup(AssignAll(m, ks, vs), ks[i]) == Some(vs[i])
    ensures forall k :: k !in ks ==> Lookup(AssignAll(m, ks, vs), k) == Lookup(m, k)
    decreases |ks|
  {
    if ks != [] {
      var n := |ks| - 1;
      var prev := AssignAll(m, ks[..n], vs[..n]);
      AssignAllLookup(m, ks[..n], vs[..n]);
      forall k' ensures Lookup(AssignAll(m, ks, vs), k') == Lookup(Assign(prev, ks[n], vs[n]), k') {
      }
      forall i | 0 <= i < |ks|
        ensures Lookup(AssignAll(m, ks, vs), ks[i]) == Some(vs[i])
      {
        AssignLookup(prev, ks[n], vs[n], ks[i]);
        if i < n {
          assert ks[..n][i] == ks[i];
        }
      }
      forall k | k !in ks
        ensures Lookup(AssignAll(m, ks, vs), k) == Lookup(m, k)
      {
        AssignLookup(prev, ks[n], vs[n], k);
        assert k !in ks[..n];
      }
    }
  }

  /**
   * Running the same assignments a second time (with any new values) keeps
   * the key sequence the first run produced.
   */
  lemma RerunKeepsKeys(m: Results, ks: seq<string>, vs: seq<string>, ws: seq<string>)
    requires |ks| == |vs| == |ws|
    ensures Keys(AssignAll(AssignAll(m, ks, vs), ks, ws)) == Keys(AssignAll(m, ks, vs))
  {
    AssignAllCovers(m, ks, vs);
    AssignAllExisting(AssignAll(m, ks, vs), ks, ws);
  }
}

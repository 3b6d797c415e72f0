/** `Object.values` on a record built by assignment: the order in which
    section 10.1.11.1 of ECMA-262 (OrdinaryOwnPropertyKeys) lists own
    keys, which puts array-index keys first in ascending numeric order and
    the other string keys after them in insertion order. */
module Records {
  import opened Wrappers
  import opened Js

  /** The members whose keys are array indices, as (index, value), in
      insertion order. */
  function Indexed(fields: Fields): (r: seq<(nat, Value)>)
    ensures |r| <= |fields|
  {
    if fields == [] then []
    else
      var last := fields[|fields| - 1];
      var n := ArrayIndex(last.0);
      Indexed(fields[..|fields| - 1]) + (if n.Some? then [(n.value, last.1)] else [])
  }

  /** The values of the members whose keys are not array indices, in
      insertion order. */
  function Named(fields: Fields): (r: seq<Value>)
    ensures |r| <= |fields|
  {
    if fields == [] then []
    else
      var last := fields[|fields| - 1];
      Named(fields[..|fields| - 1]) + (if ArrayIndex(last.0).None? then [last.1] else [])
  }

  predicate Ascending(s: seq<(nat, Value)>) {
    forall i, j :: 0 <= i < j < |s| ==> s[i].0 <= s[j].0
  }

  /** `x` placed before the first element of `s` whose index is not below it. */
  function Insert(x: (nat, Value), s: seq<(nat, Value)>): seq<(nat, Value)> {
    if s == [] || x.0 <= s[0].0 then [x] + s else [s[0]] + Insert(x, s[1..])
  }

  /** The indexed members ordered by index. */
  function ByIndex(s: seq<(nat, Value)>): seq<(nat, Value)> {
    if s == [] then [] else Insert(s[|s| - 1], ByIndex(s[..|s| - 1]))
  }

  function Values(s: seq<(nat, Value)>): (r: seq<Value>)
    ensures |r| == |s| && forall k :: 0 <= k < |s| ==> r[k] == s[k].1
  {
    seq(|s|, k requires 0 <= k < |s| => s[k].1)
  }

  /** `Object.values(record)`. */
  function ObjectValues(fields: Fields): seq<Value> {
    Values(ByIndex(Indexed(fields))) + Named(fields)
  }

  /** Inserting adds exactly the inserted member. */
  lemma {:induction false} InsertAdds(x: (nat, Value), s: seq<(nat, Value)>)
    ensures multiset(Insert(x, s)) == multiset(s) + multiset{x}
    decreases |s|
  {
    if s != [] && x.0 > s[0].0 {
      InsertAdds(x, s[1..]);
      assert s == [s[0]] + s[1..];
    }
  }

  /** A bound below the inserted member and all of `s` stays below all of
      the result. */
  lemma {:induction false} InsertAbove(x: (nat, Value), s: seq<(nat, Value)>, b: nat)
    requires b <= x.0 && forall k :: 0 <= k < |s| ==> b <= s[k].0
    ensures forall k :: 0 <= k < |Insert(x, s)| ==> b <= Insert(x, s)[k].0
    decreases |s|
  {
    if s != [] && x.0 > s[0].0 {
      InsertAbove(x, s[1..], b);
    }
  }

  /** Inserting into an ascending sequence keeps it ascending. */
  lemma {:induction false} InsertSorted(x: (nat, Value), s: seq<(nat, Value)>)
    requires Ascending(s)
    ensures Ascending(Insert(x, s))
    decreases |s|
  {
    if s != [] && x.0 > s[0].0 {
      InsertSorted(x, s[1..]);
      InsertAbove(x, s[1..], s[0].0);
    }
  }

  /** The indexed members come out in ascending index order, and they are
      the same members, each as often as before. */
  lemma {:induction false} ByIndexSorts(s: seq<(nat, Value)>)
    ensures Ascending(ByIndex(s))
    ensures multiset(ByIndex(s)) == multiset(s)
    decreases |s|
  {
    if s != [] {
      var init := s[..|s| - 1];
      ByIndexSorts(init);
      InsertSorted(s[|s| - 1], ByIndex(init));
      InsertAdds(s[|s| - 1], ByIndex(init));
      assert s == init + [s[|s| - 1]];
    }
  }

  /** Every member of a record gives exactly one value. */
  lemma {:induction false} ObjectValuesCount(fields: Fields)
    ensures |ObjectValues(fields)| == |fields|
    decreases |fields|
  {
    if fields != [] {
      var init := fields[..|fields| - 1];
      ObjectValuesCount(init);
      ByIndexSorts(Indexed(init));
      ByIndexSorts(Indexed(fields));
      assert |multiset(ByIndex(Indexed(init)))| == |Indexed(init)|;
      assert |multiset(ByIndex(Indexed(fields)))| == |Indexed(fields)|;
    }
  }

  /** The values open with those of the array-index keys, in ascending
      index order, and close with the other values in insertion order. */
  lemma ObjectValuesOrder(fields: Fields)
    ensures var sorted := ByIndex(Indexed(fields));
      && Ascending(sorted) && multiset(sorted) == multiset(Indexed(fields))
      && ObjectValues(fields) == Values(sorted) + Named(fields)
  {
    ByIndexSorts(Indexed(fields));
  }

  /** A member is listed among the indexed ones exactly when its key is an
      array index. */
  lemma {:induction false} IndexedMembers(fields: Fields, n: nat, v: Value)
    ensures (n, v) in Indexed(fields) <==>
      exists k :: 0 <= k < |fields| && ArrayIndex(fields[k].0) == Some(n) && fields[k].1 == v
    decreases |fields|
  {
    if fields != [] {
      var init, last := fields[..|fields| - 1], fields[|fields| - 1];
      IndexedMembers(init, n, v);
      assert (n, v) in Indexed(fields) <==>
        (n, v) in Indexed(init) || (ArrayIndex(last.0) == Some(n) && last.1 == v);
      if (n, v) in Indexed(init) {
        var k :| 0 <= k < |init| && ArrayIndex(init[k].0) == Some(n) && init[k].1 == v;
        assert fields[k] == init[k];
      } else if !(ArrayIndex(last.0) == Some(n) && last.1 == v) {
        forall k | 0 <= k < |fields| ensures !(ArrayIndex(fields[k].0) == Some(n) && fields[k].1 == v) {
          if k < |init| {
            assert init[k] == fields[k];
          }
        }
      }
    }
  }
}

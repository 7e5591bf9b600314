/** Where one sequence stands inside another, and sequences without repeats. */
module Sequences {

  /** `part` stands in `whole` at `i`. */
  ghost predicate Stands<T>(whole: seq<T>, i: nat, part: seq<T>) {
    i + |part| <= |whole| && whole[i..i + |part|] == part
  }

  lemma StandsSplit<T>(whole: seq<T>, i: nat, a: seq<T>, b: seq<T>)
    ensures Stands(whole, i, a + b) <==> Stands(whole, i, a) && Stands(whole, i + |a|, b)
  {
    if i + |a + b| <= |whole| {
      var both := whole[i..i + |a + b|];
      assert both == whole[i..i + |a|] + whole[i + |a|..i + |a| + |b|];
      assert both[..|a|] == whole[i..i + |a|] && both[|a|..] == whole[i + |a|..i + |a| + |b|];
      assert (a + b)[..|a|] == a && (a + b)[|a|..] == b;
    }
  }

  lemma StandsFirst<T>(whole: seq<T>, i: nat, part: seq<T>)
    requires Stands(whole, i, part) && part != []
    ensures i < |whole| && whole[i] == part[0] && Stands(whole, i + 1, part[1..])
  {
    assert part == [part[0]] + part[1..];
    StandsSplit(whole, i, [part[0]], part[1..]);
    assert whole[i] == whole[i..i + 1][0];
  }

  ghost predicate Distinct<T>(items: seq<T>) {
    forall i, j :: 0 <= i < j < |items| ==> items[i] != items[j]
  }

  lemma DistinctConcat<T>(a: seq<T>, b: seq<T>)
    requires Distinct(a) && Distinct(b) && forall item :: item in b ==> item !in a
    ensures Distinct(a + b)
  {
    var both := a + b;
    forall i, j | 0 <= i < j < |both|
      ensures both[i] != both[j]
    {
      if i < |a| <= j {
        assert both[i] in a && both[j] in b;
      }
    }
  }

  lemma DistinctOneMore<T>(items: seq<T>, item: T)
    requires Distinct(items) && item !in items
    ensures Distinct(items + [item])
  {
  }

  lemma DistinctParts<T>(a: seq<T>, b: seq<T>)
    requires Distinct(a + b)
    ensures Distinct(a) && Distinct(b) && forall item :: item in a ==> item !in b
  {
    assert forall i :: 0 <= i < |a| ==> (a + b)[i] == a[i];
    assert forall i :: 0 <= i < |b| ==> (a + b)[|a| + i] == b[i];
  }

  /** The places at which an item stands. */
  function Places<T(==)>(items: seq<T>, item: T): set<nat> {
    set k: nat | k < |items| && items[k] == item
  }

  /** How often it stands there. */
  function Times<T(==)>(items: seq<T>, item: T): nat {
    |Places(items, item)|
  }

  /** A set mapped one to one into another is no larger. */
  lemma {:induction false} InjectionBound(small: set<nat>, large: set<nat>, to: seq<nat>)
    requires Distinct(to) && forall k :: k in small ==> k < |to| && to[k] in large
    ensures |small| <= |large|
    decreases small
  {
    if small != {} {
      var k :| k in small;
      InjectionBound(small - {k}, large - {to[k]}, to);
    }
  }

  /** Items taken from different places of another sequence stand there at least as often. */
  lemma TakenFrom<T>(items: seq<T>, from: seq<nat>, all: seq<T>, item: T)
    requires |from| == |items| && Distinct(from)
    requires forall k :: 0 <= k < |items| ==> from[k] < |all| && items[k] == all[from[k]]
    ensures Times(items, item) <= Times(all, item)
  {
    InjectionBound(Places(items, item), Places(all, item), from);
  }

  /** No repeats: nothing stands there twice. */
  lemma DistinctTimes<T>(items: seq<T>)
    ensures Distinct(items) <==> forall item :: Times(items, item) <= 1
  {
    if Distinct(items) {
      forall item
        ensures Times(items, item) <= 1
      {
        if Places(items, item) != {} {
          var k :| k in Places(items, item);
          assert Places(items, item) == {k};
        }
      }
    } else {
      var i, j :| 0 <= i < j < |items| && items[i] == items[j];
      assert {i, j} <= Places(items, items[i]);
      SubsetBound({i, j}, Places(items, items[i]));
      assert |{i, j}| == 2;
      assert Times(items, items[i]) >= 2;
    }
  }

  lemma SubsetBound<T>(small: set<T>, large: set<T>)
    requires small <= large
    ensures |small| <= |large|
  {
    assert large == small + (large - small);
  }

  ghost function PlaceOf<T>(items: seq<T>, item: T): (k: nat)
    requires item in items
    ensures k < |items| && items[k] == item
  {
    var k :| 0 <= k < |items| && items[k] == item;
    k
  }
}

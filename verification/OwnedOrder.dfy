/** The order of members with two owners: packages/provider/src/owned-order.ts. */
module OwnedOrder {
  import opened Sequences
  import opened Texts

  /** Provider and model ids. */
  type Id = Text

  function Elements(ids: seq<Id>): set<Id> {
    set id | id in ids
  }

  /** Each value once, where it first stands. */
  function Unique(values: seq<Id>): (result: seq<Id>)
    ensures Distinct(result)
    ensures forall v :: v in result <==> v in values
  {
    if values == [] then []
    else
      var last := values[|values| - 1];
      var before := Unique(values[..|values| - 1]);
      if last in before then before else before + [last]
  }

  /** The ids that are in `s`, or those that are not, in their order. */
  function Filter(ids: seq<Id>, s: set<Id>, keep: bool): (result: seq<Id>)
    ensures forall id :: id in result <==> id in ids && (id in s) == keep
  {
    if ids == [] then []
    else
      var last := ids[|ids| - 1];
      var before := Filter(ids[..|ids| - 1], s, keep);
      if (last in s) == keep then before + [last] else before
  }

  /** The second owner's ids without the first's. */
  function OwnPersonal(builtinIds: seq<Id>, personalIds: seq<Id>): seq<Id> {
    Filter(Unique(personalIds), Elements(builtinIds), false)
  }

  function Members(builtinIds: seq<Id>, personalIds: seq<Id>): set<Id> {
    Elements(builtinIds) + Elements(personalIds)
  }

  /** The requested members, each once. */
  function Ordered(builtinIds: seq<Id>, personalIds: seq<Id>, requested: seq<Id>): seq<Id> {
    Filter(Unique(requested), Members(builtinIds, personalIds), true)
  }

  /** Unrequested built-in members first, the requested ones as asked, unrequested personal ones last. */
  function Assemble(builtin: seq<Id>, ordered: seq<Id>, personal: seq<Id>): seq<Id> {
    Filter(builtin, Elements(ordered), false) + ordered + Filter(personal, Elements(ordered), false)
  }

  function ResolveOwnedOrder(builtinIds: seq<Id>, personalIds: seq<Id>, requested: seq<Id>): seq<Id> {
    Assemble(Unique(builtinIds), Ordered(builtinIds, personalIds, requested), OwnPersonal(builtinIds, personalIds))
  }

  // ---------------------------------------------------------------------------------------------
  // The loops
  // ---------------------------------------------------------------------------------------------

  method UniqueInOrder(values: seq<Id>) returns (result: seq<Id>)
    ensures result == Unique(values)
  {
    var seen: set<Id> := {};
    result := [];
    for k := 0 to |values|
      invariant result == Unique(values[..k]) && seen == Elements(result)
    {
      assert values[..k + 1][..k] == values[..k];
      if values[k] in seen {
        continue;
      }
      seen := seen + {values[k]};
      result := result + [values[k]];
    }
    assert values[..|values|] == values;
  }

  method FilterIds(ids: seq<Id>, s: set<Id>, keep: bool) returns (result: seq<Id>)
    ensures result == Filter(ids, s, keep)
  {
    result := [];
    for k := 0 to |ids|
      invariant result == Filter(ids[..k], s, keep)
    {
      assert ids[..k + 1][..k] == ids[..k];
      if (ids[k] in s) == keep {
        result := result + [ids[k]];
      }
    }
    assert ids[..|ids|] == ids;
  }

  method ResolveOrder(builtinIds: seq<Id>, personalIds: seq<Id>, requestedOrder: seq<Id>) returns (order: seq<Id>)
    ensures order == ResolveOwnedOrder(builtinIds, personalIds, requestedOrder)
  {
    var builtin := UniqueInOrder(builtinIds);
    var builtinSet := set id | id in builtin;
    var personalAll := UniqueInOrder(personalIds);
    var personal := FilterIds(personalAll, builtinSet, false);
    var members := builtinSet + set id | id in personal;
    assert builtinSet == Elements(builtinIds) && members == Members(builtinIds, personalIds);
    var requested := UniqueInOrder(requestedOrder);
    var ordered := FilterIds(requested, members, true);
    var orderedSet := set id | id in ordered;
    var first := FilterIds(builtin, orderedSet, false);
    var last := FilterIds(personal, orderedSet, false);
    order := first + ordered + last;
  }

  // ---------------------------------------------------------------------------------------------
  // Filters and duplicates
  // ---------------------------------------------------------------------------------------------

  lemma {:induction false} FilterConcat(a: seq<Id>, b: seq<Id>, s: set<Id>, keep: bool)
    ensures Filter(a + b, s, keep) == Filter(a, s, keep) + Filter(b, s, keep)
    decreases |b|
  {
    if b == [] {
      assert a + b == a;
    } else {
      assert (a + b)[..|a + b| - 1] == a + b[..|b| - 1];
      FilterConcat(a, b[..|b| - 1], s, keep);
    }
  }

  lemma {:induction false} FilterAll(ids: seq<Id>, s: set<Id>, keep: bool)
    requires forall id :: id in ids ==> (id in s) == keep
    ensures Filter(ids, s, keep) == ids
    decreases |ids|
  {
    if ids != [] {
      FilterAll(ids[..|ids| - 1], s, keep);
    }
  }

  lemma FilterNone(ids: seq<Id>, s: set<Id>, keep: bool)
    requires forall id :: id in ids ==> (id in s) != keep
    ensures Filter(ids, s, keep) == []
  {
    if Filter(ids, s, keep) != [] {
      assert Filter(ids, s, keep)[0] in Filter(ids, s, keep);
    }
  }

  /** Filters that treat every id alike agree. */
  lemma {:induction false} FilterSame(ids: seq<Id>, s: set<Id>, t: set<Id>, keep: bool)
    requires forall id :: id in ids ==> (id in s <==> id in t)
    ensures Filter(ids, s, keep) == Filter(ids, t, keep)
    decreases |ids|
  {
    if ids != [] {
      FilterSame(ids[..|ids| - 1], s, t, keep);
    }
  }

  lemma {:induction false} FilterCommute(ids: seq<Id>, s: set<Id>, keep: bool, t: set<Id>, hold: bool)
    ensures Filter(Filter(ids, s, keep), t, hold) == Filter(Filter(ids, t, hold), s, keep)
    decreases |ids|
  {
    if ids != [] {
      var rest, last := ids[..|ids| - 1], ids[|ids| - 1];
      FilterCommute(rest, s, keep, t, hold);
      hide Filter;
      assert ids == rest + [last];
      FilterOneMore(rest, last, s, keep);
      FilterOneMore(rest, last, t, hold);
      FilterOneMore(Filter(rest, s, keep), last, t, hold);
      FilterOneMore(Filter(rest, t, hold), last, s, keep);
    }
  }

  lemma FilterOneMore(ids: seq<Id>, id: Id, s: set<Id>, keep: bool)
    ensures Filter(ids + [id], s, keep) == if (id in s) == keep then Filter(ids, s, keep) + [id] else Filter(ids, s, keep)
  {
    assert (ids + [id])[..|ids|] == ids;
  }

  lemma {:induction false} FilterDistinct(ids: seq<Id>, s: set<Id>, keep: bool)
    requires Distinct(ids)
    ensures Distinct(Filter(ids, s, keep))
    decreases |ids|
  {
    if ids != [] {
      FilterDistinct(ids[..|ids| - 1], s, keep);
    }
  }

  lemma {:induction false} UniqueOfDistinct(ids: seq<Id>)
    requires Distinct(ids)
    ensures Unique(ids) == ids
    decreases |ids|
  {
    if ids != [] {
      UniqueOfDistinct(ids[..|ids| - 1]);
      assert ids == ids[..|ids| - 1] + [ids[|ids| - 1]];
    }
  }

  // ---------------------------------------------------------------------------------------------
  // What the resolved order is
  // ---------------------------------------------------------------------------------------------

  /** Every member of either owner, each once, and nothing else. */
  lemma ResolvedIsPermutation(builtinIds: seq<Id>, personalIds: seq<Id>, requested: seq<Id>)
    ensures Distinct(ResolveOwnedOrder(builtinIds, personalIds, requested))
    ensures Elements(ResolveOwnedOrder(builtinIds, personalIds, requested)) == Members(builtinIds, personalIds)
  {
    var ordered := Ordered(builtinIds, personalIds, requested);
    var first := Filter(Unique(builtinIds), Elements(ordered), false);
    var last := Filter(OwnPersonal(builtinIds, personalIds), Elements(ordered), false);
    FilterDistinct(Unique(requested), Members(builtinIds, personalIds), true);
    FilterDistinct(Unique(builtinIds), Elements(ordered), false);
    FilterDistinct(Unique(personalIds), Elements(builtinIds), false);
    FilterDistinct(OwnPersonal(builtinIds, personalIds), Elements(ordered), false);
    DistinctConcat(first, ordered);
    DistinctConcat(first + ordered, last);
  }

  /** The requested members keep their requested order; the others keep their own, built-in before personal. */
  lemma RelativeOrderIsKept(builtinIds: seq<Id>, personalIds: seq<Id>, requested: seq<Id>)
    ensures var result := ResolveOwnedOrder(builtinIds, personalIds, requested);
            && Filter(result, Elements(requested), true) == Ordered(builtinIds, personalIds, requested)
            && Filter(result, Elements(requested), false)
            == Filter(Unique(builtinIds), Elements(requested), false)
             + Filter(OwnPersonal(builtinIds, personalIds), Elements(requested), false)
  {
    var ordered := Ordered(builtinIds, personalIds, requested);
    var own := OwnPersonal(builtinIds, personalIds);
    FilterSame(Unique(builtinIds), Elements(ordered), Elements(requested), false);
    FilterSame(own, Elements(ordered), Elements(requested), false);
    var first := Filter(Unique(builtinIds), Elements(requested), false);
    var last := Filter(own, Elements(requested), false);
    assert ResolveOwnedOrder(builtinIds, personalIds, requested) == first + ordered + last;
    assert forall id :: id in ordered ==> id in Elements(requested);
    hide *;
    OutsideAndInside(first, ordered, last, Elements(requested));
  }

  /** Filters of a middle part in `s` between two parts outside it. */
  lemma OutsideAndInside(a: seq<Id>, b: seq<Id>, c: seq<Id>, s: set<Id>)
    requires (forall id :: id in a || id in c ==> id !in s) && (forall id :: id in b ==> id in s)
    ensures Filter(a + b + c, s, true) == b && Filter(a + b + c, s, false) == a + c
  {
    hide Filter;
    FilterThree(a, b, c, s, true);
    FilterThree(a, b, c, s, false);
    FilterNone(a, s, true);
    FilterAll(b, s, true);
    FilterNone(c, s, true);
    FilterAll(a, s, false);
    FilterNone(b, s, false);
    FilterAll(c, s, false);
    assert [] + b + [] == b && a + [] + c == a + c;
  }

  lemma FilterThree(a: seq<Id>, b: seq<Id>, c: seq<Id>, s: set<Id>, keep: bool)
    ensures Filter(a + b + c, s, keep) == Filter(a, s, keep) + Filter(b, s, keep) + Filter(c, s, keep)
  {
    FilterConcat(a + b, c, s, keep);
    FilterConcat(a, b, s, keep);
  }

  /** An unrequested built-in member stands before every requested one, an unrequested personal one behind. */
  lemma UnrequestedStandOutside(builtinIds: seq<Id>, personalIds: seq<Id>, requested: seq<Id>, i: nat, j: nat)
    requires var result := ResolveOwnedOrder(builtinIds, personalIds, requested);
             i < |result| && j < |result| && result[i] !in requested && result[j] in requested
    ensures var result := ResolveOwnedOrder(builtinIds, personalIds, requested);
            if result[i] in builtinIds then i < j else j < i
  {
    var ordered := Ordered(builtinIds, personalIds, requested);
    var first := Filter(Unique(builtinIds), Elements(ordered), false);
    var last := Filter(OwnPersonal(builtinIds, personalIds), Elements(ordered), false);
    var result := first + ordered + last;
    assert result == ResolveOwnedOrder(builtinIds, personalIds, requested);
    InThree(first, ordered, last, i);
    InThree(first, ordered, last, j);
  }

  lemma InThree(a: seq<Id>, b: seq<Id>, c: seq<Id>, i: nat)
    requires i < |a + b + c|
    ensures if i < |a| then (a + b + c)[i] in a else if i < |a| + |b| then (a + b + c)[i] in b else (a + b + c)[i] in c
  {
  }

  /** Resolving a resolved order changes nothing. */
  lemma ResolvingIsIdempotent(builtinIds: seq<Id>, personalIds: seq<Id>, requested: seq<Id>)
    ensures var result := ResolveOwnedOrder(builtinIds, personalIds, requested);
            ResolveOwnedOrder(builtinIds, personalIds, result) == result
  {
    var result := ResolveOwnedOrder(builtinIds, personalIds, requested);
    ResolvedIsPermutation(builtinIds, personalIds, requested);
    CompleteOrderStays(builtinIds, personalIds, result);
  }

  /** An order that names every member once is the resolved order. */
  lemma CompleteOrderStays(builtinIds: seq<Id>, personalIds: seq<Id>, order: seq<Id>)
    requires Distinct(order) && Elements(order) == Members(builtinIds, personalIds)
    ensures ResolveOwnedOrder(builtinIds, personalIds, order) == order
  {
    hide Filter, Unique;
    UniqueOfDistinct(order);
    hide Distinct;
    FilterAll(order, Members(builtinIds, personalIds), true);
    FilterNone(Unique(builtinIds), Elements(order), false);
    FilterNone(OwnPersonal(builtinIds, personalIds), Elements(order), false);
    assert [] + order + [] == order;
  }

  // ---------------------------------------------------------------------------------------------
  // Which of two members stands first
  // ---------------------------------------------------------------------------------------------

  /** Where an id stands for the first time. */
  function First(ids: seq<Id>, id: Id): (k: nat)
    requires id in ids
    ensures k < |ids| && ids[k] == id && forall n :: 0 <= n < k ==> ids[n] != id
  {
    if ids[0] == id then 0
    else
      assert ids == [ids[0]] + ids[1..];
      First(ids[1..], id) + 1
  }

  lemma FirstIs(ids: seq<Id>, id: Id, k: nat)
    requires k < |ids| && ids[k] == id && forall n :: 0 <= n < k ==> ids[n] != id
    ensures First(ids, id) == k
  {
  }

  /** Taking the last id away moves no other. */
  lemma FirstOfFront(ids: seq<Id>, id: Id)
    requires ids != [] && id in ids[..|ids| - 1]
    ensures First(ids, id) == First(ids[..|ids| - 1], id)
  {
    var front := ids[..|ids| - 1];
    var k := First(front, id);
    assert front[..k] == ids[..k] && front[k] == ids[k];
    FirstIs(ids, id, k);
  }

  /** Without duplicates the values stand as they first stood. */
  lemma {:induction false} UniquePlaces(values: seq<Id>, i: nat, j: nat)
    requires i < j < |Unique(values)|
    ensures First(values, Unique(values)[i]) < First(values, Unique(values)[j])
    decreases |values|
  {
    var n := |values| - 1;
    var before := Unique(values[..n]);
    FirstOfFront(values, Unique(values)[i]);
    if j < |before| {
      UniquePlaces(values[..n], i, j);
      FirstOfFront(values, Unique(values)[j]);
    } else {
      assert Unique(values)[j] == values[n] && values[n] !in values[..n];
      FirstIs(values, values[n], n);
      assert First(values[..n], Unique(values)[i]) < n;
    }
  }

  /** What a filter leaves stands as it stood. */
  lemma {:induction false} FilterPlaces(ids: seq<Id>, s: set<Id>, keep: bool, i: nat, j: nat)
    requires Distinct(ids) && i < j < |Filter(ids, s, keep)|
    ensures First(ids, Filter(ids, s, keep)[i]) < First(ids, Filter(ids, s, keep)[j])
    decreases |ids|
  {
    var n := |ids| - 1;
    var before := Filter(ids[..n], s, keep);
    FirstOfFront(ids, Filter(ids, s, keep)[i]);
    if j < |before| {
      FilterPlaces(ids[..n], s, keep, i, j);
      FirstOfFront(ids, Filter(ids, s, keep)[j]);
    } else {
      assert Filter(ids, s, keep)[j] == ids[n] && ids[n] !in ids[..n];
      FirstIs(ids, ids[n], n);
      assert First(ids[..n], Filter(ids, s, keep)[i]) < n;
    }
  }

  /** Both: what is left of the values without duplicates stands as it first stood. */
  lemma FilteredUniquePlaces(values: seq<Id>, s: set<Id>, keep: bool, i: nat, j: nat)
    requires i < j < |Filter(Unique(values), s, keep)|
    ensures var f := Filter(Unique(values), s, keep);
            f[i] in values && f[j] in values && First(values, f[i]) < First(values, f[j])
  {
    var ids := Unique(values);
    var f := Filter(ids, s, keep);
    FilterPlaces(ids, s, keep, i, j);
    assert f[i] in f && f[j] in f;
    UniquePlaces(values, First(ids, f[i]), First(ids, f[j]));
  }

  /** Of two members, the one that stands first in the resolved order. */
  ghost predicate Leads(builtinIds: seq<Id>, personalIds: seq<Id>, requested: seq<Id>, x: Id, y: Id) {
    if x in requested && y in requested then First(requested, x) < First(requested, y)
    else if x in requested then y !in builtinIds
    else if y in requested then x in builtinIds
    else if x in builtinIds then y in builtinIds ==> First(builtinIds, x) < First(builtinIds, y)
    else y !in builtinIds && (x in personalIds && y in personalIds ==> First(personalIds, x) < First(personalIds, y))
  }

  /** The three parts of a resolved order, and what their members are. */
  lemma ResolvedParts(builtinIds: seq<Id>, personalIds: seq<Id>, requested: seq<Id>)
    ensures var ordered := Ordered(builtinIds, personalIds, requested);
            var first := Filter(Unique(builtinIds), Elements(ordered), false);
            var last := Filter(OwnPersonal(builtinIds, personalIds), Elements(ordered), false);
            && ResolveOwnedOrder(builtinIds, personalIds, requested) == first + ordered + last
            && (forall id :: id in first ==> id in builtinIds && id !in requested)
            && (forall id :: id in ordered ==> id in requested)
            && (forall id :: id in last ==> id !in builtinIds && id in personalIds && id !in requested)
  {
  }

  lemma LastPlaces(builtinIds: seq<Id>, personalIds: seq<Id>, s: set<Id>, i: nat, j: nat)
    requires i < j < |Filter(OwnPersonal(builtinIds, personalIds), s, false)|
    ensures var f := Filter(OwnPersonal(builtinIds, personalIds), s, false);
            f[i] in personalIds && f[j] in personalIds && First(personalIds, f[i]) < First(personalIds, f[j])
  {
    var own := OwnPersonal(builtinIds, personalIds);
    var f := Filter(own, s, false);
    FilterDistinct(Unique(personalIds), Elements(builtinIds), false);
    FilterPlaces(own, s, false, i, j);
    assert f[i] in f && f[j] in f;
    hide Filter, Unique;
    FilteredUniquePlaces(personalIds, Elements(builtinIds), false, First(own, f[i]), First(own, f[j]));
  }

  /**
   * Of any two members: requested ones stand as requested, before them the built-in members that are not requested and
   * behind them the personal ones, each as their owner lists them.
   */
  lemma ResolvedPlaces(builtinIds: seq<Id>, personalIds: seq<Id>, requested: seq<Id>, i: nat, j: nat)
    requires i < j < |ResolveOwnedOrder(builtinIds, personalIds, requested)|
    ensures var order := ResolveOwnedOrder(builtinIds, personalIds, requested);
            Leads(builtinIds, personalIds, requested, order[i], order[j])
  {
    hide ResolveOwnedOrder, Filter, Unique, OwnPersonal, First;
    ResolvedParts(builtinIds, personalIds, requested);
    var ordered := Ordered(builtinIds, personalIds, requested);
    var first := Filter(Unique(builtinIds), Elements(ordered), false);
    var last := Filter(OwnPersonal(builtinIds, personalIds), Elements(ordered), false);
    var m := |first| + |ordered|;
    InThree(first, ordered, last, i);
    InThree(first, ordered, last, j);
    if j < |first| {
      FilteredUniquePlaces(builtinIds, Elements(ordered), false, i, j);
    } else if |first| <= i && j < m {
      FilteredUniquePlaces(requested, Members(builtinIds, personalIds), true, i - |first|, j - |first|);
    } else if m <= i {
      LastPlaces(builtinIds, personalIds, Elements(ordered), i - m, j - m);
    }
  }
}

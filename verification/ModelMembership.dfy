/** Personal models and their stored order: packages/provider/src/config-service.ts. */
module ModelMembership {
  // Add, rename, delete and reorder over a fixed inherited list, as the source edits them.

  import opened Outcomes
  import opened OwnedOrder
  import opened Sequences
  import opened Texts

  /** `personalModelIds` and `modelOrder` of the personal layer. */
  datatype Overlay = Overlay(personal: seq<Id>, order: seq<Id>)

  datatype EditError = AlreadyExists(id: Id) | NotPersonal(id: Id) | Inherited(id: Id)

  function Renamed(ids: seq<Id>, current: Id, next: Id): (result: seq<Id>)
    ensures |result| == |ids| && forall k :: 0 <= k < |ids| ==> result[k] == if ids[k] == current then next else ids[k]
  {
    seq(|ids|, k requires 0 <= k < |ids| => if ids[k] == current then next else ids[k])
  }

  function Add(inherited: seq<Id>, o: Overlay, id: Id): Result<Overlay, EditError> {
    if id in inherited || id in o.personal then Err(AlreadyExists(id))
    else Ok(Overlay(o.personal + [id], ResolveOwnedOrder(inherited, o.personal + [id], o.order)))
  }

  function Rename(inherited: seq<Id>, o: Overlay, current: Id, next: Id): Result<Overlay, EditError> {
    if current == next then Ok(o)
    else if current in inherited then Err(Inherited(current))
    else if current !in o.personal then Err(NotPersonal(current))
    else if next in o.personal || next in inherited then Err(AlreadyExists(next))
    else
      var personal := Renamed(o.personal, current, next);
      Ok(Overlay(personal, ResolveOwnedOrder(inherited, personal, Renamed(o.order, current, next))))
  }

  function Delete(inherited: seq<Id>, o: Overlay, id: Id): Result<Overlay, EditError> {
    if id in inherited then Err(Inherited(id))
    else if id !in o.personal then Err(NotPersonal(id))
    else
      var personal := Filter(o.personal, {id}, false);
      Ok(Overlay(personal, ResolveOwnedOrder(inherited, personal, o.order)))
  }

  function Reorder(inherited: seq<Id>, o: Overlay, ids: seq<Id>): Overlay {
    o.(order := ResolveOwnedOrder(inherited, o.personal, ids))
  }

  /** The order the resolver shows. */
  function Effective(inherited: seq<Id>, o: Overlay): seq<Id> {
    ResolveOwnedOrder(inherited, o.personal, o.order)
  }

  /** Distinct personal models, none of them inherited. */
  ghost predicate Owned(inherited: seq<Id>, personal: seq<Id>) {
    Distinct(personal) && (forall id :: id in personal ==> id !in inherited)
  }

  /** And a stored order that names only members. */
  ghost predicate Good(inherited: seq<Id>, o: Overlay) {
    && Owned(inherited, o.personal)
    && (forall id :: id in o.order ==> id in inherited || id in o.personal)
  }

  datatype Edit = AddModel(id: Id) | RenameModel(current: Id, next: Id) | DeleteModel(id: Id) | ReorderModels(ids: seq<Id>)

  /** A refused edit leaves the overlay as it was. */
  function Next(inherited: seq<Id>, o: Overlay, edit: Edit): Overlay {
    match edit
    case AddModel(id) => OrElse(Add(inherited, o, id), o)
    case RenameModel(current, next) => OrElse(Rename(inherited, o, current, next), o)
    case DeleteModel(id) => OrElse(Delete(inherited, o, id), o)
    case ReorderModels(ids) => Reorder(inherited, o, ids)
  }

  function OrElse(r: Result<Overlay, EditError>, o: Overlay): Overlay {
    match r
    case Ok(next) => next
    case Err(_) => o
  }

  function Execute(inherited: seq<Id>, o: Overlay, edits: seq<Edit>): Overlay
    decreases |edits|
  {
    if edits == [] then o else Execute(inherited, Next(inherited, o, edits[0]), edits[1..])
  }

  /**
   * What is refused, and why: adding a member, renaming or deleting what is not a personal model, renaming to another
   * member. Of two reasons to refuse a renaming, that the model is inherited comes first and the taken name last.
   */
  lemma RefusedExactlyWhen(inherited: seq<Id>, o: Overlay, id: Id, next: Id)
    ensures Add(inherited, o, id).Err? <==> id in inherited || id in o.personal
    ensures Delete(inherited, o, id).Err? <==> id in inherited || id !in o.personal
    ensures Delete(inherited, o, id) == Err(Inherited(id)) <==> id in inherited
    ensures var renamed := Rename(inherited, o, id, next);
            && (renamed.Ok? <==> id == next || (id !in inherited && id in o.personal && next !in inherited && next !in o.personal))
            && (renamed == Err(Inherited(id)) <==> id != next && id in inherited)
            && (renamed == Err(NotPersonal(id)) <==> id != next && id !in inherited && id !in o.personal)
            && (renamed == Err(AlreadyExists(next)) <==>
                  id != next && id !in inherited && id in o.personal && (next in inherited || next in o.personal))
  {
    hide ResolveOwnedOrder, Renamed, Filter;
  }

  // ---------------------------------------------------------------------------------------------
  // Adding
  // ---------------------------------------------------------------------------------------------

  lemma OwnPersonalIsPersonal(inherited: seq<Id>, personal: seq<Id>)
    requires Distinct(personal) && forall id :: id in personal ==> id !in inherited
    ensures OwnPersonal(inherited, personal) == personal
  {
    UniqueOfDistinct(personal);
    FilterAll(personal, Elements(inherited), false);
  }

  lemma OrderedWithOneMore(inherited: seq<Id>, personal: seq<Id>, order: seq<Id>, id: Id)
    requires id !in order
    ensures Ordered(inherited, personal + [id], order) == Ordered(inherited, personal, order)
  {
    FilterSame(Unique(order), Members(inherited, personal + [id]), Members(inherited, personal), true);
  }

  lemma AssembledMore(builtin: seq<Id>, ordered: seq<Id>, personal: seq<Id>, id: Id)
    requires id !in ordered
    ensures Assemble(builtin, ordered, personal + [id]) == Assemble(builtin, ordered, personal) + [id]
  {
    FilterConcat(personal, [id], Elements(ordered), false);
    FilterAll([id], Elements(ordered), false);
    hide Filter;
    var first, last := Filter(builtin, Elements(ordered), false), Filter(personal, Elements(ordered), false);
    assert first + ordered + (last + [id]) == first + ordered + last + [id];
  }

  /** A new model comes last in the effective order. */
  lemma AddAppends(inherited: seq<Id>, o: Overlay, id: Id)
    requires Owned(inherited, o.personal) && id !in o.order && id !in inherited && id !in o.personal
    ensures ResolveOwnedOrder(inherited, o.personal + [id], o.order) == Effective(inherited, o) + [id]
  {
    DistinctOneMore(o.personal, id);
    OwnPersonalIsPersonal(inherited, o.personal);
    OwnPersonalIsPersonal(inherited, o.personal + [id]);
    hide Distinct, Assemble, OwnPersonal;
    OrderedWithOneMore(inherited, o.personal, o.order, id);
    assert id !in Ordered(inherited, o.personal, o.order);
    AssembledMore(Unique(inherited), Ordered(inherited, o.personal, o.order), o.personal, id);
  }

  // ---------------------------------------------------------------------------------------------
  // Deleting
  // ---------------------------------------------------------------------------------------------

  lemma OrderedWithout(inherited: seq<Id>, personal: seq<Id>, order: seq<Id>, id: Id)
    requires id !in inherited
    ensures Ordered(inherited, Filter(personal, {id}, false), order) == Filter(Ordered(inherited, personal, order), {id}, false)
  {
    var members, fewer := Members(inherited, personal), Members(inherited, Filter(personal, {id}, false));
    var wanted := Unique(order);
    FilterCommute(wanted, members, true, {id}, false);
    FilterSame(Filter(wanted, {id}, false), members, fewer, true);
    FilterCommute(wanted, fewer, true, {id}, false);
    FilterAll(Filter(wanted, fewer, true), {id}, false);
  }

  /** Deleting takes the model out of the effective order and leaves the others where they were. */
  lemma DeleteRemoves(inherited: seq<Id>, o: Overlay, id: Id)
    requires Owned(inherited, o.personal) && id !in inherited
    ensures ResolveOwnedOrder(inherited, Filter(o.personal, {id}, false), o.order) == Filter(Effective(inherited, o), {id}, false)
  {
    var fewer := Filter(o.personal, {id}, false);
    OwnPersonalIsPersonal(inherited, o.personal);
    FilterDistinct(o.personal, {id}, false);
    OwnPersonalIsPersonal(inherited, fewer);
    OrderedWithout(inherited, o.personal, o.order, id);
    var ordered := Ordered(inherited, o.personal, o.order);
    var kept := Filter(ordered, {id}, false);
    hide Filter, Unique, OwnPersonal, Ordered;
    FilterSame(Unique(inherited), Elements(kept), Elements(ordered), false);
    FilterSame(fewer, Elements(kept), Elements(ordered), false);
    FilterCommute(o.personal, {id}, false, Elements(ordered), false);
    var first, last := Filter(Unique(inherited), Elements(ordered), false), Filter(o.personal, Elements(ordered), false);
    FilterAll(first, {id}, false);
    FilterThree(first, ordered, last, {id}, false);
  }

  // ---------------------------------------------------------------------------------------------
  // Renaming
  // ---------------------------------------------------------------------------------------------

  function RenameAll(s: set<Id>, current: Id, next: Id): set<Id> {
    if current in s then s - {current} + {next} else s
  }

  lemma RenamedElements(ids: seq<Id>, current: Id, next: Id)
    ensures Elements(Renamed(ids, current, next)) == RenameAll(Elements(ids), current, next)
  {
    var renamed, after := Renamed(ids, current, next), RenameAll(Elements(ids), current, next);
    forall k | 0 <= k < |ids|
      ensures renamed[k] in after
    {
      assert ids[k] in Elements(ids);
    }
    forall id | id in after
      ensures id in renamed
    {
      var was := if id == next && current in ids then current else id;
      var k :| 0 <= k < |ids| && ids[k] == was;
      assert renamed[k] == if ids[k] == current then next else ids[k];
    }
    assert Elements(renamed) == after;
  }

  lemma RenamedConcat(a: seq<Id>, b: seq<Id>, current: Id, next: Id)
    ensures Renamed(a + b, current, next) == Renamed(a, current, next) + Renamed(b, current, next)
  {
  }

  lemma RenamedAbsent(ids: seq<Id>, current: Id, next: Id)
    requires current !in ids
    ensures Renamed(ids, current, next) == ids
  {
    assert forall k :: 0 <= k < |ids| ==> ids[k] in ids;
  }

  lemma RenamedDistinct(ids: seq<Id>, current: Id, next: Id)
    requires Distinct(ids) && next !in ids
    ensures Distinct(Renamed(ids, current, next))
  {
    assert forall k :: 0 <= k < |ids| ==> ids[k] in ids;
  }

  lemma {:induction false} RenamedUnique(ids: seq<Id>, current: Id, next: Id)
    requires next !in ids
    ensures Unique(Renamed(ids, current, next)) == Renamed(Unique(ids), current, next)
    decreases |ids|
  {
    if ids != [] {
      var rest, last := ids[..|ids| - 1], ids[|ids| - 1];
      var renamed := Renamed(ids, current, next);
      assert renamed[..|ids| - 1] == Renamed(rest, current, next);
      RenamedUnique(rest, current, next);
      RenamedElements(Unique(rest), current, next);
      assert (renamed[|ids| - 1] in Renamed(Unique(rest), current, next)) == (last in Unique(rest)) by {
        assert renamed[|ids| - 1] in Elements(Renamed(Unique(rest), current, next)) <==> last in Elements(Unique(rest));
      }
      RenamedConcat(Unique(rest), [last], current, next);
    }
  }

  lemma {:induction false} RenamedFilter(ids: seq<Id>, s: set<Id>, keep: bool, current: Id, next: Id)
    requires next !in ids && next !in s
    ensures Filter(Renamed(ids, current, next), RenameAll(s, current, next), keep) == Renamed(Filter(ids, s, keep), current, next)
    decreases |ids|
  {
    if ids != [] {
      hide *;
      var rest, last := ids[..|ids| - 1], ids[|ids| - 1];
      var name := if last == current then next else last;
      LastName(ids, next);
      RenamedFilter(rest, s, keep, current, next);
      RenamedLast(rest, last, current, next);
      RenamedLast(Filter(rest, s, keep), last, current, next);
      FilterOneMore(rest, last, s, keep);
      FilterOneMore(Renamed(rest, current, next), name, RenameAll(s, current, next), keep);
      RenamedMember(s, last, current, next);
    }
  }

  lemma LastName(ids: seq<Id>, next: Id)
    requires ids != [] && next !in ids
    ensures var rest, last := ids[..|ids| - 1], ids[|ids| - 1]; ids == rest + [last] && next !in rest && next != last
  {
  }

  lemma RenamedLast(rest: seq<Id>, last: Id, current: Id, next: Id)
    ensures Renamed(rest + [last], current, next) == Renamed(rest, current, next) + [if last == current then next else last]
  {
  }

  lemma RenamedMember(s: set<Id>, id: Id, current: Id, next: Id)
    requires next !in s && id != next
    ensures (if id == current then next else id) in RenameAll(s, current, next) <==> id in s
  {
  }

  lemma RenamedOrdered(inherited: seq<Id>, personal: seq<Id>, order: seq<Id>, current: Id, next: Id)
    requires next !in order && next !in inherited && next !in personal && current !in inherited
    ensures Ordered(inherited, Renamed(personal, current, next), Renamed(order, current, next))
         == Renamed(Ordered(inherited, personal, order), current, next)
  {
    RenamedUnique(order, current, next);
    RenamedElements(personal, current, next);
    RenamedFilter(Unique(order), Members(inherited, personal), true, current, next);
    assert Members(inherited, Renamed(personal, current, next)) == RenameAll(Members(inherited, personal), current, next);
  }

  /** Renaming puts the new name where the old one stood. */
  lemma RenameSubstitutes(inherited: seq<Id>, o: Overlay, current: Id, next: Id)
    requires Good(inherited, o) && current !in inherited && next !in inherited && next !in o.personal
    ensures ResolveOwnedOrder(inherited, Renamed(o.personal, current, next), Renamed(o.order, current, next))
         == Renamed(Effective(inherited, o), current, next)
  {
    var personal := Renamed(o.personal, current, next);
    RenamedDistinct(o.personal, current, next);
    RenamedElements(o.personal, current, next);
    assert forall id :: id in personal <==> id in Elements(personal);
    OwnPersonalIsPersonal(inherited, o.personal);
    OwnPersonalIsPersonal(inherited, personal);
    RenamedOrdered(inherited, o.personal, o.order, current, next);
    var ordered := Ordered(inherited, o.personal, o.order);
    assert next !in ordered;
    RenamedAssembled(inherited, o.personal, ordered, current, next);
  }

  lemma RenamedAssembled(inherited: seq<Id>, personal: seq<Id>, ordered: seq<Id>, current: Id, next: Id)
    requires current !in inherited && next !in inherited && next !in personal && next !in ordered
    ensures Assemble(Unique(inherited), Renamed(ordered, current, next), Renamed(personal, current, next))
         == Renamed(Assemble(Unique(inherited), ordered, personal), current, next)
  {
    var renamed := Renamed(ordered, current, next);
    hide Filter, Unique, Renamed;
    RenamedElements(ordered, current, next);
    RenamedFilter(personal, Elements(ordered), false, current, next);
    FilterSame(Unique(inherited), Elements(renamed), Elements(ordered), false);
    var first, last := Filter(Unique(inherited), Elements(ordered), false), Filter(personal, Elements(ordered), false);
    RenamedAbsent(first, current, next);
    RenamedConcat(first + ordered, last, current, next);
    RenamedConcat(first, ordered, current, next);
  }

  // ---------------------------------------------------------------------------------------------
  // Every edit
  // ---------------------------------------------------------------------------------------------

  /** What an edit does to the effective order; a refused one does nothing. */
  function Asked(inherited: seq<Id>, o: Overlay, edit: Edit): seq<Id> {
    var shown := Effective(inherited, o);
    match edit
    case AddModel(id) => if Add(inherited, o, id).Ok? then shown + [id] else shown
    case RenameModel(current, next) => if Rename(inherited, o, current, next).Ok? then Renamed(shown, current, next) else shown
    case DeleteModel(id) => if Delete(inherited, o, id).Ok? then Filter(shown, {id}, false) else shown
    case ReorderModels(ids) => ResolveOwnedOrder(inherited, o.personal, ids)
  }

  /** Whatever is stored after an edit is the order shown, complete and resolved. */
  lemma StoredIsShown(inherited: seq<Id>, personal: seq<Id>, requested: seq<Id>)
    ensures var o := Overlay(personal, ResolveOwnedOrder(inherited, personal, requested));
            Effective(inherited, o) == o.order && forall id :: id in o.order <==> id in inherited || id in personal
  {
    hide ResolveOwnedOrder;
    ResolvingIsIdempotent(inherited, personal, requested);
    ResolvedIsPermutation(inherited, personal, requested);
    var order := ResolveOwnedOrder(inherited, personal, requested);
    assert forall id :: id in order <==> id in Elements(order);
  }

  lemma RenameToItself(ids: seq<Id>, id: Id)
    ensures Renamed(ids, id, id) == ids
  {
  }

  lemma AddIsAsked(inherited: seq<Id>, o: Overlay, id: Id)
    requires Good(inherited, o) && Add(inherited, o, id).Ok?
    ensures var v := Add(inherited, o, id).value; Good(inherited, v) && Effective(inherited, v) == Effective(inherited, o) + [id]
  {
    AddAppends(inherited, o, id);
    DistinctOneMore(o.personal, id);
    StoredIsShown(inherited, o.personal + [id], o.order);
    hide Distinct, Effective, ResolveOwnedOrder;
  }

  lemma RenameIsAsked(inherited: seq<Id>, o: Overlay, current: Id, next: Id)
    requires Good(inherited, o) && Rename(inherited, o, current, next).Ok?
    ensures var v := Rename(inherited, o, current, next).value;
            Good(inherited, v) && Effective(inherited, v) == Renamed(Effective(inherited, o), current, next)
  {
    if current == next {
      RenameToItself(Effective(inherited, o), current);
    } else {
      RenameSubstitutes(inherited, o, current, next);
      RenamedPersonal(inherited, o.personal, current, next);
      hide Distinct, ResolveOwnedOrder, Renamed;
      StoredIsShown(inherited, Renamed(o.personal, current, next), Renamed(o.order, current, next));
    }
  }

  lemma RenamedPersonal(inherited: seq<Id>, personal: seq<Id>, current: Id, next: Id)
    requires Distinct(personal) && next !in personal && next !in inherited && forall id :: id in personal ==> id !in inherited
    ensures Distinct(Renamed(personal, current, next))
    ensures forall id :: id in Renamed(personal, current, next) ==> id !in inherited
  {
    RenamedDistinct(personal, current, next);
    RenamedElements(personal, current, next);
    var renamed := Renamed(personal, current, next);
    assert forall id :: id in renamed <==> id in Elements(renamed);
  }

  lemma DeleteIsAsked(inherited: seq<Id>, o: Overlay, id: Id)
    requires Good(inherited, o) && Delete(inherited, o, id).Ok?
    ensures var v := Delete(inherited, o, id).value;
            Good(inherited, v) && Effective(inherited, v) == Filter(Effective(inherited, o), {id}, false)
  {
    DeleteRemoves(inherited, o, id);
    FilterDistinct(o.personal, {id}, false);
    StoredIsShown(inherited, Filter(o.personal, {id}, false), o.order);
    hide Distinct, Effective, ResolveOwnedOrder;
  }

  /** Every edit keeps the conditions and changes the effective order as asked, and only so. */
  lemma EditIsAsked(inherited: seq<Id>, o: Overlay, edit: Edit)
    requires Good(inherited, o)
    ensures Good(inherited, Next(inherited, o, edit))
    ensures Effective(inherited, Next(inherited, o, edit)) == Asked(inherited, o, edit)
  {
    hide Good, Effective, ResolveOwnedOrder, Add, Rename, Delete;
    match edit
    case AddModel(id) =>
      if Add(inherited, o, id).Ok? {
        AddIsAsked(inherited, o, id);
      }
    case RenameModel(current, next) =>
      if Rename(inherited, o, current, next).Ok? {
        RenameIsAsked(inherited, o, current, next);
      }
    case DeleteModel(id) =>
      if Delete(inherited, o, id).Ok? {
        DeleteIsAsked(inherited, o, id);
      }
    case ReorderModels(ids) => ReorderIsAsked(inherited, o, ids);
  }

  lemma ReorderIsAsked(inherited: seq<Id>, o: Overlay, ids: seq<Id>)
    requires Good(inherited, o)
    ensures Good(inherited, Reorder(inherited, o, ids))
    ensures Effective(inherited, Reorder(inherited, o, ids)) == ResolveOwnedOrder(inherited, o.personal, ids)
  {
    StoredIsShown(inherited, o.personal, ids);
    hide ResolveOwnedOrder, Distinct;
  }

  /** Over any run of edits the conditions hold, and the effective order is a duplicate-free list of the members. */
  lemma {:induction false} RunKeepsGood(inherited: seq<Id>, o: Overlay, edits: seq<Edit>)
    requires Good(inherited, o)
    ensures var v := Execute(inherited, o, edits);
            && Good(inherited, v) && Distinct(Effective(inherited, v))
            && Elements(Effective(inherited, v)) == Members(inherited, v.personal)
    decreases |edits|
  {
    if edits == [] {
      ResolvedIsPermutation(inherited, o.personal, o.order);
    } else {
      EditIsAsked(inherited, o, edits[0]);
      RunKeepsGood(inherited, Next(inherited, o, edits[0]), edits[1..]);
    }
  }

  /** Adding a model and deleting it again gives the same models in the same order. */
  lemma AddThenDelete(inherited: seq<Id>, o: Overlay, id: Id)
    requires Good(inherited, o) && Add(inherited, o, id).Ok?
    ensures var back := Delete(inherited, Add(inherited, o, id).value, id);
            && back.Ok? && back.value.personal == o.personal
            && Effective(inherited, back.value) == Effective(inherited, o)
            && (back.value == o <==> o.order == Effective(inherited, o))
  {
    AddIsAsked(inherited, o, id);
    var added := Add(inherited, o, id).value;
    assert id !in inherited && id !in o.personal && added.personal == o.personal + [id];
    DeleteIsAsked(inherited, added, id);
    ResolvedIsPermutation(inherited, o.personal, o.order);
    assert id !in Elements(Effective(inherited, o));
    TakeBack(o.personal, id);
    TakeBack(Effective(inherited, o), id);
    StoredIsShown(inherited, o.personal, added.order);
  }

  lemma TakeBack(ids: seq<Id>, id: Id)
    requires id !in ids
    ensures Filter(ids + [id], {id}, false) == ids
  {
    FilterConcat(ids, [id], {id}, false);
    FilterAll(ids, {id}, false);
    FilterNone([id], {id}, false);
  }

  /**
   * Adding when the stored order may name other ids, as it can once the inherited list has changed: if it names the new
   * model, that takes the place the order gives it among the requested members; if not, it comes last. The others stay
   * as they were either way.
   */
  lemma AddTakesTheStoredPlace(inherited: seq<Id>, o: Overlay, id: Id)
    requires Owned(inherited, o.personal) && id !in inherited && id !in o.personal
    ensures var shown := Effective(inherited, Add(inherited, o, id).value);
            && Filter(shown, {id}, false) == Effective(inherited, o)
            && Filter(shown, Elements(o.order), true) == Filter(Unique(o.order), Members(inherited, o.personal + [id]), true)
            && (id !in o.order ==> shown == Effective(inherited, o) + [id])
  {
    hide Filter, Unique, OwnPersonal, Ordered, ResolveOwnedOrder, Owned;
    var personal := o.personal + [id];
    StoredIsShown(inherited, personal, o.order);
    OwnedOneMore(inherited, o.personal, id);
    DeleteRemoves(inherited, Overlay(personal, o.order), id);
    TakeBack(o.personal, id);
    RelativeOrderIsKept(inherited, personal, o.order);
    RequestedMembers(inherited, personal, o.order);
    if id !in o.order {
      AddAppends(inherited, o, id);
    }
  }

  lemma OwnedOneMore(inherited: seq<Id>, personal: seq<Id>, id: Id)
    requires Owned(inherited, personal) && id !in inherited && id !in personal
    ensures Owned(inherited, personal + [id])
  {
    DistinctOneMore(personal, id);
  }

  lemma RequestedMembers(inherited: seq<Id>, personal: seq<Id>, requested: seq<Id>)
    ensures Ordered(inherited, personal, requested) == Filter(Unique(requested), Members(inherited, personal), true)
  {
  }

  // ---------------------------------------------------------------------------------------------
  // The next free provider id
  // ---------------------------------------------------------------------------------------------

  const HYPHEN: CodeUnit := 45

  function Decimal(n: nat): (digits: Text)
    ensures digits != []
  {
    if n < 10 then [48 + n] else Decimal(n / 10) + [48 + n % 10]
  }

  function Numbered(base: Text, n: nat): Text {
    base + ([HYPHEN] + Decimal(n))
  }

  /** The number a list of digits stands for. */
  function Value(digits: Text): int {
    if digits == [] then 0 else 10 * Value(digits[..|digits| - 1]) + digits[|digits| - 1] - 48
  }

  lemma {:induction false} DecimalRoundTrip(n: nat)
    ensures Value(Decimal(n)) == n
  {
    if n < 10 {
      assert [48 + n][..0] == [];
    } else {
      DecimalRoundTrip(n / 10);
      assert Decimal(n)[..|Decimal(n)| - 1] == Decimal(n / 10);
    }
  }

  lemma NumberedInjective(base: Text, m: nat, n: nat)
    requires Numbered(base, m) == Numbered(base, n)
    ensures m == n
  {
    var tail := |base| + 1;
    assert Numbered(base, m)[tail..] == Decimal(m) && Numbered(base, n)[tail..] == Decimal(n);
    DecimalRoundTrip(m);
    DecimalRoundTrip(n);
  }

  /** The numbered ids from 2 up to, not including, `n`. */
  function NumberedUpTo(base: Text, n: nat): set<Text> {
    if n <= 2 then {} else NumberedUpTo(base, n - 1) + {Numbered(base, n - 1)}
  }

  lemma {:induction false} NumberedCount(base: Text, n: nat)
    requires n >= 2
    ensures |NumberedUpTo(base, n)| == n - 2
    ensures forall id :: id in NumberedUpTo(base, n) ==> exists k :: 2 <= k < n && id == Numbered(base, k)
    decreases n
  {
    if n > 2 {
      NumberedCount(base, n - 1);
      if Numbered(base, n - 1) in NumberedUpTo(base, n - 1) {
        var k :| 2 <= k < n - 1 && Numbered(base, n - 1) == Numbered(base, k);
        NumberedInjective(base, n - 1, k);
      }
    }
  }

  lemma SubsetIsNoLarger(small: set<Text>, large: set<Text>)
    requires small <= large
    ensures |small| <= |large|
  {
    if small != {} {
      var id :| id in small;
      SubsetIsNoLarger(small - {id}, large - {id});
    }
  }

  lemma {:induction false} AllOccupied(occupied: set<Text>, base: Text, n: nat)
    requires forall k :: 2 <= k < n ==> Numbered(base, k) in occupied
    ensures NumberedUpTo(base, n) <= occupied
    decreases n
  {
    if n > 2 {
      AllOccupied(occupied, base, n - 1);
    }
  }

  lemma Pigeonhole(occupied: set<Text>, base: Text, n: nat)
    requires n >= 2 && forall k :: 2 <= k < n ==> Numbered(base, k) in occupied
    ensures n <= |occupied| + 2
  {
    AllOccupied(occupied, base, n);
    NumberedCount(base, n);
    SubsetIsNoLarger(NumberedUpTo(base, n), occupied);
  }

  /** The search ends: as many candidates as there are occupied ids cannot all be occupied, and one more is free. */
  method NextPersonalProviderId(occupied: set<Text>, base: Text) returns (id: Text)
    ensures id !in occupied
    ensures base !in occupied ==> id == base
    ensures base in occupied ==>
              exists n: nat :: 2 <= n <= |occupied| + 2 && id == Numbered(base, n)
                && forall k :: 2 <= k < n ==> Numbered(base, k) in occupied
  {
    if base !in occupied {
      return base;
    }
    var suffix := 2;
    while true
      invariant 2 <= suffix <= |occupied| + 2
      invariant forall k :: 2 <= k < suffix ==> Numbered(base, k) in occupied
      decreases |occupied| + 2 - suffix
    {
      var candidate := Numbered(base, suffix);
      if candidate !in occupied {
        return candidate;
      }
      Pigeonhole(occupied, base, suffix + 1);
      suffix := suffix + 1;
    }
  }

  // ---------------------------------------------------------------------------------------------
  // The object
  // ---------------------------------------------------------------------------------------------

  /** One provider's overlay in the personal repository; every update is one transaction. */
  class PersonalModels {
    const inherited: seq<Id>
    var personalModelIds: seq<Id>
    var modelOrder: seq<Id>

    function State(): Overlay
      reads this
    {
      Overlay(personalModelIds, modelOrder)
    }

    constructor (inherited: seq<Id>)
      ensures this.inherited == inherited && State() == Overlay([], [])
    {
      this.inherited, personalModelIds, modelOrder := inherited, [], [];
    }

    method AddPersonalModel(id: Id) returns (r: Option<EditError>)
      modifies this
      ensures match Add(inherited, old(State()), id)
              case Ok(o) => State() == o && r == None
              case Err(e) => State() == old(State()) && r == Some(e)
    {
      if id in inherited || id in personalModelIds {
        return Some(AlreadyExists(id));
      }
      personalModelIds := personalModelIds + [id];
      modelOrder := ResolveOrder(inherited, personalModelIds, modelOrder);
      r := None;
    }

    method RenamePersonalModel(current: Id, next: Id) returns (r: Option<EditError>)
      modifies this
      ensures match Rename(inherited, old(State()), current, next)
              case Ok(o) => State() == o && r == None
              case Err(e) => State() == old(State()) && r == Some(e)
    {
      if current == next {
        return None;
      }
      if current in inherited {
        return Some(Inherited(current));
      }
      if current !in personalModelIds {
        return Some(NotPersonal(current));
      }
      if next in personalModelIds || next in inherited {
        return Some(AlreadyExists(next));
      }
      personalModelIds := Renamed(personalModelIds, current, next);
      modelOrder := ResolveOrder(inherited, personalModelIds, Renamed(modelOrder, current, next));
      r := None;
    }

    method DeletePersonalModel(id: Id) returns (r: Option<EditError>)
      modifies this
      ensures match Delete(inherited, old(State()), id)
              case Ok(o) => State() == o && r == None
              case Err(e) => State() == old(State()) && r == Some(e)
    {
      if id in inherited {
        return Some(Inherited(id));
      }
      if id !in personalModelIds {
        return Some(NotPersonal(id));
      }
      personalModelIds := FilterIds(personalModelIds, {id}, false);
      modelOrder := ResolveOrder(inherited, personalModelIds, modelOrder);
      r := None;
    }

    method ReorderPersonalModels(ids: seq<Id>)
      modifies this
      ensures State() == Reorder(inherited, old(State()), ids)
    {
      modelOrder := ResolveOrder(inherited, personalModelIds, ids);
    }
  }
}

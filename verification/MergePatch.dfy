/** Ordered JSON merge patches. */
module MergePatch {
  // `applyOrderedJsonMergePatches` and its path ownership, packages/model-option-map/src/merge-patch.ts.

  import opened Outcomes

  /** JSON values; the order of an object's keys is not part of the value. */
  datatype Json =
    | Null
    | Bool(flag: bool)
    | Number(value: real)
    | String(text: string)
    | Array(items: seq<Json>)
    | Object(fields: Fields)

  type Fields = map<string, Json>
  type Path = seq<string>

  datatype NamedPatch = NamedPatch(option: string, patch: Fields)

  /** The path at issue, the option that owns an overlapping one, and the option that wanted it. */
  datatype Conflict = Conflict(path: Path, owner: string, option: string)

  datatype Owned = Owned(option: string, path: Path)

  function FieldsOf(value: Json): Fields {
    if value.Object? then value.fields else map[]
  }

  /** The algorithm of section 2 of RFC 7396; an absent member reads as null, which is no object either. */
  function Merge(target: Json, patch: Json): Json
    decreases patch
  {
    if !patch.Object? then patch
    else
      var base := FieldsOf(target);
      Object(map key | key in base.Keys + patch.fields.Keys && !Removes(patch.fields, key) ::
               if key in patch.fields then Merge(Member(base, key), patch.fields[key]) else base[key])
  }

  predicate Removes(patch: Fields, key: string) {
    key in patch && patch[key].Null?
  }

  function Member(fields: Fields, key: string): Json {
    if key in fields then fields[key] else Null
  }

  predicate IsNonEmptyObject(value: Json) {
    value.Object? && value.fields != map[]
  }

  /** The paths a patch writes: those to its leaves, where an empty object is a leaf. */
  predicate Writes(patch: Fields, path: Path)
    decreases |path|
  {
    && path != [] && path[0] in patch
    && if IsNonEmptyObject(patch[path[0]]) then Writes(patch[path[0]].fields, path[1..]) else |path| == 1
  }

  /** One path is a prefix of the other. */
  predicate Overlap(left: Path, right: Path) {
    left <= right || right <= left
  }

  ghost predicate Compatible(p: Fields, q: Fields) {
    forall a, b :: Writes(p, a) && Writes(q, b) ==> !Overlap(a, b)
  }

  /** No patch writes into a path of another. */
  ghost predicate Accepted(patches: seq<NamedPatch>) {
    forall i, j :: 0 <= i < j < |patches| ==> Compatible(patches[i].patch, patches[j].patch)
  }

  function MergeAll(body: Json, patches: seq<NamedPatch>): Json
    decreases |patches|
  {
    if patches == [] then body else MergeAll(Merge(body, Object(patches[0].patch)), patches[1..])
  }

  // ---------------------------------------------------------------------------------------------
  // The loops
  // ---------------------------------------------------------------------------------------------

  method PathsOverlap(left: Path, right: Path) returns (overlap: bool)
    ensures overlap == Overlap(left, right)
  {
    var sharedLength := if |left| <= |right| then |left| else |right|;
    var index := 0;
    while index < sharedLength
      invariant 0 <= index <= sharedLength
      invariant left[..index] == right[..index]
    {
      if left[index] != right[index] {
        return false;
      }
      index := index + 1;
    }
    overlap := true;
  }

  /** Whatever order the keys come in, the loop computes the merge of section 2 of RFC 7396. */
  method MergeObject(target: Fields, patch: Fields) returns (result: Fields)
    ensures Object(result) == Merge(Object(target), Object(patch))
    decreases Object(patch)
  {
    result := target;
    var rest := patch.Keys;
    while rest != {}
      invariant rest <= patch.Keys
      invariant forall key :: key in rest || key !in patch ==> Kept(result, target, key)
      invariant forall key :: key in patch && key !in rest ==> Settled(result, target, patch, key)
      decreases |rest|
    {
      var key :| key in rest;
      rest := rest - {key};
      var patchValue := patch[key];
      if patchValue.Null? {
        result := result - {key};
      } else if patchValue.Object? {
        var targetValue := Member(result, key);
        var merged := MergeObject(FieldsOf(targetValue), patchValue.fields);
        SameFields(targetValue, patchValue);
        result := result[key := Object(merged)];
      } else {
        result := result[key := patchValue];
      }
    }
    SettledIsMerged(result, target, patch);
  }

  ghost predicate Kept(result: Fields, target: Fields, key: string) {
    if key in target then key in result && result[key] == target[key] else key !in result
  }

  ghost predicate Settled(result: Fields, target: Fields, patch: Fields, key: string)
    requires key in patch
  {
    if patch[key].Null? then key !in result else key in result && result[key] == Merge(Member(target, key), patch[key])
  }

  lemma SameFields(target: Json, patch: Json)
    ensures patch.Object? ==> Merge(Object(FieldsOf(target)), patch) == Merge(target, patch)
  {
  }

  lemma SettledIsMerged(result: Fields, target: Fields, patch: Fields)
    requires forall key :: key !in patch ==> Kept(result, target, key)
    requires forall key :: key in patch ==> Settled(result, target, patch, key)
    ensures Object(result) == Merge(Object(target), Object(patch))
  {
    var merged := Merge(Object(target), Object(patch)).fields;
    forall key
      ensures key in result <==> key in merged
      ensures key in result ==> result[key] == merged[key]
    {
      if key in patch {
        assert Settled(result, target, patch, key);
      } else {
        assert Kept(result, target, key);
      }
    }
    assert result == merged;
  }

  /** The written paths below a prefix, each once, none a prefix of another. */
  method CollectWrittenPaths(patch: Fields, prefix: Path) returns (paths: seq<Path>)
    ensures forall path :: path in paths <==> Below(patch, prefix, path)
    ensures PrefixFree(paths)
    decreases Object(patch)
  {
    paths := [];
    var rest := patch.Keys;
    while rest != {}
      invariant rest <= patch.Keys
      invariant forall path :: path in paths <==> Below(patch, prefix, path) && path[|prefix|] !in rest
      invariant PrefixFree(paths)
      decreases |rest|
    {
      var key :| key in rest;
      rest := rest - {key};
      var value := patch[key];
      var path := prefix + [key];
      ghost var before := paths;
      var more := [path];
      if value.Object? && value.fields != map[] {
        more := CollectWrittenPaths(value.fields, path);
      }
      forall p
        ensures p in more <==> Below(patch, prefix, p) && p[|prefix|] == key
      {
        BelowKey(patch, prefix, key, p);
      }
      OneKeyMore(patch, prefix, key, paths, more);
      paths := paths + more;
    }
  }

  predicate Below(patch: Fields, prefix: Path, path: Path) {
    prefix < path && Writes(patch, path[|prefix|..])
  }

  predicate PrefixFree(paths: seq<Path>) {
    forall i, j :: 0 <= i < j < |paths| ==> !Overlap(paths[i], paths[j])
  }

  lemma BelowKey(patch: Fields, prefix: Path, key: string, path: Path)
    requires key in patch
    ensures Below(patch, prefix, path) && path[|prefix|] == key
       <==> if IsNonEmptyObject(patch[key]) then Below(patch[key].fields, prefix + [key], path) else path == prefix + [key]
  {
    var longer := prefix + [key];
    if prefix < path && path[|prefix|] == key {
      var tail := path[|prefix|..];
      assert longer <= path && tail[0] == key && tail[1..] == path[|longer|..];
      assert |path| == |longer| ==> path == longer && tail[1..] == [];
      assert Below(patch, prefix, path) == Writes(patch, tail);
      if IsNonEmptyObject(patch[key]) {
        assert Writes(patch, tail) == Writes(patch[key].fields, tail[1..]);
        assert |path| > |longer| ==> longer < path;
      }
    }
  }

  lemma OneKeyMore(patch: Fields, prefix: Path, key: string, paths: seq<Path>, more: seq<Path>)
    requires PrefixFree(paths) && PrefixFree(more)
    requires forall p :: p in paths ==> Below(patch, prefix, p) && p[|prefix|] != key
    requires forall p :: p in more ==> Below(patch, prefix, p) && p[|prefix|] == key
    ensures PrefixFree(paths + more)
  {
    forall a, b | a in paths && b in more
      ensures !Overlap(a, b)
    {
      assert a[|prefix|] != b[|prefix|];
    }
    forall i, j | 0 <= i < j < |paths + more|
      ensures !Overlap((paths + more)[i], (paths + more)[j])
    {
      if i >= |paths| {
        assert (paths + more)[i] == more[i - |paths|];
      }
    }
  }

  /** Patches up to `j` have been merged and their paths are owned by the options that wrote them. */
  ghost predicate Owns(owned: seq<Owned>, patches: seq<NamedPatch>, j: nat)
    requires j <= |patches|
  {
    && (forall o :: o in owned ==> exists i :: 0 <= i < j && OwnedBy(o, patches[i]))
    && (forall i, path :: 0 <= i < j && Writes(patches[i].patch, path) ==> Owned(patches[i].option, path) in owned)
  }

  ghost predicate OwnedBy(owned: Owned, patch: NamedPatch) {
    owned.option == patch.option && Writes(patch.patch, owned.path)
  }

  /** The first patch that writes into a path of an earlier one, and the earlier one. */
  ghost predicate FirstConflict(patches: seq<NamedPatch>, conflict: Conflict, i: int, j: int, owned: Path) {
    && 0 <= i < j < |patches| && Accepted(patches[..j])
    && OwnedBy(Owned(conflict.owner, owned), patches[i]) && OwnedBy(Owned(conflict.option, conflict.path), patches[j])
    && Overlap(owned, conflict.path)
  }

  method FindOverlap(owned: seq<Owned>, path: Path) returns (found: Option<Owned>)
    ensures found.Some? ==> found.value in owned && Overlap(found.value.path, path)
    ensures found.None? ==> forall o :: o in owned ==> !Overlap(o.path, path)
  {
    for n := 0 to |owned|
      invariant forall m :: 0 <= m < n ==> !Overlap(owned[m].path, path)
    {
      var overlap := PathsOverlap(owned[n].path, path);
      if overlap {
        return Some(owned[n]);
      }
    }
    found := None;
  }

  /** Either all patches are accepted and merged in order, or the first conflict is reported. */
  method ApplyOrderedJsonMergePatches(body: Fields, patches: seq<NamedPatch>) returns (r: Result<Fields, Conflict>)
    ensures r.Ok? <==> Accepted(patches)
    ensures r.Ok? ==> Object(r.value) == MergeAll(Object(body), patches)
    ensures r.Err? ==> exists i, j, owned :: FirstConflict(patches, r.error, i, j, owned)
  {
    var owned: seq<Owned> := [];
    var result := body;
    for j := 0 to |patches|
      invariant Owns(owned, patches, j) && Accepted(patches[..j])
      invariant MergeAll(Object(body), patches) == MergeAll(Object(result), patches[j..])
    {
      var named := patches[j];
      var paths := CollectWrittenPaths(named.patch, []);
      AllBelowNothing(named.patch, paths);
      var claimed := Claim(owned, named.option, paths);
      if claimed.Err? {
        var (n, other) := claimed.error;
        ghost var i :| 0 <= i < j && OwnedBy(other, patches[i]);
        r := Err(Conflict(paths[n], other.option, named.option));
        assert paths[n] in paths && FirstConflict(patches, r.error, i, j, other.path);
        RefusedByConflict(patches, r.error, i, j, other.path);
        return;
      }
      OwnedStep(owned, patches, j, paths);
      owned := claimed.value;
      assert patches[j..][0] == named && patches[j..][1..] == patches[j + 1..];
      assert patches[j + 1..] == patches[j..][1..];
      result := MergeObject(result, named.patch);
    }
    assert patches[..|patches|] == patches;
    r := Ok(result);
  }

  function Claims(option: string, paths: seq<Path>): (claims: seq<Owned>)
    ensures |claims| == |paths|
    ensures forall n :: 0 <= n < |paths| ==> claims[n] == Owned(option, paths[n])
  {
    seq(|paths|, n requires 0 <= n < |paths| => Owned(option, paths[n]))
  }

  lemma ClaimOneMore(option: string, paths: seq<Path>, n: nat)
    requires n < |paths|
    ensures Claims(option, paths[..n + 1]) == Claims(option, paths[..n]) + [Owned(option, paths[n])]
  {
  }

  lemma AllBelowNothing(patch: Fields, paths: seq<Path>)
    requires forall path :: path in paths <==> Below(patch, [], path)
    ensures forall path :: path in paths <==> Writes(patch, path)
  {
    forall path: Path
      ensures Below(patch, [], path) <==> Writes(patch, path)
    {
      assert path[0..] == path;
    }
  }

  /** The inner loop: each path is checked against those owned so far, this patch's own included, and then owned. */
  method Claim(owned: seq<Owned>, option: string, paths: seq<Path>) returns (r: Result<seq<Owned>, (nat, Owned)>)
    requires PrefixFree(paths)
    ensures r.Ok? ==>
              r.value == owned + Claims(option, paths) && forall m, o :: 0 <= m < |paths| && o in owned ==> !Overlap(o.path, paths[m])
    ensures r.Err? ==>
              var (n, other) := r.error; n < |paths| && other in owned && Overlap(other.path, paths[n])
  {
    hide Overlap;
    var claims := owned;
    for n := 0 to |paths|
      invariant claims == owned + Claims(option, paths[..n])
      invariant forall m, o :: 0 <= m < n && o in owned ==> !Overlap(o.path, paths[m])
    {
      var conflict := FindOverlap(claims, paths[n]);
      if conflict.Some? {
        NotWithItself(option, paths, n, conflict.value);
        return Err((n, conflict.value));
      }
      ClaimOneMore(option, paths, n);
      assert forall o :: o in owned ==> o in claims;
      claims := claims + [Owned(option, paths[n])];
    }
    assert paths[..|paths|] == paths;
    r := Ok(claims);
  }

  lemma NotWithItself(option: string, paths: seq<Path>, n: nat, owned: Owned)
    requires PrefixFree(paths) && n < |paths| && Overlap(owned.path, paths[n])
    ensures owned !in Claims(option, paths[..n])
  {
    var claims := Claims(option, paths[..n]);
    forall m | 0 <= m < n
      ensures claims[m] != owned
    {
      assert !Overlap(paths[m], paths[n]) && claims[m].path == paths[m];
    }
  }

  lemma RefusedByConflict(patches: seq<NamedPatch>, conflict: Conflict, i: int, j: int, owned: Path)
    requires FirstConflict(patches, conflict, i, j, owned)
    ensures !Accepted(patches)
  {
    assert !Compatible(patches[i].patch, patches[j].patch);
  }

  lemma OwnedStep(owned: seq<Owned>, patches: seq<NamedPatch>, j: nat, paths: seq<Path>)
    requires j < |patches| && Owns(owned, patches, j) && Accepted(patches[..j])
    requires forall path :: path in paths <==> Writes(patches[j].patch, path)
    requires forall m, o :: 0 <= m < |paths| && o in owned ==> !Overlap(o.path, paths[m])
    ensures Accepted(patches[..j + 1])
    ensures Owns(owned + Claims(patches[j].option, paths), patches, j + 1)
  {
    var claims := Claims(patches[j].option, paths);
    forall i | 0 <= i < j
      ensures Compatible(patches[i].patch, patches[j].patch)
    {
      forall a, b | Writes(patches[i].patch, a) && Writes(patches[j].patch, b)
        ensures !Overlap(a, b)
      {
        var m :| 0 <= m < |paths| && paths[m] == b;
        assert Owned(patches[i].option, a) in owned;
      }
    }
    var more := patches[..j + 1];
    forall i, k | 0 <= i < k < |more|
      ensures Compatible(more[i].patch, more[k].patch)
    {
      if k < j {
        assert patches[..j][i] == patches[i] && patches[..j][k] == patches[k];
      }
    }
    forall o | o in owned + claims
      ensures exists i :: 0 <= i < j + 1 && OwnedBy(o, patches[i])
    {
      if o !in owned {
        var m :| 0 <= m < |claims| && claims[m] == o;
        assert paths[m] in paths && OwnedBy(o, patches[j]);
      }
    }
    forall path | Writes(patches[j].patch, path)
      ensures Owned(patches[j].option, path) in claims
    {
      var m :| 0 <= m < |paths| && paths[m] == path;
      assert claims[m] == Owned(patches[j].option, path);
    }
  }

  // ---------------------------------------------------------------------------------------------
  // What a patch writes
  // ---------------------------------------------------------------------------------------------

  /** One patch never conflicts with itself: no written path is a prefix of another. */
  lemma {:induction false} OnePatchIsPrefixFree(patch: Fields, a: Path, b: Path)
    requires Writes(patch, a) && Writes(patch, b) && Overlap(a, b)
    ensures a == b
    decreases |a|
  {
    assert a[0] == b[0] && a == [a[0]] + a[1..] && b == [b[0]] + b[1..];
    if IsNonEmptyObject(patch[a[0]]) {
      OnePatchIsPrefixFree(patch[a[0]].fields, a[1..], b[1..]);
    }
  }

  /** Every member of a patch has a written path that starts with its key. */
  lemma {:induction false} MemberIsWritten(patch: Fields, key: string) returns (path: Path)
    requires key in patch
    ensures Writes(patch, path) && path[0] == key
    ensures IsNonEmptyObject(patch[key]) ==> |path| > 1
    decreases Object(patch)
  {
    var value := patch[key];
    if IsNonEmptyObject(value) {
      var inner :| inner in value.fields;
      var tail := MemberIsWritten(value.fields, inner);
      path := [key] + tail;
      assert path[1..] == tail;
    } else {
      path := [key];
    }
  }

  /** The value at a path of objects. */
  function Read(value: Json, path: Path): Option<Json>
    decreases |path|
  {
    if path == [] then Some(value)
    else if path[0] in FieldsOf(value) then Read(FieldsOf(value)[path[0]], path[1..])
    else None
  }

  /** Any path that overlaps no written path reads the same before and after. */
  lemma {:induction false} UnrelatedPathsRemain(target: Json, patch: Fields, path: Path)
    requires target.Object? && forall written :: Writes(patch, written) ==> !Overlap(written, path)
    ensures Read(Merge(target, Object(patch)), path) == Read(target, path)
    decreases |path|
  {
    if path == [] {
      if patch != map[] {
        var key :| key in patch;
        var written := MemberIsWritten(patch, key);
        assert Overlap(written, path);
      }
      assert Merge(target, Object(map[])).fields == target.fields;
    } else if path[0] in patch {
      var key := path[0];
      UnrelatedIsDeeper(patch, path);
      UnrelatedBelow(patch, path);
      var inner := Object(FieldsOf(Member(target.fields, key)));
      UnrelatedPathsRemain(inner, patch[key].fields, path[1..]);
      SameFields(Member(target.fields, key), patch[key]);
    }
  }

  lemma UnrelatedIsDeeper(patch: Fields, path: Path)
    requires path != [] && path[0] in patch && forall written :: Writes(patch, written) ==> !Overlap(written, path)
    ensures IsNonEmptyObject(patch[path[0]]) && |path| > 1
  {
    var written := MemberIsWritten(patch, path[0]);
    assert path == [path[0]] + path[1..] && written == [path[0]] + written[1..];
  }

  lemma UnrelatedBelow(patch: Fields, path: Path)
    requires path != [] && path[0] in patch && IsNonEmptyObject(patch[path[0]])
    requires forall written :: Writes(patch, written) ==> !Overlap(written, path)
    ensures forall written :: Writes(patch[path[0]].fields, written) ==> !Overlap(written, path[1..])
  {
    forall written | Writes(patch[path[0]].fields, written)
      ensures !Overlap(written, path[1..])
    {
      var longer := [path[0]] + written;
      assert longer[1..] == written && path == [path[0]] + path[1..];
      assert Writes(patch, longer);
    }
  }

  /** What the patch says at a path it writes. */
  function Said(patch: Fields, path: Path): Json
    requires Writes(patch, path)
    decreases |path|
  {
    var value := patch[path[0]];
    if IsNonEmptyObject(value) then Said(value.fields, path[1..]) else value
  }

  /** A written path then reads what the patch says there: nothing for null, some object for an empty one. */
  lemma {:induction false} WrittenPathsHold(target: Json, patch: Fields, path: Path)
    requires Writes(patch, path)
    ensures var after, said := Read(Merge(target, Object(patch)), path), Said(patch, path);
            match said
            case Null => after == None
            case Object(_) => after.Some? && after.value.Object?
            case _ => after == Some(said)
    decreases |path|
  {
    var key := path[0];
    var value := patch[key];
    if IsNonEmptyObject(value) {
      WrittenPathsHold(Member(FieldsOf(target), key), value.fields, path[1..]);
    } else {
      assert path[1..] == [];
    }
  }

  // ---------------------------------------------------------------------------------------------
  // The order of accepted patches does not matter
  // ---------------------------------------------------------------------------------------------

  lemma CompatibleSymmetric(p: Fields, q: Fields)
    requires Compatible(p, q)
    ensures Compatible(q, p)
  {
  }

  /** A member both patches write is a nonempty object in both, and the two are compatible again. */
  lemma CompatibleBelow(p: Fields, q: Fields, key: string)
    requires Compatible(p, q) && key in p && key in q
    ensures IsNonEmptyObject(p[key]) && IsNonEmptyObject(q[key]) && Compatible(p[key].fields, q[key].fields)
  {
    var a := MemberIsWritten(p, key);
    var b := MemberIsWritten(q, key);
    assert a == [key] + a[1..] && b == [key] + b[1..];
    if IsNonEmptyObject(p[key]) && IsNonEmptyObject(q[key]) {
      forall c, d | Writes(p[key].fields, c) && Writes(q[key].fields, d)
        ensures !Overlap(c, d)
      {
        var longC, longD := [key] + c, [key] + d;
        assert longC[1..] == c && longD[1..] == d;
        assert Writes(p, longC) && Writes(q, longD);
        assert c <= d ==> longC <= longD;
        assert d <= c ==> longD <= longC;
      }
    }
  }

  lemma {:induction false} CompatibleCommute(target: Json, p: Fields, q: Fields)
    requires Compatible(p, q)
    ensures Merge(Merge(target, Object(p)), Object(q)) == Merge(Merge(target, Object(q)), Object(p))
    decreases Object(p)
  {
    var left := Merge(Merge(target, Object(p)), Object(q)).fields;
    var right := Merge(Merge(target, Object(q)), Object(p)).fields;
    forall key
      ensures key in left <==> key in right
      ensures key in left ==> left[key] == right[key]
    {
      if key in p && key in q {
        CompatibleBelow(p, q, key);
        CompatibleCommute(Member(FieldsOf(target), key), p[key].fields, q[key].fields);
      }
    }
    assert left == right;
  }

  lemma {:induction false} MoveToFront(body: Json, patches: seq<NamedPatch>, n: nat)
    requires Accepted(patches) && n < |patches|
    ensures MergeAll(body, patches) == MergeAll(Merge(body, Object(patches[n].patch)), patches[..n] + patches[n + 1..])
    decreases n
  {
    if n == 0 {
      assert patches[..0] + patches[1..] == patches[1..];
    } else {
      var first, moved, rest := patches[0].patch, patches[n].patch, patches[1..];
      AcceptedTail(patches);
      assert rest[n - 1] == patches[n] && rest[..n - 1] + rest[n..] == (patches[..n] + patches[n + 1..])[1..];
      MoveToFront(Merge(body, Object(first)), rest, n - 1);
      CompatibleCommute(body, first, moved);
    }
  }

  lemma AcceptedTail(patches: seq<NamedPatch>)
    requires Accepted(patches) && patches != []
    ensures Accepted(patches[1..])
  {
  }

  lemma AcceptedWithout(patches: seq<NamedPatch>, n: nat)
    requires Accepted(patches) && n < |patches|
    ensures Accepted(patches[..n] + patches[n + 1..])
  {
    var rest := patches[..n] + patches[n + 1..];
    forall i, j | 0 <= i < j < |rest|
      ensures Compatible(rest[i].patch, rest[j].patch)
    {
      assert rest[i] == patches[if i < n then i else i + 1] && rest[j] == patches[if j < n then j else j + 1];
    }
  }

  lemma RestOfPermutation(patches: seq<NamedPatch>, other: seq<NamedPatch>, n: nat)
    requires multiset(patches) == multiset(other) && other != [] && n < |patches| && patches[n] == other[0]
    ensures multiset(patches[..n] + patches[n + 1..]) == multiset(other[1..])
  {
    assert patches == patches[..n] + [patches[n]] + patches[n + 1..];
    assert other == [other[0]] + other[1..];
    assert multiset(patches) == multiset(patches[..n]) + multiset{patches[n]} + multiset(patches[n + 1..]);
    assert multiset(other) == multiset{other[0]} + multiset(other[1..]);
    assert multiset(patches[..n] + patches[n + 1..]) == multiset(patches) - multiset{patches[n]};
  }

  /** Every permutation of accepted patches gives the same body. */
  lemma {:induction false} EveryOrderGivesTheSameBody(body: Json, patches: seq<NamedPatch>, other: seq<NamedPatch>)
    requires Accepted(patches) && multiset(patches) == multiset(other)
    ensures MergeAll(body, patches) == MergeAll(body, other)
    decreases |other|
  {
    if other == [] {
      assert |patches| == |multiset(patches)| == 0;
    } else {
      assert other[0] in multiset(patches);
      var n :| 0 <= n < |patches| && patches[n] == other[0];
      MoveToFront(body, patches, n);
      AcceptedWithout(patches, n);
      RestOfPermutation(patches, other, n);
      EveryOrderGivesTheSameBody(Merge(body, Object(other[0].patch)), patches[..n] + patches[n + 1..], other[1..]);
    }
  }

  /** And every permutation of accepted patches is accepted. */
  lemma {:induction false} EveryOrderIsAccepted(patches: seq<NamedPatch>, other: seq<NamedPatch>)
    requires Accepted(patches) && multiset(patches) == multiset(other)
    ensures Accepted(other)
    decreases |other|
  {
    if other != [] {
      assert other[0] in multiset(patches);
      var n :| 0 <= n < |patches| && patches[n] == other[0];
      AcceptedWithout(patches, n);
      RestOfPermutation(patches, other, n);
      var rest := patches[..n] + patches[n + 1..];
      EveryOrderIsAccepted(rest, other[1..]);
      forall named | named in other[1..]
        ensures Compatible(other[0].patch, named.patch)
      {
        assert named in multiset(rest);
        CompatibleWithTheRest(patches, n, named);
      }
      AcceptedFromHead(other);
    }
  }

  lemma CompatibleWithTheRest(patches: seq<NamedPatch>, n: nat, named: NamedPatch)
    requires Accepted(patches) && n < |patches| && named in patches[..n] + patches[n + 1..]
    ensures Compatible(patches[n].patch, named.patch)
  {
    var rest := patches[..n] + patches[n + 1..];
    var k :| 0 <= k < |rest| && rest[k] == named;
    var m := if k < n then k else k + 1;
    assert patches[m] == named;
    if m < n {
      CompatibleSymmetric(patches[m].patch, patches[n].patch);
    }
  }

  lemma AcceptedFromHead(patches: seq<NamedPatch>)
    requires patches != [] && Accepted(patches[1..])
    requires forall named :: named in patches[1..] ==> Compatible(patches[0].patch, named.patch)
    ensures Accepted(patches)
  {
    hide Compatible;
    forall i, j | 0 <= i < j < |patches|
      ensures Compatible(patches[i].patch, patches[j].patch)
    {
      assert patches[1..][j - 1] == patches[j] && (i > 0 ==> patches[1..][i - 1] == patches[i]);
    }
  }

  /** After accepted patches, whatever the order, each path a patch wrote reads what that patch says there. */
  lemma {:induction false} EveryPatchPrevails(body: Json, patches: seq<NamedPatch>, n: nat, path: Path)
    requires body.Object? && Accepted(patches) && n < |patches| && Writes(patches[n].patch, path)
    ensures Read(MergeAll(body, patches), path) == Read(Merge(body, Object(patches[n].patch)), path)
    decreases n
  {
    MoveToFront(body, patches, n);
    var rest := patches[..n] + patches[n + 1..];
    forall i, written | 0 <= i < |rest| && Writes(rest[i].patch, written)
      ensures !Overlap(written, path)
    {
      CompatibleWithTheRest(patches, n, rest[i]);
    }
    UntouchedByAll(Merge(body, Object(patches[n].patch)), rest, path);
  }

  lemma {:induction false} UntouchedByAll(body: Json, patches: seq<NamedPatch>, path: Path)
    requires body.Object?
    requires forall i, written :: 0 <= i < |patches| && Writes(patches[i].patch, written) ==> !Overlap(written, path)
    ensures Read(MergeAll(body, patches), path) == Read(body, path)
    decreases |patches|
  {
    if patches != [] {
      UnrelatedPathsRemain(body, patches[0].patch, path);
      forall i, written | 0 <= i < |patches[1..]| && Writes(patches[1..][i].patch, written)
        ensures !Overlap(written, path)
      {
        assert patches[1..][i] == patches[i + 1];
      }
      UntouchedByAll(Merge(body, Object(patches[0].patch)), patches[1..], path);
    }
  }
}

/** Resolved order and published registry. */
module ProviderRegistry {
  // From configuration to the published registry: the order part of packages/provider/src/resolver.ts and the
  // indexes of packages/provider/src/registry.ts.

  import opened Outcomes
  import opened OwnedOrder
  import opened Sequences
  import opened Texts

  /** What a model is published with; the reasoning levels are the part a selection is checked against. */
  datatype Config = Config(settings: Text, reasoningLevels: seq<Text>)

  datatype Model = Model(id: Id, config: Config)

  datatype Provider = Provider(id: Id, config: Text, models: seq<Model>)

  /** An effective provider: what decides its place, its models and whether it is published. */
  datatype Effective = Effective(
    inFamily: bool,
    complete: bool,
    config: Text,
    builtinModelIds: seq<Id>,
    personalModelIds: seq<Id>,
    modelOrder: seq<Id>,
    executable: map<Id, Config>)

  /** The resolver's input, maps as their keys in order; `effective` overlays the two layers. */
  datatype Source = Source(builtin: seq<Id>, personal: seq<Id>, keys: seq<Id>, effective: map<Id, Effective>, requested: seq<Id>)

  /** Map keys are distinct, and an overlay has the keys of both layers. */
  ghost predicate Layered(s: Source) {
    && Distinct(s.builtin) && Distinct(s.personal) && Distinct(s.keys)
    && Elements(s.keys) == Elements(s.builtin) + Elements(s.personal) && s.effective.Keys == Elements(s.keys)
  }

  function FamilySet(s: Source): set<Id> {
    set id | id in s.effective && s.effective[id].inFamily
  }

  /** `resolveProviderOrder`: the account families first, then the rest by owner and request. */
  function ProviderOrder(s: Source): seq<Id> {
    var family := Filter(s.keys, FamilySet(s), true);
    var builtin := Filter(s.builtin, Elements(family), false);
    var personal := Filter(Filter(s.personal, Elements(builtin), false), Elements(family), false);
    family + ResolveOwnedOrder(builtin, personal, s.requested)
  }

  function ModelOrder(e: Effective): seq<Id> {
    ResolveOwnedOrder(Unique(e.builtinModelIds), OwnPersonal(e.builtinModelIds, e.personalModelIds), e.modelOrder)
  }

  function ExecutableModels(e: Effective, ids: seq<Id>): (models: seq<Model>)
    requires forall id :: id in ids ==> id in e.executable
    ensures |models| == |ids| && forall k :: 0 <= k < |ids| ==> models[k] == Model(ids[k], e.executable[ids[k]])
  {
    seq(|ids|, k requires 0 <= k < |ids| => Model(ids[k], e.executable[ids[k]]))
  }

  function Published(id: Id, e: Effective): seq<Provider> {
    var ids := Filter(ModelOrder(e), e.executable.Keys, true);
    if !e.complete || ids == [] then [] else [Provider(id, e.config, ExecutableModels(e, ids))]
  }

  /** The providers the resolver publishes, of the ids given, in their order. */
  function PublishedOf(effective: map<Id, Effective>, ids: seq<Id>): seq<Provider>
    requires forall id :: id in ids ==> id in effective
    decreases |ids|
  {
    if ids == [] then []
    else PublishedOf(effective, ids[..|ids| - 1]) + Published(ids[|ids| - 1], effective[ids[|ids| - 1]])
  }

  // ---------------------------------------------------------------------------------------------
  // Indexes
  // ---------------------------------------------------------------------------------------------

  datatype RegistryError = DuplicateProvider(id: Id) | DuplicateModel(provider: Id, model: Id)

  datatype Indexes = Indexes(providers: map<Id, Provider>, models: map<Id, map<Id, Model>>)

  function IndexModels(provider: Id, models: seq<Model>): Result<map<Id, Model>, RegistryError> {
    if models == [] then Ok(map[])
    else
      match IndexModels(provider, models[..|models| - 1])
      case Err(e) => Err(e)
      case Ok(index) =>
        var last := models[|models| - 1];
        if last.id in index then Err(DuplicateModel(provider, last.id)) else Ok(index[last.id := last])
  }

  /** `#rebuildIndexes`, up to the first duplicate. */
  function BuildIndexes(providers: seq<Provider>): Result<Indexes, RegistryError> {
    if providers == [] then Ok(Indexes(map[], map[]))
    else
      match BuildIndexes(providers[..|providers| - 1])
      case Err(e) => Err(e)
      case Ok(ix) =>
        var last := providers[|providers| - 1];
        if last.id in ix.providers then Err(DuplicateProvider(last.id))
        else
          match IndexModels(last.id, last.models)
          case Err(e) => Err(e)
          case Ok(models) => Ok(Indexes(ix.providers[last.id := last], ix.models[last.id := models]))
  }

  /** A search of the list. */
  function FindProvider(providers: seq<Provider>, id: Id): Option<Provider> {
    if providers == [] then None
    else if providers[0].id == id then Some(providers[0])
    else FindProvider(providers[1..], id)
  }

  function FindModel(models: seq<Model>, id: Id): Option<Model> {
    if models == [] then None
    else if models[0].id == id then Some(models[0])
    else FindModel(models[1..], id)
  }

  function Lookup<V>(index: map<Id, V>, id: Id): Option<V> {
    if id in index then Some(index[id]) else None
  }

  function ProviderIds(providers: seq<Provider>): (ids: seq<Id>)
    ensures |ids| == |providers| && forall k :: 0 <= k < |ids| ==> ids[k] == providers[k].id
  {
    seq(|providers|, k requires 0 <= k < |providers| => providers[k].id)
  }

  function ModelIds(models: seq<Model>): (ids: seq<Id>)
    ensures |ids| == |models| && forall k :: 0 <= k < |ids| ==> ids[k] == models[k].id
  {
    seq(|models|, k requires 0 <= k < |models| => models[k].id)
  }

  /** No id is listed twice, neither a provider's nor a model's of one provider. */
  ghost predicate Unambiguous(providers: seq<Provider>) {
    Distinct(ProviderIds(providers)) && forall p :: p in providers ==> Distinct(ModelIds(p.models))
  }

  lemma {:induction false} ModelIndexIsSearch(provider: Id, models: seq<Model>)
    ensures IndexModels(provider, models).Ok? <==> Distinct(ModelIds(models))
    ensures IndexModels(provider, models).Ok? ==>
              forall id :: Lookup(IndexModels(provider, models).value, id) == FindModel(models, id)
    decreases |models|
  {
    if models != [] {
      var rest, last := models[..|models| - 1], models[|models| - 1];
      ModelIndexIsSearch(provider, rest);
      assert models == rest + [last];
      ModelIndexOneMore(provider, rest, last);
    }
  }

  lemma ModelIndexOneMore(provider: Id, rest: seq<Model>, last: Model)
    requires IndexModels(provider, rest).Ok? <==> Distinct(ModelIds(rest))
    requires IndexModels(provider, rest).Ok? ==>
               forall id :: Lookup(IndexModels(provider, rest).value, id) == FindModel(rest, id)
    ensures IndexModels(provider, rest + [last]).Ok? <==> Distinct(ModelIds(rest + [last]))
    ensures IndexModels(provider, rest + [last]).Ok? ==>
              forall id :: Lookup(IndexModels(provider, rest + [last]).value, id) == FindModel(rest + [last], id)
  {
    var models := rest + [last];
    assert models[..|models| - 1] == rest && models[|models| - 1] == last;
    assert ModelIds(models) == ModelIds(rest) + [last.id];
    hide FindModel, Distinct, ModelIds;
    FindModelSplits(rest, last, last.id);
    DistinctLast(ModelIds(rest), last.id);
    if IndexModels(provider, rest).Ok? {
      var index := IndexModels(provider, rest).value;
      assert Lookup(index, last.id) == FindModel(rest, last.id);
      if last.id !in index {
        forall id
          ensures Lookup(index[last.id := last], id) == FindModel(models, id)
        {
          FindModelSplits(rest, last, id);
          LastFound(last, id);
          assert Lookup(index, id) == FindModel(rest, id);
        }
      }
    }
  }

  lemma LastFound(last: Model, id: Id)
    ensures FindModel([last], id) == if last.id == id then Some(last) else None
  {
  }

  lemma DistinctLast(ids: seq<Id>, id: Id)
    ensures Distinct(ids + [id]) <==> Distinct(ids) && id !in ids
  {
    var more := ids + [id];
    assert more[..|ids|] == ids && more[|ids|] == id;
    assert forall i, j :: 0 <= i < j < |ids| ==> more[i] == ids[i] && more[j] == ids[j];
  }

  lemma {:induction false} FindModelSplits(rest: seq<Model>, last: Model, id: Id)
    ensures FindModel(rest + [last], id) == if FindModel(rest, id).Some? then FindModel(rest, id) else FindModel([last], id)
    ensures FindModel(rest, id).Some? <==> id in ModelIds(rest)
    decreases |rest|
  {
    if rest == [] {
      assert rest + [last] == [last];
    } else {
      assert (rest + [last])[1..] == rest[1..] + [last];
      assert ModelIds(rest) == [rest[0].id] + ModelIds(rest[1..]);
      FindModelSplits(rest[1..], last, id);
    }
  }

  lemma {:induction false} FindProviderSplits(rest: seq<Provider>, last: Provider, id: Id)
    ensures FindProvider(rest + [last], id)
         == if FindProvider(rest, id).Some? then FindProvider(rest, id) else FindProvider([last], id)
    ensures FindProvider(rest, id).Some? <==> id in ProviderIds(rest)
    decreases |rest|
  {
    if rest == [] {
      assert rest + [last] == [last];
    } else {
      assert (rest + [last])[1..] == rest[1..] + [last];
      assert ProviderIds(rest) == [rest[0].id] + ProviderIds(rest[1..]);
      FindProviderSplits(rest[1..], last, id);
    }
  }

  /** What looking a model up yields, by index and by search. */
  function LookupModel(ix: Indexes, provider: Id, model: Id): Option<Model> {
    if provider in ix.models then Lookup(ix.models[provider], model) else None
  }

  function SearchModel(providers: seq<Provider>, provider: Id, model: Id): Option<Model> {
    match FindProvider(providers, provider)
    case None => None
    case Some(p) => FindModel(p.models, model)
  }

  /** The indexes answer as a search of the list does. */
  ghost predicate Answers(ix: Indexes, providers: seq<Provider>) {
    && (forall id :: Lookup(ix.providers, id) == FindProvider(providers, id))
    && (forall id, model :: LookupModel(ix, id, model) == SearchModel(providers, id, model))
    && ix.models.Keys == ix.providers.Keys
  }

  /** Indexing succeeds exactly on unambiguous lists, and then every lookup equals a search of the list. */
  lemma {:induction false} IndexIsSearch(providers: seq<Provider>)
    ensures BuildIndexes(providers).Ok? <==> Unambiguous(providers)
    ensures BuildIndexes(providers).Ok? ==> Answers(BuildIndexes(providers).value, providers)
    decreases |providers|
  {
    if providers != [] {
      var rest, last := providers[..|providers| - 1], providers[|providers| - 1];
      IndexIsSearch(rest);
      ModelIndexIsSearch(last.id, last.models);
      UnambiguousLast(rest, last);
      assert providers == rest + [last];
      FindProviderSplits(rest, last, last.id);
      if BuildIndexes(providers).Ok? {
        AnswersOneMore(BuildIndexes(rest).value, rest, last, IndexModels(last.id, last.models).value);
      }
    }
  }

  lemma UnambiguousLast(rest: seq<Provider>, last: Provider)
    ensures Unambiguous(rest + [last]) <==> Unambiguous(rest) && last.id !in ProviderIds(rest) && Distinct(ModelIds(last.models))
  {
    assert ProviderIds(rest + [last]) == ProviderIds(rest) + [last.id];
    DistinctLast(ProviderIds(rest), last.id);
    assert forall p :: p in rest + [last] <==> p in rest || p == last;
  }

  lemma AnswersOneMore(ix: Indexes, rest: seq<Provider>, last: Provider, models: map<Id, Model>)
    requires Answers(ix, rest) && last.id !in ix.providers
    requires forall id :: Lookup(models, id) == FindModel(last.models, id)
    ensures Answers(Indexes(ix.providers[last.id := last], ix.models[last.id := models]), rest + [last])
  {
    var more := Indexes(ix.providers[last.id := last], ix.models[last.id := models]);
    assert FindProvider(rest, last.id) == Lookup(ix.providers, last.id);
    forall id
      ensures Lookup(more.providers, id) == FindProvider(rest + [last], id)
    {
      FindProviderSplits(rest, last, id);
      assert Lookup(ix.providers, id) == FindProvider(rest, id);
    }
    forall id, model
      ensures LookupModel(more, id, model) == SearchModel(rest + [last], id, model)
    {
      FindProviderSplits(rest, last, id);
      assert LookupModel(ix, id, model) == SearchModel(rest, id, model);
      assert Lookup(models, model) == FindModel(last.models, model);
    }
  }

  // ---------------------------------------------------------------------------------------------
  // What the resolver publishes
  // ---------------------------------------------------------------------------------------------

  /** The provider order lists every effective provider once. */
  lemma ProviderOrderIsPermutation(s: Source)
    requires Layered(s)
    ensures Distinct(ProviderOrder(s)) && Elements(ProviderOrder(s)) == Elements(s.keys)
  {
    var family := Filter(s.keys, FamilySet(s), true);
    var builtin := Filter(s.builtin, Elements(family), false);
    var personal := Filter(Filter(s.personal, Elements(builtin), false), Elements(family), false);
    var rest := ResolveOwnedOrder(builtin, personal, s.requested);
    ResolvedIsPermutation(builtin, personal, s.requested);
    FilterDistinct(s.keys, FamilySet(s), true);
    hide Filter, ResolveOwnedOrder, FamilySet;
    assert forall id :: id in rest <==> id in Elements(rest);
    DistinctConcat(family, rest);
    forall id
      ensures id in family + rest <==> id in Elements(s.keys)
    {
      assert id in s.keys <==> id in Elements(s.keys);
      assert id in s.builtin <==> id in Elements(s.builtin);
      assert id in s.personal <==> id in Elements(s.personal);
    }
  }

  /** Each provider's models are listed once, and are exactly those of its two owners. */
  lemma ModelOrderIsPermutation(e: Effective)
    ensures Distinct(ModelOrder(e))
    ensures Elements(ModelOrder(e)) == Members(e.builtinModelIds, e.personalModelIds)
  {
    ResolvedIsPermutation(Unique(e.builtinModelIds), OwnPersonal(e.builtinModelIds, e.personalModelIds), e.modelOrder);
  }

  lemma PublishedIsUnambiguous(id: Id, e: Effective)
    ensures |Published(id, e)| <= 1
    ensures forall p :: p in Published(id, e) ==> p.id == id && Distinct(ModelIds(p.models))
  {
    ModelOrderIsPermutation(e);
    var ids := Filter(ModelOrder(e), e.executable.Keys, true);
    FilterDistinct(ModelOrder(e), e.executable.Keys, true);
    assert ModelIds(ExecutableModels(e, ids)) == ids;
  }

  lemma {:induction false} PublishedIdsAreListed(effective: map<Id, Effective>, ids: seq<Id>)
    requires forall id :: id in ids ==> id in effective
    requires Distinct(ids)
    ensures Unambiguous(PublishedOf(effective, ids))
    ensures forall id :: id in ProviderIds(PublishedOf(effective, ids)) ==> id in ids
    decreases |ids|
  {
    if ids != [] {
      var rest, last := ids[..|ids| - 1], ids[|ids| - 1];
      PublishedIdsAreListed(effective, rest);
      PublishedIsUnambiguous(last, effective[last]);
      var before, added := PublishedOf(effective, rest), Published(last, effective[last]);
      assert last !in rest;
      hide Published, PublishedOf, Unambiguous;
      PublishedOneMore(effective, ids);
      OneMoreListed(before, added, last);
    }
  }

  lemma PublishedOneMore(effective: map<Id, Effective>, ids: seq<Id>)
    requires ids != [] && forall id :: id in ids ==> id in effective
    ensures var rest, last := ids[..|ids| - 1], ids[|ids| - 1];
            PublishedOf(effective, ids) == PublishedOf(effective, rest) + Published(last, effective[last])
    ensures var last := ids[|ids| - 1]; |Published(last, effective[last])| <= 1
    ensures var last := ids[|ids| - 1]; forall p :: p in Published(last, effective[last]) ==> p.id == last
  {
  }

  /** At most one provider more, under an id not listed before. */
  lemma OneMoreListed(before: seq<Provider>, added: seq<Provider>, last: Id)
    requires Unambiguous(before) && last !in ProviderIds(before) && |added| <= 1
    requires forall p :: p in added ==> p.id == last && Unambiguous([p])
    ensures Unambiguous(before + added)
    ensures forall id :: id in ProviderIds(before + added) ==> id in ProviderIds(before) || id == last
  {
    if added == [] {
      assert before + added == before;
    } else {
      assert added == [added[0]] && added[0] in added;
      UnambiguousLast(before, added[0]);
      assert ProviderIds(before + added) == ProviderIds(before) + [last];
    }
  }

  /** What the resolver publishes can be indexed: `replace` never stops halfway on it. */
  lemma ResolvedCanBePublished(s: Source)
    requires Layered(s)
    ensures (forall id :: id in ProviderOrder(s) ==> id in s.effective)
    ensures Unambiguous(PublishedOf(s.effective, ProviderOrder(s)))
    ensures BuildIndexes(PublishedOf(s.effective, ProviderOrder(s))).Ok?
  {
    ProviderOrderIsPermutation(s);
    assert forall id :: id in ProviderOrder(s) ==> id in Elements(ProviderOrder(s));
    PublishedIdsAreListed(s.effective, ProviderOrder(s));
    IndexIsSearch(PublishedOf(s.effective, ProviderOrder(s)));
  }

  /** Of two providers, the one that stands first: an account family before all others, these by owner and request. */
  ghost predicate ProviderLeads(s: Source, x: Id, y: Id)
    requires Layered(s) && x in s.keys && y in s.keys
  {
    assert x in Elements(s.keys) && y in Elements(s.keys);
    if s.effective[x].inFamily && s.effective[y].inFamily then First(s.keys, x) < First(s.keys, y)
    else !s.effective[y].inFamily && (!s.effective[x].inFamily ==> Leads(s.builtin, s.personal, s.requested, x, y))
  }

  /** What is left of an owner's list orders two ids as the list does. */
  lemma LeftLeads(s: Source, family: set<Id>, x: Id, y: Id)
    requires Layered(s) && x !in family && y !in family
    ensures var builtin := Filter(s.builtin, family, false);
            var personal := Filter(Filter(s.personal, Elements(builtin), false), family, false);
            Leads(builtin, personal, s.requested, x, y) ==> Leads(s.builtin, s.personal, s.requested, x, y)
  {
    var builtin := Filter(s.builtin, family, false);
    var notBuiltin := Filter(s.personal, Elements(builtin), false);
    var personal := Filter(notBuiltin, family, false);
    hide Filter;
    if x in builtin && y in builtin && First(builtin, x) < First(builtin, y) {
      FilterPlaces(s.builtin, family, false, First(builtin, x), First(builtin, y));
    }
    if x in personal && y in personal && First(personal, x) < First(personal, y) {
      FilterDistinct(s.personal, Elements(builtin), false);
      FilterPlaces(notBuiltin, family, false, First(personal, x), First(personal, y));
      FilterPlaces(s.personal, Elements(builtin), false, First(notBuiltin, x), First(notBuiltin, y));
    }
  }

  /** The families, and the others as their owners list them. */
  lemma ProviderParts(s: Source)
    requires Layered(s)
    ensures var family := Filter(s.keys, FamilySet(s), true);
            var builtin := Filter(s.builtin, Elements(family), false);
            var personal := Filter(Filter(s.personal, Elements(builtin), false), Elements(family), false);
            var rest := ResolveOwnedOrder(builtin, personal, s.requested);
            && ProviderOrder(s) == family + rest
            && (forall id :: id in family ==> id in s.keys && s.effective[id].inFamily)
            && (forall id :: id in rest ==> id in s.keys && !s.effective[id].inFamily && id !in Elements(family))
  {
    var family := Filter(s.keys, FamilySet(s), true);
    var builtin := Filter(s.builtin, Elements(family), false);
    var personal := Filter(Filter(s.personal, Elements(builtin), false), Elements(family), false);
    var rest := ResolveOwnedOrder(builtin, personal, s.requested);
    ResolvedIsPermutation(builtin, personal, s.requested);
    hide Filter, ResolveOwnedOrder;
    assert forall id :: id in s.keys <==> id in Elements(s.keys);
    forall id | id in rest
      ensures id in s.keys && id !in family
    {
      assert id in Elements(rest);
      assert id in s.builtin ==> id in Elements(s.builtin);
      assert id in s.personal ==> id in Elements(s.personal);
    }
  }

  /** Whatever stands before another provider in the order is the one that leads of the two. */
  lemma ProviderPlaces(s: Source, i: nat, j: nat)
    requires Layered(s) && i < j < |ProviderOrder(s)|
    ensures ProviderOrder(s)[i] in s.keys && ProviderOrder(s)[j] in s.keys
    ensures ProviderLeads(s, ProviderOrder(s)[i], ProviderOrder(s)[j])
  {
    hide ProviderOrder, Filter, ResolveOwnedOrder, First, Leads;
    ProviderParts(s);
    var family := Filter(s.keys, FamilySet(s), true);
    var builtin := Filter(s.builtin, Elements(family), false);
    var personal := Filter(Filter(s.personal, Elements(builtin), false), Elements(family), false);
    var rest := ResolveOwnedOrder(builtin, personal, s.requested);
    var n := |family|;
    if j < n {
      FilterPlaces(s.keys, FamilySet(s), true, i, j);
      assert family[i] in family && family[j] in family;
    } else {
      assert rest[j - n] in rest;
      if n <= i {
        assert rest[i - n] in rest;
        ResolvedPlaces(builtin, personal, s.requested, i - n, j - n);
        LeftLeads(s, Elements(family), rest[i - n], rest[j - n]);
      } else {
        assert family[i] in family;
      }
    }
  }

  /** A provider that is published: complete, with a model that can be executed. */
  ghost predicate Publishable(e: Effective) {
    e.complete && exists id :: (id in e.builtinModelIds || id in e.personalModelIds) && id in e.executable
  }

  /** The provider as it is published: its own configuration and its executable models, each once and with its own. */
  ghost predicate PublishedAs(p: Provider, e: Effective) {
    && p.config == e.config && Distinct(ModelIds(p.models))
    && (forall id :: id in ModelIds(p.models) <==> (id in e.builtinModelIds || id in e.personalModelIds) && id in e.executable)
    && (forall k :: 0 <= k < |p.models| ==> p.models[k].id in e.executable && p.models[k].config == e.executable[p.models[k].id])
    && (forall i, j :: 0 <= i < j < |p.models| ==>
          Leads(e.builtinModelIds, e.personalModelIds, e.modelOrder, p.models[i].id, p.models[j].id))
  }
  lemma ModelPlaces(e: Effective, x: Id, y: Id)
    requires Leads(Unique(e.builtinModelIds), OwnPersonal(e.builtinModelIds, e.personalModelIds), e.modelOrder, x, y)
    ensures Leads(e.builtinModelIds, e.personalModelIds, e.modelOrder, x, y)
  {
    hide Filter, Unique;
    var builtin := Unique(e.builtinModelIds);
    var own := OwnPersonal(e.builtinModelIds, e.personalModelIds);
    if x in builtin && y in builtin && First(builtin, x) < First(builtin, y) {
      UniquePlaces(e.builtinModelIds, First(builtin, x), First(builtin, y));
    }
    if x in own && y in own && First(own, x) < First(own, y) {
      FilteredUniquePlaces(e.personalModelIds, Elements(e.builtinModelIds), false, First(own, x), First(own, y));
    }
  }

  lemma ModelsInOrder(e: Effective, i: nat, j: nat)
    requires var ids := Filter(ModelOrder(e), e.executable.Keys, true); i < j < |ids|
    ensures var ids := Filter(ModelOrder(e), e.executable.Keys, true);
            Leads(e.builtinModelIds, e.personalModelIds, e.modelOrder, ids[i], ids[j])
  {
    var order := ModelOrder(e);
    var ids := Filter(order, e.executable.Keys, true);
    ModelOrderIsPermutation(e);
    assert ids[i] in ids && ids[j] in ids;
    FilterPlaces(order, e.executable.Keys, true, i, j);
    hide Filter, Unique, ResolveOwnedOrder, Leads;
    ResolvedPlaces(Unique(e.builtinModelIds), OwnPersonal(e.builtinModelIds, e.personalModelIds), e.modelOrder,
                   First(order, ids[i]), First(order, ids[j]));
    ModelPlaces(e, ids[i], ids[j]);
  }

  /** The models published, by their ids. */
  lemma ExecutableIds(e: Effective)
    ensures var ids := Filter(ModelOrder(e), e.executable.Keys, true);
            && Distinct(ids)
            && forall id :: id in ids <==> (id in e.builtinModelIds || id in e.personalModelIds) && id in e.executable
  {
    ModelOrderIsPermutation(e);
    FilterDistinct(ModelOrder(e), e.executable.Keys, true);
    assert forall m :: m in ModelOrder(e) <==> m in Elements(ModelOrder(e));
    hide ModelOrder, Filter, Distinct;
  }

  lemma PublishedOneAs(id: Id, e: Effective)
    ensures Published(id, e) != [] <==> Publishable(e)
    ensures forall p :: p in Published(id, e) ==> p.id == id && PublishedAs(p, e)
  {
    hide ModelOrder, Filter, Distinct, Leads;
    var ids := Filter(ModelOrder(e), e.executable.Keys, true);
    ExecutableIds(e);
    assert ModelIds(ExecutableModels(e, ids)) == ids;
    forall i, j | 0 <= i < j < |ids|
      ensures Leads(e.builtinModelIds, e.personalModelIds, e.modelOrder, ids[i], ids[j])
    {
      ModelsInOrder(e, i, j);
    }
    if Publishable(e) {
      var m :| (m in e.builtinModelIds || m in e.personalModelIds) && m in e.executable;
      assert m in ids;
    }
    if ids != [] {
      assert ids[0] in ids;
    }
  }

  /** The providers stand as their ids do. */
  ghost predicate InOrderOf(ids: seq<Id>, providers: seq<Provider>) {
    && (forall k :: 0 <= k < |providers| ==> providers[k].id in ids)
    && forall i, j :: 0 <= i < j < |providers| ==> First(ids, providers[i].id) < First(ids, providers[j].id)
  }

  /** Of the ids, exactly the publishable ones, each as its effective provider says, in order. */
  ghost predicate Faithful(effective: map<Id, Effective>, ids: seq<Id>, providers: seq<Provider>) {
    && (forall id :: id in ProviderIds(providers) <==> id in ids && id in effective && Publishable(effective[id]))
    && (forall p :: p in providers ==> p.id in effective && PublishedAs(p, effective[p.id]))
    && InOrderOf(ids, providers)
  }

  lemma {:induction false} PublishedOfAs(effective: map<Id, Effective>, ids: seq<Id>)
    requires (forall id :: id in ids ==> id in effective) && Distinct(ids)
    ensures Faithful(effective, ids, PublishedOf(effective, ids))
    decreases |ids|
  {
    if ids == [] {
      NothingPublished(effective, ids);
    } else {
      hide *;
      var rest, last := ids[..|ids| - 1], ids[|ids| - 1];
      LastOfDistinct(ids);
      PublishedOfAs(effective, rest);
      PublishedOneAs(last, effective[last]);
      PublishedOneMore(effective, ids);
      FaithfulOneMore(effective, rest, last, PublishedOf(effective, rest), Published(last, effective[last]));
    }
  }

  lemma NothingPublished(effective: map<Id, Effective>, ids: seq<Id>)
    requires ids == []
    ensures Faithful(effective, ids, PublishedOf(effective, ids))
  {
  }

  lemma LastOfDistinct(ids: seq<Id>)
    requires Distinct(ids) && ids != []
    ensures var rest, last := ids[..|ids| - 1], ids[|ids| - 1]; ids == rest + [last] && last !in rest && Distinct(rest)
  {
  }

  lemma FaithfulOneMore(effective: map<Id, Effective>, rest: seq<Id>, last: Id, before: seq<Provider>, added: seq<Provider>)
    requires last in effective && last !in rest && Faithful(effective, rest, before)
    requires |added| <= 1 && (added != [] <==> Publishable(effective[last]))
    requires forall p :: p in added ==> p.id == last && PublishedAs(p, effective[last])
    ensures Faithful(effective, rest + [last], before + added)
  {
    hide Publishable, PublishedAs, InOrderOf;
    var ids := rest + [last];
    assert ids[..|ids| - 1] == rest && ids[|ids| - 1] == last;
    AddedInOrder(ids, before, added);
    AddedIds(before, added);
    assert forall p :: p in before + added <==> p in before || p in added;
    assert added != [] ==> ProviderIds(added)[0] == added[0].id && added[0] in added && ProviderIds(added) == [added[0].id];
  }

  lemma AddedIds(before: seq<Provider>, added: seq<Provider>)
    ensures forall id :: id in ProviderIds(before + added) <==> id in ProviderIds(before) || id in ProviderIds(added)
    ensures added == [] <==> ProviderIds(added) == []
  {
    assert ProviderIds(before + added) == ProviderIds(before) + ProviderIds(added);
  }

  lemma AddedInOrder(ids: seq<Id>, before: seq<Provider>, added: seq<Provider>)
    requires ids != [] && ids[|ids| - 1] !in ids[..|ids| - 1] && InOrderOf(ids[..|ids| - 1], before)
    requires |added| <= 1 && forall p :: p in added ==> p.id == ids[|ids| - 1]
    ensures InOrderOf(ids, before + added)
  {
    hide First;
    var n := |ids| - 1;
    var all := before + added;
    FirstIs(ids, ids[n], n);
    forall i | 0 <= i < |before|
      ensures before[i].id in ids && First(ids, before[i].id) == First(ids[..n], before[i].id) < n
    {
      FirstOfFront(ids, before[i].id);
    }
    assert forall i :: |before| <= i < |all| ==> all[i] == added[i - |before|] && all[i] in added;
  }

  /**
   * What the resolver publishes, over every configuration: exactly the complete providers with an executable model, each
   * with its own configuration and exactly its executable models, providers and models in their order.
   */
  lemma PublishedExactlyWhen(s: Source, id: Id)
    requires Layered(s)
    ensures forall i :: i in ProviderOrder(s) ==> i in s.effective
    ensures var published := PublishedOf(s.effective, ProviderOrder(s));
            && (id in ProviderIds(published) <==> id in s.keys && id in s.effective && Publishable(s.effective[id]))
            && (forall p :: p in published ==> p.id in s.effective && PublishedAs(p, s.effective[p.id]))
            && forall i, j :: 0 <= i < j < |published| ==>
                 published[i].id in s.keys && published[j].id in s.keys && ProviderLeads(s, published[i].id, published[j].id)
  {
    var order := ProviderOrder(s);
    ProviderOrderIsPermutation(s);
    assert forall i :: i in order <==> i in Elements(order);
    assert forall i :: i in s.keys <==> i in Elements(s.keys);
    PublishedOfAs(s.effective, order);
    var published := PublishedOf(s.effective, order);
    hide ProviderOrder, PublishedOf, Publishable, PublishedAs, ProviderLeads, First, Distinct, ProviderIds;
    assert InOrderOf(order, published);
    forall i, j | 0 <= i < j < |published|
      ensures published[i].id in s.keys && published[j].id in s.keys && ProviderLeads(s, published[i].id, published[j].id)
    {
      ProviderPlaces(s, First(order, published[i].id), First(order, published[j].id));
    }
  }

  method ResolveProviderOrder(s: Source) returns (order: seq<Id>)
    ensures order == ProviderOrder(s)
  {
    var family := FilterIds(s.keys, FamilySet(s), true);
    var familySet := set id | id in family;
    var builtin := FilterIds(s.builtin, familySet, false);
    var builtinSet := set id | id in builtin;
    var notBuiltin := FilterIds(s.personal, builtinSet, false);
    var personal := FilterIds(notBuiltin, familySet, false);
    var owned := ResolveOrder(builtin, personal, s.requested);
    order := family + owned;
  }

  /** One turn of that loop: nothing, or the provider with its executable models. */
  method PublishOne(id: Id, effective: Effective) returns (published: seq<Provider>)
    ensures published == Published(id, effective)
  {
    var builtin := UniqueInOrder(effective.builtinModelIds);
    var personalAll := UniqueInOrder(effective.personalModelIds);
    var personal := FilterIds(personalAll, set id | id in builtin, false);
    assert Elements(builtin) == Elements(effective.builtinModelIds);
    var modelIds := ResolveOrder(builtin, personal, effective.modelOrder);
    assert modelIds == ModelOrder(effective);
    if !effective.complete {
      return [];
    }
    var valid := FilterIds(modelIds, effective.executable.Keys, true);
    if valid == [] {
      return [];
    }
    published := [Provider(id, effective.config, ExecutableModels(effective, valid))];
  }

  /** The loop of `resolve` that builds the registry's providers. */
  method ResolveProviders(s: Source) returns (providers: seq<Provider>)
    requires Layered(s)
    ensures Unambiguous(providers)
    ensures (forall id :: id in ProviderOrder(s) ==> id in s.effective) && providers == PublishedOf(s.effective, ProviderOrder(s))
  {
    hide ProviderOrder, Published, Unambiguous, BuildIndexes, Layered;
    ResolvedCanBePublished(s);
    var order := ResolveProviderOrder(s);
    providers := [];
    for k := 0 to |order|
      invariant providers == PublishedOf(s.effective, order[..k])
    {
      assert order[..k + 1][..k] == order[..k];
      var published := PublishOne(order[k], s.effective[order[k]]);
      providers := providers + published;
    }
    assert order[..|order|] == order;
  }

  // ---------------------------------------------------------------------------------------------
  // The object
  // ---------------------------------------------------------------------------------------------

  datatype Changed = Changed(revision: nat, reason: Text)

  datatype Validation = Valid | ProviderNotFound | ModelNotFound | LevelMissing | LevelNotSupported(supported: seq<Text>)

  class Registry {
    var revision: nat
    var providers: seq<Provider>
    var indexes: Indexes
    /** The events the listeners heard. */
    var events: seq<Changed>

    /** The indexes are those of the view. */
    ghost predicate Agrees()
      reads this
    {
      BuildIndexes(providers) == Ok(indexes)
    }

    constructor ()
      ensures Agrees() && revision == 0 && providers == [] && events == []
    {
      revision, providers, indexes, events := 0, [], Indexes(map[], map[]), [];
    }

    /**
     * The view is replaced before the indexes are rebuilt: on an ambiguous list the new view stays, with the
     * old indexes and without an event.
     */
    method Replace(next: seq<Provider>, reason: Text) returns (r: Option<RegistryError>)
      modifies this
      ensures revision == old(revision) + 1 && providers == next
      ensures r.None? <==> Unambiguous(next)
      ensures r.None? ==> Agrees() && events == old(events) + [Changed(revision, reason)]
      ensures r.Some? ==> indexes == old(indexes) && events == old(events) && !Agrees()
    {
      revision := revision + 1;
      providers := next;
      IndexIsSearch(next);
      var rebuilt := RebuildIndexes(next);
      if rebuilt.Err? {
        return Some(rebuilt.error);
      }
      indexes := rebuilt.value;
      events := events + [Changed(revision, reason)];
      r := None;
    }

    method GetProvider(id: Id) returns (provider: Option<Provider>)
      requires Agrees()
      ensures provider == FindProvider(providers, id)
    {
      IndexIsSearch(providers);
      provider := Lookup(indexes.providers, id);
    }

    method GetModel(providerId: Id, modelId: Id) returns (model: Option<Model>)
      requires Agrees()
      ensures model == SearchModel(providers, providerId, modelId)
    {
      IndexIsSearch(providers);
      model := LookupModel(indexes, providerId, modelId);
    }

    /** `validateSelection` with `validateModelSelectionOptions`: the first of four checks that fails. */
    method ValidateSelection(providerId: Id, modelId: Id, reasoningLevel: Option<Text>) returns (v: Validation)
      requires Agrees()
      ensures v == if FindProvider(providers, providerId).None? then ProviderNotFound
                   else match SearchModel(providers, providerId, modelId)
                        case None => ModelNotFound
                        case Some(model) =>
                          if reasoningLevel.None? then LevelMissing
                          else if reasoningLevel.value in model.config.reasoningLevels then Valid
                          else LevelNotSupported(model.config.reasoningLevels)
    {
      var provider := GetProvider(providerId);
      if provider.None? {
        return ProviderNotFound;
      }
      var model := GetModel(providerId, modelId);
      if model.None? {
        return ModelNotFound;
      }
      var supported := model.value.config.reasoningLevels;
      if reasoningLevel.None? {
        return LevelMissing;
      }
      v := if reasoningLevel.value in supported then Valid else LevelNotSupported(supported);
    }

    /** Resolving and replacing always ends in a view whose indexes agree with it. */
    method Publish(s: Source, reason: Text)
      requires Layered(s)
      modifies this
      ensures Agrees() && revision == old(revision) + 1 && events == old(events) + [Changed(revision, reason)]
      ensures (forall id :: id in ProviderOrder(s) ==> id in s.effective) && providers == PublishedOf(s.effective, ProviderOrder(s))
    {
      var resolved := ResolveProviders(s);
      var error := Replace(resolved, reason);
      assert error.None?;
    }
  }

  method RebuildIndexes(providers: seq<Provider>) returns (r: Result<Indexes, RegistryError>)
    ensures r == BuildIndexes(providers)
  {
    var ix := Indexes(map[], map[]);
    for k := 0 to |providers|
      invariant BuildIndexes(providers[..k]) == Ok(ix)
    {
      assert providers[..k + 1][..k] == providers[..k];
      var provider := providers[k];
      if provider.id in ix.providers {
        StaysBroken(providers, k + 1);
        return Err(DuplicateProvider(provider.id));
      }
      var models := RebuildModels(provider.id, provider.models);
      if models.Err? {
        StaysBroken(providers, k + 1);
        return Err(models.error);
      }
      ix := Indexes(ix.providers[provider.id := provider], ix.models[provider.id := models.value]);
    }
    assert providers[..|providers|] == providers;
    r := Ok(ix);
  }

  /** The first error is the error. */
  lemma {:induction false} StaysBroken(providers: seq<Provider>, k: nat)
    requires k <= |providers| && BuildIndexes(providers[..k]).Err?
    ensures BuildIndexes(providers) == BuildIndexes(providers[..k])
    decreases |providers| - k
  {
    if k < |providers| {
      assert providers[..k + 1][..k] == providers[..k];
      StaysBroken(providers, k + 1);
    } else {
      assert providers[..k] == providers;
    }
  }

  method RebuildModels(provider: Id, models: seq<Model>) returns (r: Result<map<Id, Model>, RegistryError>)
    ensures r == IndexModels(provider, models)
  {
    var index: map<Id, Model> := map[];
    for k := 0 to |models|
      invariant IndexModels(provider, models[..k]) == Ok(index)
    {
      assert models[..k + 1][..k] == models[..k];
      if models[k].id in index {
        ModelsStayBroken(provider, models, k + 1);
        return Err(DuplicateModel(provider, models[k].id));
      }
      index := index[models[k].id := models[k]];
    }
    assert models[..|models|] == models;
    r := Ok(index);
  }

  lemma {:induction false} ModelsStayBroken(provider: Id, models: seq<Model>, k: nat)
    requires k <= |models| && IndexModels(provider, models[..k]).Err?
    ensures IndexModels(provider, models) == IndexModels(provider, models[..k])
    decreases |models| - k
  {
    if k < |models| {
      assert models[..k + 1][..k] == models[..k];
      ModelsStayBroken(provider, models, k + 1);
    } else {
      assert models[..k] == models;
    }
  }
}

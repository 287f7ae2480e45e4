/** Where each kind of model name goes, and who is a candidate: stated by positions in the engine table. */
module RoutingOrder {
  import opened Wrappers
  import opened ConfigParsing
  import opened Catalog
  import opened Routing

  // ---- the searches find the first ------------------------------------------

  /** Engine `i` is the first of the table with a live tag `id`. */
  ghost predicate TaggedFirst(v: View, engines: seq<Engine>, id: string, i: nat) {
    i < |engines| && HasTag(v, engines[i], id) && forall j :: 0 <= j < i ==> !HasTag(v, engines[j], id)
  }

  predicate HasTag(v: View, e: Engine, id: string) {
    e.api && e.key in v.tags && id in v.tags[e.key]
  }

  /** A discovering engine that lists `id`, starts with it or was seen with it. */
  predicate Knows(v: View, e: Engine, id: string) {
    e.discovers && (id in e.served || id in e.started || (e.key in v.seen && id in v.seen[e.key]))
  }

  ghost predicate KnowsFirst(v: View, engines: seq<Engine>, id: string, i: nat) {
    i < |engines| && Knows(v, engines[i], id) && forall j :: 0 <= j < i ==> !Knows(v, engines[j], id)
  }

  lemma {:induction false} TagSearch(v: View, engines: seq<Engine>, id: string, i: nat)
    requires i <= |engines| && forall j :: 0 <= j < i ==> !HasTag(v, engines[j], id)
    ensures i == |engines| ==> FirstTagged(v, engines, id) == None
    ensures i < |engines| && HasTag(v, engines[i], id) ==> FirstTagged(v, engines, id) == Some(engines[i].key)
  {
    if i > 0 {
      assert !HasTag(v, engines[0], id);
      TagSearch(v, engines[1..], id, i - 1);
    }
  }

  lemma {:induction false} KnownSearch(v: View, engines: seq<Engine>, id: string, i: nat)
    requires i <= |engines| && forall j :: 0 <= j < i ==> !Knows(v, engines[j], id)
    ensures i == |engines| ==> FirstAdvertising(v, engines, id) == None
    ensures i < |engines| && Knows(v, engines[i], id) ==> FirstAdvertising(v, engines, id) == Some(engines[i].key)
  {
    if i > 0 {
      assert !Knows(v, engines[0], id);
      KnownSearch(v, engines[1..], id, i - 1);
    }
  }

  lemma {:induction false} ApiSearch(engines: seq<Engine>, i: nat)
    requires i <= |engines| && forall j :: 0 <= j < i ==> !engines[j].api
    ensures i == |engines| ==> FirstApi(engines) == None
    ensures i < |engines| && engines[i].api ==> FirstApi(engines) == Some(engines[i].key)
  {
    if i > 0 {
      assert !engines[0].api;
      ApiSearch(engines[1..], i - 1);
    }
  }

  /** The process-engine step of `engine_for` never finds anything: an id it could find is in the static index. */
  lemma {:induction false} ProcessStepIsDead(v: View, engines: seq<Engine>, id: string)
    requires IndexOf(v.cfg.models, v.index) && id !in v.index
    ensures ProcessOwner(v.cfg.models, engines, id) == None
  {
    if engines != [] {
      assert Spec(id, engines[0].key) !in v.cfg.models;
      ProcessStepIsDead(v, engines[1..], id);
    }
  }

  // ---- where a name goes ----------------------------------------------------

  /** A real model name that is neither configured nor resolved from the catalog. */
  ghost predicate Live(v: View, id: string) {
    id != "" && id !in v.cfg.aliases && id !in v.index && id !in v.entries
  }

  /** A configured model goes to its engine, or nowhere if that is disabled; a catalogued one to its catalog owner. */
  lemma ConfiguredAndCatalogued(v: View, id: string)
    requires id != "" && id !in v.cfg.aliases && EntriesOk(v)
    ensures id in v.index && InTable(v.cfg.engines, v.index[id].engine) ==>
      RouteOf(v, id) == Ok(v.index[id].engine) && Explained(v, id) == Ok(Some(v.index[id].engine))
    ensures id in v.index && !InTable(v.cfg.engines, v.index[id].engine) ==> RouteOf(v, id) == Err(EngineDisabled)
    ensures id !in v.index && v.cfg.discover && id in v.entries ==>
      RouteOf(v, id) == Ok(v.entries[id].engine) && Explained(v, id) == Ok(Some(v.entries[id].engine))
  {
  }

  /** A live tag goes to the first engine that has it. */
  lemma TaggedModels(v: View, id: string, i: nat)
    requires Live(v, id) && TaggedFirst(v, v.cfg.engines, id, i)
    ensures RouteOf(v, id) == Ok(v.cfg.engines[i].key) && Explained(v, id) == Ok(Some(v.cfg.engines[i].key))
  {
    TagSearch(v, v.cfg.engines, id, i);
  }

  /** An id nobody has live, but that was discovered, is routed to the first engine that knows it. */
  lemma DiscoveredModels(v: View, id: string, i: nat)
    requires Live(v, id) && v.cfg.discover && KnowsFirst(v, v.cfg.engines, id, i)
    requires forall j :: 0 <= j < |v.cfg.engines| ==> !HasTag(v, v.cfg.engines[j], id)
    ensures RouteOf(v, id) == Ok(v.cfg.engines[i].key)
  {
    TagSearch(v, v.cfg.engines, id, |v.cfg.engines|);
    KnownSearch(v, v.cfg.engines, id, i);
  }

  /** Nobody is known to serve the name. */
  ghost predicate Unowned(v: View, id: string) {
    Live(v, id) && forall j :: 0 <= j < |v.cfg.engines| ==>
      !HasTag(v, v.cfg.engines[j], id) && (v.cfg.discover ==> !Knows(v, v.cfg.engines[j], id))
  }

  /**
   A name nobody is known to serve goes to the only engine, if there is one only; else to the first API-swap engine of
   the table; and without one nowhere.  It is explained in the same way.
  */
  lemma UnownedModels(v: View, id: string)
    requires IndexOf(v.cfg.models, v.index) && Unowned(v, id)
    ensures var engines := v.cfg.engines;
      && (|engines| == 1 ==> RouteOf(v, id) == Ok(engines[0].key) && Explained(v, id) == Ok(Some(engines[0].key)))
      && (|engines| != 1 && (forall i :: 0 <= i < |engines| ==> !engines[i].api) ==>
            RouteOf(v, id) == Err(NobodyServes) && Explained(v, id) == Ok(None))
      && forall i :: |engines| != 1 && 0 <= i < |engines| && engines[i].api && (forall j :: 0 <= j < i ==> !engines[j].api) ==>
           RouteOf(v, id) == Ok(engines[i].key) && Explained(v, id) == Ok(Some(engines[i].key))
  {
    var engines := v.cfg.engines;
    TagSearch(v, engines, id, |engines|);
    if v.cfg.discover { KnownSearch(v, engines, id, |engines|); }
    ProcessStepIsDead(v, engines, id);
    if forall i :: 0 <= i < |engines| ==> !engines[i].api { ApiSearch(engines, |engines|); }
    forall i | 0 <= i < |engines| && engines[i].api && forall j :: 0 <= j < i ==> !engines[j].api
      ensures FirstApi(engines) == Some(engines[i].key)
    {
      ApiSearch(engines, i);
    }
  }

  // ---- who is a candidate ---------------------------------------------------

  lemma {:induction false} SomeTag(v: View, engines: seq<Engine>, id: string)
    ensures FirstTagged(v, engines, id).Some? <==> exists i :: 0 <= i < |engines| && HasTag(v, engines[i], id)
  {
    if engines != [] {
      SomeTag(v, engines[1..], id);
      if i :| 0 <= i < |engines| && HasTag(v, engines[i], id) {
        assert i > 0 ==> engines[1..][i - 1] == engines[i];
      }
    }
  }

  lemma {:induction false} SomeKnows(v: View, engines: seq<Engine>, id: string)
    ensures FirstAdvertising(v, engines, id).Some? <==> exists i :: 0 <= i < |engines| && Knows(v, engines[i], id)
  {
    if engines != [] {
      SomeKnows(v, engines[1..], id);
      if i :| 0 <= i < |engines| && Knows(v, engines[i], id) {
        assert i > 0 ==> engines[1..][i - 1] == engines[i];
      }
    }
  }

  lemma {:induction false} SomeEnabled(cfg: Config, models: seq<Spec>, id: string)
    ensures LastEnabled(cfg, models, id).Some? <==>
      exists i :: 0 <= i < |models| && models[i].id == id && InTable(cfg.engines, models[i].engine)
  {
    if models != [] {
      var init := models[..|models| - 1];
      SomeEnabled(cfg, init, id);
      if i :| 0 <= i < |models| && models[i].id == id && InTable(cfg.engines, models[i].engine) {
        assert i < |models| - 1 ==> init[i] == models[i];
      }
    }
  }

  /**
   The candidates are exactly the names that are configured on an enabled engine, catalogued, tagged or discovered, but
   for aliases, and for smart aliases that name no configured or catalogued model.
  */
  lemma CandidatesAreTheServable(v: View, smartAliases: seq<string>, id: string)
    ensures Recorded(v, smartAliases, id).Some? <==>
      && id !in v.cfg.aliases
      && (id in smartAliases ==> id in v.index || id in v.entries)
      && ((exists i :: 0 <= i < |v.cfg.models| && v.cfg.models[i].id == id && InTable(v.cfg.engines, v.cfg.models[i].engine))
          || (id in v.entries && v.entries[id].source != Alias)
          || (exists i :: 0 <= i < |v.cfg.engines| && HasTag(v, v.cfg.engines[i], id))
          || (v.cfg.discover && exists i :: 0 <= i < |v.cfg.engines| && Knows(v, v.cfg.engines[i], id)))
  {
    SomeEnabled(v.cfg, v.cfg.models, id);
    SomeTag(v, v.cfg.engines, id);
    SomeKnows(v, v.cfg.engines, id);
    hide LastEnabled, FirstTagged, FirstAdvertising;
  }
}

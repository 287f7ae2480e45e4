/** The manager's routing state: the catalog, the static index and the models seen on each engine. */
module RoutingManager {
  import opened Wrappers
  import opened ConfigParsing
  import opened Catalog
  import opened Routing

  /** `id` is remembered for an engine of the table. */
  ghost predicate Kept(cfg: Config, persisted: map<string, string>, id: string) {
    id in persisted && InTable(cfg.engines, persisted[id])
  }

  ghost predicate AllKept(cfg: Config, persisted: map<string, string>, seen: Seen) {
    forall key, id :: key in seen && id in seen[key] ==> Kept(cfg, persisted, id)
  }

  lemma RememberKeeps(cfg: Config, persisted: map<string, string>, key: string, ids: set<string>)
    requires InTable(cfg.engines, key)
    ensures var p := Remember(persisted, key, ids);
      (forall id :: Kept(cfg, persisted, id) ==> Kept(cfg, p, id)) && forall id :: id in ids ==> Kept(cfg, p, id)
  {
  }

  /** A refresh forgets no model, and remembers every one it found. */
  lemma {:induction false} RememberAllKeeps(cfg: Config, n: nat, replies: Seen, persisted: map<string, string>)
    requires n <= |cfg.engines| && forall i :: 0 <= i < |cfg.engines| ==> cfg.engines[i].key in replies
    ensures var p := RememberAll(cfg.engines[..n], replies, persisted);
      && (forall id :: Kept(cfg, persisted, id) ==> Kept(cfg, p, id))
      && AllKept(cfg, p, Polled(cfg.engines[..n], replies))
  {
    if n > 0 {
      var engines, key := cfg.engines[..n], cfg.engines[n - 1].key;
      assert engines[..n - 1] == cfg.engines[..n - 1];
      RememberAllKeeps(cfg, n - 1, replies, persisted);
      assert InTable(cfg.engines, key);
      var before := RememberAll(engines[..n - 1], replies, persisted);
      RememberKeeps(cfg, before, key, replies[key]);
      hide Kept, RememberAll, Remember, InTable;
    }
  }

  lemma {:induction false} AdvertiserExists(v: View, engines: seq<Engine>, id: string)
    requires FirstAdvertising(v, engines, id).Some?
    ensures exists i :: 0 <= i < |engines| && Advertises(v, engines[i], id)
  {
    if !Advertises(v, engines[0], id) {
      AdvertiserExists(v, engines[1..], id);
      var i :| 0 <= i < |engines| - 1 && Advertises(v, engines[1..][i], id);
      assert Advertises(v, engines[i + 1], id);
    }
  }

  /** What is declared or remembered for an engine of the table is in the catalog. */
  lemma AdvertisedIsCatalogued(v: View, live: Seen, persisted: map<string, string>, m: map<string, Entry>)
    requires ConfigOk(v.cfg) && AllKept(v.cfg, persisted, v.seen)
    requires IsMerge(v.cfg, live, persisted, m) && v.entries == WithAliases(v.cfg.aliases, m)
    ensures DiscoveredIsCatalogued(v)
  {
    forall id | id != "" && Discovered(v, id).Some?
      ensures id in v.entries
    {
      AdvertiserExists(v, v.cfg.engines, id);
      var i :| 0 <= i < |v.cfg.engines| && Advertises(v, v.cfg.engines[i], id);
      var e := v.cfg.engines[i];
      assert id !in e.served && id !in e.started ==> Kept(v.cfg, persisted, id);
      var claim :=
        if id in e.served then Entry(id, e.key, Served, None)
        else if id in e.started then Entry(id, e.key, StartCmd, None)
        else Entry(id, persisted[id], Persisted, None);
      assert Serves(e, e.key, id) || Starts(e, e.key, id) || Kept(v.cfg, persisted, id);
      assert Claimed(v.cfg, live, persisted, claim) && Eligible(v.cfg, claim);
      assert claim.id in m;
    }
  }

  /** An entry found live or remembered is remembered. */
  lemma FoundIsKept(cfg: Config, live: Seen, persisted: map<string, string>, m: map<string, Entry>, id: string)
    requires ConfigOk(cfg) && IsMerge(cfg, live, persisted, m) && AllKept(cfg, persisted, live)
    requires var entries := WithAliases(cfg.aliases, m);
      id in entries && (entries[id].source == Live || entries[id].source == Persisted)
    ensures Kept(cfg, persisted, id)
  {
  }

  function Lookup(m: map<string, string>, id: string): Option<string> {
    if id in m then Some(m[id]) else None
  }

  lemma {:induction false} FirstTaggedExtends(v: View, engines: seq<Engine>, e: Engine, id: string)
    ensures FirstTagged(v, engines + [e], id)
         == OrElse(FirstTagged(v, engines, id), if Tagged(v, e, id) then Some(e.key) else None)
  {
    if engines != [] {
      assert (engines + [e])[1..] == engines[1..] + [e];
      FirstTaggedExtends(v, engines[1..], e, id);
    }
  }

  lemma {:induction false} FirstAdvertisingExtends(v: View, engines: seq<Engine>, e: Engine, id: string)
    ensures FirstAdvertising(v, engines + [e], id)
         == OrElse(FirstAdvertising(v, engines, id), if Advertises(v, e, id) then Some(e.key) else None)
  {
    if engines != [] {
      assert (engines + [e])[1..] == engines[1..] + [e];
      FirstAdvertisingExtends(v, engines[1..], e, id);
    }
  }

  class Manager {
    const cfg: Config
    const catalog: ModelCatalog
    var index: map<string, Spec>
    var seen: Seen

    ghost predicate Valid()
      reads this, catalog
    {
      && catalog.Valid() && catalog.cfg == cfg
      && IndexOf(cfg.models, index)
      && AllKept(cfg, catalog.persisted, seen) && AllKept(cfg, catalog.persisted, catalog.live)
    }

    function ViewWith(tags: Seen): View
      reads this, catalog
    {
      View(cfg, index, catalog.entries, seen, tags)
    }

    constructor (c: Config, loaded: map<string, string>)
      requires ConfigOk(c)
      ensures Valid() && cfg == c && fresh(catalog)
    {
      cfg := c;
      catalog := new ModelCatalog(c, loaded);
      index, seen := map[], map[];
      new;
      index := BuildModelIndex(c.models);
      seen := catalog.SeenModels();
      SeenIsKept(seen);
    }

    /** What the catalog lists as seen is remembered. */
    lemma SeenIsKept(listed: Seen)
      requires catalog.Valid() && catalog.cfg == cfg && AllKept(cfg, catalog.persisted, catalog.live)
      requires listed.Keys == EngineKeys(cfg) && forall key :: key in listed ==> listed[key] == catalog.SeenOn(key)
      ensures AllKept(cfg, catalog.persisted, listed)
    {
      forall key, id | key in listed && id in listed[key]
        ensures Kept(cfg, catalog.persisted, id)
      {
        assert InTable(cfg.engines, key);
        if id !in catalog.persisted || catalog.persisted[id] != key {
          FoundIsKept(cfg, catalog.live, catalog.persisted, catalog.merged, id);
        }
      }
    }

    /** `refresh_catalog`: keeps every discovered id in the catalog. */
    method RefreshCatalog(replies: Seen)
      requires Valid() && forall i :: 0 <= i < |cfg.engines| ==> cfg.engines[i].key in replies
      modifies this, catalog
      ensures Valid()
      ensures forall key :: key in EngineKeys(cfg) ==> key in seen && seen[key] == catalog.SeenOn(key)
    {
      RememberAllKeeps(cfg, |cfg.engines|, replies, catalog.persisted);
      assert cfg.engines[..|cfg.engines|] == cfg.engines;
      catalog.Refresh(replies);
      var listed := catalog.SeenModels();
      SeenIsKept(listed);
      seen := seen + listed;
    }

    /** `_snapshot_seen_models`: a non-empty answer replaces what was seen on the engine. */
    method Snapshot(key: string, reply: set<string>)
      requires Valid() && InTable(cfg.engines, key)
      modifies this, catalog
      ensures Valid()
      ensures seen == if reply == {} then old(seen) else old(seen)[key := reply]
      ensures reply == {} ==> catalog.entries == old(catalog.entries)
    {
      if reply != {} {
        RememberKeeps(cfg, catalog.persisted, key, reply);
        seen := seen[key := reply];
        catalog.SetSeenModels(key, reply);
      }
    }

    /** Every state of the manager has the facts the agreement theorems need. */
    lemma StateIsConsistent(tags: Seen)
      requires Valid()
      ensures var v := ViewWith(tags);
        IndexOf(v.cfg.models, v.index) && EntriesOk(v) && DiscoveredIsCatalogued(v)
    {
      CatalogEntriesOk(ViewWith(tags), catalog.live, catalog.persisted, catalog.merged);
      AdvertisedIsCatalogued(ViewWith(tags), catalog.live, catalog.persisted, catalog.merged);
    }

    // -- resolution -----------------------------------------------------------

    method DiscoveredIndex(tags: Seen) returns (owner: map<string, string>)
      ensures forall id :: Lookup(owner, id) == Discovered(ViewWith(tags), id)
    {
      owner := map[];
      ghost var v := ViewWith(tags);
      if !cfg.discover { return; }
      for i := 0 to |cfg.engines|
        invariant forall id :: Lookup(owner, id) == FirstAdvertising(v, cfg.engines[..i], id)
      {
        var e := cfg.engines[i];
        var ids := if !e.discovers then {} else e.served + e.started + (if e.key in seen then seen[e.key] else {});
        ghost var before := owner;
        owner := (map id | id in ids :: e.key) + owner;
        assert cfg.engines[..i + 1] == cfg.engines[..i] + [e];
        forall id
          ensures Lookup(owner, id) == FirstAdvertising(v, cfg.engines[..i + 1], id)
        {
          assert Lookup(before, id) == FirstAdvertising(v, cfg.engines[..i], id);
          FirstAdvertisingExtends(v, cfg.engines[..i], e, id);
          assert Advertises(v, e, id) <==> id in ids;
        }
      }
      assert cfg.engines[..|cfg.engines|] == cfg.engines;
    }

    method FindTagged(tags: Seen, id: string) returns (key: Option<string>)
      ensures key == FirstTagged(ViewWith(tags), cfg.engines, id)
    {
      for i := 0 to |cfg.engines|
        invariant FirstTagged(ViewWith(tags), cfg.engines, id) == FirstTagged(ViewWith(tags), cfg.engines[i..], id)
      {
        var e := cfg.engines[i];
        if e.api && e.key in tags && id in tags[e.key] {
          return Some(e.key);
        }
      }
      return None;
    }

    method EngineFor(model: string, tags: Seen) returns (r: Result<string, RouteError>)
      ensures r == RouteOf(ViewWith(tags), model)
    {
      if model == "" { return Err(MissingModel); }
      var id := Resolve(cfg.aliases, model);
      if id in index {
        if InTable(cfg.engines, index[id].engine) { return Ok(index[id].engine); }
        return Err(EngineDisabled);
      }
      var discovered := DiscoveredIndex(tags);
      if cfg.discover && id in catalog.entries && InTable(cfg.engines, catalog.entries[id].engine) {
        return Ok(catalog.entries[id].engine);
      }
      var tagged := FindTagged(tags, id);
      if tagged.Some? { return Ok(tagged.value); }
      assert Lookup(discovered, id) == Discovered(ViewWith(tags), id);
      if id in discovered { return Ok(discovered[id]); }
      var fixed := ProcessOwner(cfg.models, cfg.engines, id);
      if fixed.Some? { return Ok(fixed.value); }
      var fallback := Fallback(cfg.engines);
      if fallback.Some? { return Ok(fallback.value); }
      return Err(NobodyServes);
    }

    method ExplainModel(model: string, tags: Seen) returns (r: Result<Option<string>, RouteError>)
      requires catalog.cfg == cfg
      ensures r == Explained(ViewWith(tags), model)
    {
      if model == "" { return Err(MissingModel); }
      var id := Resolve(cfg.aliases, model);
      if id in index { return Ok(Some(index[id].engine)); }
      var resolved := catalog.ResolvedEngine(model);
      if resolved.Some? { return Ok(resolved); }
      var tagged := FindTagged(tags, id);
      if tagged.Some? { return Ok(tagged); }
      return Ok(Fallback(cfg.engines));
    }

    /** `_enumerate_candidates`: each source overrides the weaker ones; alias names are taken out last. */
    method EnumerateCandidates(tags: Seen, smartAliases: seq<string>) returns (out: map<string, string>)
      ensures forall id :: Lookup(out, id) == Recorded(ViewWith(tags), smartAliases, id)
    {
      ghost var v := ViewWith(tags);
      var tagged := TagOwners(tags);
      var discovered := DiscoveredIndex(tags);
      var found := discovered + tagged
                   + map id | id in catalog.entries && catalog.entries[id].source != Alias :: catalog.entries[id].engine;
      var all := Configured(found);
      out := WithoutAliases(all, smartAliases);
      forall id
        ensures Lookup(out, id) == Recorded(v, smartAliases, id)
      {
        assert Lookup(discovered, id) == Discovered(v, id);
        assert Lookup(tagged, id) == FirstTagged(v, cfg.engines, id);
        hide FirstTagged, Discovered, LastEnabled;
        assert Lookup(found, id) == OrElse(Merged(v, id), OrElse(Lookup(tagged, id), Lookup(discovered, id)));
        assert Lookup(all, id) == OrElse(LastEnabled(cfg, cfg.models, id), Lookup(found, id));
        assert Lookup(out, id) == if Hidden(v, smartAliases, id) then None else Lookup(all, id);
      }
    }

    /** Takes out aliases, and smart aliases that no configured or catalogued model shadows. */
    method WithoutAliases(all: map<string, string>, smartAliases: seq<string>) returns (out: map<string, string>)
      ensures forall id :: Lookup(out, id) == if Hidden(ViewWith(map[]), smartAliases, id) then None else Lookup(all, id)
    {
      ghost var v := ViewWith(map[]);
      out := all - cfg.aliases.Keys;
      for i := 0 to |smartAliases|
        invariant forall id :: Lookup(out, id) == if Hidden(v, smartAliases[..i], id) then None else Lookup(all, id)
      {
        var alias := smartAliases[i];
        assert smartAliases[..i + 1] == smartAliases[..i] + [alias];
        ghost var before := out;
        if alias !in index && alias !in catalog.entries {
          out := out - {alias};
        }
        forall id
          ensures Lookup(out, id) == if Hidden(v, smartAliases[..i + 1], id) then None else Lookup(all, id)
        {
          assert Lookup(before, id) == if Hidden(v, smartAliases[..i], id) then None else Lookup(all, id);
          assert id in smartAliases[..i + 1] <==> id in smartAliases[..i] || id == alias;
        }
      }
      assert smartAliases[..|smartAliases|] == smartAliases;
    }

    method TagOwners(tags: Seen) returns (out: map<string, string>)
      ensures forall id :: Lookup(out, id) == FirstTagged(ViewWith(tags), cfg.engines, id)
    {
      out := map[];
      ghost var v := ViewWith(tags);
      for i := 0 to |cfg.engines|
        invariant forall id :: Lookup(out, id) == FirstTagged(v, cfg.engines[..i], id)
      {
        var e := cfg.engines[i];
        var ids := if e.api && e.key in tags then tags[e.key] else {};
        ghost var before := out;
        out := (map id | id in ids :: e.key) + out;
        assert cfg.engines[..i + 1] == cfg.engines[..i] + [e];
        forall id
          ensures Lookup(out, id) == FirstTagged(v, cfg.engines[..i + 1], id)
        {
          assert Lookup(before, id) == FirstTagged(v, cfg.engines[..i], id);
          FirstTaggedExtends(v, cfg.engines[..i], e, id);
          assert Tagged(v, e, id) <==> id in ids;
        }
      }
      assert cfg.engines[..|cfg.engines|] == cfg.engines;
    }

    /** The static registry overrides everything, a later model an earlier one. */
    method Configured(start: map<string, string>) returns (out: map<string, string>)
      ensures forall id :: Lookup(out, id) == OrElse(LastEnabled(cfg, cfg.models, id), Lookup(start, id))
    {
      out := start;
      for i := 0 to |cfg.models|
        invariant forall id :: Lookup(out, id) == OrElse(LastEnabled(cfg, cfg.models[..i], id), Lookup(start, id))
      {
        var spec := cfg.models[i];
        assert cfg.models[..i + 1][..i] == cfg.models[..i];
        if InTable(cfg.engines, spec.engine) { out := out[spec.id := spec.engine]; }
      }
      assert cfg.models[..|cfg.models|] == cfg.models;
    }
  }
}

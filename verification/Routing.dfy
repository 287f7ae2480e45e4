/**
 Three ways to name the engine of a model: `engine_for` and `explain_model` of router/engines.py, and the candidate
 enumeration of router/smart.py.  The live tags of the API-swap engines are an input, the same for all three.
*/
module Routing {
  import opened Wrappers
  import opened ConfigParsing
  import opened Catalog

  datatype RouteError = MissingModel | EngineDisabled | NobodyServes

  /** What resolution reads; `tags` is what each API-swap engine answers. */
  datatype View = View(cfg: Config, index: map<string, Spec>, entries: map<string, Entry>, seen: Seen, tags: Seen)

  // ---- the searches ---------------------------------------------------------

  predicate Tagged(v: View, e: Engine, id: string) {
    e.api && e.key in v.tags && id in v.tags[e.key]
  }

  predicate Advertises(v: View, e: Engine, id: string) {
    e.discovers && (id in e.served || id in e.started || (e.key in v.seen && id in v.seen[e.key]))
  }

  function FirstTagged(v: View, engines: seq<Engine>, id: string): Option<string> {
    if engines == [] then None
    else if Tagged(v, engines[0], id) then Some(engines[0].key)
    else FirstTagged(v, engines[1..], id)
  }

  function FirstAdvertising(v: View, engines: seq<Engine>, id: string): Option<string> {
    if engines == [] then None
    else if Advertises(v, engines[0], id) then Some(engines[0].key)
    else FirstAdvertising(v, engines[1..], id)
  }

  /** The owner of `id` in the discovery index. */
  function Discovered(v: View, id: string): Option<string> {
    if v.cfg.discover then FirstAdvertising(v, v.cfg.engines, id) else None
  }

  function FirstApi(engines: seq<Engine>): Option<string> {
    if engines == [] then None
    else if engines[0].api then Some(engines[0].key)
    else FirstApi(engines[1..])
  }

  /** The first process engine with `id` among its configured models. */
  function ProcessOwner(models: seq<Spec>, engines: seq<Engine>, id: string): Option<string> {
    if engines == [] then None
    else if !engines[0].api && Spec(id, engines[0].key) in models then Some(engines[0].key)
    else ProcessOwner(models, engines[1..], id)
  }

  /** Where an id that nobody is known to serve goes. */
  function Fallback(engines: seq<Engine>): Option<string> {
    if |engines| == 1 then Some(engines[0].key) else FirstApi(engines)
  }

  function OrElse(o: Option<string>, p: Option<string>): Option<string> {
    if o.Some? then o else p
  }

  // ---- the three resolutions ------------------------------------------------

  function CatalogOwner(v: View, id: string): Option<string> {
    if v.cfg.discover && id in v.entries && InTable(v.cfg.engines, v.entries[id].engine)
    then Some(v.entries[id].engine) else None
  }

  /** `engine_for`. */
  function RouteOf(v: View, model: string): Result<string, RouteError> {
    var id := Resolve(v.cfg.aliases, model);
    if model == "" then Err(MissingModel)
    else if id in v.index then
      if InTable(v.cfg.engines, v.index[id].engine) then Ok(v.index[id].engine) else Err(EngineDisabled)
    else
      var found := OrElse(CatalogOwner(v, id), OrElse(FirstTagged(v, v.cfg.engines, id), OrElse(Discovered(v, id),
                   OrElse(ProcessOwner(v.cfg.models, v.cfg.engines, id), Fallback(v.cfg.engines)))));
      if found.Some? then Ok(found.value) else Err(NobodyServes)
  }

  function Resolved(v: View, model: string): Option<string> {
    var id := Resolve(v.cfg.aliases, model);
    if model in v.entries then Some(v.entries[model].engine)
    else if id in v.entries then Some(v.entries[id].engine)
    else None
  }

  /** `explain_model`: the engine it names, if any. */
  function Explained(v: View, model: string): Result<Option<string>, RouteError> {
    var id := Resolve(v.cfg.aliases, model);
    if model == "" then Err(MissingModel)
    else if id in v.index then Ok(Some(v.index[id].engine))
    else Ok(OrElse(Resolved(v, model), OrElse(FirstTagged(v, v.cfg.engines, id), Fallback(v.cfg.engines))))
  }

  /** The engine of the last model configured as `id` on an engine of the table. */
  function LastEnabled(cfg: Config, models: seq<Spec>, id: string): Option<string> {
    if models == [] then None
    else
      var last := models[|models| - 1];
      if last.id == id && InTable(cfg.engines, last.engine) then Some(last.engine)
      else LastEnabled(cfg, models[..|models| - 1], id)
  }

  function Merged(v: View, id: string): Option<string> {
    if id in v.entries && v.entries[id].source != Alias then Some(v.entries[id].engine) else None
  }

  /** Names that are never offered: aliases, and smart aliases that no installed model shadows. */
  predicate Hidden(v: View, smartAliases: seq<string>, id: string) {
    id in v.cfg.aliases || (id in smartAliases && id !in v.index && id !in v.entries)
  }

  /** The engine `_enumerate_candidates` records for `id`, if it is a candidate. */
  function Recorded(v: View, smartAliases: seq<string>, id: string): Option<string> {
    if Hidden(v, smartAliases, id) then None
    else OrElse(LastEnabled(v.cfg, v.cfg.models, id), OrElse(Merged(v, id),
         OrElse(FirstTagged(v, v.cfg.engines, id), Discovered(v, id))))
  }

  // ---- facts about a built catalog ------------------------------------------

  /** What the merge guarantees of the entries. */
  ghost predicate EntriesOk(v: View) {
    && (forall id :: id in v.entries ==> id != "" && InTable(v.cfg.engines, v.entries[id].engine))
    && (forall id :: id in v.entries && v.entries[id].source == Alias ==> id in v.cfg.aliases)
    && (forall id :: id in v.entries && !v.cfg.discover && v.entries[id].source != Alias ==> id in v.index)
  }

  lemma ClaimOk(v: View, live: Seen, persisted: map<string, string>, c: Entry)
    requires IndexOf(v.cfg.models, v.index) && Claimed(v.cfg, live, persisted, c)
    ensures c.source != Alias && (!v.cfg.discover ==> c.id in v.index)
  {
    if !v.cfg.discover {
      assert Spec(c.id, c.engine) in v.cfg.models;
    }
  }

  lemma CatalogEntriesOk(v: View, live: Seen, persisted: map<string, string>, m: map<string, Entry>)
    requires ConfigOk(v.cfg) && IndexOf(v.cfg.models, v.index)
    requires IsMerge(v.cfg, live, persisted, m) && v.entries == WithAliases(v.cfg.aliases, m)
    ensures EntriesOk(v)
  {
    hide InTable, Claimed, IndexOf;
    forall id | id in m
      ensures id != "" && InTable(v.cfg.engines, m[id].engine) && m[id].source != Alias
      ensures !v.cfg.discover ==> id in v.index
    {
      ClaimOk(v, live, persisted, m[id]);
    }
  }

  lemma {:induction false} LastEnabledIsIndexed(cfg: Config, models: seq<Spec>, index: map<string, Spec>, id: string)
    requires IndexOf(models, index)
    ensures id !in index ==> LastEnabled(cfg, models, id) == None
    ensures id in index && InTable(cfg.engines, index[id].engine) ==> LastEnabled(cfg, models, id) == Some(index[id].engine)
  {
    if id in index && InTable(cfg.engines, index[id].engine) {
      var i :| IsLast(models, id, i) && models[i] == index[id];
      LastEnabledFrom(cfg, models, id, i);
    } else if id !in index {
      NoneEnabled(cfg, models, id);
    }
  }

  lemma {:induction false} LastEnabledFrom(cfg: Config, models: seq<Spec>, id: string, i: int)
    requires IsLast(models, id, i) && InTable(cfg.engines, models[i].engine)
    ensures LastEnabled(cfg, models, id) == Some(models[i].engine)
  {
    var init := models[..|models| - 1];
    if i < |models| - 1 {
      assert IsLast(init, id, i);
      LastEnabledFrom(cfg, init, id, i);
    }
  }

  lemma {:induction false} NoneEnabled(cfg: Config, models: seq<Spec>, id: string)
    requires forall i :: 0 <= i < |models| ==> models[i].id != id
    ensures LastEnabled(cfg, models, id) == None
  {
    if models != [] {
      NoneEnabled(cfg, models[..|models| - 1], id);
    }
  }

  lemma {:induction false} LastEnabledInTable(cfg: Config, models: seq<Spec>, id: string)
    ensures LastEnabled(cfg, models, id).Some? ==> InTable(cfg.engines, LastEnabled(cfg, models, id).value)
  {
    if models != [] {
      LastEnabledInTable(cfg, models[..|models| - 1], id);
    }
  }

  lemma {:induction false} FoundInTable(v: View, engines: seq<Engine>, id: string)
    ensures var f := FirstTagged(v, engines, id); f.Some? ==> InTable(engines, f.value)
    ensures var f := FirstAdvertising(v, engines, id); f.Some? ==> InTable(engines, f.value)
  {
    if engines != [] {
      FoundInTable(v, engines[1..], id);
      assert engines[0].key == engines[0].key;
      assert forall k :: InTable(engines[1..], k) ==> InTable(engines, k) by {
        forall k | InTable(engines[1..], k)
          ensures InTable(engines, k)
        {
          var i :| 0 <= i < |engines| - 1 && engines[1..][i].key == k;
          assert engines[i + 1].key == k;
        }
      }
    }
  }

  /** Every recorded engine is an engine of the table. */
  lemma RecordedInTable(v: View, smartAliases: seq<string>, id: string)
    requires EntriesOk(v) && Recorded(v, smartAliases, id).Some?
    ensures InTable(v.cfg.engines, Recorded(v, smartAliases, id).value)
  {
    LastEnabledInTable(v.cfg, v.cfg.models, id);
    FoundInTable(v, v.cfg.engines, id);
  }

  // ---- agreement ------------------------------------------------------------

  /** The id is a usable model name and, if configured, its engine is enabled. */
  predicate Routable(v: View, id: string) {
    id != "" && (id in v.index ==> InTable(v.cfg.engines, v.index[id].engine))
  }

  /**
   The engine charged for a candidate is the engine that will be acquired, exactly unless the id is configured for a
   disabled engine (or is the empty name).
  */
  lemma CandidatesAreRouted(v: View, smartAliases: seq<string>, id: string)
    requires IndexOf(v.cfg.models, v.index) && EntriesOk(v) && Recorded(v, smartAliases, id).Some?
    ensures RouteOf(v, id) == Ok(Recorded(v, smartAliases, id).value) <==> Routable(v, id)
  {
    assert Resolve(v.cfg.aliases, id) == id;
    LastEnabledIsIndexed(v.cfg, v.cfg.models, v.index, id);
    if id !in v.index && id in v.entries {
      assert v.entries[id].source != Alias;
    }
  }

  /** A candidate that is not: of two models configured under one id, the later is on a disabled engine. */
  lemma DuplicateIdIsNotRouted()
    ensures exists v: View, id: string ::
      && ConfigOk(v.cfg) && IndexOf(v.cfg.models, v.index) && EntriesOk(v) && id != ""
      && Recorded(v, [], id) == Some("a") && RouteOf(v, id) == Err(EngineDisabled)
  {
    var a := Engine("a", false, false, {}, {});
    var models := [Spec("m", "a"), Spec("m", "off")];
    var v := View(Config([a], models, map[], false), map["m" := models[1]], map[], map[], map[]);
    assert IsLast(models, "m", 1);
    assert models[..1] == [models[0]] && v.cfg.engines[0].key == "a";
    assert InTable(v.cfg.engines, "a") && !InTable(v.cfg.engines, "off");
    assert LastEnabled(v.cfg, models[..1], "m") == Some("a");
    assert LastEnabled(v.cfg, models, "m") == Some("a");
    assert Recorded(v, [], "m") == Some("a") && RouteOf(v, "m") == Err(EngineDisabled);
  }

  /** `explain_model` names that engine too, exactly if the id is catalogued or tagged or its default owner is the discovered one. */
  lemma CandidatesAreExplained(v: View, smartAliases: seq<string>, id: string)
    requires IndexOf(v.cfg.models, v.index) && EntriesOk(v) && Recorded(v, smartAliases, id).Some?
    ensures Explained(v, id) == Ok(Recorded(v, smartAliases, id)) <==>
      Routable(v, id)
      && (id in v.index || id in v.entries || FirstTagged(v, v.cfg.engines, id).Some?
          || Fallback(v.cfg.engines) == Discovered(v, id))
  {
    assert Resolve(v.cfg.aliases, id) == id;
    LastEnabledIsIndexed(v.cfg, v.cfg.models, v.index, id);
    RecordedInTable(v, smartAliases, id);
    if id !in v.index && id in v.entries {
      assert v.entries[id].source != Alias;
    }
  }

  /** Every id of the discovery index is in the catalog. */
  ghost predicate DiscoveredIsCatalogued(v: View) {
    forall id :: id != "" && Discovered(v, id).Some? ==> id in v.entries
  }

  /** While discovered ids are catalogued the three resolutions name one engine for every routable candidate. */
  lemma ThreeWaysAgree(v: View, smartAliases: seq<string>, id: string)
    requires IndexOf(v.cfg.models, v.index) && EntriesOk(v) && DiscoveredIsCatalogued(v)
    requires Recorded(v, smartAliases, id).Some? && Routable(v, id)
    ensures var owner := Recorded(v, smartAliases, id);
      RouteOf(v, id) == Ok(owner.value) && Explained(v, id) == Ok(owner)
  {
    CandidatesAreRouted(v, smartAliases, id);
    CandidatesAreExplained(v, smartAliases, id);
    LastEnabledIsIndexed(v.cfg, v.cfg.models, v.index, id);
  }

  /** Without that, explanations can be wrong: a discovered id outside the catalog is explained by the default engine. */
  lemma UncataloguedIsMisexplained()
    ensures exists v: View, id: string ::
      && ConfigOk(v.cfg) && IndexOf(v.cfg.models, v.index) && EntriesOk(v) && Routable(v, id)
      && Recorded(v, [], id) == Some("vllm") && RouteOf(v, id) == Ok("vllm") && Explained(v, id) == Ok(Some("ollama"))
  {
    var ollama := Engine("ollama", true, false, {}, {});
    var vllm := Engine("vllm", false, true, {}, {});
    var v := View(Config([ollama, vllm], [], map[], true), map[], map[], map["vllm" := {"m"}], map[]);
    assert [ollama, vllm][1..] == [vllm];
    assert v.cfg.engines[1..] == [vllm] && [vllm][1..] == [];
    assert Advertises(v, vllm, "m") && FirstAdvertising(v, [vllm], "m") == Some("vllm");
    assert FirstTagged(v, [vllm], "m") == None;
    assert Discovered(v, "m") == Some("vllm") && FirstTagged(v, v.cfg.engines, "m") == None;
    CandidatesAreRouted(v, [], "m");
    CandidatesAreExplained(v, [], "m");
  }

  /**
   An alias routes like its target.  It is explained like it exactly if the target is known, or nobody claims the alias
   as a name of its own, or the claim happens to be on the engine the unknown target goes to.
  */
  lemma AliasesRouteLikeTargets(v: View, m: map<string, Entry>, alias: string)
    requires ConfigOk(v.cfg) && v.entries == WithAliases(v.cfg.aliases, m) && alias in v.cfg.aliases
    ensures var target := v.cfg.aliases[alias];
      && RouteOf(v, alias) == RouteOf(v, target)
      && (Explained(v, alias) == Explained(v, target) <==>
            target in v.index || target in v.entries || alias !in v.entries
            || Some(v.entries[alias].engine) == OrElse(FirstTagged(v, v.cfg.engines, target), Fallback(v.cfg.engines)))
  {
    AliasesInherit(v.cfg, m);
  }
}

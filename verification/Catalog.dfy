/** The model catalog of router/catalog.py: a merge of claims on model ids, with the configured aliases on top. */
module Catalog {
  import opened Wrappers
  import opened ConfigParsing

  datatype Source = Static | Alias | Served | Live | StartCmd | Persisted

  function Priority(s: Source): nat {
    match s
    case Static => 100
    case Alias => 90
    case Served => 80
    case Live => 70
    case StartCmd => 60
    case Persisted => 10
  }

  /** A claim that `engine` serves `id`; `target` is the real id behind an alias. */
  datatype Entry = Entry(id: string, engine: string, source: Source, target: Option<string>)

  /** An enabled engine; `api` marks API-swap engines, `started` the ids read off its start command. */
  datatype Engine = Engine(key: string, api: bool, discovers: bool, served: set<string>, started: set<string>)

  /** `engines` is the engine table in declaration order. */
  datatype Config = Config(engines: seq<Engine>, models: seq<Spec>, aliases: map<string, string>, discover: bool)

  function Known(cfg: Config): set<string> {
    set i | 0 <= i < |cfg.models| :: cfg.models[i].id
  }

  ghost predicate ConfigOk(cfg: Config) {
    && (forall i, j :: 0 <= i < j < |cfg.engines| ==> cfg.engines[i].key != cfg.engines[j].key)
    && AliasesOk(Known(cfg), cfg.aliases)
  }

  predicate InTable(engines: seq<Engine>, key: string) {
    exists i :: 0 <= i < |engines| && engines[i].key == key
  }

  function Position(engines: seq<Engine>, key: string): nat {
    if engines == [] || engines[0].key == key then 0 else 1 + Position(engines[1..], key)
  }

  lemma {:induction false} PositionFinds(engines: seq<Engine>, key: string)
    requires InTable(engines, key)
    ensures Position(engines, key) < |engines| && engines[Position(engines, key)].key == key
  {
    if engines[0].key != key {
      var i :| 0 <= i < |engines| && engines[i].key == key;
      assert engines[1..][i - 1].key == key;
      PositionFinds(engines[1..], key);
    }
  }

  // ---- claims and their winner ----------------------------------------------

  type Seen = map<string, set<string>>

  /** What the configuration, the live engine lists and the remembered models claim. */
  ghost predicate Claimed(cfg: Config, live: Seen, persisted: map<string, string>, c: Entry) {
    && c.target == None
    && match c.source
       case Static => Spec(c.id, c.engine) in cfg.models
       case Alias => false
       case Served => cfg.discover && exists i :: 0 <= i < |cfg.engines| && Serves(cfg.engines[i], c.engine, c.id)
       case StartCmd => cfg.discover && exists i :: 0 <= i < |cfg.engines| && Starts(cfg.engines[i], c.engine, c.id)
       case Live => cfg.discover && c.engine in live && c.id in live[c.engine]
       case Persisted => cfg.discover && c.id in persisted && persisted[c.id] == c.engine && InTable(cfg.engines, c.engine)
  }

  predicate Serves(e: Engine, key: string, id: string) {
    e.key == key && e.discovers && id in e.served
  }

  predicate Starts(e: Engine, key: string, id: string) {
    e.key == key && e.discovers && id in e.started
  }

  /** A claim without an id, or for an engine that is not in the table, is skipped. */
  predicate Eligible(cfg: Config, c: Entry) {
    c.id != "" && InTable(cfg.engines, c.engine)
  }

  /** Higher source priority first, then the earlier engine. */
  predicate Beats(cfg: Config, c: Entry, d: Entry) {
    Priority(c.source) > Priority(d.source)
    || (c.source == d.source && Position(cfg.engines, c.engine) < Position(cfg.engines, d.engine))
  }

  function Winner(cfg: Config, a: Entry, b: Entry): Entry {
    if Priority(a.source) != Priority(b.source) then (if Priority(a.source) > Priority(b.source) then a else b)
    else if Position(cfg.engines, a.engine) <= Position(cfg.engines, b.engine) then a else b
  }

  /** Each claimed id has the entry that no eligible claim on it beats. */
  ghost predicate IsMerge(cfg: Config, live: Seen, persisted: map<string, string>, m: map<string, Entry>) {
    && (forall id :: id in m ==> m[id].id == id && Eligible(cfg, m[id]) && Claimed(cfg, live, persisted, m[id]))
    && forall c: Entry :: Claimed(cfg, live, persisted, c) && Eligible(cfg, c) ==> c.id in m && !Beats(cfg, c, m[c.id])
  }

  /** The same for a list of claims. */
  ghost predicate MergesList(cfg: Config, claims: seq<Entry>, m: map<string, Entry>) {
    && (forall id :: id in m ==> m[id].id == id && Eligible(cfg, m[id]) && m[id] in claims)
    && forall c :: c in claims && Eligible(cfg, c) ==> c.id in m && !Beats(cfg, c, m[c.id])
  }

  /** One more claim: it is skipped, or it becomes the entry of its id unless the current one wins. */
  lemma MergeStep(cfg: Config, claims: seq<Entry>, m: map<string, Entry>, c: Entry)
    requires MergesList(cfg, claims, m)
    ensures MergesList(cfg, claims + [c],
              if !Eligible(cfg, c) then m
              else if c.id !in m then m[c.id := c]
              else m[c.id := Winner(cfg, m[c.id], c)])
  {
    hide InTable, Position;
    var next :=
      if !Eligible(cfg, c) then m
      else if c.id !in m then m[c.id := c]
      else m[c.id := Winner(cfg, m[c.id], c)];
    forall d | d in claims + [c] && Eligible(cfg, d)
      ensures d.id in next && !Beats(cfg, d, next[d.id])
    {
      if d in claims { assert !Beats(cfg, d, m[d.id]); }
    }
    assert forall id :: id in m ==> m[id] in claims;
  }

  lemma SameRank(cfg: Config, a: Entry, b: Entry)
    requires Eligible(cfg, a) && Eligible(cfg, b) && a.id == b.id && a.target == b.target
    requires !Beats(cfg, a, b) && !Beats(cfg, b, a)
    ensures a == b
  {
    PositionFinds(cfg.engines, a.engine);
    PositionFinds(cfg.engines, b.engine);
    assert a.source == b.source by {
      hide Position;
    }
  }

  /**
   The merge does not depend on the order in which claims are met: any two lists with the same claims, in particular
   permutations of one, merge to the same entries.
  */
  lemma OrderDoesNotMatter(cfg: Config, claims: seq<Entry>, others: seq<Entry>, m: map<string, Entry>, n: map<string, Entry>)
    requires MergesList(cfg, claims, m) && MergesList(cfg, others, n)
    requires forall c :: c in claims <==> c in others
    requires forall c :: c in claims ==> c.target == None
    ensures m == n
  {
    assert m.Keys == n.Keys by {
      forall id
        ensures id in m <==> id in n
      {
        assert id in m ==> m[id] in others;
        assert id in n ==> n[id] in claims;
      }
    }
    forall id | id in m
      ensures m[id] == n[id]
    {
      assert m[id] in others && n[id] in claims;
      SameRank(cfg, m[id], n[id]);
    }
  }

  // ---- aliases --------------------------------------------------------------

  /** An alias whose target is claimed is an entry of its own, on the target's engine. */
  function WithAliases(aliases: map<string, string>, m: map<string, Entry>): map<string, Entry> {
    map id | id in m.Keys + aliases.Keys && (id in m || aliases[id] in m) ::
      if id in aliases && aliases[id] in m then Entry(id, m[aliases[id]].engine, Alias, Some(aliases[id])) else m[id]
  }

  ghost function Without(aliases: map<string, string>, left: set<string>): map<string, string> {
    map a | a in aliases && a !in left :: aliases[a]
  }

  lemma AliasStep(done: map<string, string>, m: map<string, Entry>, alias: string, target: string)
    requires alias !in done && target !in done && target != alias
    ensures var out := WithAliases(done, m);
      WithAliases(done[alias := target], m)
      == if target in out then out[alias := Entry(alias, out[target].engine, Alias, Some(target))] else out
  {
  }

  /** Each alias entry has exactly its target's engine; every other entry is the merged one. */
  lemma AliasesInherit(cfg: Config, m: map<string, Entry>)
    requires ConfigOk(cfg)
    ensures var out := WithAliases(cfg.aliases, m);
      && (forall id :: id !in cfg.aliases ==> (id in out <==> id in m) && (id in out ==> out[id] == m[id]))
      && forall a :: a in cfg.aliases && cfg.aliases[a] in out ==>
           a in out && out[a].engine == out[cfg.aliases[a]].engine && out[a].target == Some(cfg.aliases[a]) && out[a].source == Alias
    ensures var out := WithAliases(cfg.aliases, m);
      forall a :: a in cfg.aliases && cfg.aliases[a] !in m ==> (a in out <==> a in m) && (a in out ==> out[a] == m[a])
  {
  }

  /** There is one merge of the claims of a configuration, live lists and memory. */
  lemma MergeIsDetermined(cfg: Config, live: Seen, persisted: map<string, string>, m: map<string, Entry>, n: map<string, Entry>)
    requires IsMerge(cfg, live, persisted, m) && IsMerge(cfg, live, persisted, n)
    ensures m == n
  {
    assert m.Keys == n.Keys by {
      forall id
        ensures id in m <==> id in n
      {
        assert id in m ==> Claimed(cfg, live, persisted, m[id]) && Eligible(cfg, m[id]);
        assert id in n ==> Claimed(cfg, live, persisted, n[id]) && Eligible(cfg, n[id]);
      }
    }
    forall id | id in m
      ensures m[id] == n[id]
    {
      assert Claimed(cfg, live, persisted, m[id]) && Claimed(cfg, live, persisted, n[id]);
      SameRank(cfg, m[id], n[id]);
    }
  }

  // ---- the catalog object ---------------------------------------------------

  class ModelCatalog {
    const cfg: Config
    var persisted: map<string, string>
    var entries: map<string, Entry>
    ghost var live: Seen
    ghost var merged: map<string, Entry>

    ghost predicate Valid()
      reads this
    {
      && ConfigOk(cfg)
      && IsMerge(cfg, live, persisted, merged)
      && entries == WithAliases(cfg.aliases, merged)
    }

    /** `loaded` is what the state file remembers. */
    constructor (c: Config, loaded: map<string, string>)
      requires ConfigOk(c)
      ensures Valid() && cfg == c && persisted == loaded && live == map[]
    {
      cfg, persisted, entries := c, loaded, map[];
      live, merged := map[], map[];
      new;
      Rebuild(map[]);
    }

    method Rebuild(probed: Seen)
      requires ConfigOk(cfg)
      modifies this`entries, this`live, this`merged
      ensures Valid() && live == probed
    {
      var claims := Collect(probed);
      var m := Merge(claims);
      assert IsMerge(cfg, probed, persisted, m);
      entries := AddAliases(m);
      live, merged := probed, m;
    }

    /** The claims in the order in which they are met. */
    method Collect(probed: Seen) returns (claims: seq<Entry>)
      ensures forall c :: c in claims <==> Claimed(cfg, probed, persisted, c)
    {
      claims := [];
      for i := 0 to |cfg.models|
        invariant forall c: Entry :: c in claims <==>
          c.source == Static && c.target == None && Spec(c.id, c.engine) in cfg.models[..i]
      {
        claims := claims + [Entry(cfg.models[i].id, cfg.models[i].engine, Static, None)];
      }
      assert cfg.models[..|cfg.models|] == cfg.models;
      if !cfg.discover { return; }
      var more := CollectDeclared();
      claims := claims + more;
      more := CollectLive(probed);
      claims := claims + more;
      more := CollectPersisted();
      claims := claims + more;
    }

    method CollectDeclared() returns (claims: seq<Entry>)
      ensures forall c: Entry :: c in claims <==>
        c.target == None
        && exists i :: 0 <= i < |cfg.engines| && Declares(cfg.engines[i], c)
    {
      claims := [];
      for i := 0 to |cfg.engines|
        invariant forall c: Entry :: c in claims <==>
          c.target == None && exists j :: 0 <= j < i && Declares(cfg.engines[j], c)
      {
        var e := cfg.engines[i];
        if e.discovers {
          var served := FromSet(e.key, Served, e.served);
          var started := FromSet(e.key, StartCmd, e.started);
          claims := claims + served + started;
        }
      }
    }

    method CollectLive(probed: Seen) returns (claims: seq<Entry>)
      ensures forall c: Entry :: c in claims <==>
        c.source == Live && c.target == None && c.engine in probed && c.id in probed[c.engine]
    {
      claims := [];
      var keys := probed.Keys;
      while keys != {}
        invariant keys <= probed.Keys
        invariant forall c: Entry :: c in claims <==>
          c.source == Live && c.target == None && c.engine in probed.Keys - keys && c.id in probed[c.engine]
      {
        var key :| key in keys;
        var more := FromSet(key, Live, probed[key]);
        claims, keys := claims + more, keys - {key};
      }
    }

    method CollectPersisted() returns (claims: seq<Entry>)
      ensures forall c: Entry :: c in claims <==>
        c.source == Persisted && c.target == None && c.id in persisted && persisted[c.id] == c.engine
        && InTable(cfg.engines, c.engine)
    {
      claims := [];
      var ids := persisted.Keys;
      while ids != {}
        invariant ids <= persisted.Keys
        invariant forall c: Entry :: c in claims <==>
          c.source == Persisted && c.target == None && c.id in persisted.Keys - ids && persisted[c.id] == c.engine
          && InTable(cfg.engines, c.engine)
      {
        var id :| id in ids;
        if InTable(cfg.engines, persisted[id]) {
          claims := claims + [Entry(id, persisted[id], Persisted, None)];
        }
        ids := ids - {id};
      }
    }

    method Merge(claims: seq<Entry>) returns (m: map<string, Entry>)
      ensures MergesList(cfg, claims, m)
    {
      m := map[];
      for i := 0 to |claims|
        invariant MergesList(cfg, claims[..i], m)
      {
        var c := claims[i];
        assert claims[..i + 1] == claims[..i] + [c];
        MergeStep(cfg, claims[..i], m, c);
        if c.id == "" || !InTable(cfg.engines, c.engine) {
        } else if c.id !in m {
          m := m[c.id := c];
        } else {
          m := m[c.id := Winner(cfg, m[c.id], c)];
        }
      }
      assert claims[..|claims|] == claims;
    }

    method AddAliases(m: map<string, Entry>) returns (out: map<string, Entry>)
      requires ConfigOk(cfg)
      ensures out == WithAliases(cfg.aliases, m)
    {
      out := m;
      var left := cfg.aliases.Keys;
      ghost var done: map<string, string> := map[];
      while left != {}
        invariant left <= cfg.aliases.Keys && done == Without(cfg.aliases, left)
        invariant out == WithAliases(done, m)
      {
        var alias :| alias in left;
        var target := cfg.aliases[alias];
        AliasStep(done, m, alias, target);
        if target in out {
          out := out[alias := Entry(alias, out[target].engine, Alias, Some(target))];
        }
        left, done := left - {alias}, done[alias := target];
      }
    }

    // -- memory ---------------------------------------------------------------

    /** A list of models seen on an engine is remembered as that engine's. */
    method SetSeenModels(key: string, ids: set<string>)
      requires Valid()
      modifies this
      ensures Valid() && live == map[]
      ensures persisted == Remember(old(persisted), key, ids)
      ensures forall id ::
        (id in ids ==> id in persisted && persisted[id] == key)
        && (id !in ids ==> (id in persisted <==> id in old(persisted))
                           && (id in persisted ==> persisted[id] == old(persisted)[id]))
    {
      persisted := Remember(persisted, key, ids);
      Rebuild(map[]);
    }

    /** `replies` is what each engine of the table answered; a failed probe answers nothing. */
    method Refresh(replies: Seen)
      requires Valid() && forall i :: 0 <= i < |cfg.engines| ==> cfg.engines[i].key in replies
      modifies this
      ensures Valid()
      ensures cfg.discover ==> live == Polled(cfg.engines, replies) && persisted == RememberAll(cfg.engines, replies, old(persisted))
      ensures !cfg.discover ==> live == map[] && persisted == old(persisted)
    {
      var found: Seen := map[];
      if cfg.discover {
        for i := 0 to |cfg.engines|
          invariant persisted == RememberAll(cfg.engines[..i], replies, old(persisted))
          invariant found == Polled(cfg.engines[..i], replies)
        {
          var key := cfg.engines[i].key;
          assert cfg.engines[..i + 1][..i] == cfg.engines[..i];
          found := found[key := replies[key]];
          persisted := Remember(persisted, key, replies[key]);
        }
        assert cfg.engines[..|cfg.engines|] == cfg.engines;
      }
      Rebuild(found);
    }

    /** The remembered models of each engine, with those its current entries were found live or remembered. */
    method SeenModels() returns (seen: Seen)
      ensures seen.Keys == EngineKeys(cfg) && forall key :: key in seen ==> seen[key] == SeenOn(key)
      ensures forall key, id :: key in seen ==>
        (id in seen[key] <==>
          (id in persisted && persisted[id] == key)
          || (id in entries && entries[id].engine == key && (entries[id].source == Live || entries[id].source == Persisted)))
    {
      var remembered := ByEngine(EngineKeys(cfg), persisted);
      var found := ByEngine(EngineKeys(cfg), FoundOwners());
      seen := map key | key in EngineKeys(cfg) :: remembered[key] + found[key];
    }

    /** The owners of the entries that were found live or remembered. */
    function FoundOwners(): map<string, string>
      reads this
    {
      map id | id in entries && (entries[id].source == Live || entries[id].source == Persisted) :: entries[id].engine
    }

    function SeenOn(key: string): set<string>
      reads this
    {
      OwnedBy(persisted, persisted.Keys, key) + OwnedBy(FoundOwners(), FoundOwners().Keys, key)
    }

    /** The engine that `resolve` reports. */
    function ResolvedEngine(id: string): Option<string>
      reads this
    {
      var target := if id in cfg.aliases then cfg.aliases[id] else id;
      if id in entries then Some(entries[id].engine)
      else if target in entries then Some(entries[target].engine)
      else None
    }
  }

  /** The ids each of the engines owns; ids of engines that are not among them are skipped. */
  method ByEngine(keys: set<string>, owner: map<string, string>) returns (owned: Seen)
    ensures Grouped(owned, keys, owner, owner.Keys)
  {
    owned := map key | key in keys :: {};
    var left := owner.Keys;
    while left != {}
      invariant left <= owner.Keys && Grouped(owned, keys, owner, owner.Keys - left)
    {
      var id :| id in left;
      GroupStep(owned, keys, owner, owner.Keys - left, id);
      assert owner.Keys - (left - {id}) == owner.Keys - left + {id};
      owned, left := WithOwned(owned, owner[id], id), left - {id};
    }
    assert owner.Keys - left == owner.Keys;
  }

  function WithOwned(owned: Seen, key: string, id: string): Seen {
    if key in owned then owned[key := owned[key] + {id}] else owned
  }

  ghost predicate Grouped(owned: Seen, keys: set<string>, owner: map<string, string>, ids: set<string>) {
    owned.Keys == keys && forall key :: key in keys ==> owned[key] == OwnedBy(owner, ids, key)
  }

  function OwnedBy(owner: map<string, string>, ids: set<string>, key: string): set<string> {
    set id | id in ids && id in owner && owner[id] == key
  }

  lemma GroupStep(owned: Seen, keys: set<string>, owner: map<string, string>, ids: set<string>, id: string)
    requires Grouped(owned, keys, owner, ids) && id in owner
    ensures Grouped(WithOwned(owned, owner[id], id), keys, owner, ids + {id})
  {
  }

  function EngineKeys(cfg: Config): set<string> {
    set i | 0 <= i < |cfg.engines| :: cfg.engines[i].key
  }

  predicate Declares(e: Engine, c: Entry) {
    (c.source == Served && Serves(e, c.engine, c.id)) || (c.source == StartCmd && Starts(e, c.engine, c.id))
  }

  /** One claim per id of a set, in some order. */
  method FromSet(key: string, source: Source, ids: set<string>) returns (claims: seq<Entry>)
    ensures forall c: Entry :: c in claims <==> c.engine == key && c.source == source && c.target == None && c.id in ids
  {
    claims := [];
    var left := ids;
    while left != {}
      invariant left <= ids
      invariant forall c: Entry :: c in claims <==>
        c.engine == key && c.source == source && c.target == None && c.id in ids - left
    {
      var id :| id in left;
      claims, left := claims + [Entry(id, key, source, None)], left - {id};
    }
  }

  function Remember(persisted: map<string, string>, key: string, ids: set<string>): map<string, string> {
    persisted + map id | id in ids :: key
  }

  function RememberAll(engines: seq<Engine>, replies: Seen, persisted: map<string, string>): map<string, string>
    requires forall i :: 0 <= i < |engines| ==> engines[i].key in replies
  {
    if engines == [] then persisted
    else
      var key := engines[|engines| - 1].key;
      Remember(RememberAll(engines[..|engines| - 1], replies, persisted), key, replies[key])
  }

  function Polled(engines: seq<Engine>, replies: Seen): Seen
    requires forall i :: 0 <= i < |engines| ==> engines[i].key in replies
  {
    if engines == [] then map[]
    else
      var key := engines[|engines| - 1].key;
      Polled(engines[..|engines| - 1], replies)[key := replies[key]]
  }
}

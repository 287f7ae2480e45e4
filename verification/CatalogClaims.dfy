/** Which claim on a model id wins, source by source, and what the catalog remembers. */
module CatalogClaims {
  import opened Wrappers
  import opened ConfigParsing
  import opened Catalog

  /** The entry of `id` is on an engine no later in the table than `i`. */
  ghost predicate NotAfter(cfg: Config, m: map<string, Entry>, id: string, i: nat) {
    id in m && exists j :: 0 <= j <= i && j < |cfg.engines| && cfg.engines[j].key == m[id].engine
  }

  lemma {:induction false} PositionIsFirst(engines: seq<Engine>, i: nat)
    requires i < |engines|
    ensures Position(engines, engines[i].key) <= i
  {
    if engines[0].key != engines[i].key { PositionIsFirst(engines[1..], i - 1); }
  }

  lemma ClaimCounts(cfg: Config, live: Seen, persisted: map<string, string>, m: map<string, Entry>, c: Entry, i: nat)
    requires IsMerge(cfg, live, persisted, m) && Claimed(cfg, live, persisted, c) && c.id != ""
    requires i < |cfg.engines| && cfg.engines[i].key == c.engine
    ensures c.id in m && Priority(m[c.id].source) >= Priority(c.source)
    ensures m[c.id].source == c.source ==> NotAfter(cfg, m, c.id, i)
  {
    hide Claimed;
    assert InTable(cfg.engines, c.engine) && Eligible(cfg, c);
    assert !Beats(cfg, c, m[c.id]) && Eligible(cfg, m[c.id]);
    PositionIsFirst(cfg.engines, i);
    PositionFinds(cfg.engines, m[c.id].engine);
  }

  /** A configured model of engine `i` is catalogued as static, on that engine or an earlier one that also configures it. */
  lemma StaticWins(cfg: Config, live: Seen, persisted: map<string, string>, m: map<string, Entry>, id: string, i: nat)
    requires IsMerge(cfg, live, persisted, m) && id != "" && i < |cfg.engines| && Spec(id, cfg.engines[i].key) in cfg.models
    ensures id in m && m[id].source == Static && NotAfter(cfg, m, id, i)
  {
    ClaimCounts(cfg, live, persisted, m, Entry(id, cfg.engines[i].key, Static, None), i);
    assert Claimed(cfg, live, persisted, m[id]);
  }

  /** With discovery on, a hinted model of engine `i` yields only to a configured one. */
  lemma ServedIsNext(cfg: Config, live: Seen, persisted: map<string, string>, m: map<string, Entry>, id: string, i: nat)
    requires IsMerge(cfg, live, persisted, m) && id != "" && cfg.discover
    requires i < |cfg.engines| && cfg.engines[i].discovers && id in cfg.engines[i].served
    ensures id in m && (m[id].source == Static || (m[id].source == Served && NotAfter(cfg, m, id, i)))
  {
    assert Serves(cfg.engines[i], cfg.engines[i].key, id);
    ClaimCounts(cfg, live, persisted, m, Entry(id, cfg.engines[i].key, Served, None), i);
    assert Claimed(cfg, live, persisted, m[id]);
  }

  /** What engine `i` lists live yields only to those two. */
  lemma LiveIsThird(cfg: Config, live: Seen, persisted: map<string, string>, m: map<string, Entry>, id: string, i: nat)
    requires IsMerge(cfg, live, persisted, m) && id != "" && cfg.discover
    requires i < |cfg.engines| && cfg.engines[i].key in live && id in live[cfg.engines[i].key]
    ensures id in m && (m[id].source == Static || m[id].source == Served
                        || (m[id].source == Live && NotAfter(cfg, m, id, i)))
  {
    ClaimCounts(cfg, live, persisted, m, Entry(id, cfg.engines[i].key, Live, None), i);
    assert Claimed(cfg, live, persisted, m[id]);
  }

  /** What engine `i` would start with yields only to those three. */
  lemma StartedIsFourth(cfg: Config, live: Seen, persisted: map<string, string>, m: map<string, Entry>, id: string, i: nat)
    requires IsMerge(cfg, live, persisted, m) && id != "" && cfg.discover
    requires i < |cfg.engines| && cfg.engines[i].discovers && id in cfg.engines[i].started
    ensures id in m && (m[id].source == Static || m[id].source == Served || m[id].source == Live
                        || (m[id].source == StartCmd && NotAfter(cfg, m, id, i)))
  {
    assert Starts(cfg.engines[i], cfg.engines[i].key, id);
    ClaimCounts(cfg, live, persisted, m, Entry(id, cfg.engines[i].key, StartCmd, None), i);
    assert Claimed(cfg, live, persisted, m[id]);
  }

  /** Memory is the last resort: a remembered model of an engine of the table is catalogued, on that engine if nobody else claims it. */
  lemma MemoryIsLast(cfg: Config, live: Seen, persisted: map<string, string>, m: map<string, Entry>, id: string)
    requires IsMerge(cfg, live, persisted, m) && id != "" && cfg.discover
    requires id in persisted && InTable(cfg.engines, persisted[id])
    ensures id in m && (m[id].source == Persisted ==> m[id].engine == persisted[id])
  {
    var i :| 0 <= i < |cfg.engines| && cfg.engines[i].key == persisted[id];
    ClaimCounts(cfg, live, persisted, m, Entry(id, persisted[id], Persisted, None), i);
    assert Claimed(cfg, live, persisted, m[id]);
  }

  /** And nothing is catalogued that nobody claims: each entry's source really claims it for its engine. */
  lemma EntriesAreClaimed(cfg: Config, live: Seen, persisted: map<string, string>, m: map<string, Entry>, id: string)
    requires IsMerge(cfg, live, persisted, m) && id in m
    ensures id != "" && InTable(cfg.engines, m[id].engine) && m[id].source != Alias
    ensures !cfg.discover ==> m[id].source == Static
    ensures m[id].source == Static ==> Spec(id, m[id].engine) in cfg.models
    ensures m[id].source == Served ==>
      exists i :: 0 <= i < |cfg.engines| && cfg.engines[i].key == m[id].engine && cfg.engines[i].discovers && id in cfg.engines[i].served
    ensures m[id].source == Live ==> m[id].engine in live && id in live[m[id].engine]
    ensures m[id].source == StartCmd ==>
      exists i :: 0 <= i < |cfg.engines| && cfg.engines[i].key == m[id].engine && cfg.engines[i].discovers && id in cfg.engines[i].started
    ensures m[id].source == Persisted ==> id in persisted && persisted[id] == m[id].engine
  {
    assert Claimed(cfg, live, persisted, m[id]) && Eligible(cfg, m[id]);
  }

  // ---- memory ---------------------------------------------------------------

  /** After a refresh a model is remembered for the last engine that answered with it. */
  lemma {:induction false} LastAnswerWins(engines: seq<Engine>, replies: Seen, persisted: map<string, string>, id: string, i: nat)
    requires forall j :: 0 <= j < |engines| ==> engines[j].key in replies
    requires i < |engines| && id in replies[engines[i].key]
    requires forall j :: i < j < |engines| ==> id !in replies[engines[j].key]
    ensures var p := RememberAll(engines, replies, persisted); id in p && p[id] == engines[i].key
  {
    var n := |engines| - 1;
    if i < n {
      var init := engines[..n];
      assert init[i] == engines[i] && forall j :: i < j < n ==> init[j] == engines[j];
      LastAnswerWins(init, replies, persisted, id, i);
      assert id !in replies[engines[n].key];
    }
  }

  /** A model no engine answered with is remembered as before. */
  lemma {:induction false} NoAnswerChangesNothing(engines: seq<Engine>, replies: Seen, persisted: map<string, string>, id: string)
    requires forall j :: 0 <= j < |engines| ==> engines[j].key in replies && id !in replies[engines[j].key]
    ensures var p := RememberAll(engines, replies, persisted);
      (id in p <==> id in persisted) && (id in p ==> p[id] == persisted[id])
  {
    if engines != [] {
      var n := |engines| - 1;
      var init := engines[..n];
      assert forall j :: 0 <= j < n ==> init[j] == engines[j];
      NoAnswerChangesNothing(init, replies, persisted, id);
      assert id !in replies[engines[n].key];
    }
  }

  /** What a refresh takes as live is each engine's own answer. */
  lemma {:induction false} RefreshPolls(engines: seq<Engine>, replies: Seen, key: string)
    requires forall i :: 0 <= i < |engines| ==> engines[i].key in replies
    ensures var live := Polled(engines, replies);
      (key in live <==> InTable(engines, key)) && (key in live ==> live[key] == replies[key])
  {
    if engines != [] {
      var n := |engines| - 1;
      RefreshPolls(engines[..n], replies, key);
      InTableGrows(engines, key);
    }
  }

  lemma InTableGrows(engines: seq<Engine>, key: string)
    requires engines != []
    ensures InTable(engines, key) <==> InTable(engines[..|engines| - 1], key) || engines[|engines| - 1].key == key
  {
    var n := |engines| - 1;
    if i :| 0 <= i < |engines| && engines[i].key == key {
      assert i < n ==> engines[..n][i].key == key;
    }
    if i :| 0 <= i < n && engines[..n][i].key == key {
      assert engines[i].key == key;
    }
  }
}

/** The parts of router/config.py that the picker and the catalog rely on, and the weight merge of router/smart.py. */
module ConfigParsing {
  import opened Wrappers
  import opened Scoring
  import opened Picker

  /** What a configuration value is to `float()`: a boolean, a finite number, an infinity or NaN, or not readable. */
  datatype Scalar = Flag | Finite(x: real) | NotFinite | Unreadable

  /** A table as the YAML reader leaves it; keys are distinct. */
  datatype Table = NotAMapping | Mapping(entries: seq<(string, Scalar)>)

  datatype Fault = IsFlag | IsUnreadable | IsNotFinite | IsNegative | IsAboveOne | NoMapping | UnknownKey | AllZero

  // ---- numbers --------------------------------------------------------------

  function ParseNonNegative(v: Scalar): (r: Result<real, Fault>)
    ensures r.Ok? <==> v.Finite? && v.x >= 0.0
    ensures r.Ok? ==> r.value == v.x
    ensures (r == Err(IsFlag) <==> v.Flag?) && (r == Err(IsUnreadable) <==> v.Unreadable?)
    ensures (r == Err(IsNotFinite) <==> v.NotFinite?) && (r == Err(IsNegative) <==> v.Finite? && v.x < 0.0)
  {
    match v
    case Flag => Err(IsFlag)
    case Unreadable => Err(IsUnreadable)
    case NotFinite => Err(IsNotFinite)
    case Finite(x) => if x < 0.0 then Err(IsNegative) else Ok(x)
  }

  function ParseFraction(v: Scalar): (r: Result<real, Fault>)
    ensures r.Ok? <==> v.Finite? && InUnit(v.x)
    ensures r.Ok? ==> r.value == v.x
    ensures r == Err(IsAboveOne) <==> v.Finite? && v.x > 1.0
  {
    var r := ParseNonNegative(v);
    if r.Ok? && r.value > 1.0 then Err(IsAboveOne) else r
  }

  // ---- weight tables --------------------------------------------------------

  const WEIGHT_KEYS: set<string> := {"quality", "speed", "residency", "swap_cost", "reliability", "context"}

  ghost predicate KeysKnown(entries: seq<(string, Scalar)>) {
    forall i :: 0 <= i < |entries| ==> entries[i].0 in WEIGHT_KEYS
  }

  ghost predicate ValuesFine(entries: seq<(string, Scalar)>, n: nat)
    requires n <= |entries|
  {
    forall i :: 0 <= i < n ==> ParseNonNegative(entries[i].1).Ok?
  }

  ghost predicate SomePositive(entries: seq<(string, Scalar)>) {
    exists i :: 0 <= i < |entries| && entries[i].1.Finite? && entries[i].1.x > 0.0
  }

  /** The weights among the first `n` entries. */
  ghost predicate Holds(table: map<string, real>, entries: seq<(string, Scalar)>, n: nat)
    requires n <= |entries|
  {
    && (forall i :: 0 <= i < n ==> entries[i].0 in table && Ok(table[entries[i].0]) == ParseNonNegative(entries[i].1))
    && forall k :: k in table ==> exists i :: 0 <= i < n && entries[i].0 == k
  }

  ghost predicate KeysDistinct(entries: seq<(string, Scalar)>) {
    forall i, j :: 0 <= i < j < |entries| ==> entries[i].0 != entries[j].0
  }

  /** Reads the values in order, up to the first that is no weight. */
  method ReadWeights(es: seq<(string, Scalar)>) returns (r: Result<map<string, real>, Fault>, positive: bool)
    requires KeysDistinct(es)
    ensures ValuesFine(es, |es|) ==> r.Ok? && Holds(r.value, es, |es|) && (positive <==> SomePositive(es))
    ensures !ValuesFine(es, |es|) ==> FirstFault(es, r)
  {
    var out: map<string, real> := map[];
    positive := false;
    for i := 0 to |es|
      invariant ValuesFine(es, i) && Holds(out, es, i)
      invariant positive <==> exists j :: 0 <= j < i && es[j].1.Finite? && es[j].1.x > 0.0
    {
      var value := ParseNonNegative(es[i].1);
      if value.Err? {
        r := Err(value.error);
        return;
      }
      out := out[es[i].0 := value.value];
      positive := positive || value.value > 0.0;
    }
    r := Ok(out);
  }

  /** `r` is the error of the first value that is no weight. */
  ghost predicate FirstFault(es: seq<(string, Scalar)>, r: Result<map<string, real>, Fault>) {
    exists i :: 0 <= i < |es| && ValuesFine(es, i) && !ParseNonNegative(es[i].1).Ok?
                && r == Err(ParseNonNegative(es[i].1).error)
  }

  /**
   A table is accepted exactly when every key is a weight, every value a finite number of at least 0, and one of them
   is positive unless there are none; it is then read off unchanged.  The faults are reported in the code's order.
  */
  method ParseWeightTable(raw: Table) returns (r: Result<map<string, real>, Fault>)
    requires raw.Mapping? ==> KeysDistinct(raw.entries)
    ensures raw.NotAMapping? ==> r == Err(NoMapping)
    ensures raw.Mapping? ==>
      var es := raw.entries;
      && (!KeysKnown(es) ==> r == Err(UnknownKey))
      && (KeysKnown(es) && !ValuesFine(es, |es|) ==> FirstFault(es, r))
      && (KeysKnown(es) && ValuesFine(es, |es|) && es != [] && !SomePositive(es) ==> r == Err(AllZero))
      && (KeysKnown(es) && ValuesFine(es, |es|) && (es == [] || SomePositive(es)) ==> r.Ok? && Holds(r.value, es, |es|))
  {
    if raw.NotAMapping? { return Err(NoMapping); }
    var es := raw.entries;
    for i := 0 to |es|
      invariant forall j :: 0 <= j < i ==> es[j].0 in WEIGHT_KEYS
    {
      if es[i].0 !in WEIGHT_KEYS { return Err(UnknownKey); }
    }
    var positive;
    r, positive := ReadWeights(es);
    if r.Ok? && es != [] && !positive { return Err(AllZero); }
  }

  // ---- the effective weights ------------------------------------------------

  const BALANCED := map["quality" := 0.40, "speed" := 0.10, "residency" := 0.10,
                        "swap_cost" := 0.20, "reliability" := 0.10, "context" := 0.10]

  const BUILTIN := map[
    "balanced" := BALANCED,
    "fast" := map["quality" := 0.25, "speed" := 0.30, "residency" := 0.15,
                  "swap_cost" := 0.20, "reliability" := 0.05, "context" := 0.05],
    "quality" := map["quality" := 0.60, "speed" := 0.02, "residency" := 0.03,
                     "swap_cost" := 0.15, "reliability" := 0.10, "context" := 0.10],
    "economy" := map["quality" := 0.20, "speed" := 0.25, "residency" := 0.20,
                     "swap_cost" := 0.25, "reliability" := 0.05, "context" := 0.05]]

  function Base(policies: map<string, map<string, real>>, policy: string): map<string, real> {
    if policy in policies && policies[policy] != map[] then policies[policy]
    else if policy in BUILTIN then BUILTIN[policy]
    else BALANCED
  }

  /** The policy's table, completed by half the defaults, overridden by the user's weights. */
  function Effective(policies: map<string, map<string, real>>, policy: string, weights: map<string, real>): map<string, real> {
    (map k | k in BALANCED :: 0.5 * BALANCED[k]) + Base(policies, policy) + weights
  }

  /** The tables that parsing can produce. */
  ghost predicate Accepted(table: map<string, real>) {
    && table.Keys <= WEIGHT_KEYS
    && (forall k :: k in table ==> table[k] >= 0.0)
    && (table != map[] ==> exists k :: k in table && table[k] > 0.0)
  }

  lemma ParsedIsAccepted(es: seq<(string, Scalar)>, table: map<string, real>)
    requires KeysKnown(es) && ValuesFine(es, |es|) && (es == [] || SomePositive(es)) && Holds(table, es, |es|)
    ensures Accepted(table)
  {
  }

  function AsSix(t: map<string, real>): Six
    requires t.Keys == WEIGHT_KEYS
  {
    Six(t["quality"], t["speed"], t["residency"], t["swap_cost"], t["reliability"], t["context"])
  }

  lemma BuiltinsAccepted(policy: string)
    ensures Accepted(BALANCED) && BALANCED.Keys == WEIGHT_KEYS
    ensures policy in BUILTIN ==> Accepted(BUILTIN[policy]) && BUILTIN[policy] != map[]
  {
    assert BALANCED["quality"] > 0.0;
    if policy in BUILTIN {
      assert BUILTIN[policy]["quality"] > 0.0;
    }
  }

  /** Merging accepted tables over a full one leaves a full one with a positive weight. */
  lemma MergedIsPositive(full: map<string, real>, base: map<string, real>, weights: map<string, real>)
    requires full.Keys == WEIGHT_KEYS && (forall k :: k in full ==> full[k] >= 0.0)
    requires Accepted(base) && base != map[] && Accepted(weights)
    ensures var t := full + base + weights; t.Keys == WEIGHT_KEYS && WeightsOk(AsSix(t))
  {
  }

  /**
   For every configuration the parser accepts the effective weights are the six of them, none negative, with a
   positive sum, so the guard against dividing by zero is never what decides a score.
  */
  lemma EffectiveWeightsOk(policies: map<string, map<string, real>>, policy: string, weights: map<string, real>)
    requires Accepted(weights) && forall p :: p in policies ==> Accepted(policies[p])
    ensures var t := Effective(policies, policy, weights); t.Keys == WEIGHT_KEYS && WeightsOk(AsSix(t))
  {
    var t, base := Effective(policies, policy, weights), Base(policies, policy);
    BuiltinsAccepted(policy);
    assert Accepted(base) && base != map[];
    MergedIsPositive(map k | k in BALANCED :: 0.5 * BALANCED[k], base, weights);
  }

  /** The table the policy names: the configuration's own unless it is missing or empty, then a built-in one, then the default. */
  lemma PolicyTables(policies: map<string, map<string, real>>, policy: string, k: string)
    requires k in WEIGHT_KEYS
    ensures var t := Effective(policies, policy, map[]);
      && k in t
      && (policy in policies && policies[policy] != map[] ==>
            t[k] == if k in policies[policy] then policies[policy][k] else BALANCED[k] / 2.0)
      && (!(policy in policies && policies[policy] != map[]) ==>
            (policy in BUILTIN ==> k in BUILTIN[policy] && t[k] == BUILTIN[policy][k])
            && (policy !in BUILTIN ==> t[k] == BALANCED[k]))
  {
    BuiltinsAreFull(policy);
  }

  lemma BuiltinsAreFull(policy: string)
    ensures BALANCED.Keys == WEIGHT_KEYS && (policy in BUILTIN ==> BUILTIN[policy].Keys == WEIGHT_KEYS)
  {
  }

  /** The user's own weights win over whatever the policy says, and change nothing else. */
  lemma UserWeightsWin(policies: map<string, map<string, real>>, policy: string, weights: map<string, real>, k: string)
    ensures var t, without := Effective(policies, policy, weights), Effective(policies, policy, map[]);
      && (k in weights ==> k in t && t[k] == weights[k])
      && (k !in weights ==> (k in t <==> k in without) && (k in t ==> t[k] == without[k]))
  {
  }

  /** Hence every score of an accepted configuration is a fraction. */
  lemma AcceptedScoresAreFractions(policies: map<string, map<string, real>>, policy: string, weights: map<string, real>,
                                   job: Job, c: Six)
    requires Accepted(weights) && (forall p :: p in policies ==> Accepted(policies[p])) && JobOk(job) && Unit(c)
    ensures Effective(policies, policy, weights).Keys == WEIGHT_KEYS
    ensures var w := Boosted(AsSix(Effective(policies, policy, weights)), job);
      Sum(w) > 0.0 && 0.0 <= Total(w, c) <= 1.0
  {
    EffectiveWeightsOk(policies, policy, weights);
    var w := AsSix(Effective(policies, policy, weights));
    BoostedOk(w, job);
    TotalInUnit(Boosted(w, job), c);
  }

  // ---- aliases --------------------------------------------------------------

  /** A YAML scalar where a name is expected. */
  datatype Name = Text(s: string) | NotText

  datatype AliasFault = BadKey | BadTarget | PointsAtItself | ShadowsAModel | IsAChain

  function Flaw(known: set<string>, keys: set<Name>, alias: Name, target: Name): Option<AliasFault> {
    if alias.NotText? || alias.s == "" then Some(BadKey)
    else if target.NotText? || target.s == "" then Some(BadTarget)
    else if target == alias then Some(PointsAtItself)
    else if alias.s in known then Some(ShadowsAModel)
    else if target in keys then Some(IsAChain)
    else None
  }

  /** An alias is accepted exactly if both names are non-empty text, differ, and neither side is used for the other's purpose. */
  lemma FlawlessAliases(known: set<string>, keys: set<Name>, alias: Name, target: Name)
    ensures Flaw(known, keys, alias, target).None? <==>
      && alias.Text? && alias.s != "" && target.Text? && target.s != ""
      && target != alias && alias.s !in known && target !in keys
    ensures Flaw(known, keys, alias, target) == Some(BadKey) <==> alias.NotText? || alias.s == ""
    ensures Flaw(known, keys, alias, target) == Some(ShadowsAModel) ==> alias.Text? && alias.s in known
    ensures Flaw(known, keys, alias, target) == Some(PointsAtItself) ==> target == alias
    ensures Flaw(known, keys, alias, target) == Some(BadTarget) ==> target.NotText? || target.s == ""
    ensures Flaw(known, keys, alias, target) == Some(IsAChain) ==> target in keys
  {
  }

  function Keys(aliases: seq<(Name, Name)>): set<Name> {
    set i | 0 <= i < |aliases| :: aliases[i].0
  }

  /** Fails with the first flaw of the first flawed alias, and accepts exactly the tables without one. */
  method ValidateAliases(known: set<string>, aliases: seq<(Name, Name)>) returns (flaw: Option<AliasFault>)
    ensures flaw.None? <==> forall i :: 0 <= i < |aliases| ==> Flaw(known, Keys(aliases), aliases[i].0, aliases[i].1).None?
    ensures flaw.Some? ==>
      exists i :: (0 <= i < |aliases| && Flaw(known, Keys(aliases), aliases[i].0, aliases[i].1) == flaw
                   && forall j :: 0 <= j < i ==> Flaw(known, Keys(aliases), aliases[j].0, aliases[j].1).None?)
  {
    var keys := Keys(aliases);
    for i := 0 to |aliases|
      invariant forall j :: 0 <= j < i ==> Flaw(known, keys, aliases[j].0, aliases[j].1).None?
    {
      flaw := Flaw(known, keys, aliases[i].0, aliases[i].1);
      if flaw.Some? { return; }
    }
    return None;
  }

  /** The alias map of a validated table. */
  ghost predicate AliasesOk(known: set<string>, aliases: map<string, string>) {
    forall a :: a in aliases ==>
      a != "" && aliases[a] != "" && a !in known && aliases[a] !in aliases
  }

  function Resolve(aliases: map<string, string>, model: string): string {
    if model != "" && model in aliases then aliases[model] else model
  }

  function ToMap(aliases: seq<(Name, Name)>): map<string, string> {
    if aliases == [] then map[]
    else
      var (a, t) := aliases[|aliases| - 1];
      var rest := ToMap(aliases[..|aliases| - 1]);
      if a.Text? && t.Text? then rest[a.s := t.s] else rest
  }

  lemma {:induction false} ToMapOrigin(aliases: seq<(Name, Name)>, a: string)
    requires a in ToMap(aliases)
    ensures exists i :: 0 <= i < |aliases| && aliases[i] == (Text(a), Text(ToMap(aliases)[a]))
  {
    var n := |aliases| - 1;
    if aliases[n].0 != Text(a) || aliases[n].1.NotText? {
      ToMapOrigin(aliases[..n], a);
      var i :| 0 <= i < n && aliases[..n][i] == (Text(a), Text(ToMap(aliases[..n])[a]));
      assert aliases[i] == aliases[..n][i];
    } else {
      assert aliases[n] == (Text(a), Text(ToMap(aliases)[a]));
    }
  }

  /** A validated table has single-hop aliases that shadow no model: resolving twice is resolving once. */
  lemma ResolveIsIdempotent(known: set<string>, aliases: seq<(Name, Name)>, model: string)
    requires forall i :: 0 <= i < |aliases| ==> Flaw(known, Keys(aliases), aliases[i].0, aliases[i].1).None?
    ensures var m := ToMap(aliases);
      && AliasesOk(known, m)
      && Resolve(m, Resolve(m, model)) == Resolve(m, model)
      && (model in known ==> Resolve(m, model) == model)
  {
    var m := ToMap(aliases);
    forall a | a in m
      ensures a != "" && m[a] != "" && a !in known && m[a] !in m
    {
      ToMapOrigin(aliases, a);
      if m[a] in m {
        ToMapOrigin(aliases, m[a]);
      }
    }
  }

  // ---- the static registry --------------------------------------------------

  datatype Spec = Spec(id: string, engine: string)

  /** The index maps every configured id to the last model configured under it. */
  method BuildModelIndex(models: seq<Spec>) returns (index: map<string, Spec>)
    ensures IndexOf(models, index)
  {
    index := map[];
    for i := 0 to |models|
      invariant IndexOf(models[..i], index)
    {
      IndexExtends(models[..i], index, models[i]);
      index := index[models[i].id := models[i]];
      assert models[..i + 1] == models[..i] + [models[i]];
    }
    assert models[..|models|] == models;
  }

  ghost predicate IndexOf(models: seq<Spec>, index: map<string, Spec>) {
    && (forall i :: 0 <= i < |models| ==> models[i].id in index)
    && forall id :: id in index ==> exists i :: IsLast(models, id, i) && models[i] == index[id]
  }

  ghost predicate IsLast(models: seq<Spec>, id: string, i: int) {
    0 <= i < |models| && models[i].id == id && forall j :: i < j < |models| ==> models[j].id != id
  }

  lemma IndexExtends(models: seq<Spec>, index: map<string, Spec>, m: Spec)
    requires IndexOf(models, index)
    ensures IndexOf(models + [m], index[m.id := m])
  {
    var more, next := models + [m], index[m.id := m];
    forall id | id in next
      ensures exists i :: IsLast(more, id, i) && more[i] == next[id]
    {
      if id == m.id {
        assert IsLast(more, id, |models|);
      } else {
        var i :| IsLast(models, id, i) && models[i] == index[id];
        assert IsLast(more, id, i);
      }
    }
  }

  /** Distinct ids are each their own entry. */
  lemma DistinctIdsAreIndexed(models: seq<Spec>, index: map<string, Spec>, i: nat)
    requires IndexOf(models, index) && i < |models|
    requires forall j, k :: 0 <= j < k < |models| ==> models[j].id != models[k].id
    ensures models[i].id in index && index[models[i].id] == models[i]
  {
  }
}

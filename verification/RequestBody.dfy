/**
 The request body across attempts: `_apply_thinking_policy` and `body_for` of router/app.py, which rewrite
 one mutable dict in place.  Serialized bytes are modelled by the dict they serialize.
*/
module RequestBody {
  import opened Wrappers

  type Model = string

  datatype Json = Null | Bool(b: bool) | Num(n: real) | Str(s: string) | Arr(items: seq<Json>) | Obj(fields: map<string, Json>)

  type Body = map<string, Json>

  const MODEL := "model"
  const CTK := "chat_template_kwargs"
  const THINK := "enable_thinking"

  /** `thresholds` is disable_thinking_below_max_tokens per configured model; `chat` says the path is chat/completions. */
  datatype Policy = Policy(thresholds: map<Model, nat>, chat: bool)

  // ---- the thinking policy --------------------------------------------------

  /** `body.get(key)`, where a JSON null and a missing key look alike. */
  function Get(body: Body, key: string): Json {
    if key in body then body[key] else Null
  }

  /** `body["model"] = mid`. */
  function Named(body: Body, mid: Model): Body {
    body[MODEL := Str(mid)]
  }

  /** The client's token budget; a boolean is no number. */
  function Budget(body: Body): Option<real> {
    var primary := Get(body, "max_completion_tokens");
    var chosen := if primary.Null? then Get(body, "max_tokens") else primary;
    if chosen.Num? then Some(chosen.n) else None
  }

  predicate ChoosesThinking(body: Body) {
    Get(body, CTK).Obj? && THINK in Get(body, CTK).fields
  }

  predicate Fires(p: Policy, model: Model, body: Body) {
    && model in p.thresholds && p.thresholds[model] != 0
    && p.chat
    && Budget(body).Some? && Budget(body).value < p.thresholds[model] as real
    && !ChoosesThinking(body)
  }

  /** The template arguments with thinking turned off. */
  function ThinkingOff(body: Body): Json {
    var ctk := Get(body, CTK);
    Obj((if ctk.Obj? then ctk.fields else map[])[THINK := Bool(false)])
  }

  function Applied(p: Policy, model: Model, body: Body): Body {
    if Fires(p, model, body) then body[CTK := ThinkingOff(body)] else body
  }

  /** The body of attempt `mid` of a request whose first attempt is for `model`: from the client's body alone. */
  function Sent(p: Policy, client: Body, model: Model, mid: Model): Body {
    if mid == model then Applied(p, model, Named(client, model))
    else Applied(p, mid, Named(Cleaned(client), mid))
  }

  /** A fallback drops an explicit null, as `client_ctk is None` cannot tell it from absence. */
  function Cleaned(client: Body): Body {
    if Get(client, CTK).Null? then client - {CTK} else client
  }

  // ---- the mutable body -----------------------------------------------------

  class AttemptBodies {
    const policy: Policy
    const model: Model
    const clientCtk: Json
    ghost const client: Body
    var body: Body
    var rawBody: Body

    /** Attempts may have left their own model and template arguments behind; nothing else. */
    ghost predicate Valid()
      reads this
    {
      && clientCtk == Get(client, CTK)
      && rawBody == Sent(policy, client, model, model)
      && (forall key :: key != MODEL && key != CTK ==>
            (key in body <==> key in client) && (key in client ==> body[key] == client[key]))
    }

    /** The request handler up to the attempt loop: `model` is the pick or the resolved alias. */
    constructor (policy: Policy, model: Model, client: Body)
      ensures Valid()
      ensures this.policy == policy && this.model == model && this.client == client
    {
      this.policy, this.model, this.client := policy, model, client;
      var named := Named(client, model);
      clientCtk := Get(named, CTK);
      body, rawBody := named, named;
      new;
      rawBody := ApplyPolicy(model, rawBody);
    }

    /** `_apply_thinking_policy`: returns the bytes, and rewrites `body` when it fires. */
    method ApplyPolicy(mid: Model, raw: Body) returns (sent: Body)
      requires raw == body
      modifies this`body
      ensures sent == Applied(policy, mid, old(body)) && body == sent
    {
      sent := raw;
      var threshold := if mid in policy.thresholds then policy.thresholds[mid] else 0;
      if threshold == 0 || !policy.chat { return; }
      var budget := Get(body, "max_completion_tokens");
      if budget.Null? { budget := Get(body, "max_tokens"); }
      if !budget.Num? || budget.n >= threshold as real { return; }
      var ctk := Get(body, CTK);
      if ctk.Obj? && THINK in ctk.fields { return; }
      var fields := if ctk.Obj? then ctk.fields else map[];
      fields := fields[THINK := Bool(false)];
      body := body[CTK := Obj(fields)];
      sent := body;
    }

    /** `body_for`: whatever earlier attempts left in `body`, the bytes depend on the client's body and `mid` alone. */
    method BodyFor(mid: Model) returns (sent: Body)
      requires Valid()
      modifies this`body
      ensures Valid()
      ensures sent == Sent(policy, client, model, mid)
    {
      if mid == model { return rawBody; }
      body := Named(body, mid);
      if clientCtk.Null? {
        body := body - {CTK};
      } else {
        body := body[CTK := clientCtk];
      }
      assert body == Named(Cleaned(client), mid);
      sent := ApplyPolicy(mid, body);
    }

    /** A whole plan: every attempt gets the bytes it would have got as the only one. */
    method SendAll(plan: seq<Model>) returns (sent: seq<Body>)
      requires Valid()
      modifies this`body
      ensures Valid() && |sent| == |plan|
      ensures forall i :: 0 <= i < |plan| ==> sent[i] == Sent(policy, client, model, plan[i])
    {
      sent := [];
      for i := 0 to |plan|
        invariant Valid() && |sent| == i
        invariant forall j :: 0 <= j < i ==> sent[j] == Sent(policy, client, model, plan[j])
      {
        var bytes := BodyFor(plan[i]);
        sent := sent + [bytes];
      }
    }
  }

  // ---- what the policy promises ---------------------------------------------

  lemma CleaningIsInvisible(client: Body, mid: Model)
    ensures forall key :: Get(Named(Cleaned(client), mid), key) == Get(Named(client, mid), key)
  {
  }

  /**
   Thinking is turned off in an attempt exactly when that attempt's own model asks for it, or the client did; and an
   attempt whose own policy does not fire is sent the client's template arguments as they were.
  */
  lemma NoInheritedInjection(p: Policy, client: Body, model: Model, mid: Model)
    ensures var sent := Sent(p, client, model, mid);
      var off := ChoosesThinking(sent) && Get(sent, CTK).fields[THINK] == Bool(false);
      off <==> Fires(p, mid, Named(client, mid))
               || (ChoosesThinking(client) && Get(client, CTK).fields[THINK] == Bool(false))
    ensures !Fires(p, mid, Named(client, mid)) ==> Get(Sent(p, client, model, mid), CTK) == Get(client, CTK)
  {
  }

  /** The body tells the template to leave thinking off. */
  predicate ThinkingIsOff(body: Body) {
    CTK in body && body[CTK].Obj? && THINK in body[CTK].fields && body[CTK].fields[THINK] == Bool(false)
  }

  /** The client said nothing about thinking. */
  predicate LeavesThinkingOpen(client: Body) {
    !(CTK in client && client[CTK].Obj? && THINK in client[CTK].fields)
  }

  predicate NullOrMissing(body: Body, key: string) {
    key in body ==> body[key].Null?
  }

  /**
   On chat completions, for a model with a positive threshold and a client that leaves thinking open, thinking is off in
   the attempt exactly if the client's budget is a number below the threshold.  The budget is max_completion_tokens, or
   max_tokens if that is missing or null; a budget that is no number, a boolean among them, counts as none.
  */
  lemma SmallBudgetsTurnThinkingOff(p: Policy, client: Body, model: Model, mid: Model)
    requires p.chat && mid in p.thresholds && p.thresholds[mid] > 0 && LeavesThinkingOpen(client)
    ensures var sent, threshold := Sent(p, client, model, mid), p.thresholds[mid] as real;
      if !NullOrMissing(client, "max_completion_tokens") then
        var budget := client["max_completion_tokens"];
        ThinkingIsOff(sent) <==> budget.Num? && budget.n < threshold
      else if !NullOrMissing(client, "max_tokens") then
        var budget := client["max_tokens"];
        ThinkingIsOff(sent) <==> budget.Num? && budget.n < threshold
      else !ThinkingIsOff(sent)
  {
  }

  /** Off chat completions, and for a model with no threshold or a zero one, thinking is off only if the client turned it off. */
  lemma OtherwiseThinkingIsTheClients(p: Policy, client: Body, model: Model, mid: Model)
    requires !p.chat || mid !in p.thresholds || p.thresholds[mid] == 0
    ensures ThinkingIsOff(Sent(p, client, model, mid)) <==> ThinkingIsOff(client)
  {
  }

  /** Turning thinking off changes no other template argument. */
  lemma OtherArgumentsSurvive(p: Policy, client: Body, model: Model, mid: Model, key: string)
    requires key != THINK && CTK in client && client[CTK].Obj?
    ensures var sent := Sent(p, client, model, mid);
      && CTK in sent && sent[CTK].Obj?
      && (key in sent[CTK].fields <==> key in client[CTK].fields)
      && (key in client[CTK].fields ==> sent[CTK].fields[key] == client[CTK].fields[key])
  {
  }

  /** An explicit client choice reaches every attempt's upstream unchanged, with all its other template arguments. */
  lemma ExplicitChoiceSurvives(p: Policy, client: Body, model: Model, mid: Model)
    requires ChoosesThinking(client)
    ensures Sent(p, client, model, mid) == Named(client, mid)
  {
  }

  /** Applying the policy a second time changes nothing. */
  lemma PolicyIdempotent(p: Policy, model: Model, body: Body)
    ensures Applied(p, model, Applied(p, model, body)) == Applied(p, model, body)
  {
  }

  /** Apart from the model and the template arguments the upstream sees the client's own body. */
  lemma RestIsTheClients(p: Policy, client: Body, model: Model, mid: Model, key: string)
    requires key != MODEL && key != CTK
    ensures var sent := Sent(p, client, model, mid);
      && (key in sent <==> key in client) && (key in client ==> sent[key] == client[key])
      && MODEL in sent && sent[MODEL] == Str(mid)
  {
  }

  /**
   A fallback gets exactly what it would have got as the primary attempt, unless the client sent an explicit
   null for the template arguments and the fallback's own policy does not fire: then the null is dropped.
  */
  lemma FallbackEqualsPrimary(p: Policy, client: Body, model: Model, mid: Model)
    ensures Sent(p, client, model, mid) == Sent(p, client, mid, mid)
       <==> mid == model || Fires(p, mid, Named(client, mid)) || !(CTK in client && client[CTK].Null?)
  {
    CleaningIsInvisible(client, mid);
    var fallback, primary := Named(Cleaned(client), mid), Named(client, mid);
    assert Budget(fallback) == Budget(primary);
    if CTK in client && client[CTK].Null? {
      assert CTK !in fallback && CTK in primary;
      assert fallback[CTK := ThinkingOff(primary)] == primary[CTK := ThinkingOff(primary)];
    } else {
      assert fallback == primary;
    }
  }
}

/** The gateway configuration: the schema's cross-field rules and the effective configuration built from it. */
module GatewayConfig {
  import opened Prelude
  import opened Text
  import opened TagCodec

  datatype ProviderType = Anthropic | Google | OpenAi | OpenAiCompatible

  predicate IsOpenAiProviderType(t: ProviderType) {
    t.OpenAi? || t.OpenAiCompatible?
  }

  predicate IsApiKeyRequired(t: ProviderType) {
    !IsOpenAiProviderType(t)
  }

  /** `hasApiSurface`: the row sets `apiSurface`, whose one legal value is `chat-completions`. */
  datatype ProviderRow = ProviderRow(kind: ProviderType, apiKeyRef: string, enabled: bool, baseUrlRef: Option<string>,
                                     hasApiSurface: bool)
  datatype ModelRow = ModelRow(providerInstance: string, modelId: string, fallback: Option<string>)
  datatype ClientRow = ClientRow(name: string, gatewayKeyRef: string)

  type Providers = map<string, ProviderRow>
  type Models = map<string, ModelRow>

  datatype Config = Config(masterKeyRef: string, providers: Providers, clients: map<string, ClientRow>, models: Models)

  /** `order` lists the keys of a record, each once: what iterating over its entries visits. */
  ghost predicate Lists(order: seq<string>, keys: set<string>) {
    && (forall k :: k in keys <==> k in order)
    && (forall i, j :: 0 <= i < j < |order| ==> order[i] != order[j])
  }

  // ---------------------------------------------------------------------------
  // Schema
  // ---------------------------------------------------------------------------

  datatype Issue =
    | DuplicateApiKeyRef(id: string)
    | BaseUrlRefRequired(id: string)
    | ApiSurfaceNotSupported(id: string)
    | SelfFallback(alias: string)
    | UnknownFallback(alias: string)
    | CircularFallback(alias: string)
    | UnknownProvider(alias: string)
    | NoModels
    | NoAliases(id: string)

  /** Field shapes: references are not empty, aliases and clients are usable as search tags. */
  predicate ShapeValid(c: Config) {
    && c.masterKeyRef != ""
    && (forall id :: id in c.providers ==> c.providers[id].apiKeyRef != "" && c.providers[id].baseUrlRef != Some(""))
    && (forall id :: id in c.clients ==>
        IsRedisSearchTagSafeId(id) && c.clients[id].name != "" && c.clients[id].gatewayKeyRef != "")
    && (forall a :: a in c.models ==> IsRedisSearchTagSafeId(a) && c.models[a].fallback != Some(""))
  }

  /** No reference is used twice, except that an instance listed before with the empty id is overlooked. */
  ghost predicate RefsDistinct(providers: Providers, order: seq<string>)
    requires Lists(order, providers.Keys)
  {
    forall i, j :: 0 <= i < j < |order| && providers[order[i]].apiKeyRef == providers[order[j]].apiKeyRef ==>
        order[i] == ""
  }

  predicate RowValid(row: ProviderRow) {
    && (IsOpenAiProviderType(row.kind) ==> row.baseUrlRef.Some? && !Blank(row.baseUrlRef.value))
    && (row.kind.OpenAi? ==> !row.hasApiSurface)
  }

  ghost predicate ProvidersValid(providers: Providers, order: seq<string>)
    requires Lists(order, providers.Keys)
  {
    && RefsDistinct(providers, order)
    && forall id :: id in providers ==> RowValid(providers[id])
  }

  /** A fallback is another existing model, and not one that falls back to this one. */
  ghost predicate FallbacksValid(models: Models) {
    forall a :: a in models && models[a].fallback.Some? ==>
      var f := models[a].fallback.value;
      f != a && f in models && models[f].fallback != Some(a)
  }

  ghost predicate HasModel(models: Models, id: string) {
    exists a :: a in models && models[a].providerInstance == id
  }

  ghost predicate LinksValid(providers: Providers, models: Models) {
    && models != map[]
    && ProvidersKnown(providers, models)
    && (forall id :: id in providers && providers[id].enabled ==> HasModel(models, id))
  }

  ghost predicate SchemaValid(c: Config, order: seq<string>)
    requires Lists(order, c.providers.Keys)
  {
    ShapeValid(c) && ProvidersValid(c.providers, order) && FallbacksValid(c.models) && LinksValid(c.providers, c.models)
  }

  /** The entries of a record in order: its keys and, place by place, its rows. */
  ghost predicate Entries(ids: seq<string>, rows: seq<ProviderRow>, providers: Providers) {
    Lists(ids, providers.Keys) && |rows| == |ids| && forall i :: 0 <= i < |ids| ==> rows[i] == providers[ids[i]]
  }

  /** What an issue of the `providers` rules says is so of entry `n`. */
  ghost predicate Explains(ids: seq<string>, rows: seq<ProviderRow>, n: nat, issue: Issue)
    requires n < |ids| == |rows|
  {
    match issue
    case DuplicateApiKeyRef(id) => id == ids[n] && exists m :: 0 <= m < n && rows[m].apiKeyRef == rows[n].apiKeyRef
    case BaseUrlRefRequired(id) =>
      id == ids[n] && IsOpenAiProviderType(rows[n].kind)
      && (rows[n].baseUrlRef.None? || Blank(rows[n].baseUrlRef.value))
    case ApiSurfaceNotSupported(id) => id == ids[n] && rows[n].kind.OpenAi? && rows[n].hasApiSurface
    case _ => false
  }

  ghost predicate AllExplained(ids: seq<string>, rows: seq<ProviderRow>, issues: seq<Issue>)
    requires |ids| == |rows|
  {
    forall x :: x in issues ==> exists n :: 0 <= n < |ids| && Explains(ids, rows, n, x)
  }

  /** The rules about one row. */
  method CheckRow(ids: seq<string>, rows: seq<ProviderRow>, n: nat) returns (issues: seq<Issue>)
    requires n < |ids| == |rows|
    ensures issues == [] <==> RowValid(rows[n])
    ensures forall x :: x in issues ==> Explains(ids, rows, n, x)
  {
    var row := rows[n];
    issues := [];
    if IsOpenAiProviderType(row.kind) {
      if row.baseUrlRef.None? || |Trim(row.baseUrlRef.value)| == 0 {
        issues := issues + [BaseUrlRefRequired(ids[n])];
      }
    }
    if row.kind.OpenAi? && row.hasApiSurface {
      issues := issues + [ApiSurfaceNotSupported(ids[n])];
    }
  }

  /** The rules inside `providers`. */
  method CheckProviders(ids: seq<string>, rows: seq<ProviderRow>, ghost providers: Providers)
    returns (issues: seq<Issue>)
    requires Entries(ids, rows, providers)
    ensures issues == [] <==> ProvidersValid(providers, ids)
    ensures AllExplained(ids, rows, issues)
  {
    issues := CheckProviderEntries(ids, rows);
    AllBefore(ids, rows, providers);
  }

  method CheckProviderEntries(ids: seq<string>, rows: seq<ProviderRow>) returns (issues: seq<Issue>)
    requires |ids| == |rows|
    ensures issues == [] <==> ValidBefore(ids, rows, |ids|)
    ensures AllExplained(ids, rows, issues)
  {
    issues := [];
    var refs: map<string, string> := map[];
    ghost var keys := ApiKeyRefs(rows);
    ghost var last: map<string, nat> := map[];
    for n := 0 to |ids|
      invariant Latest(ids, keys, n, refs, last)
      invariant issues == [] <==> ValidBefore(ids, rows, n)
      invariant AllExplained(ids, rows, issues)
    {
      ValidStep(ids, rows, n, refs, last);
      var found := CheckEntry(ids, rows, n, refs, last);
      AddExplained(ids, rows, n, issues, found);
      issues := issues + found;
      refs := refs[rows[n].apiKeyRef := ids[n]];
      last := last[rows[n].apiKeyRef := n];
    }
  }

  /** The body of the loop: the reference against those seen before, then the row itself. */
  method CheckEntry(ids: seq<string>, rows: seq<ProviderRow>, n: nat, refs: map<string, string>,
                    ghost last: map<string, nat>)
    returns (issues: seq<Issue>)
    requires n < |ids| == |rows| && Latest(ids, ApiKeyRefs(rows), n, refs, last)
    ensures issues == [] <==> (rows[n].apiKeyRef in refs ==> refs[rows[n].apiKeyRef] == "") && RowValid(rows[n])
    ensures forall x :: x in issues ==> Explains(ids, rows, n, x)
  {
    issues := CheckRow(ids, rows, n);
    if rows[n].apiKeyRef in refs && refs[rows[n].apiKeyRef] != "" {
      ghost var m := last[rows[n].apiKeyRef];
      assert ApiKeyRefs(rows)[m] == rows[m].apiKeyRef;
      assert Explains(ids, rows, n, DuplicateApiKeyRef(ids[n]));
      issues := [DuplicateApiKeyRef(ids[n])] + issues;
    }
  }

  lemma AddExplained(ids: seq<string>, rows: seq<ProviderRow>, n: nat, issues: seq<Issue>, more: seq<Issue>)
    requires n < |ids| == |rows| && AllExplained(ids, rows, issues) && forall x :: x in more ==>
             Explains(ids, rows, n, x)
    ensures AllExplained(ids, rows, issues + more)
    ensures issues + more == [] <==> issues == [] && more == []
  {
    assert |issues + more| == |issues| + |more|;
  }

  ghost function ApiKeyRefs(rows: seq<ProviderRow>): (keys: seq<string>)
    ensures |keys| == |rows| && forall i :: 0 <= i < |rows| ==> keys[i] == rows[i].apiKeyRef
  {
    seq(|rows|, i requires 0 <= i < |rows| => rows[i].apiKeyRef)
  }

  ghost predicate DistinctBefore(ids: seq<string>, keys: seq<string>, n: nat)
    requires n <= |ids| == |keys|
  {
    forall i, j :: 0 <= i < j < n && keys[i] == keys[j] ==> ids[i] == ""
  }

  ghost predicate RowsValidBefore(rows: seq<ProviderRow>, n: nat)
    requires n <= |rows|
  {
    forall i :: 0 <= i < n ==> RowValid(rows[i])
  }

  /** For each reference seen so far, `last` has the place of the latest row with it, and `refs` that row's id. */
  ghost predicate Latest(ids: seq<string>, keys: seq<string>, n: nat, refs: map<string, string>, last: map<string, nat>)
    requires n <= |ids| == |keys|
  {
    && refs.Keys == last.Keys
    && (forall r :: r in last ==> last[r] < n && ids[last[r]] == refs[r] && keys[last[r]] == r)
    && (forall i :: 0 <= i < n ==> keys[i] in last && i <= last[keys[i]])
  }

  /** Looking only at the latest earlier row with the same reference is enough. */
  lemma DistinctStep(ids: seq<string>, keys: seq<string>, n: nat, refs: map<string, string>, last: map<string, nat>)
    requires n < |ids| == |keys| && Latest(ids, keys, n, refs, last)
    ensures DistinctBefore(ids, keys, n + 1)
            <==> DistinctBefore(ids, keys, n) && (keys[n] in refs ==> refs[keys[n]] == "")
    ensures Latest(ids, keys, n + 1, refs[keys[n] := ids[n]], last[keys[n] := n])
  {
    if DistinctBefore(ids, keys, n) && (keys[n] in refs ==> refs[keys[n]] == "") {
      forall i | 0 <= i < n && keys[i] == keys[n]
        ensures ids[i] == ""
      {
        assert i <= last[keys[n]] && ids[last[keys[n]]] == "";
      }
    }
  }

  ghost predicate ValidBefore(ids: seq<string>, rows: seq<ProviderRow>, n: nat)
    requires n <= |ids| == |rows|
  {
    DistinctBefore(ids, ApiKeyRefs(rows), n) && RowsValidBefore(rows, n)
  }

  lemma ValidStep(ids: seq<string>, rows: seq<ProviderRow>, n: nat, refs: map<string, string>, last: map<string, nat>)
    requires n < |ids| == |rows| && Latest(ids, ApiKeyRefs(rows), n, refs, last)
    ensures ValidBefore(ids, rows, n + 1) <==>
            ValidBefore(ids, rows, n) && (rows[n].apiKeyRef in refs ==> refs[rows[n].apiKeyRef] == "")
                && RowValid(rows[n])
    ensures Latest(ids, ApiKeyRefs(rows), n + 1, refs[rows[n].apiKeyRef := ids[n]], last[rows[n].apiKeyRef := n])
  {
    DistinctStep(ids, ApiKeyRefs(rows), n, refs, last);
    RowsStep(rows, n);
  }

  lemma RowsStep(rows: seq<ProviderRow>, n: nat)
    requires n < |rows|
    ensures RowsValidBefore(rows, n + 1) <==> RowsValidBefore(rows, n) && RowValid(rows[n])
  {
  }

  lemma AllBefore(ids: seq<string>, rows: seq<ProviderRow>, providers: Providers)
    requires Entries(ids, rows, providers)
    ensures RowsValidBefore(rows, |ids|) <==> forall id :: id in providers ==> RowValid(providers[id])
    ensures DistinctBefore(ids, ApiKeyRefs(rows), |ids|) <==> RefsDistinct(providers, ids)
  {
    assert forall id :: id in providers ==> id in ids;
  }

  /** The fallback rules. */
  method CheckFallbacks(models: Models, order: seq<string>) returns (issues: seq<Issue>)
    requires Lists(order, models.Keys)
    ensures issues == [] <==> FallbacksValid(models)
  {
    issues := [];
    for n := 0 to |order|
      invariant issues == [] <==> forall i :: 0 <= i < n ==> FallbackValid(models, order[i])
    {
      var alias := order[n];
      if models[alias].fallback.None? { continue; }
      var fallback := models[alias].fallback.value;
      if fallback == alias {
        issues := issues + [SelfFallback(alias)];
        continue;
      }
      if fallback !in models {
        issues := issues + [UnknownFallback(alias)];
        continue;
      }
      if models[fallback].fallback == Some(alias) {
        issues := issues + [CircularFallback(alias)];
      }
    }
    assert forall a :: a in models ==> a in order;
  }

  ghost predicate FallbackValid(models: Models, a: string)
    requires a in models
  {
    models[a].fallback.Some? ==>
      var f := models[a].fallback.value;
      f != a && f in models && models[f].fallback != Some(a)
  }

  ghost predicate ProvidersKnown(providers: Providers, models: Models) {
    forall a :: a in models ==> models[a].providerInstance in providers
  }

  method CheckProvidersKnown(providers: Providers, models: Models, order: seq<string>) returns (issues: seq<Issue>)
    requires Lists(order, models.Keys)
    ensures issues == [] <==> ProvidersKnown(providers, models)
  {
    issues := [];
    for n := 0 to |order|
      invariant issues == [] <==> forall i :: 0 <= i < n ==> models[order[i]].providerInstance in providers
    {
      if models[order[n]].providerInstance !in providers {
        issues := issues + [UnknownProvider(order[n])];
      }
    }
    assert forall a :: a in models ==> a in order;
  }

  method CollectAliases(models: Models, order: seq<string>) returns (aliasesByProvider: map<string, seq<string>>)
    requires Lists(order, models.Keys)
    ensures forall id :: id in aliasesByProvider <==> HasModel(models, id)
  {
    aliasesByProvider := map[];
    for n := 0 to |order|
      invariant forall id ::
                  id in aliasesByProvider <==> exists a :: a in order[..n] && models[a].providerInstance == id
    {
      var id := models[order[n]].providerInstance;
      var list := if id in aliasesByProvider then aliasesByProvider[id] else [];
      assert order[..n + 1] == order[..n] + [order[n]];
      assert order[n] in order[..n + 1];
      aliasesByProvider := aliasesByProvider[id := list + [order[n]]];
    }
    assert order[..|order|] == order;
  }

  method CheckEnabledHaveAliases(providers: Providers, order: seq<string>, aliasesByProvider: map<string, seq<string>>)
    returns (issues: seq<Issue>)
    requires Lists(order, providers.Keys)
    ensures issues == [] <==> forall id :: id in providers && providers[id].enabled ==> id in aliasesByProvider
  {
    issues := [];
    for n := 0 to |order|
      invariant issues == []
                <==> forall i :: 0 <= i < n && providers[order[i]].enabled ==> order[i] in aliasesByProvider
    {
      var id := order[n];
      if !providers[id].enabled { continue; }
      if id !in aliasesByProvider {
        issues := issues + [NoAliases(id)];
      }
    }
    assert forall id :: id in providers ==> id in order;
  }

  /** The rules between models and providers. */
  method CheckLinks(providers: Providers, models: Models, providerOrder: seq<string>, modelOrder: seq<string>)
    returns (issues: seq<Issue>)
    requires Lists(providerOrder, providers.Keys) && Lists(modelOrder, models.Keys)
    ensures issues == [] <==> LinksValid(providers, models)
  {
    issues := CheckProvidersKnown(providers, models, modelOrder);
    if |modelOrder| == 0 {
      assert models == map[];
      issues := issues + [NoModels];
      return;
    }
    assert modelOrder[0] in models;
    var aliasesByProvider := CollectAliases(models, modelOrder);
    var idle := CheckEnabledHaveAliases(providers, providerOrder, aliasesByProvider);
    assert |issues + idle| == |issues| + |idle|;
    issues := issues + idle;
  }

  // ---------------------------------------------------------------------------
  // Secrets
  // ---------------------------------------------------------------------------

  /** The environment, and what counts as an http(s) URL in it. */
  datatype Env = Env(vars: map<string, string>, isHttpUrl: string -> bool) {
    function Trimmed(ref: string): string {
      if ref in vars then Trim(vars[ref]) else ""
    }

    function BaseUrl(ref: Option<string>): string {
      if ref.None? || Blank(ref.value) then ""
      else
        var raw := Trimmed(ref.value);
        if raw == "" || !isHttpUrl(raw) then ""
        else if raw[|raw| - 1] == '/' then raw[..|raw| - 1] else raw
    }

    /** A URL is longer than a slash. */
    ghost predicate Valid() {
      !isHttpUrl("/")
    }
  }

  predicate RowSecretsPresent(row: ProviderRow, env: Env) {
    if IsOpenAiProviderType(row.kind) then
      row.baseUrlRef.None? || Blank(row.baseUrlRef.value) || env.BaseUrl(row.baseUrlRef) != ""
    else env.Trimmed(row.apiKeyRef) != ""
  }

  ghost predicate SecretsPresent(providers: Providers, env: Env) {
    forall id :: id in providers && providers[id].enabled ==> RowSecretsPresent(providers[id], env)
  }

  method AssertEnabledProviderSecretsPresent(providers: Providers, order: seq<string>, env: Env) returns (ok: bool)
    requires Lists(order, providers.Keys)
    ensures ok <==> SecretsPresent(providers, env)
  {
    ok := true;
    for n := 0 to |order|
      invariant ok
                <==> forall i :: 0 <= i < n && providers[order[i]].enabled ==>
                    RowSecretsPresent(providers[order[i]], env)
    {
      if providers[order[n]].enabled && !RowSecretsPresent(providers[order[n]], env) { ok := false; }
    }
    assert forall id :: id in providers ==> id in order;
  }

  // ---------------------------------------------------------------------------
  // The effective configuration
  // ---------------------------------------------------------------------------

  predicate Active(c: Config, alias: string)
    requires alias in c.models
  {
    var id := c.models[alias].providerInstance;
    id in c.providers && c.providers[id].enabled
  }

  /** Enabled providers, and the models they serve. */
  function Effective(c: Config): Config {
    c.(providers := map id | id in c.providers && c.providers[id].enabled :: c.providers[id],
       models := map a | a in c.models && Active(c, a) :: c.models[a])
  }

  datatype BuildError = NoActiveModels | IdleProvider(id: string) | MissingSecret

  ghost predicate Accepted(c: Config, env: Env, allowMissingSecrets: bool) {
    && Effective(c).models != map[]
    && (forall id :: id in Effective(c).providers ==> HasModel(Effective(c).models, id))
    && (allowMissingSecrets || SecretsPresent(c.providers, env))
  }

  /** The first loop: models whose provider exists and is enabled. */
  method FilterModels(raw: Config, order: seq<string>) returns (effectiveModels: Models)
    requires Lists(order, raw.models.Keys)
    ensures effectiveModels == Effective(raw).models
  {
    effectiveModels := map[];
    for n := 0 to |order|
      invariant forall a :: a in effectiveModels <==> a in order[..n] && Active(raw, a)
      invariant forall a :: a in effectiveModels ==> effectiveModels[a] == raw.models[a]
    {
      var alias := order[n];
      var model := raw.models[alias];
      assert order[..n + 1] == order[..n] + [alias];
      if model.providerInstance !in raw.providers { continue; }
      if !raw.providers[model.providerInstance].enabled { continue; }
      effectiveModels := effectiveModels[alias := model];
    }
    assert order[..|order|] == order;
  }

  /** The second loop: the first enabled provider without an effective model. */
  method FindIdleProvider(raw: Config, order: seq<string>, effectiveModels: Models) returns (idle: Option<string>)
    requires Lists(order, raw.providers.Keys)
    ensures idle.None? <==> forall id :: id in Effective(raw).providers ==> HasModel(effectiveModels, id)
    ensures idle.Some? ==> idle.value in Effective(raw).providers && !HasModel(effectiveModels, idle.value)
  {
    for n := 0 to |order|
      invariant forall i :: 0 <= i < n && raw.providers[order[i]].enabled ==> HasModel(effectiveModels, order[i])
    {
      var id := order[n];
      if !raw.providers[id].enabled { continue; }
      var hasActiveModel := exists a :: a in effectiveModels && effectiveModels[a].providerInstance == id;
      if !hasActiveModel {
        assert id in Effective(raw).providers;
        return Some(id);
      }
    }
    assert forall id :: id in raw.providers ==> id in order;
    return None;
  }

  method BuildEffectiveGatewayConfig(raw: Config, providerOrder: seq<string>, modelOrder: seq<string>, env: Env,
                                     allowMissingSecrets: bool)
    returns (r: Result<Config, BuildError>)
    requires Lists(providerOrder, raw.providers.Keys) && Lists(modelOrder, raw.models.Keys)
    ensures r.Ok? <==> Accepted(raw, env, allowMissingSecrets)
    ensures r.Ok? ==> r.value == Effective(raw)
    ensures r.Err? ==>
      match r.error
      case NoActiveModels => Effective(raw).models == map[]
      case IdleProvider(id) => id in Effective(raw).providers && !HasModel(Effective(raw).models, id)
      case MissingSecret => !allowMissingSecrets && !SecretsPresent(raw.providers, env)
  {
    var effectiveModels := FilterModels(raw, modelOrder);
    if |effectiveModels| == 0 {
      return Err(NoActiveModels);
    }
    var idle := FindIdleProvider(raw, providerOrder, effectiveModels);
    if idle.Some? {
      return Err(IdleProvider(idle.value));
    }
    if !allowMissingSecrets {
      var present := AssertEnabledProviderSecretsPresent(raw.providers, providerOrder, env);
      if !present { return Err(MissingSecret); }
    }
    return Ok(Effective(raw));
  }

  /** Building the effective configuration twice is building it once, and what is accepted stays accepted. */
  lemma EffectiveIdempotent(c: Config, env: Env, allowMissingSecrets: bool)
    ensures Effective(Effective(c)) == Effective(c)
    ensures Accepted(Effective(c), env, allowMissingSecrets) <==> Accepted(c, env, allowMissingSecrets)
  {
    var e := Effective(c);
    assert Effective(e).providers == e.providers;
    assert Effective(e).models == e.models;
    assert SecretsPresent(e.providers, env) <==> SecretsPresent(c.providers, env) by {
      assert forall id :: id in c.providers && c.providers[id].enabled ==>
             id in e.providers && e.providers[id] == c.providers[id];
    }
  }

  /** A model that may be called keeps its links: its provider is an enabled one. */
  lemma EffectiveLinks(c: Config, a: string)
    requires a in Effective(c).models
    ensures Effective(c).models[a].providerInstance in Effective(c).providers
    ensures Effective(c).providers[Effective(c).models[a].providerInstance].enabled
  {
  }

  /**
    The effective configuration breaks only the schema's fallback rule, and only when an active model falls back to an
    inactive one.
   */
  lemma EffectiveFallbacksIff(c: Config)
    requires FallbacksValid(c.models)
    ensures FallbacksValid(Effective(c).models) <==>
            forall a :: a in c.models && Active(c, a) && c.models[a].fallback.Some? ==>
                Active(c, c.models[a].fallback.value)
  {
    var e := Effective(c).models;
    if FallbacksValid(e) {
      forall a | a in c.models && Active(c, a) && c.models[a].fallback.Some?
        ensures Active(c, c.models[a].fallback.value)
      {
        assert a in e;
      }
    }
  }

  // ---------------------------------------------------------------------------
  // Bootable configurations and the command line's previews
  // ---------------------------------------------------------------------------

  ghost predicate Bootable(c: Config, order: seq<string>, env: Env)
    requires Lists(order, c.providers.Keys)
  {
    SchemaValid(c, order) && Accepted(c, env, false)
  }

  /** One provider, one model, one key: a gateway that boots. */
  lemma MinimalGatewayBoots()
    ensures exists c: Config, order: seq<string>, env: Env :: Lists(order, c.providers.Keys) && Bootable(c, order, env)
  {
    var row, model := ProviderRow(Anthropic, "K", true, None, false), ModelRow("p", "x", None);
    var c := Config("M", map["p" := row], map[], map["m" := model]);
    var order, env := ["p"], Env(map["K" := "k"], _ => false);
    assert Lists(order, c.providers.Keys);
    assert ShapeValid(c);
    assert FallbacksValid(c.models) && ProvidersValid(c.providers, order);
    assert c.models["m"].providerInstance == "p" && Active(c, "m");
    assert LinksValid(c.providers, c.models);
    assert !Blank("k") by { assert !IsSpace("k"[0]); }
    assert env.Trimmed("K") != "";
    AcceptedOnceValid(c, env, false);
    assert SecretsPresent(c.providers, env);
    assert Bootable(c, order, env);
  }

  const KEYED := ProviderRow(Anthropic, "K", true, None, false)

  /** Two models of one provider, the first falling back to the second. */
  const WITH_FALLBACK := Config("M", map["p" := KEYED], map[],
                                map["m" := ModelRow("p", "x", Some("n")), "n" := ModelRow("p", "y", None)])

  lemma WithFallbackValid()
    ensures Lists(["p"], WITH_FALLBACK.providers.Keys) && SchemaValid(WITH_FALLBACK, ["p"])
  {
    var c := WITH_FALLBACK;
    assert ShapeValid(c);
    assert FallbacksValid(c.models);
    assert c.models["m"].providerInstance == "p";
    assert LinksValid(c.providers, c.models);
  }

  lemma WithFallbackBoots(env: Env)
    requires env.Trimmed("K") != ""
    ensures Lists(["p"], WITH_FALLBACK.providers.Keys) && Bootable(WITH_FALLBACK, ["p"], env)
  {
    WithFallbackValid();
    assert Active(WITH_FALLBACK, "m");
    AcceptedOnceValid(WITH_FALLBACK, env, false);
  }

  lemma WithFallbackUnwarned()
    ensures !IsLastModelInConfig(WITH_FALLBACK, "n") && !IsLastModelForEnabledProvider(WITH_FALLBACK, "n")
            && IsFallback(WITH_FALLBACK, "n")
  {
    var c := WITH_FALLBACK;
    assert |c.models| == 2;
    assert c.models["m"].providerInstance == "p" && "m" != "n";
    AloneIff(c.models, "n");
    assert c.models["m"].fallback == Some("n");
  }

  /**
    The two warnings do not decide a removal: neither applies here, but a model falls back to the one removed, and what
    is left does not boot.
   */
  lemma FallbackBlocksRemoval(env: Env)
    requires env.Trimmed("K") != ""
    ensures Lists(["p"], WITH_FALLBACK.providers.Keys) && Bootable(WITH_FALLBACK, ["p"], env)
    ensures !IsLastModelInConfig(WITH_FALLBACK, "n") && !IsLastModelForEnabledProvider(WITH_FALLBACK, "n")
    ensures !Bootable(RemoveModel(WITH_FALLBACK, "n"), ["p"], env)
  {
    WithFallbackBoots(env);
    WithFallbackUnwarned();
    RemoveStaysBootableIff(WITH_FALLBACK, ["p"], env, "n");
  }

  /** Two instances with one reference, one of them with the empty id. */
  const SHARED_KEY := Config("M", map["" := KEYED, "q" := KEYED], map[],
                             map["m" := ModelRow("", "x", None), "n" := ModelRow("q", "x", None)])

  lemma SharedKeyLinks()
    ensures ShapeValid(SHARED_KEY) && FallbacksValid(SHARED_KEY.models)
            && LinksValid(SHARED_KEY.providers, SHARED_KEY.models)
  {
    var c := SHARED_KEY;
    assert c.models["m"].providerInstance == "" && c.models["n"].providerInstance == "q";
    assert HasModel(c.models, "") && HasModel(c.models, "q");
  }

  lemma SharedKeyRefs()
    ensures Lists(["", "q"], SHARED_KEY.providers.Keys) && ProvidersValid(SHARED_KEY.providers, ["", "q"])
    ensures Lists(["q", ""], SHARED_KEY.providers.Keys) && !RefsDistinct(SHARED_KEY.providers, ["q", ""])
  {
    var order := ["q", ""];
    assert Lists(order, SHARED_KEY.providers.Keys);
    assert SHARED_KEY.providers[order[0]].apiKeyRef == SHARED_KEY.providers[order[1]].apiKeyRef && order[0] != "";
  }

  /**
    A duplicate reference is overlooked when the instance with the empty id comes first, and refused when it comes last.
   */
  lemma EmptyIdHidesDuplicate(env: Env)
    requires env.Trimmed("K") != ""
    ensures SHARED_KEY.providers[""].apiKeyRef == SHARED_KEY.providers["q"].apiKeyRef
    ensures Lists(["", "q"], SHARED_KEY.providers.Keys) && Bootable(SHARED_KEY, ["", "q"], env)
    ensures Lists(["q", ""], SHARED_KEY.providers.Keys) && !SchemaValid(SHARED_KEY, ["q", ""])
  {
    SharedKeyLinks();
    SharedKeyRefs();
    assert Active(SHARED_KEY, "m");
    AcceptedOnceValid(SHARED_KEY, env, false);
  }

  /** For a configuration that passes the schema, the start-up check only asks for an active model and the secrets. */
  lemma AcceptedOnceValid(c: Config, env: Env, allowMissingSecrets: bool)
    requires LinksValid(c.providers, c.models)
    ensures Accepted(c, env, allowMissingSecrets) <==>
            (exists a :: a in c.models && Active(c, a)) && (allowMissingSecrets || SecretsPresent(c.providers, env))
  {
    var e := Effective(c);
    forall id | id in e.providers
      ensures HasModel(e.models, id)
    {
      assert HasModel(c.models, id);
      var a :| a in c.models && c.models[a].providerInstance == id;
      assert a in e.models;
    }
    if exists a :: a in c.models && Active(c, a) {
      var a :| a in c.models && Active(c, a);
      assert a in e.models;
    } else {
      assert e.models == map[];
    }
  }

  function ActiveAfter(c: Config, disabled: set<string>, removed: set<string>): set<string> {
    set a | a in c.models && c.models[a].providerInstance !in removed && Active(c, a)
        && c.models[a].providerInstance !in disabled
  }

  method CountActiveModelsAfterProviderChange(c: Config, order: seq<string>, disabled: set<string>,
                                              removed: set<string>)
    returns (count: nat)
    requires Lists(order, c.models.Keys)
    ensures count == |ActiveAfter(c, disabled, removed)|
  {
    count := 0;
    ghost var seen: set<string> := {};
    for n := 0 to |order|
      invariant seen == set a | a in order[..n] && a in ActiveAfter(c, disabled, removed)
      invariant count == |seen|
    {
      var model := c.models[order[n]];
      assert order[..n + 1] == order[..n] + [order[n]];
      assert order[n] !in seen;
      if model.providerInstance in removed { continue; }
      if model.providerInstance !in c.providers { continue; }
      if model.providerInstance in disabled { continue; }
      if !c.providers[model.providerInstance].enabled { continue; }
      count := count + 1;
      seen := seen + {order[n]};
    }
    assert order[..|order|] == order;
    assert seen == ActiveAfter(c, disabled, removed);
  }

  function AliasesOf(models: Models, id: string): set<string> {
    set a | a in models && models[a].providerInstance == id
  }

  predicate IsLastModelInConfig(c: Config, alias: string) {
    |c.models| == 1 && alias in c.models
  }

  predicate IsLastModelForEnabledProvider(c: Config, alias: string) {
    alias in c.models &&
    var id := c.models[alias].providerInstance;
    id in c.providers && c.providers[id].enabled && |AliasesOf(c.models, id)| == 1
  }

  function RemoveModel(c: Config, alias: string): Config {
    c.(models := c.models - {alias})
  }

  function MoveModel(c: Config, alias: string, target: string): Config
    requires alias in c.models
  {
    c.(models := c.models[alias := c.models[alias].(providerInstance := target)])
  }

  function SetEnabled(c: Config, id: string, enabled: bool): Config
    requires id in c.providers
  {
    c.(providers := c.providers[id := c.providers[id].(enabled := enabled)])
  }

  lemma AloneIff(models: Models, alias: string)
    requires alias in models
    ensures var id := models[alias].providerInstance;
            |AliasesOf(models, id)| == 1 <==> forall a :: a in models && a != alias ==> models[a].providerInstance != id
  {
    var id := models[alias].providerInstance;
    var s := AliasesOf(models, id);
    assert alias in s;
    if |s| == 1 {
      forall a | a in models && a != alias
        ensures models[a].providerInstance != id
      {
        assert |s - {alias}| == 0;
        assert a !in s - {alias};
      }
    }
    if forall a :: a in models && a != alias ==> models[a].providerInstance != id {
      assert s == {alias};
    }
  }

  /**
    The only model of a bootable configuration is the last one of an enabled provider: one warning implies the other.
   */
  lemma LastInConfigIsLastForProvider(c: Config, order: seq<string>, env: Env, alias: string)
    requires Lists(order, c.providers.Keys) && Bootable(c, order, env) && IsLastModelInConfig(c, alias)
    ensures IsLastModelForEnabledProvider(c, alias)
  {
    assert c.models.Keys == {alias} by {
      assert |c.models.Keys| == 1;
      assert |c.models.Keys - {alias}| == 0;
    }
    AcceptedOnceValid(c, env, false);
    AloneIff(c.models, alias);
  }

  ghost predicate IsFallback(c: Config, alias: string) {
    exists a :: a in c.models && a != alias && c.models[a].fallback == Some(alias)
  }

  /**
    Removing a model keeps a configuration bootable exactly when neither warning applies and nothing falls back to it.
   */
  lemma RemoveStaysBootableIff(c: Config, order: seq<string>, env: Env, alias: string)
    requires Lists(order, c.providers.Keys) && Bootable(c, order, env) && alias in c.models
    ensures Bootable(RemoveModel(c, alias), order, env) <==>
            !IsLastModelInConfig(c, alias) && !IsLastModelForEnabledProvider(c, alias) && !IsFallback(c, alias)
  {
    var d := RemoveModel(c, alias);
    RemovedFallbacks(c, alias);
    RemovedLinks(c, alias);
    AcceptedOnceValid(c, env, false);
    assert ShapeValid(d);
    if LinksValid(d.providers, d.models) {
      AcceptedOnceValid(d, env, false);
      StaysActive(c, d);
    }
  }

  /** With the providers kept and every enabled one still served, an active model remains. */
  lemma StaysActive(c: Config, d: Config)
    requires c.providers == d.providers && LinksValid(d.providers, d.models)
    requires exists a :: a in c.models && Active(c, a)
    ensures exists a :: a in d.models && Active(d, a)
  {
    var a :| a in c.models && Active(c, a);
    assert HasModel(d.models, c.models[a].providerInstance);
    var b :| b in d.models && d.models[b].providerInstance == c.models[a].providerInstance;
    assert Active(d, b);
  }

  lemma RemovedFallbacks(c: Config, alias: string)
    requires FallbacksValid(c.models) && alias in c.models
    ensures FallbacksValid(RemoveModel(c, alias).models) <==> !IsFallback(c, alias)
  {
    var d := RemoveModel(c, alias).models;
    if IsFallback(c, alias) {
      var a :| a in c.models && a != alias && c.models[a].fallback == Some(alias);
      assert a in d && d[a].fallback == Some(alias) && alias !in d;
    }
  }

  lemma RemovedLinks(c: Config, alias: string)
    requires LinksValid(c.providers, c.models) && alias in c.models
    ensures LinksValid(c.providers, RemoveModel(c, alias).models)
            <==> !IsLastModelInConfig(c, alias) && !IsLastModelForEnabledProvider(c, alias)
  {
    var d := RemoveModel(c, alias).models;
    var id := c.models[alias].providerInstance;
    AloneIff(c.models, alias);
    assert d == map[] <==> |c.models| == 1 by {
      assert d.Keys == c.models.Keys - {alias};
      assert |d.Keys| == |c.models.Keys| - 1;
    }
    if !IsLastModelForEnabledProvider(c, alias) {
      forall p | p in c.providers && c.providers[p].enabled
        ensures HasModel(d, p)
      {
        assert HasModel(c.models, p);
        var a :| a in c.models && c.models[a].providerInstance == p && (p == id ==> a != alias);
        assert a in d;
      }
    } else {
      assert !HasModel(d, id);
    }
  }

  /**
    "Remove anyway" never saves: whenever a warning was shown, the schema refuses what is left, bootable before or not.
   */
  lemma RemoveAnywayNeverSaves(c: Config, order: seq<string>, alias: string)
    requires Lists(order, c.providers.Keys)
    requires IsLastModelInConfig(c, alias) || IsLastModelForEnabledProvider(c, alias)
    ensures !SchemaValid(RemoveModel(c, alias), order)
  {
    var d := RemoveModel(c, alias).models;
    AloneIff(c.models, alias);
    if IsLastModelInConfig(c, alias) {
      assert |c.models.Keys - {alias}| == 0;
      assert d.Keys == {};
    } else {
      assert !HasModel(d, c.models[alias].providerInstance);
    }
  }

  lemma MovedLinks(c: Config, alias: string, target: string)
    requires LinksValid(c.providers, c.models) && alias in c.models
    ensures LinksValid(c.providers, MoveModel(c, alias, target).models) <==>
            target in c.providers
                && (target == c.models[alias].providerInstance || !IsLastModelForEnabledProvider(c, alias))
  {
    var d := MoveModel(c, alias, target).models;
    var id := c.models[alias].providerInstance;
    AloneIff(c.models, alias);
    assert alias in d;
    if target == id {
      assert d == c.models;
    } else if target in c.providers {
      if IsLastModelForEnabledProvider(c, alias) {
        assert !HasModel(d, id);
      } else {
        forall p | p in c.providers && c.providers[p].enabled
          ensures HasModel(d, p)
        {
          assert HasModel(c.models, p);
          var a :| a in c.models && c.models[a].providerInstance == p && (p == id ==> a != alias);
          assert a in d && (a != alias ==> d[a].providerInstance == p);
        }
      }
    }
  }

  lemma MovedKeepsRest(c: Config, alias: string, target: string)
    requires alias in c.models && ShapeValid(c) && FallbacksValid(c.models)
    ensures ShapeValid(MoveModel(c, alias, target)) && FallbacksValid(MoveModel(c, alias, target).models)
  {
    var d := MoveModel(c, alias, target).models;
    assert forall a :: a in d ==> a in c.models && d[a].fallback == c.models[a].fallback;
  }

  /**
    Moving a model keeps a configuration bootable exactly when the target exists and its old provider is not left
    without models.
   */
  lemma MoveStaysBootableIff(c: Config, order: seq<string>, env: Env, alias: string, target: string)
    requires Lists(order, c.providers.Keys) && Bootable(c, order, env) && alias in c.models
    ensures Bootable(MoveModel(c, alias, target), order, env) <==>
            target in c.providers
                && (target == c.models[alias].providerInstance || !IsLastModelForEnabledProvider(c, alias))
  {
    var d := MoveModel(c, alias, target);
    MovedLinks(c, alias, target);
    MovedKeepsRest(c, alias, target);
    AcceptedOnceValid(c, env, false);
    if LinksValid(d.providers, d.models) {
      AcceptedOnceValid(d, env, false);
      StaysActive(c, d);
    }
  }

  /** "Move anyway" never saves either. */
  lemma MoveAnywayNeverSaves(c: Config, order: seq<string>, alias: string, target: string)
    requires Lists(order, c.providers.Keys) && IsLastModelForEnabledProvider(c, alias)
             && target != c.models[alias].providerInstance
    ensures !SchemaValid(MoveModel(c, alias, target), order)
  {
    AloneIff(c.models, alias);
    assert !HasModel(MoveModel(c, alias, target).models, c.models[alias].providerInstance);
  }

  /**
    Disabling a provider keeps a configuration bootable exactly when the preview counts a model, and it counts the
    models left active.
   */
  lemma DisableStaysBootableIff(c: Config, order: seq<string>, env: Env, id: string)
    requires Lists(order, c.providers.Keys) && Bootable(c, order, env) && id in c.providers
    ensures ActiveAfter(c, {id}, {}) == Effective(SetEnabled(c, id, false)).models.Keys
    ensures Lists(order, SetEnabled(c, id, false).providers.Keys)
    ensures Bootable(SetEnabled(c, id, false), order, env) <==> |ActiveAfter(c, {id}, {})| > 0
  {
    var d := SetEnabled(c, id, false);
    DisabledStaysValid(c, order, id);
    AcceptedOnceValid(d, env, false);
    DisabledCount(c, id);
    DisabledSecrets(c, env, id);
  }

  lemma DisabledCount(c: Config, id: string)
    requires id in c.providers
    ensures ActiveAfter(c, {id}, {}) == Effective(SetEnabled(c, id, false)).models.Keys
    ensures |ActiveAfter(c, {id}, {})| > 0 <==> exists a :: a in c.models && Active(SetEnabled(c, id, false), a)
  {
    var d := SetEnabled(c, id, false);
    assert forall a :: a in c.models ==> (Active(d, a) <==> a in ActiveAfter(c, {id}, {}));
    if |ActiveAfter(c, {id}, {})| > 0 {
      var a :| a in ActiveAfter(c, {id}, {});
    }
  }

  lemma DisabledSecrets(c: Config, env: Env, id: string)
    requires id in c.providers && SecretsPresent(c.providers, env)
    ensures SecretsPresent(SetEnabled(c, id, false).providers, env)
  {
  }

  /** "Disable anyway" does save: the schema never minds a disabled provider. */
  lemma DisabledStaysValid(c: Config, order: seq<string>, id: string)
    requires Lists(order, c.providers.Keys) && SchemaValid(c, order) && id in c.providers
    ensures Lists(order, SetEnabled(c, id, false).providers.Keys) && SchemaValid(SetEnabled(c, id, false), order)
  {
    SetEnabledKeepsRows(c, order, id, false);
  }

  /** Enabling a provider needs a model of its own and its secret, and nothing else. */
  lemma EnableStaysBootableIff(c: Config, order: seq<string>, env: Env, id: string)
    requires Lists(order, c.providers.Keys) && Bootable(c, order, env) && id in c.providers
    ensures Lists(order, SetEnabled(c, id, true).providers.Keys)
    ensures Bootable(SetEnabled(c, id, true), order, env)
            <==> |AliasesOf(c.models, id)| > 0 && RowSecretsPresent(c.providers[id], env)
  {
    var d := SetEnabled(c, id, true);
    SetEnabledKeepsRows(c, order, id, true);
    EnabledLinks(c, id);
    AcceptedOnceValid(c, env, false);
    if LinksValid(d.providers, d.models) {
      AcceptedOnceValid(d, env, false);
      EnabledActive(c, id);
      EnabledSecrets(c, env, id);
    }
  }

  lemma SetEnabledKeepsRows(c: Config, order: seq<string>, id: string, enabled: bool)
    requires Lists(order, c.providers.Keys) && ShapeValid(c) && ProvidersValid(c.providers, order) && id in c.providers
    ensures Lists(order, SetEnabled(c, id, enabled).providers.Keys)
    ensures ShapeValid(SetEnabled(c, id, enabled)) && ProvidersValid(SetEnabled(c, id, enabled).providers, order)
  {
    var d := SetEnabled(c, id, enabled);
    assert d.providers.Keys == c.providers.Keys;
    assert forall p :: p in c.providers ==> d.providers[p] == c.providers[p].(enabled := d.providers[p].enabled);
    assert forall p :: p in c.providers ==> RowValid(c.providers[p]) ==> RowValid(d.providers[p]);
  }

  lemma EnabledLinks(c: Config, id: string)
    requires LinksValid(c.providers, c.models) && id in c.providers
    ensures LinksValid(SetEnabled(c, id, true).providers, c.models) <==> |AliasesOf(c.models, id)| > 0
  {
    var d := SetEnabled(c, id, true);
    if HasModel(c.models, id) {
      var a :| a in c.models && c.models[a].providerInstance == id;
      assert a in AliasesOf(c.models, id);
    } else {
      assert AliasesOf(c.models, id) == {};
      assert d.providers[id].enabled;
    }
  }

  lemma EnabledActive(c: Config, id: string)
    requires id in c.providers && exists a :: a in c.models && Active(c, a)
    ensures exists a :: a in c.models && Active(SetEnabled(c, id, true), a)
  {
    var a :| a in c.models && Active(c, a);
    assert Active(SetEnabled(c, id, true), a);
  }

  lemma EnabledSecrets(c: Config, env: Env, id: string)
    requires id in c.providers && SecretsPresent(c.providers, env)
    ensures SecretsPresent(SetEnabled(c, id, true).providers, env) <==> RowSecretsPresent(c.providers[id], env)
  {
    var d := SetEnabled(c, id, true);
    assert RowSecretsPresent(d.providers[id], env) == RowSecretsPresent(c.providers[id], env);
  }

  /** The three questions asked before a fallback is edited are exactly those the schema will ask of every model. */
  lemma SetFallbackValidIff(models: Models, alias: string, fallback: string)
    requires FallbacksValid(models) && alias in models
    ensures FallbacksValid(models[alias := models[alias].(fallback := Some(fallback))]) <==>
            fallback != alias && fallback in models && models[fallback].fallback != Some(alias)
  {
    var d := models[alias := models[alias].(fallback := Some(fallback))];
    assert alias in d && d[alias].fallback == Some(fallback);
    if fallback != alias && fallback in models && models[fallback].fallback != Some(alias) {
      forall a | a in d && d[a].fallback.Some?
        ensures FallbackValid(d, a)
      {
        assert FallbackValid(models, a) || a == alias;
      }
      assert forall a :: a in d ==> FallbackValid(d, a);
    }
  }
}

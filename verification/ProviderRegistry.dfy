/** Registration of providers at start-up, and the resolution of model aliases against what was registered. */
module ProviderRegistry {
  import opened Prelude
  import opened Text
  import opened GatewayConfig

  /** The resolved secrets of an instance; rows of other types have no base URL. */
  datatype Runtime = Runtime(apiKey: string, baseUrl: string)

  function ProvidersByInstance(gateway: Config, env: Env): map<string, Runtime> {
    map id | id in gateway.providers ::
      var row := gateway.providers[id];
      Runtime(env.Trimmed(row.apiKeyRef), if IsOpenAiProviderType(row.kind) then env.BaseUrl(row.baseUrlRef) else "")
  }

  datatype BootError = MissingRuntime(id: string) | MissingApiKey(id: string) | MissingBaseUrl(id: string)

  predicate Startable(row: ProviderRow, id: string, byInstance: map<string, Runtime>) {
    && id in byInstance
    && (if IsApiKeyRequired(row.kind) then Trim(byInstance[id].apiKey) != "" else byInstance[id].baseUrl != "")
  }

  ghost predicate AllStartable(gateway: Config, byInstance: map<string, Runtime>) {
    forall id :: id in gateway.providers && gateway.providers[id].enabled ==>
        Startable(gateway.providers[id], id, byInstance)
  }

  /** The registrations of the enabled instances among `ids`. */
  function Registrations(gateway: Config, ids: seq<string>): map<string, ProviderType> {
    map id | id in gateway.providers && id in ids && gateway.providers[id].enabled :: gateway.providers[id].kind
  }

  datatype ApiSurface = Responses | ChatCompletions

  datatype Resolved = Resolved(
    providerName: string,
    providerType: ProviderType,
    modelId: string,
    modelAlias: string,
    fallbackAlias: Option<string>,
    openAiApiSurface: Option<ApiSurface>)

  datatype ResolveError = ModelAliasNotFound | ProviderNotFound | ProviderNotRegistered | TypeMismatch

  function ResolveProviderEntry(gateway: Config, instances: map<string, ProviderType>,
                                model: ModelRow): Result<ProviderType, ResolveError> {
    var id := model.providerInstance;
    if id !in gateway.providers then Err(ProviderNotFound)
    else if id !in instances then Err(ProviderNotRegistered)
    else if instances[id] != gateway.providers[id].kind then Err(TypeMismatch)
    else Ok(instances[id])
  }

  /** The fallback of a model, dropped when it is not itself configured. */
  function FallbackAlias(gateway: Config, model: ModelRow): Option<string> {
    if model.fallback.None? || model.fallback.value == "" || model.fallback.value !in gateway.models then None
    else model.fallback
  }

  function ResolveIn(gateway: Config, instances: map<string, ProviderType>, alias: string)
    : Result<Resolved, ResolveError>
  {
    if alias !in gateway.models then Err(ModelAliasNotFound)
    else
      var model := gateway.models[alias];
      match ResolveProviderEntry(gateway, instances, model)
      case Err(e) => Err(e)
      case Ok(kind) =>
        Ok(Resolved(model.providerInstance, kind, model.modelId, alias, FallbackAlias(gateway, model),
                    if kind.OpenAi? then Some(Responses) else if kind.OpenAiCompatible? then Some(ChatCompletions)
                    else None))
  }

  /** The checks before a factory is called, and the factory's own on the base URL. */
  method StartProvider(row: ProviderRow, id: string, byInstance: map<string, Runtime>)
    returns (problem: Option<BootError>)
    ensures problem.None? <==> Startable(row, id, byInstance)
    ensures problem.Some? ==> problem.value.id == id && (problem.value.MissingRuntime? <==> id !in byInstance)
  {
    if id !in byInstance {
      return Some(MissingRuntime(id));
    }
    var runtime := byInstance[id];
    if IsApiKeyRequired(row.kind) && |Trim(runtime.apiKey)| == 0 {
      return Some(MissingApiKey(id));
    }
    if IsOpenAiProviderType(row.kind) && |runtime.baseUrl| == 0 {
      return Some(MissingBaseUrl(id));
    }
    return None;
  }

  class Registry {
    var instances: map<string, ProviderType>

    constructor ()
      ensures instances == map[]
    {
      instances := map[];
    }

    method RegisterInstance(id: string, kind: ProviderType)
      modifies this
      ensures instances == old(instances)[id := kind]
    {
      instances := instances[id := kind];
    }

    function Resolve(gateway: Config, alias: string): Result<Resolved, ResolveError>
      reads this
    {
      ResolveIn(gateway, instances, alias)
    }

    /**
      Registers every enabled instance in order; the first that cannot start stops it, with those before it registered.
     */
    method OnApplicationBootstrap(gateway: Config, order: seq<string>, byInstance: map<string, Runtime>)
      returns (r: Option<BootError>)
      requires Lists(order, gateway.providers.Keys)
      modifies this
      ensures r.None? <==> AllStartable(gateway, byInstance)
      ensures r.None? ==> instances == old(instances) + Registrations(gateway, order)
      ensures r.Some? ==> exists n :: 0 <= n < |order| && gateway.providers[order[n]].enabled && r.value.id == order[n]
                            && !Startable(gateway.providers[order[n]], order[n], byInstance)
                            && instances == old(instances) + Registrations(gateway, order[..n])
    {
      assert order[..0] == [];
      for n := 0 to |order|
        invariant instances == old(instances) + Registrations(gateway, order[..n])
        invariant forall i :: 0 <= i < n && gateway.providers[order[i]].enabled ==>
                  Startable(gateway.providers[order[i]], order[i], byInstance)
      {
        var id := order[n];
        var row := gateway.providers[id];
        NextRegistration(gateway, old(instances), order, n);
        if !row.enabled { continue; }
        var problem := StartProvider(row, id, byInstance);
        if problem.Some? { return problem; }
        RegisterInstance(id, row.kind);
      }
      assert order[..|order|] == order;
      assert forall id :: id in gateway.providers ==> id in order;
      return None;
    }
  }

  lemma NextRegistration(gateway: Config, before: map<string, ProviderType>, order: seq<string>, n: nat)
    requires n < |order| && order[n] in gateway.providers
    ensures var row := gateway.providers[order[n]];
            before + Registrations(gateway, order[..n + 1])
            == if row.enabled then (before + Registrations(gateway, order[..n]))[order[n] := row.kind]
                else before + Registrations(gateway, order[..n])
  {
    assert order[..n + 1] == order[..n] + [order[n]];
    var row := gateway.providers[order[n]];
    assert Registrations(gateway, order[..n + 1])
        == if row.enabled then Registrations(gateway, order[..n])[order[n] := row.kind]
            else Registrations(gateway, order[..n]);
  }

  // ---------------------------------------------------------------------------
  // From an accepted configuration to a gateway that resolves
  // ---------------------------------------------------------------------------

  lemma BaseUrlNotEmpty(env: Env, ref: Option<string>)
    requires env.Valid() && ref.Some? && !Blank(ref.value)
    ensures env.BaseUrl(ref) != "" <==> env.Trimmed(ref.value) != "" && env.isHttpUrl(env.Trimmed(ref.value))
  {
    var raw := env.Trimmed(ref.value);
    if |raw| == 1 && raw[0] == '/' { assert raw == "/"; }
  }

  /** What the environment holds for a row: a key, or for the OpenAI types an http(s) URL. */
  ghost predicate HasSecret(row: ProviderRow, env: Env) {
    if IsOpenAiProviderType(row.kind) then
      row.baseUrlRef.Some? && env.Trimmed(row.baseUrlRef.value) != ""
          && env.isHttpUrl(env.Trimmed(row.baseUrlRef.value))
    else env.Trimmed(row.apiKeyRef) != ""
  }

  /**
    What the configuration check demands is exactly what start-up needs: on valid rows neither fails where the other
    passes. Both come down to the environment: every enabled row has its key or its URL there.
   */
  lemma SecretsAreWhatStartupNeeds(c: Config, order: seq<string>, env: Env)
    requires Lists(order, c.providers.Keys) && ProvidersValid(c.providers, order)
    ensures SecretsPresent(c.providers, env) <==> AllStartable(Effective(c), ProvidersByInstance(Effective(c), env))
    ensures env.Valid() ==>
              (SecretsPresent(c.providers, env)
               <==> forall id :: id in c.providers && c.providers[id].enabled ==> HasSecret(c.providers[id], env))
  {
    var g := Effective(c);
    var byInstance := ProvidersByInstance(g, env);
    forall id | id in c.providers && c.providers[id].enabled
      ensures id in g.providers
              && (RowSecretsPresent(c.providers[id], env) <==> Startable(g.providers[id], id, byInstance))
    {
      assert RowValid(c.providers[id]);
    }
    if env.Valid() {
      forall id | id in c.providers && c.providers[id].enabled
        ensures RowSecretsPresent(c.providers[id], env) <==> HasSecret(c.providers[id], env)
      {
        var row := c.providers[id];
        assert RowValid(row);
        if IsOpenAiProviderType(row.kind) { BaseUrlNotEmpty(env, row.baseUrlRef); }
      }
    }
  }

  /**
    Every alias of an accepted configuration resolves once started, and no other; its fallback is another alias that
    resolves too.
   */
  lemma StartedGatewayResolvesIff(c: Config, order: seq<string>, env: Env, ids: seq<string>, alias: string)
    requires Lists(order, c.providers.Keys) && Bootable(c, order, env)
    requires Lists(ids, Effective(c).providers.Keys)
    ensures var g := Effective(c);
            var instances := Registrations(g, ids);
            && AllStartable(g, ProvidersByInstance(g, env))
            && (ResolveIn(g, instances, alias).Ok? <==> alias in c.models && Active(c, alias))
            && (ResolveIn(g, instances, alias).Err? ==> ResolveIn(g, instances, alias).error == ModelAliasNotFound)
            && (ResolveIn(g, instances, alias).Ok? ==>
                  var r := ResolveIn(g, instances, alias).value;
                  && r.modelAlias == alias && r.providerName == c.models[alias].providerInstance
                  && r.providerType == c.providers[r.providerName].kind
                  && (r.fallbackAlias.Some?
                      <==> c.models[alias].fallback.Some? && Active(c, c.models[alias].fallback.value))
                  && (r.fallbackAlias.Some? ==>
                        r.fallbackAlias == c.models[alias].fallback && r.fallbackAlias.value != alias
                        && ResolveIn(g, instances, r.fallbackAlias.value).Ok?
                        && ResolveIn(g, instances, r.fallbackAlias.value).value.fallbackAlias != Some(alias)))
  {
    SecretsAreWhatStartupNeeds(c, order, env);
    var g := Effective(c);
    if alias in g.models {
      ActiveResolves(c, ids, alias);
      assert FallbackValid(c.models, alias);
      var f := FallbackAlias(g, g.models[alias]);
      if f.Some? {
        ActiveResolves(c, ids, f.value);
      }
    }
  }

  lemma ActiveResolves(c: Config, ids: seq<string>, alias: string)
    requires Lists(ids, Effective(c).providers.Keys)
    requires alias in c.models && Active(c, alias)
    ensures var g := Effective(c);
            ResolveIn(g, Registrations(g, ids), alias).Ok?
  {
    var g := Effective(c);
    assert alias in g.models;
    EffectiveLinks(c, alias);
    var id := g.models[alias].providerInstance;
    assert id in ids;
    assert id in Registrations(g, ids);
  }
}

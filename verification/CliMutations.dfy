/** The command line's changes to the configuration: what is kept in memory, what is saved, what is undone. */
module CliMutations {
  import opened Prelude
  import opened GatewayConfig
  import opened EnvFile
  import opened EnvRollback

  /** A listing of the records, and the environment the checks see. */
  datatype Context = Context(providerOrder: seq<string>, modelOrder: seq<string>, env: Env)

  ghost predicate Fits(ctx: Context, c: Config) {
    Lists(ctx.providerOrder, c.providers.Keys) && Lists(ctx.modelOrder, c.models.Keys)
  }

  ghost predicate Persistable(c: Config, ctx: Context, skipEffectiveCheck: bool, allowMissingSecrets: bool)
    requires Fits(ctx, c)
  {
    SchemaValid(c, ctx.providerOrder) && (skipEffectiveCheck || Accepted(c, ctx.env, allowMissingSecrets))
  }

  method SafeParse(c: Config, ctx: Context) returns (ok: bool)
    requires Fits(ctx, c)
    ensures ok <==> SchemaValid(c, ctx.providerOrder)
  {
    var rows := seq(|ctx.providerOrder|, i requires 0 <= i < |ctx.providerOrder| => c.providers[ctx.providerOrder[i]]);
    var inProviders := CheckProviders(ctx.providerOrder, rows, c.providers);
    var inFallbacks := CheckFallbacks(c.models, ctx.modelOrder);
    var inLinks := CheckLinks(c.providers, c.models, ctx.providerOrder, ctx.modelOrder);
    return ShapeValid(c) && |inProviders| == 0 && |inFallbacks| == 0 && |inLinks| == 0;
  }

  datatype NewModel = NewModel(alias: string, modelId: string)

  function AddModel(models: Models, m: NewModel, instance: string): Models {
    models[m.alias := ModelRow(instance, m.modelId, None)]
  }

  /** The models with the first entries of `added`, in order. */
  function WithModels(models: Models, added: seq<NewModel>, instance: string): Models {
    if added == [] then models
    else AddModel(WithModels(models, added[..|added| - 1], instance), added[|added| - 1], instance)
  }

  function Aliases(added: seq<NewModel>): set<string> {
    set m | m in added :: m.alias
  }

  ghost predicate AllNew(models: Models, added: seq<NewModel>) {
    && (forall i :: 0 <= i < |added| ==> added[i].alias !in models)
    && (forall i, j :: 0 <= i < j < |added| ==> added[i].alias != added[j].alias)
  }

  lemma {:induction false} WithModelsKeys(models: Models, added: seq<NewModel>, instance: string)
    ensures WithModels(models, added, instance).Keys == models.Keys + Aliases(added)
    ensures forall a :: a in models && a !in Aliases(added) ==> WithModels(models, added, instance)[a] == models[a]
  {
    if added != [] {
      var init, last := added[..|added| - 1], added[|added| - 1];
      WithModelsKeys(models, init, instance);
      assert added == init + [last];
      assert Aliases(added) == Aliases(init) + {last.alias};
    }
  }

  /** Deleting the added aliases gives the models back, because none of them was there before. */
  lemma DeletingAddedRestores(models: Models, added: seq<NewModel>, instance: string)
    requires AllNew(models, added)
    ensures WithModels(models, added, instance) - Aliases(added) == models
  {
    WithModelsKeys(models, added, instance);
  }

  datatype Outcome = Saved | Refused | AlreadyExists | NotFound | NeedsModel | NeedsConfirmation | AliasTaken(at: nat)

  class Cli {
    var config: Config
    var saved: Option<Config>
    const file: EnvPatch

    constructor (config: Config, saved: Option<Config>, file: EnvPatch)
      ensures this.config == config && this.saved == saved && this.file == file
    {
      this.config, this.saved, this.file := config, saved, file;
    }

    method PersistConfig(ctx: Context, skipEffectiveCheck: bool, allowMissingSecrets: bool) returns (ok: bool)
      requires Fits(ctx, config)
      modifies this`saved
      ensures ok <==> Persistable(config, ctx, skipEffectiveCheck, allowMissingSecrets)
      ensures saved == if ok then Some(config) else old(saved)
    {
      ok := SafeParse(config, ctx);
      if !ok { return; }
      if !skipEffectiveCheck {
        var effective := BuildEffectiveGatewayConfig(config, ctx.providerOrder, ctx.modelOrder, ctx.env,
                                                     allowMissingSecrets);
        if effective.Err? { return false; }
      }
      saved := Some(config);
    }

    /** Without `persist`, as every caller here uses it. */
    method ApplyAddModel(m: NewModel, instance: string) returns (ok: bool)
      modifies this`config
      ensures ok <==> instance in old(config).providers && m.alias !in old(config).models
      ensures config == if ok then old(config).(models := AddModel(old(config).models, m, instance)) else old(config)
    {
      if instance !in config.providers { return false; }
      if m.alias in config.models { return false; }
      config := config.(models := config.models[m.alias := ModelRow(instance, m.modelId, None)]);
      return true;
    }

    /** The loop of `applyAddProvider`; it stops at the first alias already taken, with those before it added. */
    method AddModels(added: seq<NewModel>, instance: string) returns (taken: Option<nat>)
      requires instance in config.providers
      modifies this`config
      ensures taken.None? <==> AllNew(old(config).models, added)
      ensures taken.None? ==> config == old(config).(models := WithModels(old(config).models, added, instance))
      ensures taken.Some? ==> taken.value < |added| && AllNew(old(config).models, added[..taken.value])
                              && config.models == WithModels(old(config).models, added[..taken.value], instance)
                              && config == old(config).(models := config.models)
    {
      assert added[..0] == [];
      var n := 0;
      while n < |added|
        invariant n <= |added|
        invariant AllNew(old(config).models, added[..n])
        invariant config == old(config).(models := WithModels(old(config).models, added[..n], instance))
      {
        WithModelsKeys(old(config).models, added[..n], instance);
        var ok := ApplyAddModel(added[n], instance);
        NextIsNew(old(config).models, added, n);
        if !ok { return Some(n); }
        assert added[..n + 1][..n] == added[..n];
        n := n + 1;
      }
      assert added[..|added|] == added;
      return None;
    }

    /** Adds a provider with its models and secrets; a refused configuration is undone in memory and in the file. */
    method ApplyAddProvider(id: string, row: ProviderRow, added: seq<NewModel>, apiKey: string, baseUrl: string,
                            allowMissingSecrets: bool, ctx: Context)
      returns (outcome: Outcome)
      requires AllNew(config.models, added) ==> Fits(ctx, WithProvider(config, id, row, added))
      modifies this`config, this`saved, file
      ensures outcome.AlreadyExists? <==> id in old(config).providers
      ensures outcome.AlreadyExists? || outcome.NeedsModel? ==>
              config == old(config) && saved == old(saved) && file.text == old(file.text)
      ensures outcome.AliasTaken? ==>
                && saved == old(saved) && file.text == old(file.text) && outcome.at < |added|
                && config == WithProvider(old(config), id, row, added[..outcome.at])
      ensures outcome.Saved? ==>
                && AllNew(old(config).models, added)
                && Persistable(WithProvider(old(config), id, row, added), ctx, false, allowMissingSecrets)
                && config == WithProvider(old(config), id, row, added) && saved == Some(config)
                && file.Contents() == WithSecrets(old(file.Contents()), row, apiKey, baseUrl)
      ensures outcome.Refused? ==>
                && AllNew(old(config).models, added)
                && !Persistable(WithProvider(old(config), id, row, added), ctx, false, allowMissingSecrets)
                && config == old(config) && saved == old(saved)
                && file.Contents() == WithoutSecrets(WithSecrets(old(file.Contents()), row, apiKey, baseUrl), row)
    {
      if id in config.providers { return AlreadyExists; }
      if |AliasesOf(config.models, id)| == 0 && |added| == 0 { return NeedsModel; }
      config := config.(providers := config.providers[id := row]);
      var taken := AddModels(added, id);
      if taken.Some? { return AliasTaken(taken.value); }
      WriteSecrets(row, apiKey, baseUrl);
      var ok := PersistConfig(ctx, false, allowMissingSecrets);
      if ok { return Saved; }
      UndoAddProvider(id, row, added, old(config));
      DeleteSecrets(row);
      return Refused;
    }

    /** The deletions of the catch block. */
    method UndoAddProvider(id: string, row: ProviderRow, added: seq<NewModel>, ghost before: Config)
      requires config == WithProvider(before, id, row, added) && id !in before.providers && AllNew(before.models, added)
      modifies this`config
      ensures config == before
    {
      DeletingAddedRestores(before.models, added, id);
      assert config.providers - {id} == before.providers;
      config := config.(providers := config.providers - {id}, models := config.models - Aliases(added));
    }

    method WriteSecrets(row: ProviderRow, apiKey: string, baseUrl: string)
      modifies file
      ensures file.Contents() == WithSecrets(old(file.Contents()), row, apiKey, baseUrl)
    {
      file.WriteVar(row.apiKeyRef, apiKey);
      if row.baseUrlRef.Some? && row.baseUrlRef.value != "" {
        file.WriteVar(row.baseUrlRef.value, baseUrl);
      }
    }

    method DeleteSecrets(row: ProviderRow)
      modifies file
      ensures file.Contents() == WithoutSecrets(old(file.Contents()), row)
    {
      file.DeleteVar(row.apiKeyRef);
      if row.baseUrlRef.Some? && row.baseUrlRef.value != "" {
        file.DeleteVar(row.baseUrlRef.value);
      }
    }

    /** Adds a client with its key, and undoes both when the configuration is refused. */
    method ApplyAddClient(id: string, row: ClientRow, gatewayKey: string, ctx: Context) returns (outcome: Outcome)
      requires Fits(ctx, config)
      modifies this`config, this`saved, file
      ensures var changed := old(config).(clients := old(config).clients[id := row]);
              && Fits(ctx, changed)
              && (outcome.AlreadyExists? <==> id in old(config).clients)
              && (outcome.AlreadyExists? ==>
                  config == old(config) && saved == old(saved) && file.text == old(file.text))
              && (!outcome.AlreadyExists? ==>
                  outcome == if Persistable(changed, ctx, false, false) then Saved else Refused)
              && (outcome.Saved? ==> config == changed && saved == Some(changed)
                                     && file.Contents()
                                        == Through(SetVar(old(file.Contents()), row.gatewayKeyRef, gatewayKey)))
              && (outcome.Refused? ==>
                    && config == old(config) && saved == old(saved)
                    && file.Contents()
                       == Through(RemoveVar(Through(SetVar(old(file.Contents()), row.gatewayKeyRef, gatewayKey)),
                                            row.gatewayKeyRef)))
    {
      if id in config.clients { return AlreadyExists; }
      config := config.(clients := config.clients[id := row]);
      file.WriteVar(row.gatewayKeyRef, gatewayKey);
      var ok := PersistConfig(ctx, false, false);
      if ok { return Saved; }
      assert config.clients - {id} == old(config).clients;
      config := config.(clients := config.clients - {id});
      file.DeleteVar(row.gatewayKeyRef);
      return Refused;
    }

    /** Removes a model. A refusal is not undone in memory. */
    method ApplyRemoveModel(alias: string, ctx: Context) returns (outcome: Outcome)
      requires Fits(ctx, RemoveModel(config, alias))
      modifies this`config, this`saved
      ensures outcome.NotFound? <==> alias !in old(config).models
      ensures outcome.NotFound? ==> config == old(config) && saved == old(saved)
      ensures !outcome.NotFound? ==>
                && config == RemoveModel(old(config), alias)
                && (outcome.Saved? || outcome.Refused?)
                && saved == (if outcome.Saved? then Some(config) else old(saved))
      ensures Bootable(old(config), ctx.providerOrder, ctx.env) && alias in old(config).models ==>
                (outcome.Saved? <==> Bootable(config, ctx.providerOrder, ctx.env))
    {
      if alias !in config.models { return NotFound; }
      var lastInConfig := IsLastModelInConfig(config, alias);
      var lastForProvider := IsLastModelForEnabledProvider(config, alias);
      if lastInConfig || lastForProvider {
        RemoveAnywayNeverSaves(config, ctx.providerOrder, alias);
      }
      config := RemoveModel(config, alias);
      var ok := PersistConfig(ctx, lastInConfig || lastForProvider, false);
      return if ok then Saved else Refused;
    }

    /** The move of `applyEditModel`. A refusal is not undone in memory. */
    method ApplyMoveModel(alias: string, target: string, confirmNonBootable: bool,
                          ctx: Context) returns (outcome: Outcome)
      requires alias in config.models ==> Fits(ctx, MoveModel(config, alias, target))
      modifies this`config, this`saved
      ensures outcome.NotFound? <==> alias !in old(config).models
      ensures outcome.NotFound? || outcome.NeedsConfirmation? ==> config == old(config) && saved == old(saved)
      ensures alias in old(config).models ==>
                var leaves := target != old(config).models[alias].providerInstance
                    && IsLastModelForEnabledProvider(old(config), alias);
                && (outcome.NeedsConfirmation? <==> leaves && !confirmNonBootable)
                && (!outcome.NeedsConfirmation? ==>
                      && config == MoveModel(old(config), alias, target)
                      && (outcome.Saved? || outcome.Refused?)
                      && saved == (if outcome.Saved? then Some(config) else old(saved))
                      && (leaves ==> outcome.Refused?)
                      && (Bootable(old(config), ctx.providerOrder, ctx.env) ==>
                            (outcome.Saved? <==> Bootable(config, ctx.providerOrder, ctx.env))))
    {
      if alias !in config.models { return NotFound; }
      var skip := false;
      if target != config.models[alias].providerInstance && IsLastModelForEnabledProvider(config, alias) {
        if !confirmNonBootable { return NeedsConfirmation; }
        skip := true;
        MoveAnywayNeverSaves(config, ctx.providerOrder, alias, target);
      }
      config := MoveModel(config, alias, target);
      var ok := PersistConfig(ctx, skip, false);
      return if ok then Saved else Refused;
    }

    /** Enables or disables a provider. */
    method ApplySetEnabled(id: string, enabled: bool, confirmNonBootable: bool, ctx: Context) returns (outcome: Outcome)
      requires Fits(ctx, config)
      modifies this`config, this`saved
      ensures outcome.NotFound? <==> id !in old(config).providers
      ensures id in old(config).providers ==>
                var none := |ActiveAfter(old(config), {id}, {})| == 0;
                && (outcome.NeedsModel? <==> enabled && |AliasesOf(old(config).models, id)| == 0)
                && (outcome.NeedsConfirmation? <==> !enabled && none && !confirmNonBootable)
                && (outcome.Saved? || outcome.Refused? ==> config == SetEnabled(old(config), id, enabled))
                && (Bootable(old(config), ctx.providerOrder, ctx.env) && !enabled && !outcome.NeedsConfirmation? ==>
                      outcome.Saved? && Fits(ctx, config) && (Bootable(config, ctx.providerOrder, ctx.env) <==> !none))
                && (Bootable(old(config), ctx.providerOrder, ctx.env) && enabled ==>
                      (outcome.Saved? <==>
                         && |AliasesOf(old(config).models, id)| > 0
                         && RowSecretsPresent(old(config).providers[id], ctx.env)))
      ensures saved == if outcome.Saved? then Some(config) else old(saved)
      ensures !outcome.Saved? && !outcome.Refused? ==> config == old(config)
    {
      if id !in config.providers { return NotFound; }
      if enabled && |AliasesOf(config.models, id)| == 0 { return NeedsModel; }
      var skip := false;
      if !enabled {
        var activeAfter := CountActiveModelsAfterProviderChange(config, ctx.modelOrder, {id}, {});
        if activeAfter == 0 {
          if !confirmNonBootable { return NeedsConfirmation; }
          skip := true;
        }
      }
      SetEnabledEffect(config, ctx, id, enabled);
      config := SetEnabled(config, id, enabled);
      var ok := PersistConfig(ctx, skip, false);
      return if ok then Saved else Refused;
    }
  }

  lemma SetEnabledEffect(c: Config, ctx: Context, id: string, enabled: bool)
    requires Fits(ctx, c) && id in c.providers
    ensures Fits(ctx, SetEnabled(c, id, enabled))
    ensures Bootable(c, ctx.providerOrder, ctx.env) ==>
              var d := SetEnabled(c, id, enabled);
              if enabled then
                Bootable(d, ctx.providerOrder, ctx.env)
                <==> |AliasesOf(c.models, id)| > 0 && RowSecretsPresent(c.providers[id], ctx.env)
              else
                SchemaValid(d, ctx.providerOrder)
                && (Bootable(d, ctx.providerOrder, ctx.env) <==> |ActiveAfter(c, {id}, {})| > 0)
  {
    var d := SetEnabled(c, id, enabled);
    assert d.providers.Keys == c.providers.Keys;
    if Bootable(c, ctx.providerOrder, ctx.env) {
      if enabled {
        EnableStaysBootableIff(c, ctx.providerOrder, ctx.env, id);
      } else {
        DisableStaysBootableIff(c, ctx.providerOrder, ctx.env, id);
        DisabledStaysValid(c, ctx.providerOrder, id);
      }
    }
  }

  lemma NextIsNew(models: Models, added: seq<NewModel>, n: nat)
    requires n < |added| && AllNew(models, added[..n])
    ensures AllNew(models, added[..n + 1]) <==> added[n].alias !in models && added[n].alias !in Aliases(added[..n])
    ensures AllNew(models, added) ==> AllNew(models, added[..n + 1])
  {
    var past, next := added[..n], added[..n + 1];
    assert next == past + [added[n]];
    if added[n].alias in Aliases(past) {
      var m :| m in past && m.alias == added[n].alias;
      var i :| 0 <= i < |past| && past[i] == m;
      assert next[i].alias == next[n].alias;
    }
    assert forall i :: 0 <= i < n ==> past[i] in past && past[i].alias in Aliases(past);
  }

  function WithProvider(c: Config, id: string, row: ProviderRow, added: seq<NewModel>): Config {
    c.(providers := c.providers[id := row], models := WithModels(c.models, added, id))
  }

  function WithSecrets(lines: seq<string>, row: ProviderRow, apiKey: string, baseUrl: string): seq<string> {
    var first := Through(SetVar(lines, row.apiKeyRef, apiKey));
    if row.baseUrlRef.Some? && row.baseUrlRef.value != "" then Through(SetVar(first, row.baseUrlRef.value, baseUrl))
    else first
  }

  function WithoutSecrets(lines: seq<string>, row: ProviderRow): seq<string> {
    var first := Through(RemoveVar(lines, row.apiKeyRef));
    if row.baseUrlRef.Some? && row.baseUrlRef.value != "" then Through(RemoveVar(first, row.baseUrlRef.value))
    else first
  }

  predicate HasBaseUrl(row: ProviderRow) {
    row.baseUrlRef.Some? && row.baseUrlRef.value != ""
  }

  /** What the secrets of a refused provider leave in the file once their references are removed. */
  function SecretsLeft(row: ProviderRow, apiKey: string, baseUrl: string): seq<string> {
    if HasBaseUrl(row) then BothLeft(row.apiKeyRef, apiKey, row.baseUrlRef.value, baseUrl)
    else Leftover(apiKey, [row.apiKeyRef], 2)
  }

  /** How often the undo has every line of the file rewritten, its setting included. */
  function Rewrites(row: ProviderRow): nat {
    if HasBaseUrl(row) then 4 else 2
  }

  ghost predicate RefsNew(lines: seq<string>, row: ProviderRow) {
    GetVar(lines, row.apiKeyRef).None? && (HasBaseUrl(row) ==> GetVar(lines, row.baseUrlRef.value).None?)
  }

  /**
    The undo of a refused provider gives the lines of its file back exactly when the references were new there and the
    lines are what the rewriting leaves of them, followed by what the secrets leave. Secrets on one line leave nothing,
    and then that is: when the lines were clean and the references new.
   */
  lemma ProviderRollbackIff(text: string, row: ProviderRow, apiKey: string, baseUrl: string)
    requires NoBreak(row.apiKeyRef) && (row.baseUrlRef.Some? ==> NoBreak(row.baseUrlRef.value))
    ensures WithoutSecrets(WithSecrets(Lines(text), row, apiKey, baseUrl), row) == Lines(text)
            <==> && RefsNew(Lines(text), row)
                 && Lines(text) == Survivors(Lines(text), Rewrites(row)) + SecretsLeft(row, apiKey, baseUrl)
    ensures NoneVanish(Lines(text), Rewrites(row)) || SecretsLeft(row, apiKey, baseUrl) == [] ==>
              (WithoutSecrets(WithSecrets(Lines(text), row, apiKey, baseUrl), row) == Lines(text)
               <==> AllClean(Lines(text)) && RefsNew(Lines(text), row) && SecretsLeft(row, apiKey, baseUrl) == [])
    ensures NoBreak(apiKey) && NoBreak(baseUrl) ==> SecretsLeft(row, apiKey, baseUrl) == []
  {
    if NoBreak(apiKey) && NoBreak(baseUrl) { OneLineSecrets(row, apiKey, baseUrl); }
    if HasBaseUrl(row) {
      RollbackSteps(Lines(text), row.apiKeyRef, apiKey, row.baseUrlRef.value, baseUrl);
      BothRollbackIff(text, row.apiKeyRef, apiKey, row.baseUrlRef.value, baseUrl);
      BothLeaveNothingIff(row.apiKeyRef, apiKey, row.baseUrlRef.value, baseUrl);
    } else {
      RollbackSteps(Lines(text), row.apiKeyRef, apiKey, row.apiKeyRef, apiKey);
      OneRollbackIff(text, row.apiKeyRef, apiKey);
    }
  }

  lemma OneLineSecrets(row: ProviderRow, apiKey: string, baseUrl: string)
    requires NoBreak(row.apiKeyRef) && NoBreak(apiKey) && NoBreak(baseUrl)
    ensures SecretsLeft(row, apiKey, baseUrl) == []
  {
    if HasBaseUrl(row) {
      var keys := [row.apiKeyRef, row.baseUrlRef.value];
      OneLineLeavesNothing(apiKey, keys, 4);
      OneLineLeavesNothing(baseUrl, keys, 3);
      BothLeaveNothingIff(row.apiKeyRef, apiKey, row.baseUrlRef.value, baseUrl);
    } else {
      OneLineLeavesNothing(apiKey, [row.apiKeyRef], 2);
    }
  }
}

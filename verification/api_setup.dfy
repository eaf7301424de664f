/** The API tab, src/components/APISetup.tsx. The configuration belongs to the
    parent: a handler that calls `onConfigChange` returns the configuration it
    passes. The component keeps one flag, whether a saved record exists. */
module APISetupView {
  import opened ApiTypes
  import opened StorageKeys
  import opened BrowserStorage
  import opened SecureStorage
  import OpenAI
  import Anthropic

  /** handleProviderChange: the provider and that provider's first model. */
  function HandleProviderChange(config: UserAPIConfig, provider: string): (c: UserAPIConfig)
    ensures c.provider == provider
    ensures provider == OPENAI ==> c.model == Some("gpt-4")
    ensures provider != OPENAI ==> c.model == Some("claude-3-5-sonnet-20241022")
    ensures c.apiKey == config.apiKey && c.maxTokens == config.maxTokens
  {
    config.(provider := provider,
            model := Some(if provider == OPENAI then OpenAI.MODELS[0].id else Anthropic.MODELS[0].id))
  }

  /** handleKeyChange. */
  function HandleKeyChange(config: UserAPIConfig, apiKey: string): (c: UserAPIConfig)
    ensures c.apiKey == apiKey
    ensures c.provider == config.provider && c.model == config.model && c.maxTokens == config.maxTokens
  {
    config.(apiKey := apiKey)
  }

  /** handleModelChange. */
  function HandleModelChange(config: UserAPIConfig, model: string): (c: UserAPIConfig)
    ensures c.model == Some(model)
    ensures c.provider == config.provider && c.apiKey == config.apiKey && c.maxTokens == config.maxTokens
  {
    config.(model := Some(model))
  }

  /** The record `handleSaveConfig` writes: `model || ''`. */
  function SavedRecord(config: UserAPIConfig): (saved: SavedAPIConfig)
    ensures saved.provider == config.provider && saved.apiKey == config.apiKey
    ensures config.model.Some? ==> saved.model == config.model.value
    ensures config.model.None? ==> saved.model == ""
  {
    SavedAPIConfig(config.provider, config.apiKey, config.model.GetOr(""))
  }

  /** The configuration `handleLoadStoredConfig` passes for a stored record: no
      token bound, since the literal it builds has none. */
  function FromSaved(saved: SavedAPIConfig): (c: UserAPIConfig)
    ensures c.provider == saved.provider && c.apiKey == saved.apiKey
    ensures c.model == Some(saved.model) && c.maxTokens.None?
  {
    UserAPIConfig(saved.provider, saved.apiKey, Some(saved.model), None)
  }

  /** Loading after saving passes back the configuration that was saved, an
      undefined model as the empty one and without its token bound. */
  lemma SaveThenLoadConfig(items: map<string, Stored>, config: UserAPIConfig)
    ensures var loaded := LoadedConfig(items[API_CONFIG_KEY := ConfigRecord(Sealed(SavedRecord(config)))]);
      loaded.Some? && FromSaved(loaded.value) ==
        UserAPIConfig(config.provider, config.apiKey, Some(config.model.GetOr("")), None)
  {
    SaveThenLoad(items, SavedRecord(config));
  }

  class APISetupView {
    var hasStoredConfig: bool

    /** The mount effect: the flag starts as `hasStoredAPIConfig()`. */
    constructor(store: LocalStorage)
      ensures hasStoredConfig <==> LoadedConfig(store.items).Some?
    {
      var stored := HasStoredAPIConfig(store);
      hasStoredConfig := stored;
    }

    /** handleSaveConfig: nothing without a key; otherwise the record is
        written and the flag set. */
    method HandleSaveConfig(store: LocalStorage, config: UserAPIConfig)
      modifies this, store
      ensures config.apiKey == "" ==> store.items == old(store.items) && hasStoredConfig == old(hasStoredConfig)
      ensures config.apiKey != "" ==>
        store.items == old(store.items)[API_CONFIG_KEY := ConfigRecord(Sealed(SavedRecord(config)))] &&
        hasStoredConfig
    {
      if config.apiKey != "" {
        SaveAPIConfig(store, SavedAPIConfig(config.provider, config.apiKey, config.model.GetOr("")));
        hasStoredConfig := true;
      }
    }

    /** handleLoadStoredConfig: the stored configuration, if there is one. */
    method HandleLoadStoredConfig(store: LocalStorage) returns (emitted: Option<UserAPIConfig>)
      ensures emitted.Some? <==> LoadedConfig(store.items).Some?
      ensures emitted.Some? ==> emitted.value == FromSaved(LoadedConfig(store.items).value)
    {
      var stored := GetAPIConfig(store);
      if stored.Some? {
        emitted := Some(UserAPIConfig(stored.value.provider, stored.value.apiKey, Some(stored.value.model), None));
      } else {
        emitted := None;
      }
    }

    /** handleClearStoredConfig, with the answer of `window.confirm` as
        `confirmed`: the record goes, the flag drops and the key is emptied. */
    method HandleClearStoredConfig(store: LocalStorage, config: UserAPIConfig, confirmed: bool)
      returns (emitted: Option<UserAPIConfig>)
      modifies this, store
      ensures confirmed ==> store.items == old(store.items) - {API_CONFIG_KEY} && !hasStoredConfig
      ensures confirmed ==> emitted == Some(config.(apiKey := ""))
      ensures !confirmed ==>
        store.items == old(store.items) && hasStoredConfig == old(hasStoredConfig) && emitted.None?
    {
      if confirmed {
        ClearAPIConfig(store);
        hasStoredConfig := false;
        emitted := Some(config.(apiKey := ""));
      } else {
        emitted := None;
      }
    }
  }
}

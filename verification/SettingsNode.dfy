/** The settings handlers of the local node as they run: a store and two caches updated in place. */
module SettingsNode {
  import opened Wrappers
  import opened Text
  import opened Settings

  class Node {
    const env: Env
    var store: map<string, Secret>
    var registryCache: Option<Registry>
    var openaiCache: Option<OpenAi>

    function Now(): State
      reads this
    {
      State(store, registryCache, openaiCache)
    }

    constructor (env: Env, store: map<string, Secret>)
      ensures this.env == env && Now() == Restart(State(store, None, None))
    {
      this.env := env;
      this.store := store;
      registryCache, openaiCache := None, None;
    }

    method PutSecret(name: string, secret: Secret, writable: bool) returns (r: Result<()>)
      modifies this`store
      ensures r.Ok? == Put(old(Now()), name, secret, writable).Ok?
      ensures Now() == if r.Ok? then Put(old(Now()), name, secret, writable).value else old(Now())
      ensures r.Err? ==> r.error == Internal
    {
      if !writable {
        return Err(Internal);
      }
      store := store[name := secret];
      return Ok(());
    }

    method LoadOpenAiConfig(readable: bool) returns (r: Result<OpenAi>)
      ensures r == LoadOpenAi(env, Now(), readable)
    {
      if openaiCache.Some? {
        return Ok(openaiCache.value);
      }
      if EnvConfig(env).Ok? {
        return Ok(EnvConfig(env).value);
      }
      if !readable {
        return Err(Internal);
      }
      if OPENAI_CONFIG in store {
        if store[OPENAI_CONFIG].OpenAiBlob? {
          return Ok(store[OPENAI_CONFIG].config);
        }
        return Err(Internal);
      }
      if env.key.None? {
        return Err(BadRequest);
      }
      var baseUrl :- NormalizeUrl(env, BaseUrl(env));
      return Ok(OpenAi(env.key.value, baseUrl, ImageModel(env)));
    }

    method ResolveSecretRef(secretRef: string, readable: bool) returns (r: Result<Secret>)
      ensures r == ResolveRef(env, Now(), secretRef, readable)
    {
      if secretRef == OPENAI_CONFIG {
        var config :- LoadOpenAiConfig(readable);
        return Ok(Plain(config.apiKey));
      }
      if !readable {
        return Err(Internal);
      }
      if secretRef !in store {
        return Err(BadRequest);
      }
      return Ok(store[secretRef]);
    }

    method LoadModelRegistry(readable: bool) returns (registry: Registry)
      modifies this`registryCache
      ensures (Now(), registry) == LoadRegistry(old(Now()), readable)
    {
      if registryCache.Some? {
        return registryCache.value;
      }
      registry := NO_ENTRIES;
      if readable && MODEL_REGISTRY in store && store[MODEL_REGISTRY].RegistryBlob? {
        registry := store[MODEL_REGISTRY].registry;
      }
      registryCache := Some(registry);
    }

    /** One pass of the validation loop over a capability's entries. */
    method Validate(entries: seq<Entry>, readable: bool) returns (r: Result<seq<Entry>>)
      ensures r == CheckEntries(env, Now(), entries, readable)
    {
      var target := [];
      for i := 0 to |entries|
        invariant CheckEntries(env, Now(), entries[..i], readable) == Ok(target)
      {
        assert entries[..i + 1][..i] == entries[..i];
        var secretRef := Trim(entries[i].secretRef);
        var baseUrl := Err(BadRequest);
        if secretRef != "" {
          var key := ResolveSecretRef(secretRef, readable);
          baseUrl := if key.Err? then Err(key.error) else NormalizeUrl(env, entries[i].baseUrl);
        }
        if baseUrl.Err? {
          FirstFailureWins(env, Now(), entries, i + 1, readable);
          return Err(baseUrl.error);
        }
        target := target + [entries[i].(secretRef := secretRef, baseUrl := baseUrl.value)];
      }
      assert entries[..|entries|] == entries;
      return Ok(target);
    }

    method SaveModelRegistry(input: Registry, a: Access) returns (r: Result<()>)
      modifies this
      ensures Now() == Next(env, old(Now()), RegistrySaved(input, a))
      ensures r.Ok? == SaveRegistry(env, old(Now()), input, a).Ok?
      ensures r.Err? ==> r.error == SaveRegistry(env, old(Now()), input, a).error
    {
      var image :- Validate(input.image, a.readable);
      var text :- Validate(input.text, a.readable);
      var video :- Validate(input.video, a.readable);
      var validated := Registry(image, text, video);
      var _ :- PutSecret(MODEL_REGISTRY, RegistryBlob(validated), a.writable);
      registryCache := Some(validated);
      return Ok(());
    }

    method SaveOpenAiConfig(key: string, url: Option<string>, model: Option<string>, a: Access) returns (r: Result<()>)
      modifies this
      ensures Now() == Next(env, old(Now()), OpenAiSaved(key, url, model, a))
      ensures r.Ok? == SaveOpenAi(env, old(Now()), key, url, model, a).Ok?
      ensures r.Err? ==> r.error == SaveOpenAi(env, old(Now()), key, url, model, a).error
    {
      var apiKey := Trim(key);
      if apiKey == "" {
        if openaiCache.Some? {
          apiKey := openaiCache.value.apiKey;
        } else if a.readable && OPENAI_CONFIG in store && store[OPENAI_CONFIG].OpenAiBlob? {
          apiKey := store[OPENAI_CONFIG].config.apiKey;
        } else {
          return Err(BadRequest);
        }
      }
      var baseUrl :- NormalizeUrl(env, url.GetOr(BaseUrl(env)));
      var imageModel := ImageModel(env);
      if model.Some? && Trim(model.value) != "" {
        imageModel := Trim(model.value);
      }
      var config := OpenAi(apiKey, baseUrl, imageModel);
      var _ :- PutSecret(OPENAI_CONFIG, OpenAiBlob(config), a.writable);
      openaiCache := Some(config);
      return Ok(());
    }

    method SaveNamedSecret(input: string, value: string, a: Access) returns (r: Result<()>)
      modifies this`store
      ensures Now() == Next(env, old(Now()), SecretSaved(input, value, a))
      ensures r.Ok? == SaveSecret(old(Now()), input, value, a).Ok?
      ensures r.Err? ==> r.error == SaveSecret(old(Now()), input, value, a).error
    {
      var name := Trim(input);
      if name == "" || !(forall c | c in name :: NameChar(c)) || Reserved(name) || value == "" {
        return Err(BadRequest);
      }
      r := PutSecret(name, Plain(value), a.writable);
    }

    method ResolveCapability(cap: Capability, loads: bool, readable: bool) returns (r: Result<Provider>)
      modifies this`registryCache
      ensures Now() == LoadRegistry(old(Now()), loads).0
      ensures r == Resolve(env, Now(), LoadRegistry(old(Now()), loads).1, cap, readable)
    {
      var registry := LoadModelRegistry(loads);
      var entry := FirstEnabled(EntriesFor(registry, cap));
      if entry.Some? {
        var key :- ResolveSecretRef(entry.value.secretRef, readable);
        if cap.ImageGen? {
          return Ok(ImageProvider(key, entry.value.baseUrl, entry.value.model));
        }
        return Ok(Generic(entry.value, key));
      }
      if cap.ImageGen? {
        var config :- LoadOpenAiConfig(readable);
        return Ok(ImageProvider(Plain(config.apiKey), config.baseUrl, config.imageModel));
      }
      return Ok(NotConfigured(cap));
    }
  }

  /** The error of the shortest failing prefix is the error of the whole list. */
  lemma {:induction false} FirstFailureWins(env: Env, s: State, entries: seq<Entry>, n: nat, readable: bool)
    requires n <= |entries| && CheckEntries(env, s, entries[..n], readable).Err?
    ensures CheckEntries(env, s, entries, readable) == CheckEntries(env, s, entries[..n], readable)
    decreases |entries|
  {
    if n < |entries| {
      assert entries[..|entries| - 1][..n] == entries[..n];
      FirstFailureWins(env, s, entries[..|entries| - 1], n, readable);
    } else {
      assert entries[..n] == entries;
    }
  }
}

/** The local node's settings: a secret store, the model registry and the OpenAI configuration
    kept in it, their caches, and the router that picks a provider for a capability. */
module Settings {
  import opened Wrappers
  import opened Text

  const OZON_CONFIG: string := "ozon_config"
  const OPENAI_CONFIG: string := "openai_config"
  const MODEL_REGISTRY: string := "model_registry"
  const CLOUD_LEASE: string := "cloud_lease"
  const DEVICE_FINGERPRINT: string := "device_fingerprint"
  const DEFAULT_BASE_URL: string := "https://api.openai.com"
  const DEFAULT_IMAGE_MODEL: string := "gpt-image-1"

  datatype Kind = OpenAiImages | OpenAiImagesEdit | OpenAiCompatChat | CloudVideo

  /** `extra` stands for the authentication style, the video dialect and its parameters, which
      are carried along unread. */
  datatype Entry = Entry(kind: Kind, baseUrl: string, model: string, secretRef: string, enabled: bool, extra: int)
  datatype Registry = Registry(image: seq<Entry>, text: seq<Entry>, video: seq<Entry>) {
    function All(): seq<Entry> {
      image + text + video
    }
  }

  const NO_ENTRIES: Registry := Registry([], [], [])

  datatype OpenAi = OpenAi(apiKey: string, baseUrl: string, imageModel: string)

  /** What a stored secret deserializes to. */
  datatype Secret = Plain(text: string) | RegistryBlob(registry: Registry) | OpenAiBlob(config: OpenAi)

  /** The process environment: `OPENAI_API_KEY`, `OPENAI_BASE_URL`, `OPENAI_API_BASE_URL` and
      `OPENAI_IMAGE_MODEL`, as far as they are set, and which URLs parse and may carry a key. */
  datatype Env = Env(key: Option<string>, url: Option<string>, otherUrl: Option<string>, model: Option<string>,
                     allowed: string -> bool)

  /** The fallback URL and model, read once at startup: a variable counts even when blank. */
  function BaseUrl(env: Env): string {
    env.url.GetOr(env.otherUrl.GetOr(DEFAULT_BASE_URL))
  }

  function ImageModel(env: Env): string {
    env.model.GetOr(DEFAULT_IMAGE_MODEL)
  }

  /** A variable that is set and not blank. */
  function NonBlank(value: Option<string>): Option<string> {
    if value.Some? && !Blank(value.value) then value else None
  }

  datatype State = State(store: map<string, Secret>, registry: Option<Registry>, openai: Option<OpenAi>)

  /** Whether the secret store answers reads and writes during one call. */
  datatype Access = Access(readable: bool, writable: bool)

  function TrimSlashes(s: string): string {
    if s != [] && s[|s| - 1] == '/' then TrimSlashes(s[..|s| - 1]) else s
  }

  function NormalizeUrl(env: Env, value: string): Result<string> {
    var trimmed := TrimSlashes(Trim(value));
    if trimmed == "" then Ok(DEFAULT_BASE_URL)
    else if env.allowed(trimmed) then Ok(trimmed) else Err(BadRequest)
  }

  /** The configuration the environment forms on its own; here blank variables do not count. */
  function EnvConfig(env: Env): Result<OpenAi> {
    var _ :- Need(NonBlank(env.key).Some?, BadRequest);
    var url := if NonBlank(env.url).Some? then env.url else NonBlank(env.otherUrl);
    var baseUrl :- NormalizeUrl(env, url.GetOr(DEFAULT_BASE_URL));
    Ok(OpenAi(env.key.value, baseUrl, NonBlank(env.model).GetOr(DEFAULT_IMAGE_MODEL)))
  }

  // --- Reading ---

  /** The cache, then the environment, then the store, then the bare key of the environment. */
  function LoadOpenAi(env: Env, s: State, readable: bool): Result<OpenAi> {
    if s.openai.Some? then Ok(s.openai.value)
    else if EnvConfig(env).Ok? then Ok(EnvConfig(env).value)
    else if !readable then Err(Internal)
    else if OPENAI_CONFIG in s.store then
      (match s.store[OPENAI_CONFIG] case OpenAiBlob(config) => Ok(config) case _ => Err(Internal))
    else if env.key.None? then Err(BadRequest)
    else
      var baseUrl :- NormalizeUrl(env, BaseUrl(env));
      Ok(OpenAi(env.key.value, baseUrl, ImageModel(env)))
  }

  /** The same without the environment, for saving new settings under the stored key. */
  function LoadPersistedOpenAi(s: State, readable: bool): Result<OpenAi> {
    if s.openai.Some? then Ok(s.openai.value)
    else if !readable then Err(Internal)
    else if OPENAI_CONFIG !in s.store then Err(BadRequest)
    else match s.store[OPENAI_CONFIG] case OpenAiBlob(config) => Ok(config) case _ => Err(Internal)
  }

  function ResolveRef(env: Env, s: State, secretRef: string, readable: bool): Result<Secret> {
    if secretRef == OPENAI_CONFIG then
      var config :- LoadOpenAi(env, s, readable);
      Ok(Plain(config.apiKey))
    else if !readable then Err(Internal)
    else if secretRef !in s.store then Err(BadRequest)
    else Ok(s.store[secretRef])
  }

  /** The registry the store holds. */
  function Stored(s: State): Registry {
    if MODEL_REGISTRY in s.store && s.store[MODEL_REGISTRY].RegistryBlob? then s.store[MODEL_REGISTRY].registry
    else NO_ENTRIES
  }

  /** The cache is filled on every path, also when the store could not be read. */
  function LoadRegistry(s: State, readable: bool): (State, Registry) {
    var registry := if s.registry.Some? then s.registry.value else if readable then Stored(s) else NO_ENTRIES;
    (s.(registry := Some(registry)), registry)
  }

  // --- Writing ---

  function Put(s: State, name: string, secret: Secret, writable: bool): Result<State> {
    if writable then Ok(s.(store := s.store[name := secret])) else Err(Internal)
  }

  predicate NameChar(c: char) {
    'a' <= c <= 'z' || '0' <= c <= '9' || c == '_'
  }

  predicate Reserved(name: string) {
    name in [OZON_CONFIG, OPENAI_CONFIG, MODEL_REGISTRY, CLOUD_LEASE, DEVICE_FINGERPRINT]
  }

  function SaveSecret(s: State, input: string, value: string, a: Access): Result<State> {
    var name := Trim(input);
    var _ :- Need(name != "" && (forall c | c in name :: NameChar(c)) && !Reserved(name) && value != "", BadRequest);
    Put(s, name, Plain(value), a.writable)
  }

  /** The entry as it is stored, or why it is refused. */
  function CheckEntry(env: Env, s: State, entry: Entry, readable: bool): Result<Entry> {
    var secretRef := Trim(entry.secretRef);
    var _ :- Need(secretRef != "", BadRequest);
    var _ :- ResolveRef(env, s, secretRef, readable);
    var baseUrl :- NormalizeUrl(env, entry.baseUrl);
    Ok(entry.(secretRef := secretRef, baseUrl := baseUrl))
  }

  function CheckEntries(env: Env, s: State, entries: seq<Entry>, readable: bool): Result<seq<Entry>> {
    if entries == [] then Ok([])
    else
      var first :- CheckEntries(env, s, entries[..|entries| - 1], readable);
      var last :- CheckEntry(env, s, entries[|entries| - 1], readable);
      Ok(first + [last])
  }

  function CheckRegistry(env: Env, s: State, input: Registry, readable: bool): Result<Registry> {
    var image :- CheckEntries(env, s, input.image, readable);
    var text :- CheckEntries(env, s, input.text, readable);
    var video :- CheckEntries(env, s, input.video, readable);
    Ok(Registry(image, text, video))
  }

  function SaveRegistry(env: Env, s: State, input: Registry, a: Access): Result<State> {
    var registry :- CheckRegistry(env, s, input, a.readable);
    var s1 :- Put(s, MODEL_REGISTRY, RegistryBlob(registry), a.writable);
    Ok(s1.(registry := Some(registry)))
  }

  /** A blank key keeps the stored one. */
  function SaveOpenAi(env: Env, s: State, key: string, url: Option<string>, model: Option<string>, a: Access)
    : Result<State>
  {
    var stored := LoadPersistedOpenAi(s, a.readable);
    var _ :- Need(!Blank(key) || stored.Ok?, BadRequest);
    var apiKey := if Blank(key) then stored.value.apiKey else Trim(key);
    var baseUrl :- NormalizeUrl(env, url.GetOr(BaseUrl(env)));
    var config := OpenAi(apiKey, baseUrl,
                         if model.Some? && !Blank(model.value) then Trim(model.value) else ImageModel(env));
    var s1 :- Put(s, OPENAI_CONFIG, OpenAiBlob(config), a.writable);
    Ok(s1.(openai := Some(config)))
  }

  datatype OwnBlob = OzonConfig | CloudLease | DeviceFingerprint

  function OwnName(blob: OwnBlob): string {
    match blob
    case OzonConfig => OZON_CONFIG
    case CloudLease => CLOUD_LEASE
    case DeviceFingerprint => DEVICE_FINGERPRINT
  }

  /** A new process reads the same store with empty caches. */
  function Restart(s: State): State {
    State(s.store, None, None)
  }

  // --- Routing ---

  datatype Capability = ImageGen | TextGen | VideoGen

  function EntriesFor(registry: Registry, cap: Capability): seq<Entry> {
    match cap case ImageGen => registry.image case TextGen => registry.text case VideoGen => registry.video
  }

  function FirstEnabled(entries: seq<Entry>): Option<Entry> {
    if entries == [] then None
    else if entries[0].enabled then Some(entries[0]) else FirstEnabled(entries[1..])
  }

  datatype Provider =
    | ImageProvider(apiKey: Secret, baseUrl: string, imageModel: string)
    | Generic(entry: Entry, apiKey: Secret)
    | NotConfigured(capability: Capability)

  /** Given the loaded registry. */
  function Resolve(env: Env, s: State, registry: Registry, cap: Capability, readable: bool): Result<Provider> {
    var entry := FirstEnabled(EntriesFor(registry, cap));
    if entry.Some? then
      var key :- ResolveRef(env, s, entry.value.secretRef, readable);
      Ok(if cap.ImageGen? then ImageProvider(key, entry.value.baseUrl, entry.value.model)
         else Generic(entry.value, key))
    else if cap.ImageGen? then
      var config :- LoadOpenAi(env, s, readable);
      Ok(ImageProvider(Plain(config.apiKey), config.baseUrl, config.imageModel))
    else Ok(NotConfigured(cap))
  }

  datatype Issue = SecretUnavailable | NothingConfigured | StoreUnavailable | StoredInvalid

  datatype Status = Status(ready: bool, kind: Option<Kind>, baseUrl: Option<string>, model: Option<string>,
                           secretPresent: bool, issue: Option<Issue>)

  function ConfigStatus(config: OpenAi): Status {
    Status(true, Some(OpenAiImages), Some(config.baseUrl), Some(config.imageModel), true, None)
  }

  function InspectOpenAi(env: Env, s: State, readable: bool): Status {
    if s.openai.Some? then ConfigStatus(s.openai.value)
    else if EnvConfig(env).Ok? then ConfigStatus(EnvConfig(env).value)
    else if readable && OPENAI_CONFIG in s.store && s.store[OPENAI_CONFIG].OpenAiBlob? then
      ConfigStatus(s.store[OPENAI_CONFIG].config)
    else
      Status(false, Some(OpenAiImages), Some(BaseUrl(env)), Some(ImageModel(env)), false,
             Some(if !readable then StoreUnavailable
                  else if OPENAI_CONFIG in s.store then StoredInvalid else NothingConfigured))
  }

  function Inspect(env: Env, s: State, registry: Registry, cap: Capability, readable: bool): Status {
    var entry := FirstEnabled(EntriesFor(registry, cap));
    if entry.Some? then
      var present := ResolveRef(env, s, entry.value.secretRef, readable).Ok?;
      Status(present, Some(entry.value.kind), Some(entry.value.baseUrl), Some(entry.value.model), present,
             if present then None else Some(SecretUnavailable))
    else if cap.ImageGen? then InspectOpenAi(env, s, readable)
    else Status(false, None, None, None, false, Some(NothingConfigured))
  }

  // --- Runs ---

  datatype Event =
    | SecretSaved(name: string, value: string, access: Access)
    | RegistrySaved(input: Registry, access: Access)
    | OpenAiSaved(key: string, url: Option<string>, model: Option<string>, access: Access)
    | OwnBlobSaved(blob: OwnBlob, text: string, access: Access)
    | RegistryLoaded(readable: bool)  // also the first step of resolving and inspecting capabilities
    | Restarted

  /** A rejected call leaves everything as it was. */
  function Next(env: Env, s: State, event: Event): State {
    var attempt := match event
      case SecretSaved(name, value, a) => SaveSecret(s, name, value, a)
      case RegistrySaved(input, a) => SaveRegistry(env, s, input, a)
      case OpenAiSaved(key, url, model, a) => SaveOpenAi(env, s, key, url, model, a)
      case OwnBlobSaved(blob, text, a) => Put(s, OwnName(blob), Plain(text), a.writable)
      case RegistryLoaded(readable) => Ok(LoadRegistry(s, readable).0)
      case Restarted => Ok(Restart(s));
    if attempt.Ok? then attempt.value else s
  }

  function After(env: Env, s: State, events: seq<Event>): State
    decreases |events|
  {
    if events == [] then s else After(env, Next(env, s, events[0]), events[1..])
  }

  const FIRST: State := State(map[], None, None)

  /** The entry's key can be had whenever the store can be read. */
  predicate Resolves(env: Env, s: State, entry: Entry) {
    ResolveRef(env, s, entry.secretRef, true).Ok?
  }

  /** The two blobs the node reads back are of their own type, the OpenAI cache is what is
      stored, the registry cache is what is stored or empty, and every stored entry resolves. */
  ghost predicate Sound(env: Env, s: State) {
    && (MODEL_REGISTRY in s.store ==> s.store[MODEL_REGISTRY].RegistryBlob?)
    && (OPENAI_CONFIG in s.store ==> s.store[OPENAI_CONFIG].OpenAiBlob?)
    && (s.openai.Some? ==> OPENAI_CONFIG in s.store && s.store[OPENAI_CONFIG] == OpenAiBlob(s.openai.value))
    && (s.registry.Some? ==> s.registry.value == Stored(s) || s.registry.value == NO_ENTRIES)
    && forall entry | entry in Stored(s).All() :: Resolves(env, s, entry)
  }

  ghost predicate InSync(s: State) {
    s.registry.Some? ==> s.registry.value == Stored(s)
  }

  lemma {:induction false} CheckedResolve(env: Env, s: State, entries: seq<Entry>, readable: bool)
    requires CheckEntries(env, s, entries, readable).Ok?
    ensures var checked := CheckEntries(env, s, entries, readable).value;
            && |checked| == |entries|
            && forall i | 0 <= i < |entries| :: CheckEntry(env, s, entries[i], readable) == Ok(checked[i])
    ensures forall entry | entry in CheckEntries(env, s, entries, readable).value :: Resolves(env, s, entry)
  {
    if entries != [] {
      CheckedResolve(env, s, entries[..|entries| - 1], readable);
    }
  }

  /** A name, once stored, resolves for good: secrets are only ever put. */
  lemma StillResolves(env: Env, s: State, s': State, entry: Entry)
    requires Resolves(env, s, entry) && s.store.Keys <= s'.store.Keys && Sound(env, s)
    requires OPENAI_CONFIG in s'.store ==> s'.store[OPENAI_CONFIG].OpenAiBlob?
    requires s'.openai.Some? || s.openai.None? || OPENAI_CONFIG in s'.store
    ensures Resolves(env, s', entry)
  {
  }

  lemma NextKeeps(env: Env, s: State, event: Event)
    requires Sound(env, s)
    ensures Sound(env, Next(env, s, event))
    ensures s.store.Keys <= Next(env, s, event).store.Keys
    ensures InSync(s) && !(event.RegistryLoaded? && !event.readable) ==> InSync(Next(env, s, event))
  {
    hide Resolves, CheckRegistry;
    var s' := Next(env, s, event);
    if event.RegistrySaved? && SaveRegistry(env, s, event.input, event.access).Ok? {
      CheckedRegistryResolves(env, s, event.input, event.access.readable);
    }
    forall entry | entry in Stored(s').All() ensures Resolves(env, s', entry) {
      assert Resolves(env, s, entry);
      StillResolves(env, s, s', entry);
    }
  }

  lemma CheckedRegistryResolves(env: Env, s: State, input: Registry, readable: bool)
    requires CheckRegistry(env, s, input, readable).Ok?
    ensures forall entry | entry in CheckRegistry(env, s, input, readable).value.All() :: Resolves(env, s, entry)
  {
    CheckedResolve(env, s, input.image, readable);
    CheckedResolve(env, s, input.text, readable);
    CheckedResolve(env, s, input.video, readable);
  }

  /** Over every run, with whatever failures of the store: caches never invent anything, and
      every stored reference keeps resolving. If the store could be read whenever the registry
      was loaded, the cached registry is the stored one throughout. */
  lemma {:induction false} RunKeeps(env: Env, s: State, events: seq<Event>)
    requires Sound(env, s)
    ensures Sound(env, After(env, s, events))
    ensures InSync(s) && (forall i | 0 <= i < |events| :: events[i].RegistryLoaded? ==> events[i].readable) ==>
              InSync(After(env, s, events))
    decreases |events|
  {
    if events != [] {
      hide Next, Sound, InSync;
      NextKeeps(env, s, events[0]);
      RunKeeps(env, Next(env, s, events[0]), events[1..]);
      assert forall i | 0 <= i < |events[1..]| :: events[1..][i] == events[i + 1];
    }
  }

  /** Loading into an empty cache caches the stored registry exactly if the store was readable
      or there was nothing to read: a single failed read hides all providers until the next
      save or restart. */
  lemma FailedReadSticks(env: Env, s: State, readable: bool, later: bool)
    requires Sound(env, s) && s.registry.None?
    ensures InSync(LoadRegistry(s, readable).0) <==> readable || Stored(s) == NO_ENTRIES
    ensures LoadRegistry(LoadRegistry(s, readable).0, later) == LoadRegistry(s, readable)
  {
  }

  /** The event fills the registry cache anew or empties it. */
  predicate Refreshes(env: Env, s: State, e: Event) {
    e.Restarted? || (e.RegistrySaved? && SaveRegistry(env, s, e.input, e.access).Ok?)
  }

  predicate NeverRefreshes(env: Env, s: State, events: seq<Event>)
    decreases |events|
  {
    events == [] || (!Refreshes(env, s, events[0]) && NeverRefreshes(env, Next(env, s, events[0]), events[1..]))
  }

  /** A filled cache keeps its registry, right or wrong, until a successful save or a restart,
      however often it is loaded with the store readable again; so does the store. */
  lemma {:induction false} CacheSticks(env: Env, s: State, events: seq<Event>)
    requires s.registry.Some? && NeverRefreshes(env, s, events)
    ensures After(env, s, events).registry == s.registry && Stored(After(env, s, events)) == Stored(s)
    decreases |events|
  {
    if events != [] {
      StepSticks(env, s, events[0]);
      hide Next, Refreshes, Stored;
      CacheSticks(env, Next(env, s, events[0]), events[1..]);
    }
  }

  lemma StepSticks(env: Env, s: State, e: Event)
    requires s.registry.Some? && !Refreshes(env, s, e)
    ensures Next(env, s, e).registry == s.registry && Stored(Next(env, s, e)) == Stored(s)
  {
    hide Trim, CheckRegistry;
  }

  /** A load into an empty cache decides for all that follows up to the next save or restart: the
      cache agrees with the store throughout if and only if the store was readable then, or holds
      nothing. */
  lemma FirstLoadDecides(env: Env, s: State, readable: bool, events: seq<Event>)
    requires Sound(env, s) && s.registry.None? && NeverRefreshes(env, LoadRegistry(s, readable).0, events)
    ensures InSync(After(env, LoadRegistry(s, readable).0, events)) <==> readable || Stored(s) == NO_ENTRIES
  {
    CacheSticks(env, LoadRegistry(s, readable).0, events);
    FailedReadSticks(env, s, readable, true);
  }

  /** Such a state is reached: save a registry, restart, load while the store is unreadable. */
  lemma OutOfSyncIsReached(env: Env, entry: Entry, key: string)
    requires entry.secretRef == "k" && key != "" && NormalizeUrl(env, entry.baseUrl).Ok?
    ensures exists events: seq<Event> :: !InSync(After(env, FIRST, events))
  {
    var up := Access(true, true);
    var input := Registry([], [entry], []);
    var e := [SecretSaved("k", key, up), RegistrySaved(input, up), Restarted, RegistryLoaded(false)];
    TrimKeeps("k");
    var s1 := Next(env, FIRST, e[0]);
    assert s1 == State(map["k" := Plain(key)], None, None);
    assert CheckEntries(env, s1, [entry][..0], true) == Ok([]);
    assert [entry][..0] == [] && CheckEntries(env, s1, [entry], true).Ok?;
    var s2 := Next(env, s1, e[1]);
    assert Stored(s2).text != [];
    var s4 := Next(env, Next(env, s2, e[2]), e[3]);
    assert s4.registry == Some(NO_ENTRIES) && Stored(s4) == Stored(s2);
    FourSteps(env, FIRST, e);
    assert !InSync(After(env, FIRST, e));
  }

  lemma FourSteps(env: Env, s: State, e: seq<Event>)
    requires |e| == 4
    ensures After(env, s, e) == Next(env, Next(env, Next(env, Next(env, s, e[0]), e[1]), e[2]), e[3])
  {
    hide Next;
    assert e[1..][1..] == e[2..] && e[2..][1..] == [e[3]] && [e[3]][1..] == [];
    var s2 := Next(env, Next(env, s, e[0]), e[1]);
    assert After(env, s, e) == After(env, Next(env, s, e[0]), e[1..]) == After(env, s2, e[2..]);
    assert After(env, s2, e[2..]) == After(env, Next(env, s2, e[2]), [e[3]]);
  }

  // --- What is saved is what is loaded ---

  lemma {:induction false} OthersKeepRegistry(env: Env, s: State, events: seq<Event>)
    requires Sound(env, s) && forall i | 0 <= i < |events| :: !events[i].RegistrySaved?
    ensures Stored(After(env, s, events)) == Stored(s)
    decreases |events|
  {
    if events != [] {
      NextKeeps(env, s, events[0]);
      assert Stored(Next(env, s, events[0])) == Stored(s);
      OthersKeepRegistry(env, Next(env, s, events[0]), events[1..]);
    }
  }

  /** A saved registry is loaded back entry by entry, references trimmed and URLs normalized,
      after anything but another save, restarts included, as long as the store is readable. */
  lemma SavedIsLoaded(env: Env, s: State, input: Registry, a: Access, events: seq<Event>)
    requires Sound(env, s) && SaveRegistry(env, s, input, a).Ok?
    requires forall i | 0 <= i < |events| ::
               !events[i].RegistrySaved? && (events[i].RegistryLoaded? ==> events[i].readable)
    ensures var last := After(env, SaveRegistry(env, s, input, a).value, events);
            Ok(LoadRegistry(last, true).1) == CheckRegistry(env, s, input, a.readable)
  {
    var saved := SaveRegistry(env, s, input, a).value;
    assert saved == Next(env, s, RegistrySaved(input, a));
    NextKeeps(env, s, RegistrySaved(input, a));
    RunKeeps(env, saved, events);
    OthersKeepRegistry(env, saved, events);
  }

  // --- Readiness ---

  lemma {:induction false} FirstEnabledIs(entries: seq<Entry>)
    ensures var r := FirstEnabled(entries);
            && (r.None? <==> forall e | e in entries :: !e.enabled)
            && (r.Some? ==> exists i | 0 <= i < |entries| ::
                  entries[i] == r.value && r.value.enabled && forall j | 0 <= j < i :: !entries[j].enabled)
  {
    if entries != [] && !entries[0].enabled {
      FirstEnabledIs(entries[1..]);
      if FirstEnabled(entries[1..]).Some? {
        var i :| 0 <= i < |entries[1..]| && entries[1..][i] == FirstEnabled(entries[1..]).value
                 && forall j | 0 <= j < i :: !entries[1..][j].enabled;
        assert entries[i + 1] == FirstEnabled(entries).value;
        forall j | 0 <= j < i + 1 ensures !entries[j].enabled {
          assert j > 0 ==> entries[j] == entries[1..][j - 1];
        }
      }
    }
  }

  /** At every point of every run, text and video status are ready exactly when resolving yields
      a provider, and while the store is readable exactly when some loaded entry is enabled:
      resolving then never fails and no status complains of a missing secret. */
  lemma ReadyExactly(env: Env, events: seq<Event>, cap: Capability, loads: bool, readable: bool)
    requires !cap.ImageGen?
    ensures var (s, registry) := LoadRegistry(After(env, FIRST, events), loads);
            var resolved, status := Resolve(env, s, registry, cap, readable), Inspect(env, s, registry, cap, readable);
            && (status.ready <==> resolved.Ok? && resolved.value.Generic?)
            && (readable ==> resolved.Ok? && status.issue != Some(SecretUnavailable))
            && (readable ==> (status.ready <==> exists e | e in EntriesFor(registry, cap) :: e.enabled))
  {
    var before := After(env, FIRST, events);
    RunKeeps(env, FIRST, events);
    NextKeeps(env, before, RegistryLoaded(loads));
    var (s, registry) := LoadRegistry(before, loads);
    assert s == Next(env, before, RegistryLoaded(loads));
    FirstEnabledIs(EntriesFor(registry, cap));
    var entry := FirstEnabled(EntriesFor(registry, cap));
    if entry.Some? {
      assert entry.value in EntriesFor(registry, cap);
      assert entry.value in registry.All();
      assert Resolves(env, s, entry.value);
    }
  }

  /** The environment's key alone can serve: there is one, its configuration is not valid as it
      stands, and the fallback URL is usable. */
  predicate BareKeyServes(env: Env) {
    env.key.Some? && EnvConfig(env).Err? && NormalizeUrl(env, BaseUrl(env)).Ok?
  }

  /** Which environments that are: the fallback URL being usable, either the key is blank, or a
      blank `OPENAI_BASE_URL` hides an unusable `OPENAI_API_BASE_URL` from the fallback only. */
  lemma BareKeyServesExactly(env: Env)
    requires env.allowed(DEFAULT_BASE_URL)
    ensures BareKeyServes(env) <==>
              && env.key.Some? && NormalizeUrl(env, BaseUrl(env)).Ok?
              && (|| Blank(env.key.value)
                  || (&& env.url.Some? && Blank(env.url.value)
                      && env.otherUrl.Some? && !Blank(env.otherUrl.value)
                      && NormalizeUrl(env, env.otherUrl.value).Err?))
  {
    DefaultUrlStands(env);
    if env.url.Some? && Blank(env.url.value) {
      assert TrimSlashes(Trim(env.url.value)) == "";
    }
  }

  lemma DefaultUrlStands(env: Env)
    requires env.allowed(DEFAULT_BASE_URL)
    ensures NormalizeUrl(env, DEFAULT_BASE_URL) == Ok(DEFAULT_BASE_URL)
  {
    TrimKeeps(DEFAULT_BASE_URL);
  }

  /** Both kinds exist: a blank key, and a good key beside the two URLs. */
  lemma BareKeysExist()
    ensures exists env: Env :: BareKeyServes(env) && Blank(env.key.value)
    ensures exists env: Env :: BareKeyServes(env) && env.key == Some("sk")
  {
    var allowed := (url: string) => url == DEFAULT_BASE_URL;
    var blank := Env(Some(" "), None, None, None, allowed);
    var hidden := Env(Some("sk"), Some(""), Some("ftp:x"), None, allowed);
    TrimKeeps("sk");
    TrimKeeps("ftp:x");
    assert TrimSlashes("ftp:x") == "ftp:x";
    BareKeyServesExactly(blank);
    BareKeyServesExactly(hidden);
    DefaultUrlStands(blank);
  }

  /** The image status without an enabled entry: ready implies resolvable. The converse fails
      exactly when only the bare environment key is left, which resolving uses and the status
      overlooks. */
  lemma ImageReadyExactly(env: Env, s: State, registry: Registry, readable: bool)
    requires Sound(env, s)
    ensures var resolved := Resolve(env, s, registry, ImageGen, readable);
            var status := Inspect(env, s, registry, ImageGen, readable);
            && (status.ready ==> resolved.Ok?)
            && (resolved.Ok? && !status.ready <==>
                  && FirstEnabled(registry.image).None? && s.openai.None? && readable
                  && OPENAI_CONFIG !in s.store && BareKeyServes(env))
  {
  }

  /** Which key is used may change over a restart: a cached configuration beats the environment,
      a stored one does not. The configuration in use survives a restart exactly when nothing was
      cached, the environment has none of its own, or the two agree. */
  lemma RestartKeepsKey(env: Env, s: State)
    requires Sound(env, s)
    ensures LoadOpenAi(env, Restart(s), true) == LoadOpenAi(env, s, true) <==>
              s.openai.None? || EnvConfig(env).Err? || EnvConfig(env).value == s.openai.value
  {
  }

  // --- Saving a loaded registry again ---

  lemma {:induction false} TrimSlashesSettles(s: string)
    ensures TrimSlashes(TrimSlashes(s)) == TrimSlashes(s) && (TrimSlashes(s) == s || |TrimSlashes(s)| < |s|)
    ensures TrimSlashes(s) != "" ==> s != "" && TrimSlashes(s)[0] == s[0] && TrimSlashes(s)[|TrimSlashes(s)| - 1] != '/'
  {
    if s != [] && s[|s| - 1] == '/' {
      TrimSlashesSettles(s[..|s| - 1]);
    }
  }

  predicate EndsInSpace(s: string) {
    s != "" && IsSpace(s[|s| - 1])
  }

  /** Normalizing is idempotent exactly on results that do not end in white space, which a
      blank before trailing slashes leaves behind. */
  lemma NormalizedAgain(env: Env, value: string)
    requires NormalizeUrl(env, value).Ok? && env.allowed(DEFAULT_BASE_URL)
    ensures var url := NormalizeUrl(env, value).value;
            NormalizeUrl(env, url) == Ok(url) <==> !EndsInSpace(url)
  {
    var url := NormalizeUrl(env, value).value;
    TrimIdempotent(value);
    TrimSlashesSettles(Trim(value));
    TrimIdempotent(url);
    TrimSlashesSettles(Trim(url));
    if !EndsInSpace(url) {
      TrimKeeps(url);
      assert url == DEFAULT_BASE_URL ==> TrimSlashes(url) == url;
    }
  }

  // --- Every call, written out ---

  /** Loading the OpenAI configuration and reporting on it. The status knows all sources but the
      bare key of the environment. */
  lemma OpenAiExactly(env: Env, s: State, readable: bool)
    ensures LoadOpenAi(env, s, readable) ==
              if s.openai.Some? then Ok(s.openai.value)
              else if EnvConfig(env).Ok? then EnvConfig(env)
              else if !readable then Err(Internal)
              else if "openai_config" in s.store then
                (if s.store["openai_config"].OpenAiBlob? then Ok(s.store["openai_config"].config) else Err(Internal))
              else if env.key == None then Err(BadRequest)
              else if NormalizeUrl(env, BaseUrl(env)).Err? then Err(BadRequest)
              else Ok(OpenAi(env.key.value, NormalizeUrl(env, BaseUrl(env)).value, ImageModel(env)))
    ensures var status := InspectOpenAi(env, s, readable);
            && status.kind == Some(OpenAiImages) && (status.ready <==> status.secretPresent)
            && (status.ready <==> status.issue.None?)
            && (status.ready <==> s.openai.Some? || EnvConfig(env).Ok?
                                  || (readable && "openai_config" in s.store && s.store["openai_config"].OpenAiBlob?))
            && (status.ready ==> LoadOpenAi(env, s, readable).Ok?
                                 && status.baseUrl == Some(LoadOpenAi(env, s, readable).value.baseUrl)
                                 && status.model == Some(LoadOpenAi(env, s, readable).value.imageModel))
            && (!status.ready ==> status.baseUrl == Some(BaseUrl(env)) && status.model == Some(ImageModel(env)))
  {
    hide Blank, Trim, TrimSlashes;
  }

  /** The environment's own configuration: a key that is not blank, the first URL that is not
      blank, the model unless blank, and the defaults. */
  lemma EnvConfigExactly(env: Env)
    ensures EnvConfig(env) ==
              if env.key == None || Trim(env.key.value) == "" then Err(BadRequest)
              else
                var url := if env.url.Some? && Trim(env.url.value) != "" then env.url.value
                           else if env.otherUrl.Some? && Trim(env.otherUrl.value) != "" then env.otherUrl.value
                           else "https://api.openai.com";
                var model := if env.model.Some? && Trim(env.model.value) != "" then env.model.value
                             else "gpt-image-1";
                if NormalizeUrl(env, url).Err? then Err(BadRequest)
                else Ok(OpenAi(env.key.value, NormalizeUrl(env, url).value, model))
    ensures BaseUrl(env) == if env.url.Some? then env.url.value
                            else if env.otherUrl.Some? then env.otherUrl.value else "https://api.openai.com"
    ensures ImageModel(env) == if env.model.Some? then env.model.value else "gpt-image-1"
  {
    hide Trim, TrimSlashes;
  }

  /** A normalized URL is the default for nothing but slashes and white space; otherwise it is the
      trimmed text less all slashes at its end, if that may carry a key. */
  lemma UrlExactly(env: Env, value: string) returns (url: string, slashes: string)
    ensures Trim(value) == url + slashes && (forall c | c in slashes :: c == '/')
    ensures url != "" ==> url[|url| - 1] != '/'
    ensures NormalizeUrl(env, value) == if url == "" then Ok("https://api.openai.com")
                                        else if env.allowed(url) then Ok(url) else Err(BadRequest)
  {
    TrimSlashesSettles(Trim(value));
    url := TrimSlashes(Trim(value));
    slashes := SlashesCut(Trim(value));
  }

  lemma {:induction false} SlashesCut(s: string) returns (slashes: string)
    ensures s == TrimSlashes(s) + slashes && forall c | c in slashes :: c == '/'
  {
    slashes := "";
    if s != [] && s[|s| - 1] == '/' {
      var rest := SlashesCut(s[..|s| - 1]);
      slashes := rest + ['/'];
    }
  }

  /** A named secret is saved if and only if its trimmed name consists of lower-case letters,
      digits and underscores, is none of the node's own five, the value is not empty and the store
      can be written; nothing but that secret changes. */
  lemma SaveSecretExactly(env: Env, s: State, input: string, value: string, a: Access)
    ensures var name := Trim(input);
            SaveSecret(s, input, value, a) ==
              if name == "" || value == ""
                 || (exists c | c in name :: !('a' <= c <= 'z' || '0' <= c <= '9' || c == '_'))
                 || name in ["ozon_config", "openai_config", "model_registry", "cloud_lease", "device_fingerprint"] then
                Err(BadRequest)
              else if !a.writable then Err(Internal)
              else Ok(State(s.store[name := Plain(value)], s.registry, s.openai))
  {
    hide Trim;
  }

  /** Saving the OpenAI configuration: a blank key keeps the persisted one, which a cached or
      stored configuration must supply; the new one is stored and cached. */
  lemma SaveOpenAiExactly(env: Env, s: State, key: string, url: Option<string>, model: Option<string>, a: Access)
    ensures var kept := if s.openai.Some? then Some(s.openai.value.apiKey)
                        else if a.readable && "openai_config" in s.store && s.store["openai_config"].OpenAiBlob? then
                          Some(s.store["openai_config"].config.apiKey)
                        else None;
            var baseUrl := NormalizeUrl(env, if url.Some? then url.value else BaseUrl(env));
            SaveOpenAi(env, s, key, url, model, a) ==
              if Trim(key) == "" && kept == None then Err(BadRequest)
              else if baseUrl.Err? then Err(BadRequest)
              else if !a.writable then Err(Internal)
              else
                var config := OpenAi(if Trim(key) == "" then kept.value else Trim(key), baseUrl.value,
                                     if model.Some? && Trim(model.value) != "" then Trim(model.value)
                                     else ImageModel(env));
                Ok(State(s.store["openai_config" := OpenAiBlob(config)], s.registry, Some(config)))
  {
    hide Trim, TrimSlashes;
  }

  /** An entry as it stands after saving: everything as given, but for the trimmed reference and
      the normalized URL. */
  predicate SavedAs(env: Env, given: Entry, saved: Entry) {
    && saved.kind == given.kind && saved.model == given.model && saved.enabled == given.enabled
    && saved.extra == given.extra && saved.secretRef == Trim(given.secretRef)
    && NormalizeUrl(env, given.baseUrl) == Ok(saved.baseUrl)
  }

  predicate AllSavedAs(env: Env, given: seq<Entry>, saved: seq<Entry>) {
    |saved| == |given| && forall i | 0 <= i < |given| :: SavedAs(env, given[i], saved[i])
  }

  /** The entry has a reference that resolves now and a usable URL. */
  predicate Acceptable(env: Env, s: State, entry: Entry, readable: bool) {
    && Trim(entry.secretRef) != "" && ResolveRef(env, s, Trim(entry.secretRef), readable).Ok?
    && NormalizeUrl(env, entry.baseUrl).Ok?
  }

  lemma {:induction false} EntriesExactly(env: Env, s: State, entries: seq<Entry>, readable: bool)
    ensures CheckEntries(env, s, entries, readable).Ok? <==>
              forall entry | entry in entries :: Acceptable(env, s, entry, readable)
    ensures CheckEntries(env, s, entries, readable).Ok? ==>
              AllSavedAs(env, entries, CheckEntries(env, s, entries, readable).value)
  {
    hide CheckEntry, Acceptable, SavedAs;
    if entries != [] {
      var init, last := entries[..|entries| - 1], entries[|entries| - 1];
      assert forall e :: e in entries <==> e in init || e == last;
      EntriesExactly(env, s, init, readable);
      EntryExactly(env, s, last, readable);
      assert CheckEntries(env, s, entries, readable).Ok? <==>
               CheckEntries(env, s, init, readable).Ok? && CheckEntry(env, s, last, readable).Ok?;
    }
  }

  lemma EntryExactly(env: Env, s: State, entry: Entry, readable: bool)
    ensures CheckEntry(env, s, entry, readable).Ok? <==> Acceptable(env, s, entry, readable)
    ensures CheckEntry(env, s, entry, readable).Ok? ==>
              SavedAs(env, entry, CheckEntry(env, s, entry, readable).value)
  {
    hide Trim, NormalizeUrl, ResolveRef;
  }

  /** A registry is saved if and only if every entry of every capability is acceptable and the
      store can be written; then store and cache hold, capability by capability and in order, the
      entries as given, and nothing else changes. */
  lemma SaveRegistryExactly(env: Env, s: State, input: Registry, a: Access)
    ensures var saved := SaveRegistry(env, s, input, a);
            && (saved.Ok? <==>
                  a.writable && forall entry | entry in input.image + input.text + input.video ::
                    Acceptable(env, s, entry, a.readable))
            && (saved.Ok? ==>
                  && saved.value.registry.Some? && var registry := saved.value.registry.value;
                  && saved.value == State(s.store["model_registry" := RegistryBlob(registry)], Some(registry), s.openai)
                  && AllSavedAs(env, input.image, registry.image) && AllSavedAs(env, input.text, registry.text)
                  && AllSavedAs(env, input.video, registry.video))
  {
    EntriesExactly(env, s, input.image, a.readable);
    EntriesExactly(env, s, input.text, a.readable);
    EntriesExactly(env, s, input.video, a.readable);
    hide CheckEntries, Acceptable, AllSavedAs;
  }

  /** References, the first enabled entry, and what the router makes of them. */
  lemma RefExactly(env: Env, s: State, secretRef: string, readable: bool)
    ensures ResolveRef(env, s, secretRef, readable) ==
              if secretRef == "openai_config" then
                (match LoadOpenAi(env, s, readable) case Ok(config) => Ok(Plain(config.apiKey)) case Err(e) => Err(e))
              else if !readable then Err(Internal)
              else if secretRef in s.store then Ok(s.store[secretRef]) else Err(BadRequest)
  {
    hide LoadOpenAi;
  }

  /** `x` is the first enabled entry of the list. */
  ghost predicate IsFirstEnabled(entries: seq<Entry>, x: Entry) {
    exists i | 0 <= i < |entries| :: entries[i] == x && x.enabled && forall j | 0 <= j < i :: !entries[j].enabled
  }

  lemma FirstEnabledExactly(entries: seq<Entry>)
    ensures forall x :: FirstEnabled(entries) == Some(x) <==> IsFirstEnabled(entries, x)
    ensures FirstEnabled(entries) == None <==> forall e | e in entries :: !e.enabled
  {
    FirstEnabledIs(entries);
    forall x | IsFirstEnabled(entries, x) ensures FirstEnabled(entries) == Some(x) {
      var i :| 0 <= i < |entries| && entries[i] == x && x.enabled && forall j | 0 <= j < i :: !entries[j].enabled;
      assert x in entries;
    }
  }

  /** Text and video requests go to the first enabled entry of their own list, under the key its
      reference resolves to; to nothing exactly if none is enabled. */
  lemma RoutedExactly(env: Env, s: State, registry: Registry, readable: bool)
    ensures forall x, key :: Resolve(env, s, registry, TextGen, readable) == Ok(Generic(x, key)) <==>
              IsFirstEnabled(registry.text, x) && ResolveRef(env, s, x.secretRef, readable) == Ok(key)
    ensures Resolve(env, s, registry, TextGen, readable) == Ok(NotConfigured(TextGen)) <==>
              forall e | e in registry.text :: !e.enabled
    ensures forall x, key :: Resolve(env, s, registry, VideoGen, readable) == Ok(Generic(x, key)) <==>
              IsFirstEnabled(registry.video, x) && ResolveRef(env, s, x.secretRef, readable) == Ok(key)
    ensures Resolve(env, s, registry, VideoGen, readable) == Ok(NotConfigured(VideoGen)) <==>
              forall e | e in registry.video :: !e.enabled
  {
    FirstEnabledExactly(registry.text);
    FirstEnabledExactly(registry.video);
    hide IsFirstEnabled, FirstEnabled, ResolveRef;
  }

  /** Image requests go to the first enabled image entry, with its URL and model, or else to the
      OpenAI configuration. */
  lemma ImageRoutedExactly(env: Env, s: State, registry: Registry, readable: bool)
    ensures forall x | IsFirstEnabled(registry.image, x) ::
              Resolve(env, s, registry, ImageGen, readable) ==
                match ResolveRef(env, s, x.secretRef, readable)
                case Ok(key) => Ok(ImageProvider(key, x.baseUrl, x.model))
                case Err(e) => Err(e)
    ensures (forall e | e in registry.image :: !e.enabled) ==>
              Resolve(env, s, registry, ImageGen, readable) ==
                match LoadOpenAi(env, s, readable)
                case Ok(config) => Ok(ImageProvider(Plain(config.apiKey), config.baseUrl, config.imageModel))
                case Err(e) => Err(e)
  {
    FirstEnabledExactly(registry.image);
    hide IsFirstEnabled, FirstEnabled, ResolveRef, LoadOpenAi;
  }

  /** The status of an enabled entry shows its kind, URL and model, and whether its key is there. */
  predicate ShowsEntry(status: Status, x: Entry, present: bool) {
    status == Status(present, Some(x.kind), Some(x.baseUrl), Some(x.model), present,
                     if present then None else Some(SecretUnavailable))
  }

  const NOT_CONFIGURED: Status := Status(false, None, None, None, false, Some(NothingConfigured))

  lemma InspectedExactly(env: Env, s: State, registry: Registry, readable: bool)
    ensures forall x | IsFirstEnabled(registry.image, x) ::
              ShowsEntry(Inspect(env, s, registry, ImageGen, readable), x,
                         ResolveRef(env, s, x.secretRef, readable).Ok?)
    ensures forall x | IsFirstEnabled(registry.text, x) ::
              ShowsEntry(Inspect(env, s, registry, TextGen, readable), x,
                         ResolveRef(env, s, x.secretRef, readable).Ok?)
    ensures forall x | IsFirstEnabled(registry.video, x) ::
              ShowsEntry(Inspect(env, s, registry, VideoGen, readable), x,
                         ResolveRef(env, s, x.secretRef, readable).Ok?)
    ensures (forall e | e in registry.image :: !e.enabled) ==>
              Inspect(env, s, registry, ImageGen, readable) == InspectOpenAi(env, s, readable)
    ensures (forall e | e in registry.text :: !e.enabled) ==>
              Inspect(env, s, registry, TextGen, readable) == NOT_CONFIGURED
    ensures (forall e | e in registry.video :: !e.enabled) ==>
              Inspect(env, s, registry, VideoGen, readable) == NOT_CONFIGURED
  {
    FirstEnabledExactly(registry.image);
    FirstEnabledExactly(registry.text);
    FirstEnabledExactly(registry.video);
    hide IsFirstEnabled, FirstEnabled, ResolveRef, InspectOpenAi;
  }

  /** The node's own blobs go under their own names, loads and restarts touch caches only. */
  lemma OtherEventsExactly(env: Env, s: State, text: string, a: Access, readable: bool)
    ensures a.writable ==>
              && Next(env, s, OwnBlobSaved(OzonConfig, text, a)) == s.(store := s.store["ozon_config" := Plain(text)])
              && Next(env, s, OwnBlobSaved(CloudLease, text, a)) == s.(store := s.store["cloud_lease" := Plain(text)])
              && Next(env, s, OwnBlobSaved(DeviceFingerprint, text, a))
                 == s.(store := s.store["device_fingerprint" := Plain(text)])
    ensures Next(env, s, RegistryLoaded(readable)) == s.(registry := Next(env, s, RegistryLoaded(readable)).registry)
    ensures Next(env, s, RegistryLoaded(readable)).registry ==
              if s.registry.Some? then s.registry
              else if readable && "model_registry" in s.store && s.store["model_registry"].RegistryBlob? then
                Some(s.store["model_registry"].registry)
              else Some(Registry([], [], []))
    ensures Next(env, s, Restarted) == State(s.store, None, None)
  {
    hide SaveSecret, SaveRegistry, SaveOpenAi;
  }
}

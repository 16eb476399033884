/** Embedding_Service_Manager: the registry of embedding back ends, the
    resolution of a service name, the per-service settings and the cached
    "current" service object. */
module EmbeddingServiceManager {
  import opened Wrappers
  import opened Strings
  import opened Php
  import opened Wp
  import opened Settings
  import opened AbstractEmbedding
  import OpenAIEmbedding

  /** register_services, without the extension filter: the registry key
      and its label. The one built-in class is the OpenAI service. */
  const BuiltInServices: map<string, string> := map["openai" := "OpenAI Embedding"]

  /** The name get_service resolves: the argument, else the stored
      'embedding_service', else 'openai'. */
  function RequestedName(lib: Lib, settings: map<string, Value>, name: Option<string>): (r: string)
    ensures name.Some? ==> r == name.value
    ensures name.None? && !IsSet(Field(settings, "embedding_service")) ==> r == "openai"
    ensures name.None? && IsSet(Field(settings, "embedding_service")) ==> r == Text(lib, settings["embedding_service"])
  {
    match name
    case Some(n) => n
    case None => Text(lib, Coalesce(Field(settings, "embedding_service"), Str("openai")))
  }

  /** get_service_settings($name, $all): for 'openai' the (decrypted) key
      and the model, defaulting to text-embedding-ada-002; any other name
      gives array(). */
  function ServiceSettings(lib: Lib, name: string, all: map<string, Value>): (r: map<string, Value>)
    ensures name == "openai" ==>
              && r.Keys == {"api_key", "model"}
              && r["api_key"] == DecryptIfSet(lib, Coalesce(Field(all, "embedding_openai_api_key"), Str("")))
              && r["model"] == Coalesce(Field(all, "embedding_openai_model"), Str(OpenAIEmbedding.DefaultModel))
    ensures name != "openai" ==> r == map[]
  {
    if name == "openai" then
      map["api_key" := DecryptIfSet(lib, Coalesce(Field(all, "embedding_openai_api_key"), Str(""))),
          "model" := Coalesce(Field(all, "embedding_openai_model"), Str(OpenAIEmbedding.DefaultModel))]
    else map[]
  }

  /** The cache test of get_service: there is a current service and its
      display name equals the requested name. */
  predicate CacheHit(current: OpenAIEmbedding.Service?, name: string) {
    current != null && OpenAIEmbedding.ServiceName == name
  }

  function InvalidService(name: string): Error {
    Error("invalid_service", "Embedding service \"" + name + "\" is not available.")
  }

  /** The embedding service manager: the registry and the cached service. */
  class Manager {
    var availableServices: map<string, string>
    var currentService: OpenAIEmbedding.Service?

    /** The constructor registers the built-in services. */
    constructor ()
      ensures availableServices == BuiltInServices
      ensures currentService == null
    {
      availableServices := BuiltInServices;
      currentService := null;
    }

    /** get_service($name). `settings` is get_settings(). An error leaves
        the cached service as it was; success caches the new, initialised
        service. */
    method GetService(lib: Lib, settings: map<string, Value>, name: Option<string>)
      returns (r: Result<OpenAIEmbedding.Service>)
      modifies this
      ensures availableServices == old(availableServices)
      ensures var n := RequestedName(lib, settings, name);
              CacheHit(old(currentService), n)
              ==> r == Ok(old(currentService)) && currentService == old(currentService)
      ensures var n := RequestedName(lib, settings, name);
              !CacheHit(old(currentService), n) && n !in availableServices
              ==> r == Err(InvalidService(n)) && currentService == old(currentService)
      ensures var n := RequestedName(lib, settings, name);
              !CacheHit(old(currentService), n) && n in availableServices
              ==> var v := Validation(ServiceSettings(lib, n, settings), OpenAIEmbedding.RequiredSettings);
                  && (v.Err? ==> r == Err(v.error) && currentService == old(currentService))
                  && (v.Ok? ==> && r.Ok? && fresh(r.value)
                                && r.value.settings == ServiceSettings(lib, n, settings)
                                && currentService == r.value)
    {
      var n := RequestedName(lib, settings, name);
      if currentService != null && OpenAIEmbedding.ServiceName == n {
        return Ok(currentService);
      }
      if n !in availableServices {
        return Err(InvalidService(n));
      }
      var service := new OpenAIEmbedding.Service();
      var init := service.Initialize(ServiceSettings(lib, n, settings));
      if init.Err? {
        return Err(init.error);
      }
      currentService := service;
      r := Ok(service);
    }
  }

  // ---------------------------------------------------------------------
  // Lemmas

  /** With no embedding key stored (or an empty one), the OpenAI service
      fails validation on 'api_key', whatever the model. */
  lemma MissingKeyRejected(lib: Lib, all: map<string, Value>)
    requires Empty(Field(all, "embedding_openai_api_key"))
    ensures Validation(ServiceSettings(lib, "openai", all), OpenAIEmbedding.RequiredSettings)
            == Err(MissingSetting("api_key"))
  {
    var s := ServiceSettings(lib, "openai", all);
    assert Empty(Field(s, OpenAIEmbedding.RequiredSettings[0]));
    ValidationNamesFirstEmpty(s, OpenAIEmbedding.RequiredSettings, 0);
  }

  /** A stored plaintext 'sk-' key and no stored model pass validation:
      the default model fills the second required field. */
  lemma PlaintextKeyDefaultModelAccepted(lib: Lib, all: map<string, Value>, key: string)
    requires "embedding_openai_api_key" in all && all["embedding_openai_api_key"] == Str(key)
    requires StartsWith(key, "sk-")
    requires "embedding_openai_model" !in all
    ensures var s := ServiceSettings(lib, "openai", all);
            && s["api_key"] == Str(key)
            && s["model"] == Str(OpenAIEmbedding.DefaultModel)
            && Validation(s, OpenAIEmbedding.RequiredSettings) == Ok(true)
  {
    assert key[..3] == "sk-";
    var s := ServiceSettings(lib, "openai", all);
    var required := OpenAIEmbedding.RequiredSettings;
    assert forall i | 0 <= i < |required| :: !Empty(Field(s, required[i])) by {
      assert required == ["api_key", "model"];
    }
  }

  /** The registry key never hits the cache: a call by key always builds
      and initialises a new service from the current settings. */
  lemma RegistryKeyNeverHitsCache(current: OpenAIEmbedding.Service?, key: string)
    requires key in BuiltInServices
    ensures !CacheHit(current, key)
  {
  }
}

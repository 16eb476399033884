/** Vector_Service_Manager: the registry of vector back ends, the
    resolution of a service name, the per-service settings and the cached
    "current" instance. */
module VectorServiceManager {
  import opened Wrappers
  import opened Strings
  import opened Php
  import opened Wp
  import opened Settings
  import Pinecone
  import WpXplore

  /** The built-in service classes. */
  datatype Backend = WpXploreBackend | PineconeBackend

  /** get_service_name() of an instance. */
  function ServiceNameOf(b: Backend): (r: string)
    ensures r in {WpXplore.ServiceName, Pinecone.ServiceName}
    // the display names are never the lowercase registry keys
    ensures r != "wpxplore" && r != "pinecone"
  {
    match b
    case WpXploreBackend => WpXplore.ServiceName
    case PineconeBackend => Pinecone.ServiceName
  }

  /** get_required_settings() of an instance. */
  function RequiredSettingsOf(b: Backend): seq<string> {
    match b
    case WpXploreBackend => WpXplore.RequiredSettings
    case PineconeBackend => Pinecone.RequiredSettings
  }

  /** A registry entry: the service class and its label (title). */
  datatype ServiceEntry = ServiceEntry(backend: Backend, title: string)

  /** An initialised service instance: its class and its settings. */
  datatype VectorService = VectorService(backend: Backend, settings: map<string, Value>)

  /** register_services, without the extension filter. */
  const BuiltInServices: map<string, ServiceEntry> := map[
    "wpxplore" := ServiceEntry(WpXploreBackend, "WpXplore"),
    "pinecone" := ServiceEntry(PineconeBackend, "Pinecone")
  ]

  /** The name get_service resolves: the argument, else the stored
      'vector_service', else 'wpxplore'. */
  function RequestedName(lib: Lib, settings: map<string, Value>, name: Option<string>): (r: string)
    ensures name.Some? ==> r == name.value
    ensures name.None? && !IsSet(Field(settings, "vector_service")) ==> r == "wpxplore"
    ensures name.None? && IsSet(Field(settings, "vector_service")) ==> r == Text(lib, settings["vector_service"])
  {
    match name
    case Some(n) => n
    case None => Text(lib, Coalesce(Field(settings, "vector_service"), Str("wpxplore")))
  }

  /** get_service_settings($name, $all): the flat settings mapped to one
      service's settings; any other name gives array(). */
  function ServiceSettings(lib: Lib, name: string, all: map<string, Value>): (r: map<string, Value>)
    ensures name == "wpxplore" ==>
              && r.Keys == {"api_base_url", "api_secret_key"}
              && r["api_base_url"] == Coalesce(Field(all, "vector_api_base_url"), Str(""))
              && r["api_secret_key"] == DecryptIfSet(lib, Coalesce(Field(all, "vector_api_secret_key"), Str("")))
    ensures name == "pinecone" ==>
              && r.Keys == {"api_key", "environment", "index_name"}
              && r["api_key"] == DecryptIfSet(lib, Coalesce(Field(all, "pinecone_api_key"), Str("")))
              && r["environment"] == Coalesce(Field(all, "pinecone_environment"), Str(""))
    // pinecone_index_name when non-null (even ''), else vector_index_name, else ''
    ensures name == "pinecone" && IsSet(Field(all, "pinecone_index_name"))
            ==> r["index_name"] == all["pinecone_index_name"]
    ensures name == "pinecone" && !IsSet(Field(all, "pinecone_index_name")) && IsSet(Field(all, "vector_index_name"))
            ==> r["index_name"] == all["vector_index_name"]
    ensures name == "pinecone" && !IsSet(Field(all, "pinecone_index_name")) && !IsSet(Field(all, "vector_index_name"))
            ==> r["index_name"] == Str("")
    ensures name != "wpxplore" && name != "pinecone" ==> r == map[]
  {
    if name == "wpxplore" then
      map["api_base_url" := Coalesce(Field(all, "vector_api_base_url"), Str("")),
          "api_secret_key" := DecryptIfSet(lib, Coalesce(Field(all, "vector_api_secret_key"), Str("")))]
    else if name == "pinecone" then
      map["api_key" := DecryptIfSet(lib, Coalesce(Field(all, "pinecone_api_key"), Str(""))),
          "environment" := Coalesce(Field(all, "pinecone_environment"), Str("")),
          "index_name" := Coalesce(Field(all, "pinecone_index_name"),
                                   Coalesce(Field(all, "vector_index_name"), Str("")))]
    else map[]
  }

  /** The cache test of get_service: the current instance's display name
      equals the requested name. */
  predicate CacheHit(current: Option<VectorService>, name: string) {
    current.Some? && ServiceNameOf(current.value.backend) == name
  }

  function InvalidService(name: string): Error {
    Error("invalid_service", "Vector service \"" + name + "\" is not available.")
  }

  /** The vector service manager: the registry and the cached instance. */
  class Manager {
    var availableServices: map<string, ServiceEntry>
    var currentService: Option<VectorService>

    /** The constructor registers the built-in services. */
    constructor ()
      ensures availableServices == BuiltInServices
      ensures currentService == None
    {
      availableServices := BuiltInServices;
      currentService := None;
    }

    /** get_service($name). `settings` is get_settings(); `initialize` is
        the base class's initialize, None on success. An error leaves the
        cached instance as it was; success caches the new instance. */
    method GetService(lib: Lib, settings: map<string, Value>, name: Option<string>,
                      initialize: (Backend, map<string, Value>) -> Option<Error>)
      returns (r: Result<VectorService>)
      modifies this
      ensures availableServices == old(availableServices)
      ensures var n := RequestedName(lib, settings, name);
              CacheHit(old(currentService), n)
              ==> r == Ok(old(currentService).value) && currentService == old(currentService)
      ensures var n := RequestedName(lib, settings, name);
              !CacheHit(old(currentService), n) && n !in availableServices
              ==> r == Err(InvalidService(n)) && currentService == old(currentService)
      ensures var n := RequestedName(lib, settings, name);
              !CacheHit(old(currentService), n) && n in availableServices
              ==> var svc := VectorService(availableServices[n].backend, ServiceSettings(lib, n, settings));
                  && (initialize(svc.backend, svc.settings).Some?
                      ==> r == Err(initialize(svc.backend, svc.settings).value) && currentService == old(currentService))
                  && (initialize(svc.backend, svc.settings).None?
                      ==> r == Ok(svc) && currentService == Some(svc))
    {
      var n := RequestedName(lib, settings, name);
      if currentService.Some? && ServiceNameOf(currentService.value.backend) == n {
        return Ok(currentService.value);
      }
      if n !in availableServices {
        return Err(InvalidService(n));
      }
      var backend := availableServices[n].backend;
      var serviceSettings := ServiceSettings(lib, n, settings);
      var failure := initialize(backend, serviceSettings);
      if failure.Some? {
        return Err(failure.value);
      }
      var svc := VectorService(backend, serviceSettings);
      currentService := Some(svc);
      r := Ok(svc);
    }
  }

  // ---------------------------------------------------------------------
  // Lemmas

  /** Asking for a built-in service by its registry key never hits the
      cache, whatever instance is cached: every such call builds and
      initialises a new instance. */
  lemma RegistryKeysNeverHitCache(current: Option<VectorService>, key: string)
    requires key in BuiltInServices
    ensures !CacheHit(current, key)
  {
  }

  /** For each built-in service, the settings get_service_settings builds
      carry exactly the service's required fields. */
  lemma ServiceSettingsMatchRequired(lib: Lib, key: string, all: map<string, Value>)
    requires key in BuiltInServices
    ensures var b := BuiltInServices[key].backend;
            ServiceSettings(lib, key, all).Keys == (set f | f in RequiredSettingsOf(b))
  {
    var b := BuiltInServices[key].backend;
    var req := RequiredSettingsOf(b);
    if key == "wpxplore" {
      assert b == WpXploreBackend;
      assert (set f | f in req) == {"api_base_url", "api_secret_key"} by {
        assert req == ["api_base_url", "api_secret_key"];
      }
    } else {
      assert b == PineconeBackend;
      assert (set f | f in req) == {"api_key", "environment", "index_name"} by {
        assert req == ["api_key", "environment", "index_name"];
      }
    }
  }

  /** A stored plaintext 'sk-' secret reaches the WpXplore service as it is. */
  lemma PlaintextSecretPassesThrough(lib: Lib, all: map<string, Value>, secret: string)
    requires "vector_api_secret_key" in all && all["vector_api_secret_key"] == Str(secret)
    requires StartsWith(secret, "sk-")
    ensures ServiceSettings(lib, "wpxplore", all)["api_secret_key"] == Str(secret)
  {
    assert secret[..3] == "sk-";
  }
}

/** Settings_Manager: the plugin's single option record, merged over its
    defaults on read, with the API key and the vector secret preserved,
    encrypted or kept on save. */
module Settings {
  import opened Wrappers
  import opened Strings
  import opened Php

  const DefaultSystemPrompt := "You are a helpful assistant for a business directory website. Answer questions about the listings available on this site."

  /** The defaults of get_settings. */
  const Defaults: map<string, Value> := map[
    "api_key" := Str(""),
    "model" := Str("gpt-3.5-turbo"),
    "system_prompt" := Str(DefaultSystemPrompt),
    "temperature" := Float(0.7),
    "max_tokens" := Int(1000),
    "vector_api_base_url" := Str(""),
    "vector_api_secret_key" := Str(""),
    "vector_auto_sync" := Bool(false),
    "vector_chunk_size" := Int(500),
    "vector_chunk_overlap" := Int(50),
    "vector_embedding_model" := Str("text-embedding-ada-002"),
    "vector_index_name" := Str("directorist-listings"),
    "vector_namespace" := Str(""),
    "chat_agent_name" := Str(""),
    "chat_widget_position" := Str("bottom-right"),
    "chat_widget_color" := Str("#667eea")
  ]

  const ApiKeyField := "api_key"
  const SecretKeyField := "vector_api_secret_key"

  /** The value save_settings stores for 'api_key', given the current
      settings and the input array. */
  function ApiKeyToStore(lib: Lib, current: map<string, Value>, input: map<string, Value>): (r: Value)
    // absent (or null): the stored key is preserved
    ensures !IsSet(Field(input, ApiKeyField)) ==> r == Coalesce(Field(current, ApiKeyField), Str(""))
    // empty or masked: the stored key is preserved
    ensures IsSet(Field(input, ApiKeyField))
              && (EmptyValue(input[ApiKeyField]) || StrContains(input[ApiKeyField], "***"))
            ==> r == Coalesce(Field(current, ApiKeyField), Str(""))
    // a new plaintext key: encrypted
    ensures IsSet(Field(input, ApiKeyField)) && !EmptyValue(input[ApiKeyField])
              && !StrContains(input[ApiKeyField], "***") && StrStartsWith(input[ApiKeyField], "sk-")
            ==> r == Str(lib.encrypt(input[ApiKeyField].s))
    // anything else (taken to be already encrypted): kept as given
    ensures IsSet(Field(input, ApiKeyField)) && !EmptyValue(input[ApiKeyField])
              && !StrContains(input[ApiKeyField], "***") && !StrStartsWith(input[ApiKeyField], "sk-")
            ==> r == input[ApiKeyField]
  {
    var given := Field(input, ApiKeyField);
    var stored := Coalesce(Field(current, ApiKeyField), Str(""));
    if !IsSet(given) then stored
    else if EmptyValue(given.value) || StrContains(given.value, "***") then stored
    else if StrStartsWith(given.value, "sk-") then Str(lib.encrypt(given.value.s))
    else given.value
  }

  /** The value save_settings stores for 'vector_api_secret_key'. */
  function SecretToStore(lib: Lib, current: map<string, Value>, input: map<string, Value>): (r: Value)
    // absent, empty or masked: the stored secret is preserved
    ensures !IsSet(Field(input, SecretKeyField)) || EmptyValue(input[SecretKeyField])
              || StrContains(input[SecretKeyField], "***")
            ==> r == Coalesce(Field(current, SecretKeyField), Str(""))
    // any other value is encrypted, already-encrypted or not
    ensures IsSet(Field(input, SecretKeyField)) && !EmptyValue(input[SecretKeyField])
              && !StrContains(input[SecretKeyField], "***")
            ==> r == Str(lib.encrypt(Text(lib, input[SecretKeyField])))
  {
    var given := Field(input, SecretKeyField);
    var stored := Coalesce(Field(current, SecretKeyField), Str(""));
    if !IsSet(given) then stored
    else if EmptyValue(given.value) || StrContains(given.value, "***") then stored
    else Str(lib.encrypt(Text(lib, given.value)))
  }

  /** The option save_settings writes, given the settings it read
      (get_settings) and its input: the two secrets rewritten, then the
      input merged over the current settings. */
  function SavedOption(lib: Lib, current: map<string, Value>, input: map<string, Value>): (r: map<string, Value>)
    ensures r.Keys == current.Keys + input.Keys + {ApiKeyField, SecretKeyField}
    ensures r[ApiKeyField] == ApiKeyToStore(lib, current, input)
    ensures r[SecretKeyField] == SecretToStore(lib, current, input)
    // input keys overwrite stored ones
    ensures forall k | k in input && k != ApiKeyField && k != SecretKeyField :: r[k] == input[k]
    // stored keys absent from the input keep their value
    ensures forall k | k in current && k !in input && k != ApiKeyField && k != SecretKeyField :: r[k] == current[k]
  {
    var rewritten := input[ApiKeyField := ApiKeyToStore(lib, current, input)]
                          [SecretKeyField := SecretToStore(lib, current, input)];
    current + rewritten
  }

  /** decrypt_api_key: '' for an empty value, a plaintext 'sk-' key as it
      is, anything else through the cipher. */
  function DecryptApiKey(lib: Lib, s: string): (r: string)
    ensures EmptyString(s) ==> r == ""
    ensures !EmptyString(s) && StartsWith(s, "sk-") ==> r == s
    ensures !EmptyString(s) && !StartsWith(s, "sk-") ==> r == lib.decrypt(s)
  {
    if EmptyString(s) then ""
    else if StartsWith(s, "sk-") then s
    else lib.decrypt(s)
  }

  /** The decrypted value of a secret setting: '' when it is empty, else
      decrypt_api_key of it (get_api_key, and the private
      get_decrypted_secret_key of the vector classes). */
  function DecryptedSetting(lib: Lib, settings: map<string, Value>, key: string): (r: string)
    ensures Empty(Field(settings, key)) ==> r == ""
    ensures !Empty(Field(settings, key)) ==> r == DecryptApiKey(lib, Text(lib, settings[key]))
  {
    var v := Coalesce(Field(settings, key), Str(""));
    if EmptyValue(v) then "" else DecryptApiKey(lib, Text(lib, v))
  }

  /** The service managers' "decrypt if needed": a non-empty value goes
      through decrypt_api_key, an empty one is kept as it is. */
  function DecryptIfSet(lib: Lib, v: Value): (r: Value)
    ensures EmptyValue(v) ==> r == v
    ensures !EmptyValue(v) ==> r == Str(DecryptApiKey(lib, Text(lib, v)))
    ensures v.Str? && !EmptyValue(v) && StartsWith(v.s, "sk-") ==> r == v
  {
    if EmptyValue(v) then v else Str(DecryptApiKey(lib, Text(lib, v)))
  }

  /** The decrypted vector secret key, as Vector_Query and Vector_Sync read it. */
  function SecretKey(lib: Lib, settings: map<string, Value>): (r: string)
    ensures Empty(Field(settings, SecretKeyField)) ==> r == ""
    ensures !Empty(Field(settings, SecretKeyField)) && StrStartsWith(settings[SecretKeyField], "sk-")
            ==> r == settings[SecretKeyField].s
    ensures !Empty(Field(settings, SecretKeyField)) ==> r == DecryptApiKey(lib, Text(lib, settings[SecretKeyField]))
    ensures !Empty(Field(settings, SecretKeyField)) && settings[SecretKeyField].Str?
              && !StartsWith(settings[SecretKeyField].s, "sk-")
            ==> r == lib.decrypt(settings[SecretKeyField].s)
  {
    DecryptedSetting(lib, settings, SecretKeyField)
  }

  /** The settings manager over the stored option (get_option of
      'directorist_smart_assistant_settings', array() when absent). */
  class SettingsManager {
    var option: map<string, Value>

    constructor (stored: map<string, Value>)
      ensures option == stored
    {
      option := stored;
    }

    /** get_settings: every default key is present, and a stored value
        overrides the default for its key. */
    function GetSettings(): (s: map<string, Value>)
      reads this
      ensures s.Keys == Defaults.Keys + option.Keys
      ensures forall k | k in option :: s[k] == option[k]
      ensures forall k | k in Defaults && k !in option :: s[k] == Defaults[k]
    {
      Defaults + option
    }

    /** get_setting($key, $default): the setting when it is set (not null),
        else the supplied default. */
    function GetSetting(key: string, default: Value): (r: Value)
      reads this
      ensures key in option && option[key] != Null ==> r == option[key]
      ensures key !in option && key in Defaults ==> r == Defaults[key]
      ensures key !in option && key !in Defaults ==> r == default
      ensures key in option && option[key] == Null ==> r == default
    {
      var s := GetSettings();
      if key in s && s[key] != Null then s[key] else default
    }

    /** get_api_key: '' when no key is stored, else the decrypted key. */
    function ApiKey(lib: Lib): (r: string)
      reads this
      ensures ApiKeyField !in option || EmptyValue(option[ApiKeyField]) ==> r == ""
      ensures ApiKeyField in option && !EmptyValue(option[ApiKeyField])
              ==> r == DecryptApiKey(lib, Text(lib, option[ApiKeyField]))
    {
      DecryptedSetting(lib, GetSettings(), ApiKeyField)
    }

    /** save_settings($settings): writes the option SavedOption describes;
        the result is update_option's: true when the stored value changed. */
    method SaveSettings(lib: Lib, input: map<string, Value>) returns (updated: bool)
      modifies this
      ensures option == SavedOption(lib, old(GetSettings()), input)
      ensures updated == (option != old(option))
    {
      var current := GetSettings();
      var saved := SavedOption(lib, current, input);
      updated := saved != option;
      option := saved;
    }
  }

  // ---------------------------------------------------------------------
  // Lemmas relating saves and reads

  /** Properties of base64 over AES that the key lemmas rely on: decrypt
      inverts encrypt, and a ciphertext is never empty, "0", nor starts
      with 'sk-' (base64 has no '-'). */
  ghost predicate CipherBehaves(lib: Lib) {
    forall s: string {:trigger lib.encrypt(s)} ::
      lib.decrypt(lib.encrypt(s)) == s
      && !EmptyString(lib.encrypt(s))
      && !StartsWith(lib.encrypt(s), "sk-")
  }

  /** A new 'sk-' key saved through save_settings is what get_api_key
      returns afterwards. */
  lemma SaveThenApiKey(lib: Lib, stored: map<string, Value>, input: map<string, Value>, key: string)
    requires CipherBehaves(lib)
    requires ApiKeyField in input && input[ApiKeyField] == Str(key)
    requires StartsWith(key, "sk-") && !Contains(key, "***")
    ensures var saved := SavedOption(lib, Defaults + stored, input);
            DecryptedSetting(lib, Defaults + saved, ApiKeyField) == key
  {
    var saved := SavedOption(lib, Defaults + stored, input);
    assert !EmptyValue(input[ApiKeyField]) by {
      assert key[..3] == "sk-";
    }
    assert saved[ApiKeyField] == Str(lib.encrypt(key));
    assert (Defaults + saved)[ApiKeyField] == Str(lib.encrypt(key));
  }

  /** Saving with the key left empty or masked keeps the key that
      get_api_key returns. */
  lemma SaveMaskedKeepsApiKey(lib: Lib, stored: map<string, Value>, input: map<string, Value>)
    requires ApiKeyField in input
    requires EmptyValue(input[ApiKeyField]) || StrContains(input[ApiKeyField], "***")
    ensures var current := Defaults + stored;
            DecryptedSetting(lib, Defaults + SavedOption(lib, current, input), ApiKeyField)
              == DecryptedSetting(lib, current, ApiKeyField)
  {
    var current := Defaults + stored;
    var saved := SavedOption(lib, current, input);
    assert saved[ApiKeyField] == Coalesce(Field(current, ApiKeyField), Str(""));
    assert (Defaults + saved)[ApiKeyField] == saved[ApiKeyField];
  }
}

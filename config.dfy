/**
 * The credential store of the chat widget (`ChatbotConfig`): one API key
 * kept in `localStorage` under a fixed name, with set, get, remove and a
 * configured check.
 */
module Config {
  import opened Wrappers
  import opened Text
  import opened Storage

  /** The single storage key the store uses. */
  const ApiKeyName: string := "openai_api_key"

  datatype ConfigError =
    | EmptyKey        // setApiKey: the key is missing, empty or whitespace only
    | NotConfigured   // getApiKey: no usable key is stored

  /** The two maps agree on every key other than the API key's. */
  ghost predicate SameElsewhere(a: map<string, string>, b: map<string, string>) {
    forall k :: k != ApiKeyName ==> (k in a <==> k in b) && (k in a && k in b ==> a[k] == b[k])
  }

  /** What `getApiKey` gives for the store `items`: the stored value, or
      `NotConfigured` when nothing, or the empty string, is stored (the
      source tests `!apiKey`, and the empty string is falsy). */
  function StoredKey(items: map<string, string>): (r: Result<string, ConfigError>)
    ensures r.Success? <==> ApiKeyName in items && items[ApiKeyName] != ""
    ensures r.Success? ==> r.value == items[ApiKeyName]
    ensures r.Failure? ==> r.error == NotConfigured
  {
    if ApiKeyName in items && items[ApiKeyName] != "" then Success(items[ApiKeyName])
    else Failure(NotConfigured)
  }

  /** `setApiKey` accepts a key that is present and not blank. */
  predicate Acceptable(apiKey: Option<string>) {
    apiKey.Some? && apiKey.value != "" && !IsBlank(apiKey.value)
  }

  /** The store after `setApiKey(apiKey)`, or the error it throws. */
  function AfterSet(items: map<string, string>, apiKey: Option<string>): (r: Result<map<string, string>, ConfigError>)
    ensures r.Failure? <==> !Acceptable(apiKey)
    ensures r.Failure? ==> r.error == EmptyKey
    ensures r.Success? ==> ApiKeyName in r.value && r.value[ApiKeyName] == Trim(apiKey.value)
    ensures r.Success? ==> SameElsewhere(items, r.value)
  {
    if !Acceptable(apiKey) then Failure(EmptyKey)
    else Success(items[ApiKeyName := Trim(apiKey.value)])
  }

  /** The store after `removeApiKey()`. */
  function AfterRemove(items: map<string, string>): (r: map<string, string>)
    ensures ApiKeyName !in r
    ensures SameElsewhere(items, r)
  {
    items - {ApiKeyName}
  }

  /** `isConfigured()`: `!!getItem(...)`, true exactly when `getApiKey` succeeds. */
  predicate Configured(items: map<string, string>) {
    ApiKeyName in items && items[ApiKeyName] != ""
  }

  /** Setting an acceptable key and reading it back gives the trimmed key,
      and the store counts as configured. */
  lemma SetThenGet(items: map<string, string>, apiKey: string)
    requires Acceptable(Some(apiKey))
    ensures AfterSet(items, Some(apiKey)).Success?
    ensures StoredKey(AfterSet(items, Some(apiKey)).value) == Success(Trim(apiKey))
    ensures Configured(AfterSet(items, Some(apiKey)).value)
  {
    assert Trim(apiKey) != "";
  }

  /** A missing key, and any key made of whitespace only (the empty key
      included), is refused and the store is left as it was. */
  lemma BlankKeysRefused(items: map<string, string>, apiKey: Option<string>)
    requires apiKey.Some? ==> forall k :: 0 <= k < |apiKey.value| ==> IsWhitespace(apiKey.value[k])
    ensures AfterSet(items, apiKey) == Failure(EmptyKey)
  {
    if apiKey.Some? {
      assert Trim(apiKey.value) == "";
    }
  }

  /** The second of two successful sets decides the stored key. */
  lemma LastWriteWins(items: map<string, string>, first: string, second: string)
    requires Acceptable(Some(first)) && Acceptable(Some(second))
    ensures AfterSet(AfterSet(items, Some(first)).value, Some(second)) == AfterSet(items, Some(second))
  {
    var once := items[ApiKeyName := Trim(first)];
    assert once[ApiKeyName := Trim(second)] == items[ApiKeyName := Trim(second)];
  }

  /** After a remove the store is not configured, and removing again changes nothing. */
  lemma RemoveIdempotent(items: map<string, string>)
    ensures !Configured(AfterRemove(items))
    ensures StoredKey(AfterRemove(items)) == Failure(NotConfigured)
    ensures AfterRemove(AfterRemove(items)) == AfterRemove(items)
  {
  }

  class ChatbotConfig {
    const storage: LocalStorage
    const apiEndpoint: string
    const model: string
    const maxTokens: nat
    const temperature: real
    const presencePenalty: real
    const frequencyPenalty: real

    constructor (storage: LocalStorage)
      ensures this.storage == storage
      ensures apiEndpoint == "https://api.openai.com/v1/chat/completions"
      ensures model == "gpt-3.5-turbo" && maxTokens == 500
      ensures temperature == 0.7 && presencePenalty == 0.1 && frequencyPenalty == 0.1
    {
      this.storage := storage;
      apiEndpoint := "https://api.openai.com/v1/chat/completions";
      model := "gpt-3.5-turbo";
      maxTokens := 500;
      temperature := 0.7;
      presencePenalty := 0.1;
      frequencyPenalty := 0.1;
    }

    /** `setApiKey(apiKey)`: stores the trimmed key, or throws and leaves the store alone. */
    method SetApiKey(apiKey: Option<string>) returns (outcome: Outcome<ConfigError>)
      modifies storage
      ensures outcome.Fail? <==> !Acceptable(apiKey)
      ensures outcome.Fail? ==> outcome.error == EmptyKey && storage.items == old(storage.items)
      ensures outcome.Pass? ==> storage.items == AfterSet(old(storage.items), apiKey).value
    {
      if apiKey.None? || apiKey.value == "" || Trim(apiKey.value) == "" {
        return Fail(EmptyKey);
      }
      storage.SetItem(ApiKeyName, Trim(apiKey.value));
      outcome := Pass;
    }

    /** `getApiKey()`: the stored key, or throws when none is stored. */
    method GetApiKey() returns (r: Result<string, ConfigError>)
      ensures r == StoredKey(storage.items)
    {
      var apiKey := storage.GetItem(ApiKeyName);
      if apiKey.None? || apiKey.value == "" {
        return Failure(NotConfigured);
      }
      r := Success(apiKey.value);
    }

    /** `removeApiKey()` */
    method RemoveApiKey()
      modifies storage
      ensures storage.items == AfterRemove(old(storage.items))
    {
      storage.RemoveItem(ApiKeyName);
    }

    /** `isConfigured()` */
    method IsConfigured() returns (configured: bool)
      ensures configured == Configured(storage.items)
      ensures configured <==> StoredKey(storage.items).Success?
    {
      var apiKey := storage.GetItem(ApiKeyName);
      configured := apiKey.Some? && apiKey.value != "";
    }
  }
}

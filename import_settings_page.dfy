/**
 * The import-from-link page: a shared link carries a provider configuration
 * as percent-encoded JSON in its fragment; the page parses it once, shows it
 * for confirmation, adds it to the AI store on confirm and removes exactly
 * that source again on undo.
 */
module ImportSettings {
  import opened Optional
  import opened JsStrings
  import opened JsValues
  import opened Collaborators

  /** The only error key the page ever sets. */
  const ParseFailedKey: string := "error.parse-failed"

  /** The parsed payload as the page uses it: each property, `None` when undefined. */
  datatype Payload = Payload(
    name: Option<Json>,
    provider: Option<Json>,
    model: Option<Json>,
    baseUrl: Option<Json>,
    key: Option<Json>)

  /** The four views of the page. */
  datatype View = ErrorView | LoadingView | ImportedView | ConfirmView

  /** Reads the payload's properties; `None` when the value is `null` (TypeError). */
  function ReadPayload(v: Json): Option<Payload>
  {
    if v.JNull? then None
    else Some(Payload(Property(v, "name"), Property(v, "provider"), Property(v, "model"),
                      Property(v, "baseUrl"), Property(v, "key")))
  }

  /**
   * What the parse effect makes of a non-empty `window.location.hash`: drop
   * the `#`, percent-decode, parse as JSON, read the properties, and accept
   * only when `name` and `provider` are truthy. `None` stands for every way
   * that fails, all of which end in the same caught exception.
   */
  function ParseImport(hash: string, decode: string -> Option<string>, parse: string -> Option<Json>): (r: Option<Payload>)
    requires hash != ""
    ensures r.Some? <==>
      && decode(hash[1..]).Some?
      && parse(decode(hash[1..]).value).Some?
      && parse(decode(hash[1..]).value).value.JObject?
      && TruthyField(Property(parse(decode(hash[1..]).value).value, "name"))
      && TruthyField(Property(parse(decode(hash[1..]).value).value, "provider"))
    ensures r.Some? ==> Some(r.value) == ReadPayload(parse(decode(hash[1..]).value).value)
  {
    match decode(hash[1..])
    case None => None
    case Some(text) =>
      match parse(text)
      case None => None
      case Some(v) =>
        match ReadPayload(v)
        case None => None
        case Some(p) => if TruthyField(p.name) && TruthyField(p.provider) then Some(p) else None
  }

  /**
   * The fields `handleConfirmImport` passes to `addSource` for an accepted
   * payload, or `None` when `provider.toLowerCase()` throws because the
   * provider, though truthy, is not a string.
   */
  function ImportFields(p: Payload): (r: Option<NewSource>)
    requires TruthyField(p.name) && TruthyField(p.provider)
    ensures r.Some? <==> p.provider.value.JString?
    ensures r.Some? ==> r.value.enabled && r.value.apiKey == p.key && r.value.name == p.name.value
    ensures r.Some? ==> r.value.model == p.model && r.value.baseUrl == p.baseUrl
    ensures r.Some? ==> r.value.provider == ToLowerCase(p.provider.value.s)
    ensures r.Some? ==> r.value.provider != [] && forall i :: 0 <= i < |r.value.provider| ==> !('A' <= r.value.provider[i] <= 'Z')
  {
    match p.provider.value
    case JString(s) => Some(NewSource(p.key, p.name.value, p.model, ToLowerCase(s), p.baseUrl, true))
    case _ => None
  }

  /** The view rendered for the page state: error, then loading, then imported, then confirm. */
  function ViewOf(errorKey: string, isLoading: bool, isImported: bool): View
  {
    if errorKey != "" then ErrorView
    else if isLoading then LoadingView
    else if isImported then ImportedView
    else ConfirmView
  }

  /** An empty object is rejected: neither required field is present. */
  lemma EmptyObjectRejected(hash: string, decode: string -> Option<string>, parse: string -> Option<Json>)
    requires hash != "" && decode(hash[1..]).Some?
    requires parse(decode(hash[1..]).value) == Some(JObject(map[]))
    ensures ParseImport(hash, decode, parse).None?
  {
  }

  /** A `null` payload is rejected (the property read throws), as is any non-object. */
  lemma NonObjectRejected(hash: string, decode: string -> Option<string>, parse: string -> Option<Json>)
    requires hash != "" && decode(hash[1..]).Some?
    requires parse(decode(hash[1..]).value).Some? && !parse(decode(hash[1..]).value).value.JObject?
    ensures ParseImport(hash, decode, parse).None?
  {
  }

  /** `{"name":"My Key","provider":"OPENAI"}` is accepted and imported with provider "openai". */
  lemma UpperCaseProviderImported(hash: string, decode: string -> Option<string>, parse: string -> Option<Json>)
    requires hash != "" && decode(hash[1..]).Some?
    requires parse(decode(hash[1..]).value) ==
      Some(JObject(map["name" := JString("My Key"), "provider" := JString("OPENAI")]))
    ensures ParseImport(hash, decode, parse).Some?
    ensures ImportFields(ParseImport(hash, decode, parse).value) ==
      Some(NewSource(None, JString("My Key"), None, "openai", None, true))
  {
    var v := parse(decode(hash[1..]).value).value;
    var p := Payload(Some(JString("My Key")), Some(JString("OPENAI")), None, None, None);
    assert "model" !in v.members && "baseUrl" !in v.members && "key" !in v.members;
    assert ReadPayload(v) == Some(p);
    assert ParseImport(hash, decode, parse) == Some(p);
    OpenAiLowered();
  }

  /** "OPENAI" lower-cases to "openai". */
  lemma OpenAiLowered()
    ensures ToLowerCase("OPENAI") == "openai"
  {
  }

  /**
   * The page's state. `hash`, `decode` and `parse` are the page's fixed
   * environment: the URL fragment it was opened with, `decodeURIComponent`
   * and `JSON.parse` (each `None` where the builtin throws).
   */
  class ImportSettingsPage {
    const hash: string
    const decode: string -> Option<string>
    const parse: string -> Option<Json>

    var modelJson: Option<Payload>
    var errorKey: string
    var isImported: bool
    var isLoading: bool
    /** The `sourceId` ref: the id the last confirm got back from `addSource`. */
    var sourceId: Option<string>

    var storeCalls: seq<AiCall>
    var navigations: seq<Navigation>

    /**
     * Until the parse effect has run on a non-empty fragment the page is
     * loading with nothing parsed; afterwards exactly one of the error key
     * and the parsed model is set, and the model is what the fragment holds.
     * Only a confirmed import shows the imported view.
     */
    ghost predicate Valid()
      reads this
    {
      && (errorKey == "" || errorKey == ParseFailedKey)
      && (isLoading ==> errorKey == "" && modelJson.None? && !isImported && sourceId.None?)
      && (!isLoading ==>
            && hash != ""
            && modelJson == ParseImport(hash, decode, parse)
            && (errorKey == "" <==> modelJson.Some?))
      && (isImported ==> modelJson.Some? && sourceId.Some?)
    }

    /** The first render: loading, nothing parsed, nothing called. */
    constructor (hash: string, decode: string -> Option<string>, parse: string -> Option<Json>)
      ensures Valid()
      ensures this.hash == hash && this.decode == decode && this.parse == parse
      ensures modelJson.None? && errorKey == "" && !isImported && isLoading && sourceId.None?
      ensures storeCalls == [] && navigations == []
    {
      this.hash, this.decode, this.parse := hash, decode, parse;
      modelJson, errorKey, isImported, isLoading, sourceId := None, "", false, true, None;
      storeCalls, navigations := [], [];
    }

    /**
     * The mount effect. An empty fragment redirects home and changes
     * nothing else (the page stays loading). Otherwise it parses, sets
     * either the model or the error key, and always ends loading. It never
     * calls the store.
     */
    method RunParseEffect()
      requires Valid()
      modifies this
      ensures Valid()
      ensures hash == "" ==> navigations == old(navigations) + [Replace("/")]
      ensures hash == "" ==> modelJson == old(modelJson) && errorKey == old(errorKey) && isLoading == old(isLoading)
      ensures hash != "" ==> navigations == old(navigations) && !isLoading
      ensures hash != "" ==> modelJson == ParseImport(hash, decode, parse)
      ensures hash != "" ==> (errorKey == ParseFailedKey <==> ParseImport(hash, decode, parse).None?)
      ensures hash != "" ==> (errorKey == "" <==> ParseImport(hash, decode, parse).Some?)
      ensures storeCalls == old(storeCalls) && isImported == old(isImported) && sourceId == old(sourceId)
    {
      if hash == "" {
        navigations := navigations + [Replace("/")];
        return;
      }
      var decoded := decode(hash[1..]);
      var parsed: Option<Json> := if decoded.Some? then parse(decoded.value) else None;
      var payload: Option<Payload> := if parsed.Some? then ReadPayload(parsed.value) else None;
      if payload.Some? && TruthyField(payload.value.name) && TruthyField(payload.value.provider) {
        modelJson := payload;
      } else {
        errorKey := ParseFailedKey;
      }
      isLoading := false;
    }

    /**
     * `handleConfirmImport`. Without a parsed model it does nothing.
     * Otherwise it makes exactly one `addSource` call, with the payload's
     * fields, the provider lower-cased and `enabled` true, records the id
     * the store returned (`returnedId`) and shows the imported view; if the
     * provider is not a string, `toLowerCase` throws first (`threw`) and
     * nothing changes.
     */
    method ConfirmImport(returnedId: string) returns (threw: bool)
      requires Valid()
      modifies this
      ensures Valid()
      ensures old(modelJson).None? ==> !threw && unchanged(this)
      ensures old(modelJson).Some? ==> (threw <==> ImportFields(old(modelJson).value).None?)
      ensures threw ==> unchanged(this)
      ensures old(modelJson).Some? && !threw ==>
        && storeCalls == old(storeCalls) + [AddSource(ImportFields(old(modelJson).value).value)]
        && sourceId == Some(returnedId)
        && isImported
      ensures modelJson == old(modelJson) && errorKey == old(errorKey) && isLoading == old(isLoading)
      ensures navigations == old(navigations)
    {
      threw := false;
      if modelJson.None? {
        return;
      }
      var fields := ImportFields(modelJson.value);
      if fields.None? {
        threw := true;
        return;
      }
      storeCalls := storeCalls + [AddSource(fields.value)];
      sourceId := Some(returnedId);
      isImported := true;
    }

    /** `handleCancel`: back home, no store call. */
    method Cancel()
      requires Valid()
      modifies this
      ensures Valid()
      ensures navigations == old(navigations) + [Push("/")]
      ensures storeCalls == old(storeCalls) && modelJson == old(modelJson) && errorKey == old(errorKey)
      ensures isImported == old(isImported) && isLoading == old(isLoading) && sourceId == old(sourceId)
    {
      navigations := navigations + [Push("/")];
    }

    /**
     * `handleUndo`. Without a recorded id (or with an empty one, which is
     * falsy) it does nothing; otherwise it removes exactly the recorded
     * source and leaves the imported view. The recorded id stays.
     */
    method Undo()
      requires Valid()
      modifies this
      ensures Valid()
      ensures (old(sourceId).None? || old(sourceId).value == "") ==> unchanged(this)
      ensures old(sourceId).Some? && old(sourceId).value != "" ==>
        && storeCalls == old(storeCalls) + [RemoveSource(old(sourceId).value)]
        && !isImported
      ensures sourceId == old(sourceId) && modelJson == old(modelJson) && errorKey == old(errorKey)
      ensures isLoading == old(isLoading) && navigations == old(navigations)
    {
      if sourceId.None? || sourceId.value == "" {
        return;
      }
      storeCalls := storeCalls + [RemoveSource(sourceId.value)];
      isImported := false;
    }

    /**
     * The rendered view. The error view appears exactly when parsing failed;
     * the confirm view only with a parsed model that has not been imported;
     * the imported view only after a confirm recorded an id.
     */
    function CurrentView(): (v: View)
      requires Valid()
      reads this
      ensures v == ViewOf(errorKey, isLoading, isImported)
      ensures v == ErrorView <==> !isLoading && ParseImport(hash, decode, parse).None?
      ensures v == LoadingView ==> modelJson.None? && !isImported && sourceId.None?
      ensures v == ImportedView ==> modelJson.Some? && sourceId.Some?
      ensures v == ConfirmView ==> !isImported && modelJson.Some? && modelJson == ParseImport(hash, decode, parse)
    {
      ViewOf(errorKey, isLoading, isImported)
    }
  }

  /** A link with `{"name":"My Key","provider":"OPENAI"}`, confirmed and then undone. */
  method ConfirmThenUndoScenario()
  {
    var payload := JObject(map["name" := JString("My Key"), "provider" := JString("OPENAI")]);
    var page := new ImportSettingsPage("#x", (s: string) => Some(s),
                                       (s: string) => if s == "x" then Some(payload) else None);
    assert page.hash[1..] == "x";
    UpperCaseProviderImported(page.hash, page.decode, page.parse);
    page.RunParseEffect();
    assert page.CurrentView() == ConfirmView;
    var threw := page.ConfirmImport("id-1");
    assert !threw && page.CurrentView() == ImportedView;
    page.Undo();
    assert page.storeCalls == [AddSource(NewSource(None, JString("My Key"), None, "openai", None, true)),
                               RemoveSource("id-1")];
    assert page.CurrentView() == ConfirmView && page.navigations == [];
  }
}

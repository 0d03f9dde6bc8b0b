/**
 * The key-setup page: it shows the active provider, lets the user pick
 * another one and type an API key and base URL, and on submit stores the
 * trimmed values on the active source and redirects to where the user came
 * from (never back to the setup page itself).
 */
module KeySetup {
  import opened Optional
  import opened JsStrings
  import opened Collaborators

  /** The route of this page, which a redirect never targets. */
  const InitRoute: string := "/init"

  /**
   * `DEFAULT_GEMINI_BASE_URL` and `DEFAULT_OPENAI_BASE_URL`, exported by the
   * AI store; their values are the store's business.
   */
  datatype BaseUrlDefaults = BaseUrlDefaults(gemini: string, openai: string)

  /** Index of the first source whose id equals `id`, as `Array.prototype.find` scans. */
  function FindById(sources: seq<Source>, id: Option<string>): (r: Option<nat>)
    ensures r.Some? ==> r.value < |sources| && Some(sources[r.value].id) == id
    ensures r.Some? ==> forall j :: 0 <= j < r.value ==> Some(sources[j].id) != id
    ensures r.None? ==> forall j :: 0 <= j < |sources| ==> Some(sources[j].id) != id
  {
    if sources == [] then None
    else if Some(sources[0].id) == id then Some(0)
    else match FindById(sources[1..], id)
      case None => None
      case Some(k) => Some(k + 1)
  }

  /**
   * `sources.find(s => s.id === activeSourceId) ?? sources[0]`: none exactly
   * when there are no sources, else one of them (lemma ActiveSourceChoice
   * says which).
   */
  function ActiveSource(sources: seq<Source>, activeSourceId: Option<string>): (r: Option<Source>)
    ensures r.None? <==> sources == []
    ensures r.Some? ==> r.value in sources
  {
    match FindById(sources, activeSourceId)
    case Some(k) => Some(sources[k])
    case None => if sources == [] then None else Some(sources[0])
  }

  /**
   * The active source is the first source whose id equals the active id;
   * when no id matches it is the first source.
   */
  lemma ActiveSourceChoice(sources: seq<Source>, activeSourceId: Option<string>, k: nat)
    requires k < |sources|
    ensures Some(sources[k].id) == activeSourceId && (forall j :: 0 <= j < k ==> Some(sources[j].id) != activeSourceId)
            ==> ActiveSource(sources, activeSourceId) == Some(sources[k])
    ensures (forall j :: 0 <= j < |sources| ==> Some(sources[j].id) != activeSourceId)
            ==> ActiveSource(sources, activeSourceId) == Some(sources[0])
  {
  }

  /** Whenever some source carries the active id, the chosen source carries it. */
  lemma MatchingSourceChosen(sources: seq<Source>, activeSourceId: string, k: nat)
    requires k < |sources| && sources[k].id == activeSourceId
    ensures ActiveSource(sources, Some(activeSourceId)).Some?
    ensures ActiveSource(sources, Some(activeSourceId)).value.id == activeSourceId
  {
  }

  /** The key draft for a source: `activeSource?.apiKey ?? ""`. */
  function DraftKey(active: Option<Source>): string
  {
    match active
    case None => ""
    case Some(s) => s.apiKey.GetOr("")
  }

  /** The base-URL draft for a source: `activeSource?.baseUrl`. */
  function DraftBaseUrl(active: Option<Source>): Option<string>
  {
    match active
    case None => None
    case Some(s) => s.baseUrl
  }

  /** The provider's default endpoint: Gemini's for "gemini", OpenAI's for every other provider. */
  function DefaultBaseUrl(provider: string, defaults: BaseUrlDefaults): string
  {
    if provider == "gemini" then defaults.gemini else defaults.openai
  }

  /**
   * The base URL submit stores: the trimmed draft when that is non-empty,
   * else the provider's default. It is never empty while the defaults are
   * not, and it carries no surrounding white space unless a default does.
   */
  function StoredBaseUrl(draft: Option<string>, provider: string, defaults: BaseUrlDefaults): (u: string)
    ensures Trim(draft.GetOr("")) != "" ==> u == Trim(draft.GetOr(""))
    ensures Trim(draft.GetOr("")) == "" ==> u == DefaultBaseUrl(provider, defaults)
    ensures defaults.gemini != "" && defaults.openai != "" ==> u != ""
  {
    var trimmedBase := Trim(draft.GetOr(""));
    if trimmedBase != "" then trimmedBase else DefaultBaseUrl(provider, defaults)
  }

  /** The stored base URL has no surrounding white space unless a default has. */
  lemma StoredBaseUrlTrimmed(draft: Option<string>, provider: string, defaults: BaseUrlDefaults)
    requires Trimmed(defaults.gemini) && Trimmed(defaults.openai)
    ensures Trimmed(StoredBaseUrl(draft, provider, defaults))
  {
    TrimTrimmed(draft.GetOr(""));
  }

  /**
   * Where submit redirects: the `from` query parameter when it is present,
   * non-empty and not this page, else "/". Never this page.
   */
  function RedirectTarget(from: Option<string>): (to: string)
    ensures to != InitRoute
    ensures to == "/" || (from == Some(to) && to != "")
    ensures from.Some? && from.value != "" && from.value != InitRoute ==> to == from.value
    ensures from.None? || from.value == "" || from.value == InitRoute ==> to == "/"
  {
    if from.Some? && from.value != "" && from.value != InitRoute then from.value else "/"
  }

  /** The page's state: the store snapshot it renders, its two drafts, and what it has called. */
  class InitPage {
    const defaults: BaseUrlDefaults

    var sources: seq<Source>
    var activeSourceId: Option<string>
    /** The `useMemo` value: the active source of the current snapshot. */
    var activeSource: Option<Source>
    var key: string
    var baseUrl: Option<string>

    var storeCalls: seq<AiCall>
    var navigations: seq<Navigation>

    /** The memoised active source is that of the current snapshot. */
    ghost predicate Valid()
      reads this
    {
      activeSource == ActiveSource(sources, activeSourceId)
    }

    /** The first render: drafts start from the active source. */
    constructor (sources: seq<Source>, activeSourceId: Option<string>, defaults: BaseUrlDefaults)
      ensures Valid()
      ensures this.sources == sources && this.activeSourceId == activeSourceId && this.defaults == defaults
      ensures key == DraftKey(activeSource) && baseUrl == DraftBaseUrl(activeSource)
      ensures storeCalls == [] && navigations == []
    {
      this.sources, this.activeSourceId, this.defaults := sources, activeSourceId, defaults;
      var active := ActiveSource(sources, activeSourceId);
      activeSource := active;
      key := DraftKey(active);
      baseUrl := DraftBaseUrl(active);
      storeCalls, navigations := [], [];
    }

    /**
     * A re-render with a new store snapshot. When the active source it
     * yields differs, the reset effect puts both drafts back to that
     * source's values; otherwise the drafts keep what the user typed.
     */
    method ObserveStore(newSources: seq<Source>, newActiveSourceId: Option<string>)
      requires Valid()
      modifies this
      ensures Valid()
      ensures sources == newSources && activeSourceId == newActiveSourceId
      ensures activeSource != old(activeSource) ==> key == DraftKey(activeSource) && baseUrl == DraftBaseUrl(activeSource)
      ensures activeSource == old(activeSource) ==> key == old(key) && baseUrl == old(baseUrl)
      ensures storeCalls == old(storeCalls) && navigations == old(navigations)
    {
      var previous := activeSource;
      sources, activeSourceId := newSources, newActiveSourceId;
      activeSource := ActiveSource(sources, activeSourceId);
      if activeSource != previous {
        key := DraftKey(activeSource);
        baseUrl := DraftBaseUrl(activeSource);
      }
    }

    /** Typing in the key field. */
    method EditKey(value: string)
      modifies this`key
      ensures key == value
    {
      key := value;
    }

    /** Typing in the base-URL field. */
    method EditBaseUrl(value: string)
      modifies this`baseUrl
      ensures baseUrl == Some(value)
    {
      baseUrl := Some(value);
    }

    /** Choosing a provider in the select: one `setActiveSource` call with the option's id. */
    method SelectSource(id: string)
      modifies this`storeCalls
      ensures storeCalls == old(storeCalls) + [SetActiveSource(id)]
    {
      storeCalls := storeCalls + [SetActiveSource(id)];
    }

    /**
     * `handleSubmit`. With no active source, or a key that trims to
     * nothing, it does nothing. Otherwise it makes one `updateSource` call
     * on the active source's id, storing the trimmed (non-null, non-empty)
     * key, the stored base URL and `enabled` true, then one redirect.
     */
    method Submit(from: Option<string>)
      modifies this`storeCalls, this`navigations
      ensures activeSource.None? || Trim(key) == "" ==>
        storeCalls == old(storeCalls) && navigations == old(navigations)
      ensures activeSource.Some? && Trim(key) != "" ==>
        && storeCalls == old(storeCalls) + [UpdateSource(activeSource.value.id,
             SourcePatch(Some(Trim(key)), StoredBaseUrl(baseUrl, activeSource.value.provider, defaults), true))]
        && navigations == old(navigations) + [Replace(RedirectTarget(from))]
    {
      if activeSource.None? {
        return;
      }
      var trimmedKey := Trim(key);
      if trimmedKey == "" {
        return;
      }
      var patch := SourcePatch(
        if trimmedKey != "" then Some(trimmedKey) else None,
        StoredBaseUrl(baseUrl, activeSource.value.provider, defaults),
        true);
      storeCalls := storeCalls + [UpdateSource(activeSource.value.id, patch)];
      navigations := navigations + [Replace(RedirectTarget(from))];
    }
  }

  /** The key "  abc " is stored as "abc". */
  lemma PaddedKeyTrims()
    ensures Trim("  abc ") == "abc"
  {
  }

  /**
   * Submitting a key for a Gemini source with no base URL, arriving from
   * "/init": the trimmed key and Gemini's default are stored, and the
   * redirect goes home rather than back to this page.
   */
  method SubmitScenario(defaults: BaseUrlDefaults, typed: string)
    requires Trim(typed) != ""
  {
    var gemini := Source("g", "Gemini", "gemini", None, None);
    assert FindById([gemini], Some("missing")) == None;
    var page := new InitPage([gemini], Some("missing"), defaults);
    assert page.activeSource == Some(gemini) && page.key == "";
    page.EditKey(typed);
    assert page.key == typed && page.baseUrl == None && page.activeSource.value.provider == "gemini";
    assert StoredBaseUrl(None, "gemini", defaults) == defaults.gemini by {
      assert Trim("") == "";
    }
    page.Submit(Some(InitRoute));
    assert page.storeCalls == [UpdateSource("g", SourcePatch(Some(Trim(typed)), StoredBaseUrl(None, "gemini", defaults), true))];
    assert page.storeCalls == [UpdateSource("g", SourcePatch(Some(Trim(typed)), defaults.gemini, true))];
    assert page.navigations == [Replace("/")];
  }
}

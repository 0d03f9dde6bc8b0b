/**
 * What the pages see of the code around them. The AI provider store and the
 * settings store are kept abstract: each page records the calls it makes to
 * them, in order, and the router records where it was sent.
 */
module Collaborators {
  import opened Optional
  import opened JsValues

  /** A configured provider as the setup page reads it from the store. */
  datatype Source = Source(
    id: string,
    name: string,
    provider: string,
    apiKey: Option<string>,
    baseUrl: Option<string>)

  /**
   * The fields handed to `addSource` by an import. They are whatever the
   * shared link held (a TypeScript annotation checks nothing at run time),
   * except `provider`, which has been lower-cased and so is a string.
   */
  datatype NewSource = NewSource(
    apiKey: Option<Json>,
    name: Json,
    model: Option<Json>,
    provider: string,
    baseUrl: Option<Json>,
    enabled: bool)

  /** The partial update the setup page passes to `updateSource`. */
  datatype SourcePatch = SourcePatch(apiKey: Option<string>, baseUrl: string, enabled: bool)

  /** Calls into the AI provider store. */
  datatype AiCall =
    | AddSource(fields: NewSource)
    | RemoveSource(id: string)
    | UpdateSource(id: string, patch: SourcePatch)
    | SetActiveSource(id: string)

  /** Calls into the settings store. */
  datatype SettingsCall = SetThemePreference(theme: string)

  /** `router.replace(path)` and `router.push(path)`. */
  datatype Navigation = Replace(path: string) | Push(path: string)
}

# skid-homework: import link, key setup and theme mirror

This project models three client-side pieces of the skid-homework web app:

- **The import-from-link page** (`ImportSettingsPage`). A shared link carries a provider configuration as percent-encoded JSON in its URL fragment. The page parses the fragment once, then either shows a parse error or asks the user to confirm. On confirm it adds the configuration to the AI store as a new, enabled source with its provider lower-cased. On undo it removes exactly that source again.
- **The key-setup page** (`InitPage`). It picks the active source: the one with the active id, else the first, else none. The user types an API key and an optional base URL. On submit, the trimmed key and base URL are stored on the active source; the base URL falls back to the provider's default. The page then redirects to the `from` query parameter, never back to `/init`.
- **The theme provider** (`ThemeProvider`). The theme preference lives in component state. It is mirrored to `localStorage` and to the settings store. It is resolved to a `light` or `dark` class on the document root, and it follows the platform's colour scheme while the preference is `system`.

The AI store and the settings store are abstract. Each page records, in order, the calls it makes to them (`AddSource`, `RemoveSource`, `UpdateSource`, `SetActiveSource`, `SetThemePreference`) and the navigations it asks the router for. Every property is stated at those call sites.

Effectful pieces are inputs:

- `decodeURIComponent` and `JSON.parse` are partial functions fixed per page; `None` is "throws".
- `window.location.hash` is a constant of the page.
- `window.matchMedia(...).matches` is a boolean field.
- `localStorage` is a string map.
- The root `classList` is a set of class names.
- React effects are explicit step methods. Each runs when one of its dependencies changes value.

Modules:

- `Optional`: `Option`, and `GetOr` for `??`.
- `JsStrings`: `String.prototype.trim` over ECMAScript white space, and `toLowerCase`.
- `JsValues`: JSON values, JavaScript truthiness and property reads.
- `Collaborators`: the store calls, patches and navigations.
- `ImportSettings`, `KeySetup`, `Theming`: the three components, each a class holding the component's state plus its pure decision functions.

Two behaviours of the code are easy to misread; the model follows the code:

- The import flow lower-cases `provider` when the user confirms, not when the payload is accepted. A payload whose `provider` is a truthy number, `true` or an array of primitive values, such as `{"name":"a","provider":1}`, is accepted and shown. Confirming it then throws in `toLowerCase`, before `addSource` is called. `ConfirmImport` reports this as `threw`, and nothing changes.
- The initial theme is `storeTheme || (localStorage.getItem(key) ?? defaultTheme)`. The settings store's value comes first and the persisted value second, and an empty persisted string is kept rather than replaced by the default. The persisted value is cast to `Theme` without a check, so the theme is modelled as a string. A theme that resolves to `""`, or to a string containing ASCII white space such as `"foo bar"`, makes `classList.add` throw. Nothing in the component catches that, so the model marks the provider as no longer mounted.

## Model

| member | source | states |
|---|---|---|
| JsStrings.TrimStart | src/components/pages/InitPage.tsx:75 | the leading half of `trim()`: drops white space from the front (what is left is stated by `TrimStartSuffix`) |
| JsStrings.TrimEnd | src/components/pages/InitPage.tsx:75 | the trailing half of `trim()`: drops white space from the back (what is left is stated by `TrimEndPrefix`) |
| JsStrings.TrimStartSuffix | src/components/pages/InitPage.tsx:75 | leading trim leaves a suffix that does not start with white space, and everything it drops is white space |
| JsStrings.TrimEndPrefix | src/components/pages/InitPage.tsx:75 | trailing trim leaves a prefix that does not end with white space, and everything it drops is white space |
| JsStrings.Trim | src/components/pages/InitPage.tsx:75-78 | `trim()` never lengthens a string and yields "" exactly when the string is all white space |
| JsStrings.TrimTrimmed | src/components/pages/InitPage.tsx:75-78 | a trimmed string has no white space at either end |
| JsStrings.TrimPadded | src/components/pages/InitPage.tsx:75-78 | trimming white space around a non-empty, already trimmed string gives back exactly that string |
| JsStrings.TrimStartPadded | src/components/pages/InitPage.tsx:75 | leading trim removes exactly a white-space prefix in front of a non-white-space character |
| JsStrings.TrimEndPadded | src/components/pages/InitPage.tsx:75 | trailing trim removes exactly a white-space suffix after a non-white-space character |
| JsStrings.TrimIdempotent | src/components/pages/InitPage.tsx:75-78 | trimming twice is trimming once |
| JsStrings.LowerChar | src/components/pages/ImportSettingsPage.tsx:84 | an ASCII capital becomes its small letter, every other character is kept, and no capital is left |
| JsStrings.ToLowerCase | src/components/pages/ImportSettingsPage.tsx:84 | lower-casing keeps the length and maps each character on its own |
| JsStrings.ToLowerCaseIdempotent | src/components/pages/ImportSettingsPage.tsx:84 | lower-casing is idempotent and leaves no ASCII capital |
| JsValues.Truthy | src/components/pages/ImportSettingsPage.tsx:63 | JavaScript truthiness of a parsed JSON value, the test behind `!parsedData.name` |
| JsValues.FalsyValues | src/components/pages/ImportSettingsPage.tsx:63 | the falsy values are exactly `null`, `false`, zero and ""; every array and object is truthy |
| JsValues.TruthyField | src/components/pages/ImportSettingsPage.tsx:63 | a property read is truthy when it is defined and its value is truthy; `undefined` is falsy |
| JsValues.Property | src/components/pages/ImportSettingsPage.tsx:63 | defines `v[name]` for the five payload property names: an object's own member, else `undefined`; what a rejected or accepted payload means is stated by `ImportSettings.ParseImport` |
| ImportSettings.ReadPayload | src/components/pages/ImportSettingsPage.tsx:60-63 | defines the five property reads of the parsed value, with `null` throwing; its outcome is stated by `ImportSettings.ParseImport` |
| ImportSettings.ParseImport | src/components/pages/ImportSettingsPage.tsx:56-67 | a fragment is accepted exactly when it decodes, parses to an object, and has truthy `name` and `provider`; the accepted model is the parsed object's properties |
| ImportSettings.EmptyObjectRejected | src/components/pages/ImportSettingsPage.tsx:63-65 | `{}` is rejected |
| ImportSettings.NonObjectRejected | src/components/pages/ImportSettingsPage.tsx:60-65 | `null` and every non-object JSON value are rejected |
| ImportSettings.ImportFields | src/components/pages/ImportSettingsPage.tsx:80-87 | the `addSource` fields exist exactly when the provider is a string; `key`, `name`, `model` and `baseUrl` are copied, the provider is lower-cased and non-empty with no capitals, and `enabled` is true |
| ImportSettings.OpenAiLowered | src/components/pages/ImportSettingsPage.tsx:84 | "OPENAI" lower-cases to "openai" |
| ImportSettings.UpperCaseProviderImported | src/components/pages/ImportSettingsPage.tsx:56-87 | `{"name":"My Key","provider":"OPENAI"}` is accepted and imported as an enabled "openai" source with no key, model or base URL |
| ImportSettings.ViewOf | src/components/pages/ImportSettingsPage.tsx:112-195 | defines the render precedence error, loading, imported, confirm; what each view means for the page state is stated by `ImportSettings.ImportSettingsPage.CurrentView` |
| ImportSettings.ImportSettingsPage.constructor | src/components/pages/ImportSettingsPage.tsx:37-42 | the page starts loading, with no model, no error, nothing imported, no recorded id and no calls made |
| ImportSettings.ImportSettingsPage.RunParseEffect | src/components/pages/ImportSettingsPage.tsx:46-74 | an empty fragment only redirects home, and the page stays loading; otherwise the page stores the parse result, sets the parse-failed key exactly when the result is none, and stops loading; the store is never called |
| ImportSettings.ImportSettingsPage.ConfirmImport | src/components/pages/ImportSettingsPage.tsx:77-92 | without a model it is a no-op; otherwise exactly one `addSource` with `ImportFields` of the model, the returned id recorded and the imported view shown; a non-string provider throws and changes nothing |
| ImportSettings.ImportSettingsPage.Cancel | src/components/pages/ImportSettingsPage.tsx:95-97 | one navigation to "/" and nothing else |
| ImportSettings.ImportSettingsPage.Undo | src/components/pages/ImportSettingsPage.tsx:99-105 | with no (or an empty) recorded id it is a no-op; otherwise exactly one `removeSource` of the recorded id, the imported view left, and the id kept |
| ImportSettings.ImportSettingsPage.CurrentView | src/components/pages/ImportSettingsPage.tsx:112-195 | the error view shows exactly when the fragment failed to parse; confirm shows only a parsed, unimported model; imported only after a confirm recorded an id |
| KeySetup.FindById | src/components/pages/InitPage.tsx:36 | the index found is the first source carrying the id; none found means no source carries it |
| KeySetup.ActiveSource | src/components/pages/InitPage.tsx:35-38 | there is an active source exactly when the list is non-empty, and it is one of the sources |
| KeySetup.ActiveSourceChoice | src/components/pages/InitPage.tsx:35-38 | the active source is the first one whose id matches; when none matches it is the first source |
| KeySetup.MatchingSourceChosen | src/components/pages/InitPage.tsx:36 | when some source carries the active id, the active source carries it |
| KeySetup.DraftKey | src/components/pages/InitPage.tsx:40 | defines `activeSource?.apiKey ?? ""`; when the drafts are reset to it is stated by `KeySetup.InitPage.ObserveStore` |
| KeySetup.DraftBaseUrl | src/components/pages/InitPage.tsx:41-43 | defines `activeSource?.baseUrl`; when the drafts are reset to it is stated by `KeySetup.InitPage.ObserveStore` |
| KeySetup.DefaultBaseUrl | src/components/pages/InitPage.tsx:83-85 | defines the per-provider default endpoint ("gemini" gets Gemini's, every other provider OpenAI's); its use is stated by `KeySetup.StoredBaseUrl` |
| KeySetup.StoredBaseUrl | src/components/pages/InitPage.tsx:78-85 | the trimmed draft when non-empty, else the provider's default; never empty when the defaults are not |
| KeySetup.StoredBaseUrlTrimmed | src/components/pages/InitPage.tsx:78-85 | the stored base URL has no surrounding white space when the defaults have none |
| KeySetup.RedirectTarget | src/components/pages/InitPage.tsx:88-90 | the redirect is `from` when present, non-empty and not "/init", else "/"; it is never "/init" |
| KeySetup.PaddedKeyTrims | src/components/pages/InitPage.tsx:75 | the key "  abc " is stored as "abc" |
| KeySetup.InitPage.constructor | src/components/pages/InitPage.tsx:35-43 | the first render memoises the active source and starts both drafts from it |
| KeySetup.InitPage.ObserveStore | src/components/pages/InitPage.tsx:35-48 | a new store snapshot re-selects the active source; both drafts are reset to it exactly when it changed, else the typed drafts survive |
| KeySetup.InitPage.EditKey | src/components/pages/InitPage.tsx:206 | typing sets the key draft |
| KeySetup.InitPage.EditBaseUrl | src/components/pages/InitPage.tsx:262 | typing sets the base-URL draft |
| KeySetup.InitPage.SelectSource | src/components/pages/InitPage.tsx:189 | choosing a provider makes one `setActiveSource` call with its id |
| KeySetup.InitPage.Submit | src/components/pages/InitPage.tsx:72-91 | no active source or a blank key: no call and no navigation; otherwise exactly one `updateSource` on the active source's id with the trimmed (non-null) key, the stored base URL and `enabled` true, then one `replace` to the redirect target |
| Theming.GetItem | src/components/theme-provider.tsx:36 | defines `localStorage.getItem` over the storage map, `None` for null; its law with `setItem` is `Theming.GetItemAfterSetItem` |
| Theming.GetItemAfterSetItem | src/components/theme-provider.tsx:36 | after `setItem(key, value)`, `getItem(key)` reads `value` and every other key reads what it read before |
| Theming.InitialTheme | src/components/theme-provider.tsx:33-37 | defines the initial theme: a truthy store theme, else the persisted value (`??` keeps ""), else the default; its properties are stated by `InitialThemeDefaultsToSystem`, `PersistedThemeSurvivesReload`, `InitialThemeIsTheme` and `EmptyPersistedThemeKept` |
| Theming.InitialThemeDefaultsToSystem | src/components/theme-provider.tsx:26-37 | with no store value and nothing persisted under the default key, the theme starts as "system" |
| Theming.PersistedThemeSurvivesReload | src/components/theme-provider.tsx:33-37 | what `setTheme` persisted is the next mount's initial theme unless the store holds a truthy theme, which wins |
| Theming.InitialThemeIsTheme | src/components/theme-provider.tsx:33-37 | the initial theme is a `Theme` whenever the store value (or ""), the persisted value and the default are |
| Theming.EmptyPersistedThemeKept | src/components/theme-provider.tsx:36 | an empty persisted string is kept by `??` |
| Theming.Resolve | src/components/theme-provider.tsx:51-56 | the resolved theme is never "system": "system" becomes "dark" exactly when the platform prefers dark, else "light"; any other theme stands for itself |
| Theming.ValidToken | src/components/theme-provider.tsx:59 | the tokens `classList.add` accepts: non-empty and free of ASCII white space |
| Theming.ResolvedThemeIsToken | src/components/theme-provider.tsx:51-59 | a resolved `Theme` is a token `classList.add` accepts |
| Theming.ThemeClasses | src/components/theme-provider.tsx:58-59 | after remove-then-add the resolved theme is present, other classes are unchanged, and only one of "light"/"dark" is present |
| Theming.ThemeProvider.ApplyTheme | src/components/theme-provider.tsx:50-60 | `applyTheme` succeeds exactly when the resolved theme is a valid token, and then leaves the classes given by `ThemeClasses` |
| Theming.ThemeProvider.RunThemeEffects | src/components/theme-provider.tsx:47-84 | cleanup, apply, listener held exactly while "system", then the theme pushed to the store; each listener registered is removed once; when `add` throws, "light" and "dark" are left removed, no listener is held and nothing is pushed |
| Theming.ThemeProvider.constructor | src/components/theme-provider.tsx:24-37 | mounting starts from the initial theme and runs the effects once; when `add` throws, "light" and "dark" are removed from the given classes, no listener is held and the store was never called |
| Theming.ThemeProvider.SetTheme | src/components/theme-provider.tsx:75-79 | `setTheme(t)` writes `t` to storage under the key, to local state and to the store; a changed theme reapplies the classes and pushes again |
| Theming.ThemeProvider.StoreThemeChanged | src/components/theme-provider.tsx:40-45 | a changed, truthy store theme that differs from the local one is adopted and its effects run: the classes become `ThemeClasses` of the resolved theme and the store is told it, or, when `add` throws, "light" and "dark" are left removed and nothing is pushed; otherwise nothing local changes |
| Theming.ThemeProvider.PlatformChanged | src/components/theme-provider.tsx:64-70 | a platform change re-resolves the root class only while listening; the theme, storage, store theme, store calls and listener are unchanged |
| Theming.ThemeProvider.Unmount | src/components/theme-provider.tsx:70 | unmounting removes the held listener, so every registration has been removed, and the provider is no longer mounted; theme, classes, storage, store theme, platform signal and store calls are unchanged |

## Left out

- The AI store and the settings store are not part of this model. Unique ids, re-selection of the active source on removal, default seeding and persistence belong to them. The model only records the calls made to them.
- `decodeURIComponent` and `JSON.parse` are parameters of the import page, not implementations of percent-decoding or JSON.
- `ImportSettings.ImportFields`: `toLowerCase` is modelled for ASCII capitals only. Unicode case mapping, such as `"İ"`, is not modelled.
- `JsStrings.LowerChar`: only ASCII capitals are lowered. JavaScript also lowers other capitals ("Ä" becomes "ä"), which this model keeps as they are.
- `JsStrings.ToLowerCase`: maps character by character and keeps the length. JavaScript's mapping is not always one to one: "İ" lowers to two characters. Dafny strings here are sequences of Unicode scalar values, not JavaScript's UTF-16 code units, so lengths can differ from JavaScript's for characters outside the Basic Multilingual Plane.
- `ImportSettings.ImportSettingsPage.CurrentView`: the confirm view renders `name`, `provider`, `model` and `baseUrl` as React children. React throws for an object value (or an array holding one), so such a payload crashes the page instead of showing the confirm view. That render-time throw is not modelled; the model shows the confirm view and lets confirm proceed.
- The values of `DEFAULT_GEMINI_BASE_URL` and `DEFAULT_OPENAI_BASE_URL` live in the AI store. They are the `defaults` parameter of the key-setup page.
- `KeySetup.InitPage.ObserveStore` compares active sources by value. `useMemo` and the draft-reset effect compare by reference, so a new but equal source object also resets the drafts in the app.
- React scheduling, batching, re-render timing and effect ordering are not modelled. Each effect is a step method called when its dependency changes.
- Once an effect throws, the model treats the provider as no longer mounted. What an error boundary does after that is not modelled.
- The settings-store round trip is not modelled. After `setThemePreference`, the store's new value reaches the provider only when `StoreThemeChanged` is called.
- `useTheme` and the context default are not modelled. The default context is defined, so the "outside a ThemeProvider" throw cannot fire, and its `setTheme` does nothing.
- Rendering is not modelled: JSX, icons, animation, i18n strings (`t`, `Trans`) and `console.error`. The error and imported views' own buttons (`router.push("/")`, `router.push("/settings")`) are not modelled; they are plain navigations with no state change.
- `useQwenHintAutoToggle` and `QWEN_TOKEN_URL` are not part of this model.
- `src/App.tsx` (routing and the language switch) and `src/ai/prompts.ts` (string constants) are not part of this model.

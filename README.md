# screenshot-mode, modelled in Dafny

A model of the core of the screenshot-mode plugin. The plugin adds a screenshot overlay
to an HTTP proxy's replay view. It highlights and redacts parts of a request and a
response through regular-expression rules, and keeps named settings templates in the
plugin's storage. The model covers these parts:

- `decorations.dfy`: the decoration builder. It holds the global regular-expression scan
  (`findMatches`), the mapping from rule modes to visual treatments, the collection of one
  entry per match, the sort by range, and the editor field that a set-decorations effect
  replaces.
- `types.dfy`: the data model and the built-in defaults.
- `json.dfy`: the untyped values read back from storage. It also holds the property reads
  and the object spread that the normaliser applies to them.
- `parse.dfy`: the stored-settings normaliser (`parseStoredSettings`).
- `migrate.dfy`: the storage migration (`isStoredData`, `migrateStorage`).
- `settings.dfy`: the older module-level settings store's copies of `cloneSettings`, the
  normaliser and the migration.
- `templates.dfy`: the template store.
- `tabs.dfy`: the per-session tab settings.
- `overlay.dfy`: the overlay state.

The regular-expression engine is a parameter of the builder. The model requires two
things of a compiled expression. Its `exec(text, lastIndex)` reports a match that starts at
or after `lastIndex`. That match lies inside the text. From these two facts the builder's
properties follow: termination, non-empty matches, ordering, completeness of the collected
entries, and the sort postcondition.

The code behaves as follows, and the model follows it:

- Redactions never suppress the highlights they overlap. The capture-group fields are only
  normalised; the builder never uses them.
- The redaction treatment tests for the mode string "black". No declared mode is named
  "black", so an "opaque" rule gets the same "[REDACTED]" replacement widget as a
  "replace" rule.
- The replacement widget always shows "[REDACTED]" and ignores the rule's `replacementText`.
- The normaliser is not total. Reading a property of a `null` or `undefined` element of the
  stored `redactions` array throws a TypeError. That throw is modelled as `Thrown` and
  propagates through the normaliser and the migration.

`packages/frontend/src/stores/settings.ts` has its own copies of the template store's
operations and of the tab operations (lines 175-303). They differ from `stores/templates/index.ts`
and `stores/tabs.ts` in three ways:

- They copy settings with the local `cloneSettings` (lines 276 and 300), where the tab
  store uses a deep clone (`stores/tabs.ts` lines 21 and 44).
- The default-template lookup tests `template !== undefined` (line 183), where the template
  store tests `isPresent(template)` (`stores/templates/index.ts` line 107).
- They add two getters, `getTemplates` and `getDefaultTemplateId` (lines 175 and 265).

On typed settings these differences change no result: a found template is never `null`, both
clones give a value equal to their input (`Settings.CloneSettings`), and the getters only read
the state. So the copies are modelled once, by `Templates.TemplateStore` and `Tabs.TabStore`.
Its private `parseWidthSetting` (lines 36-60) is the same function as `Parse.ParseWidthSetting`.

## Model

| member | source | states |
|---|---|---|
| JsValues.Spread | packages/frontend/src/stores/templates/parse.ts:52-56 | `{...r}` copies an object's fields, and nothing for `null`, booleans and numbers |
| JsValues.SpreadOfNonObjectHasOnlyIndexKeys | packages/frontend/src/stores/templates/parse.ts:52-56 | spreading a string or an array yields only numeric index keys, so it never supplies `mode`, `replacementText` or any other named field |
| Types.DefaultSettingsShape | packages/frontend/src/types.ts:95-143 | the defaults hide 39 headers, have no highlight or redaction rules, and are horizontal at full width |
| Types.HighlightModeNames | packages/frontend/src/types.ts:5-9 | a highlight mode name is "highlight" or "rectangle" and nothing else, and the two differ |
| Types.RedactionModeNames | packages/frontend/src/types.ts:11-16 | a redaction mode name is "blur", "opaque" or "replace" and nothing else, and the names are distinct |
| Decorations.FindMatches | packages/frontend/src/utils/decorations.ts:81-114 | the matches are exactly the scan `Matches` defines (empty pattern or compile error: no matches), and every match is non-empty and inside the text |
| Decorations.ScanLoop | packages/frontend/src/utils/decorations.ts:91-108 | the `exec` loop, bumping `lastIndex` past an empty match, collects exactly the scan from position 0 |
| Decorations.ScanOrdered | packages/frontend/src/utils/decorations.ts:93-108 | every range a scan records is non-empty, starts at or after the scan position, ends inside the text, and no two ranges overlap |
| Decorations.MatchesOrdered | packages/frontend/src/utils/decorations.ts:95-107 | the matches of a pattern are non-empty, inside the text, in increasing and non-overlapping order |
| Decorations.UnusablePatternHasNoMatches | packages/frontend/src/utils/decorations.ts:87-111 | an empty pattern or one that fails to compile has no matches, and no exception escapes |
| Decorations.HighlightTreatmentByMode | packages/frontend/src/utils/decorations.ts:28-44 | a rectangle rule gets an outline and any other highlight rule a fill, both in the rule's color |
| Decorations.RedactionTreatmentByMode | packages/frontend/src/utils/decorations.ts:46-79 | blur rules are blurred; opaque and replace rules both get the fixed "[REDACTED]" widget whatever their replacement text; only the string "black" selects the black fill |
| Decorations.EntriesForMembership | packages/frontend/src/utils/decorations.ts:139-145 | an entry is pushed for a rule exactly when its range is one of the rule's matches and it carries the rule's treatment |
| Decorations.PushEntries | packages/frontend/src/utils/decorations.ts:139-145 | the inner loop appends one entry per match, in match order, after the entries already collected |
| Decorations.CollectEntries | packages/frontend/src/utils/decorations.ts:129-159 | the two loops collect the entries of every highlight rule, then of every redaction rule, in rule order |
| Decorations.CollectHighlightEntries | packages/frontend/src/utils/decorations.ts:135-146 | the first loop collects the entries of every highlight rule in rule order |
| Decorations.CollectRedactionEntries | packages/frontend/src/utils/decorations.ts:148-159 | the second loop appends the entries of every redaction rule, in rule order, after the highlight entries |
| Decorations.EntriesOfMembership | packages/frontend/src/utils/decorations.ts:135-159 | an entry is collected if and only if some rule has a match with that range and the entry carries that rule's treatment: nothing is dropped, clipped or invented |
| Decorations.EntriesOfCount | packages/frontend/src/utils/decorations.ts:135-159 | exactly one entry per match of every rule |
| Decorations.EntriesOfWellFormed | packages/frontend/src/utils/decorations.ts:135-159 | every collected entry is a non-empty range inside the text |
| Decorations.CollectedEntriesComplete | packages/frontend/src/utils/decorations.ts:135-159 | every match of every highlight rule and of every redaction rule is collected with its rule's treatment, so highlights under a redaction are not suppressed |
| Decorations.HighlightEntryCollected | packages/frontend/src/utils/decorations.ts:135-146 | each match of highlight rule `i` is collected with that rule's treatment |
| Decorations.RedactionEntryCollected | packages/frontend/src/utils/decorations.ts:148-159 | each match of redaction rule `i` is collected with that rule's treatment |
| Decorations.InsertEntryCorrect | packages/frontend/src/utils/decorations.ts:161 | inserting into a list ordered by the comparator keeps it ordered and adds exactly that entry |
| Decorations.SortEntriesCorrect | packages/frontend/src/utils/decorations.ts:161 | the sorted entries are ordered by start and then by end, and are a permutation of the input |
| Decorations.BuildDecorations | packages/frontend/src/utils/decorations.ts:128-161 | the installed list is the collected list sorted: ordered, a permutation of the collected entries, each a non-empty range inside the text |
| Decorations.AfterEffectsReplaces | packages/frontend/src/utils/decorations.ts:17-24 | the first set-decorations effect of a transaction replaces the field wholesale; without one the field keeps its value |
| Decorations.DecorationField.constructor | packages/frontend/src/utils/decorations.ts:14-16 | a new field has no decorations |
| Decorations.DecorationField.Update | packages/frontend/src/utils/decorations.ts:17-24 | the loop over the effects leaves the field as the first set effect says, or unchanged |
| Decorations.ApplyDecorations | packages/frontend/src/utils/decorations.ts:116-170 | after the dispatch the field holds exactly the sorted collected entries |
| Parse.ParseWidthSetting | packages/frontend/src/stores/templates/parse.ts:10-34 | a non-object width or an unknown mode is full width; "pixel" keeps a numeric value or takes 800; "a4" and "letter" are kept |
| Parse.WidthRoundTrip | packages/frontend/src/stores/templates/parse.ts:10-34 | every width setting read back from its stored form is the same setting |
| Parse.EncodedWidthKeys | packages/frontend/src/types.ts:38-42 | only the pixel width carries a `value` |
| Parse.EncodedRedactionKeys | packages/frontend/src/types.ts:52-65 | a stored opaque rule carries `color`, a replace rule `replacementText`, and a blur rule neither |
| Parse.ParseDisposition | packages/frontend/src/stores/templates/parse.ts:77-80 | the disposition is vertical if and only if the stored value is the string "vertical" |
| Parse.NormalizeRedaction | packages/frontend/src/stores/templates/parse.ts:43-63 | a null or undefined element throws, and only such an element; every other element gives a normalised rule object |
| Parse.NormalizeRedactionFields | packages/frontend/src/stores/templates/parse.ts:43-63 | a non-array `selectedGroups` becomes [], a non-boolean `useCaptureGroups` becomes "has selected groups", a replace rule without a string text gets "[REDACTED]", every other field passes through, and no other field is added |
| Parse.NormalizeRedactions | packages/frontend/src/stores/templates/parse.ts:43-63 | the map succeeds if and only if no element is null or undefined, and then normalises each element in place |
| Parse.ParseRedactions | packages/frontend/src/stores/templates/parse.ts:36-64 | anything but an array holds no rules |
| Parse.ParseStoredSettings | packages/frontend/src/stores/templates/parse.ts:66-85 | a non-object reads as the defaults; otherwise only the redactions can throw |
| Parse.EncodedRedactionNormalized | packages/frontend/src/stores/templates/parse.ts:43-62 | a rule of the declared shape already has its capture-group fields and, if replace, its text |
| Parse.NormalizeFixedPoint | packages/frontend/src/stores/templates/parse.ts:43-63 | normalising an already normalised rule returns it unchanged |
| Parse.NormalizeIdempotent | packages/frontend/src/stores/templates/parse.ts:43-63 | normalising a rule twice gives the same result as once |
| Parse.NormalizeRedactionsFixedPoint | packages/frontend/src/stores/templates/parse.ts:43-63 | a list of normalised rules is returned unchanged |
| Parse.NonObjectRuleGetsNoText | packages/frontend/src/stores/templates/parse.ts:52-60 | a string, array, number or boolean element is normalised without a mode and never given a replacement text |
| Parse.ParseWithoutFieldsGivesDefaults | packages/frontend/src/stores/templates/parse.ts:66-85 | a non-object, and also an array, reads back as the default settings |
| Parse.ParsedFields | packages/frontend/src/stores/templates/parse.ts:73-84 | field by field: array headers are kept, else the default list; vertical only for "vertical"; width as parsed; array highlights are kept, else []; one rule per stored rule, else [] |
| Parse.ParseThrowsIff | packages/frontend/src/stores/templates/parse.ts:43-85 | reading throws if and only if the stored object has a redactions array with a null or undefined element |
| Parse.ParsedRedactionsNormalized | packages/frontend/src/stores/templates/parse.ts:66-85 | every rule of a successful read is normalised |
| Parse.ParseOfStored | packages/frontend/src/stores/templates/parse.ts:66-85 | settings whose rules are normalised read back unchanged from their stored form |
| Parse.ParseIdempotent | packages/frontend/src/stores/templates/parse.ts:66-85 | storing what was read and reading it again gives the same settings |
| Parse.TypedSettingsRoundTrip | packages/frontend/src/stores/templates/parse.ts:66-85 | settings of the declared types read back exactly as stored |
| Migrate.IsStoredData | packages/frontend/src/stores/templates/migrate.ts:5-16 | a stored document is an object with a numeric version, an array of templates and a string default id; no non-object and no array is one |
| Migrate.MigrateStorage | packages/frontend/src/stores/templates/migrate.ts:18-35 | a stored document is returned unchanged; any other value is wrapped and throws only when reading its settings throws; every result is a stored document |
| Migrate.MigratedShape | packages/frontend/src/stores/templates/migrate.ts:23-34 | a wrapped value has version 1 and one template, named "Default", whose id is the default id and whose settings are the ones read |
| Migrate.MigratedDefaultNamesTemplate | packages/frontend/src/stores/templates/migrate.ts:24-35 | after wrapping, the default id names a template of the document |
| Migrate.MigrateIdempotent | packages/frontend/src/stores/templates/migrate.ts:18-35 | migrating a migrated document changes nothing, whatever fresh id the second run gets |
| Migrate.MigratedTypedSettings | packages/frontend/src/stores/templates/migrate.ts:23-28 | wrapping stored settings of the declared types keeps them exactly |
| Migrate.StoredDataPassesThrough | packages/frontend/src/stores/templates/migrate.ts:19-21 | a document of the declared type is recognised and returned unchanged |
| Settings.CloneSettings | packages/frontend/src/stores/settings.ts:20-34 | the field-by-field copy equals the original, including a pixel value and each rule's selected groups |
| Settings.LegacyNormalizeRedaction | packages/frontend/src/stores/settings.ts:69-83 | the older callback throws on null or undefined, returns an object, and never changes `replacementText` |
| Settings.LegacyNormalizeRedactions | packages/frontend/src/stores/settings.ts:69-83 | the older map normalises each element, and throws only on a null or undefined element |
| Settings.LegacyParseStoredSettings | packages/frontend/src/stores/settings.ts:86-105 | the older reader gives the defaults for a non-object |
| Settings.LegacyMigrateStorage | packages/frontend/src/stores/settings.ts:120-137 | the older migration keeps stored documents and always returns a stored document |
| Settings.NormalizeAgreesWithLegacy | packages/frontend/src/stores/settings.ts:62-84 | the two callbacks fail together and differ only by the default text on a replace rule without a string text |
| Settings.NormalizeRedactionsAgreeWithLegacy | packages/frontend/src/stores/settings.ts:62-84 | the two rule-list normalisers fail together and with the same error; on success they agree element by element, except that the newer one gives a "replace" rule without a string text the default text |
| Settings.LegacyParseAgrees | packages/frontend/src/stores/settings.ts:86-105 | the two readers throw together and agree on headers, disposition, width, highlights and the number of rules |
| Settings.LegacyKeepsReplacementText | packages/frontend/src/stores/settings.ts:62-84 | the older reader never invents a replacement text |
| Settings.LegacyMigrateAgrees | packages/frontend/src/stores/settings.ts:107-137 | the two migrations agree on stored documents and fail together on everything else |
| Templates.FindIndex | packages/frontend/src/stores/templates/index.ts:57 | `findIndex`: -1 if and only if no template has the id, otherwise the first position that has it |
| Templates.Find | packages/frontend/src/stores/templates/index.ts:119-121 | `find`: the template at the first position with the id, or nothing |
| Templates.ApplyUpdate | packages/frontend/src/stores/templates/index.ts:62 | an update keeps the id and replaces just the name and the settings it gives |
| Templates.RemoveAt | packages/frontend/src/stores/templates/index.ts:83-86 | removing a position shortens the list by one and keeps the other templates in order |
| Templates.DefaultOf | packages/frontend/src/stores/templates/index.ts:103-117 | the template the default id names, else the first template, else a synthetic "Default" with the default settings |
| Templates.FindIndexIff | packages/frontend/src/stores/templates/index.ts:57-60 | a template is found if and only if some template has the id |
| Templates.AppendKeepsIds | packages/frontend/src/stores/templates/index.ts:48 | appending a template keeps the position of every id already present |
| Templates.UpdateKeepsIds | packages/frontend/src/stores/templates/index.ts:62-67 | replacing a template by its update keeps the position of every id |
| Templates.RemoveKeepsOtherIds | packages/frontend/src/stores/templates/index.ts:73-89 | removing a template with another id keeps the default id present |
| Templates.DefaultOfNamed | packages/frontend/src/stores/templates/index.ts:103-109 | when the default id names a template, the default template has that id and is in the list |
| Templates.DefaultOfInList | packages/frontend/src/stores/templates/index.ts:103-117 | the default template is one of the list's unless the list is empty, in which case it is the synthetic one |
| Templates.TemplateStore.constructor | packages/frontend/src/stores/templates/index.ts:18-19 | a new store has no templates and an empty default id |
| Templates.TemplateStore.Load | packages/frontend/src/stores/templates/index.ts:21-25 | loading a migrated document replaces both the templates and the default id |
| Templates.TemplateStore.CreateTemplate | packages/frontend/src/stores/templates/index.ts:38-51 | appends one template with the fresh id, the name and the given settings or the defaults; the others and the default id are untouched |
| Templates.TemplateStore.UpdateTemplate | packages/frontend/src/stores/templates/index.ts:53-71 | an unknown id returns nothing and changes nothing; a known id replaces only that position, by its update |
| Templates.TemplateStore.DeleteTemplate | packages/frontend/src/stores/templates/index.ts:73-90 | refuses the default id and unknown ids, changing nothing; otherwise removes exactly that template, the others kept in order |
| Templates.TemplateStore.SetDefaultTemplate | packages/frontend/src/stores/templates/index.ts:92-101 | succeeds if and only if a template has the id; on failure the default id is unchanged |
| Templates.TemplateStore.DefaultTemplate | packages/frontend/src/stores/templates/index.ts:103-117 | the template the default id names, else the first, else the synthetic default |
| Templates.TemplateStore.GetTemplateById | packages/frontend/src/stores/templates/index.ts:119-121 | the first template with the id, present if and only if some template has it |
| Tabs.MergeSettings | packages/frontend/src/stores/tabs.ts:31 | `{ ...current, ...updates }`: an update that gives no field leaves the settings unchanged |
| Tabs.SessionSettings | packages/frontend/src/stores/tabs.ts:14-24 | a known session reads its own entry; an unknown one a copy of the fallback |
| Tabs.AfterRead | packages/frontend/src/stores/tabs.ts:14-24 | reading a session fills in its entry and changes no other session |
| Tabs.MergeTwice | packages/frontend/src/stores/tabs.ts:26-34 | two updates in a row are the single update whose later fields win |
| Tabs.MergeIdempotent | packages/frontend/src/stores/tabs.ts:26-34 | repeating an update changes nothing more |
| Tabs.ReadTwice | packages/frontend/src/stores/tabs.ts:14-24 | a second read of a session changes no entry and returns the same settings |
| Tabs.TabStore.constructor | packages/frontend/src/stores/tabs.ts:12 | a new store has no sessions |
| Tabs.TabStore.GetTabSettings | packages/frontend/src/stores/tabs.ts:14-24 | a known session is returned with the map unchanged; an unknown one gets a copy of the default template's settings |
| Tabs.TabStore.UpdateTabSettings | packages/frontend/src/stores/tabs.ts:26-34 | the session's settings, read as above, with the given fields replaced, are stored for that session only |
| Tabs.TabStore.SetTabSettingsFromTemplate | packages/frontend/src/stores/tabs.ts:35-47 | an unknown template is exactly a read; a known one stores a copy of its settings for that session only |
| Tabs.ReadSessionTwice | packages/frontend/src/stores/tabs.ts:14-24 | two reads of the same session return the same settings |
| Overlay.NextConsistent | packages/frontend/src/stores/overlay.ts:19-41 | each transition, from any state, leads to a consistent state: open for the session, open for the request, or closed with no ids |
| Overlay.ReachableConsistent | packages/frontend/src/stores/overlay.ts:9-41 | in every reachable state the two ids are never both set, and a closed overlay has neither |
| Overlay.RunIsLastEvent | packages/frontend/src/stores/overlay.ts:9-41 | the state depends only on the last transition, and is closed before any |
| Overlay.OverlayStore.constructor | packages/frontend/src/stores/overlay.ts:9-13 | the overlay starts closed with no session or request |
| Overlay.OverlayStore.StateConsistent | packages/frontend/src/stores/overlay.ts:9-41 | the store's state is always consistent |
| Overlay.OverlayStore.OpenOverlay | packages/frontend/src/stores/overlay.ts:19-25 | open, with the session set and the request cleared |
| Overlay.OverlayStore.OpenOverlayForRequest | packages/frontend/src/stores/overlay.ts:27-33 | open, with the request set and the session cleared |
| Overlay.OverlayStore.CloseOverlay | packages/frontend/src/stores/overlay.ts:35-41 | closed, with both ids cleared |

## Left out

- Text is a sequence of Unicode scalar values (`string` is `seq<char>`). The source's offsets
  (`text.length`, `match.index`, `lastIndex` and its bump past an empty match, the editor
  positions `from` and `to`) count UTF-16 code units, and spreading a string gives one key per
  code unit. So after a character outside the Basic Multilingual Plane every position differs
  from the source's, and a match or `lastIndex` inside a surrogate pair is not represented.
- The JavaScript `RegExp` engine is a parameter (`Decorations.Engine`). The model assumes
  only that a match starts at or after `lastIndex` and ends inside the text. An exception
  thrown by `exec` itself, as opposed to a compile error, is not modelled.
- `Decorations.SortEntries` models `Array.prototype.sort` as a function on values. The
  in-place update of the `decorations` array is not modelled. The sort is proved ordered
  and a permutation; its stability is not stated.
- CodeMirror plumbing is not modelled: `StateEffect.appendConfig`, the mapping of existing
  decorations through text changes (`decorations.map(tr.changes)`), `Decoration.set`, the
  widget's DOM construction and the CSS strings. A treatment is an enumeration, and
  `DecorationField.Update` covers transactions that change no text.
- Storage I/O, async code and subscriptions are not modelled: `sdk.storage.get/set/onChange`,
  `persistStorage`, and the wiring in `initialize` and `initSettingsStore`.
  `TemplateStore.Load` models their state change. The cast of the migrated value to a typed
  `StoredData` is unchecked in the source, so `Load` takes a typed document.
- `crypto.randomUUID` is a parameter (`freshId`). `CreateTemplate` requires that no
  template already has the fresh id.
- Numbers are integers: fractional, NaN and infinite values of `version`, `value` and
  `selectedGroups` are not modelled. A stored value is a JSON-like value. Functions,
  symbols, prototypes and the key order of objects are not modelled.
- Vue refs, Pinia, reactivity and lodash `cloneDeep` have plain value semantics. Two
  sessions that share a settings object cannot be told apart from two copies.
- Rendering and UI code is not part of this model: `utils/screenshot.ts`, `utils/async.ts`,
  `index.ts`, `views/ScreenshotOverlay/useEntry.ts`, `views/ScreenshotOverlay/useForm.ts` and
  `caido.config.ts`.
- `Types.DefaultSettingsShape`: states that the default header list has 39 entries, not that
  the entries are distinct.

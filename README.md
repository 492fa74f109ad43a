# Music publishing dashboard: store and page logic in Dafny

This project models the logic under a music-publishing dashboard for
independent artists. That logic is:

- an in-memory record store: songs, royalty sources, documents, tasks, a
  performing-rights (P.R.O.) profile and a publishing-company profile;
- the small, deterministic state changes the dashboard pages make around it.

The pages modelled are:

- the venue directory's search;
- the catalog's upload and metadata refresh;
- the publishing setup's saves, royalty checklist toggle and one-sheet contact address;
- the optimizer's action list;
- the document vault's analysis modal and type badge;
- the tax assistant chat.

Layout of the Dafny files:

- `wrappers.dfy` (`Wrappers`): `Option`. A missing key of a `Partial<T>` and
  a missing optional field are both `None`.
- `text.dfy` (`Text`): the JavaScript string primitives the pages use.
  - `toLowerCase`, on ASCII letters.
  - The `\s` class and `trim`, using the full ECMAScript white-space and
    line-terminator set.
  - `includes` and `startsWith`.
  - The default `sort` order.
- `tables.dfy` (`Tables`): the array idioms behind every table operation.
  - `xs.map(x => p(x) ? f(x) : x)`, as `MapWhere` and `ReplaceWhere`.
  - `xs.find(p)`, as `FindFirst`.
  - Their algebra: no-match, idempotence, involution, and find after map.
- `types.dfy` (`Types`): the records and closed enumerations, and the
  spread merge `{...x, ...partial}` for each patched record.
- `store.dfy` (`MockDb`): the store as a class `Store` with one field per
  table. Its methods reassign or append fields, as the module-level `let`
  bindings are reassigned and pushed to. Each method is tied to a pure table
  function, and that function's properties are lemmas.
- `venues.dfy` (`VenueDirectory`): pure. It covers the filter, the sorted
  distinct state options, the website link and the rendered table body and
  count.
- `catalog.dfy`, `setup.dfy`, `optimizer.dfy`, `documents.dfy`,
  `business.dfy`: one module per page. Each has the page's pure rules as
  functions and its React state as a class.
  - A handler is a method that changes the page's fields and the store's tables.
  - The store and any AI result are parameters.
  - An asynchronous handler is one sequential step. The Business send is two
    steps, `Send` and `Deliver`, so that the state while the answer is
    awaited can be stated.

## Model

| member | source | states |
|---|---|---|
| MockDb.Store.constructor | services/mockDb.ts:4-31 | The tables start as the seed data: two songs, an empty P.R.O. profile, an LLC company, three Not Started royalty sources, two documents and two tasks. |
| MockDb.Store.SongsGetAll | services/mockDb.ts:38 | Returns the current songs and changes nothing. |
| MockDb.Store.SongsAdd | services/mockDb.ts:39 | Appends the song at the end with no id-uniqueness check. The old table is a prefix, the last entry is the song, and the song is returned unchanged. Only the songs table changes. |
| MockDb.Store.SongsUpdate | services/mockDb.ts:40-44 | The new table is the merge-where-id-matches of the old one. The result is the first match after the update, given in terms of the old table. An unknown id leaves the table exactly as it was and returns nothing. |
| MockDb.UpdateSongs | services/mockDb.ts:42 | Length is kept. Records whose id matches become their merge with the partial, and every other record is identical. |
| MockDb.SongWithId | services/mockDb.ts:43 | Nothing is returned exactly when no record has the id. Otherwise the result is the first record in table order that has the id. |
| MockDb.UpdateSongsUnknownId | services/mockDb.ts:42-43 | With no record carrying the id, the update is the identity and the lookup afterwards finds nothing. |
| MockDb.UpdateSongsIdempotent | services/mockDb.ts:42 | The same update applied twice gives the table it gives once. |
| MockDb.UpdatedSongReturned | services/mockDb.ts:42-43 | The returned record is the first old match merged with the partial. A partial carrying a different `id` moves the record away, and then nothing is returned. |
| MockDb.Store.ProGet | services/mockDb.ts:47 | Returns the stored profile. |
| MockDb.Store.ProUpdate | services/mockDb.ts:48 | The stored profile becomes its merge with the partial, and that profile is returned. Only the profile changes. |
| MockDb.Store.CompanyGet | services/mockDb.ts:51 | Returns the stored company. |
| MockDb.Store.CompanyUpdate | services/mockDb.ts:52 | The stored company becomes its merge with the partial, and that company is returned. |
| MockDb.Store.RoyaltySourcesGetAll | services/mockDb.ts:55 | Returns the current sources and changes nothing. |
| MockDb.Store.RoyaltySourcesUpdate | services/mockDb.ts:56-59 | Status is set on matching sources only. The result is the first old match with the new status, or nothing. |
| MockDb.SetStatus | services/mockDb.ts:57 | Length is kept. Matching sources take the status and keep id, name and notes. Others are identical. |
| MockDb.SourceWithId | services/mockDb.ts:58 | Nothing is returned exactly when no source has the id. Otherwise the result is the first source in table order that has the id. |
| MockDb.SetStatusReturned | services/mockDb.ts:57-58 | The returned source is the first old match with only its status replaced. |
| MockDb.SetStatusIdempotent | services/mockDb.ts:57 | Setting the same status twice equals setting it once. |
| MockDb.Store.DocsGetAll | services/mockDb.ts:62 | Returns the current documents and changes nothing. |
| MockDb.Store.DocsAdd | services/mockDb.ts:63 | Appends the document at the end and returns it. |
| MockDb.Store.TasksGetAll | services/mockDb.ts:66 | Returns the current tasks and changes nothing. |
| MockDb.Store.TasksToggle | services/mockDb.ts:67-70 | `completed` is negated on matching tasks only. The result is the first old match negated. An unknown id leaves the table unchanged and returns nothing. |
| MockDb.ToggleTasks | services/mockDb.ts:68 | Length is kept. Matching tasks have `completed` negated with id and description kept. Others are identical. |
| MockDb.TaskWithId | services/mockDb.ts:69 | Nothing is returned exactly when no task has the id. Otherwise the result is the first task in table order that has the id. |
| MockDb.ToggleTasksTwice | services/mockDb.ts:68 | Toggling twice restores the original table. |
| MockDb.ToggleTasksReturned | services/mockDb.ts:68-69 | The returned task is the first old match with `completed` negated. |
| MockDb.ToggleTasksUnknownId | services/mockDb.ts:68-69 | An unknown id leaves the table unchanged, and the lookup returns nothing. |
| Tables.MapWhere | services/mockDb.ts:42 | The conditional `map`: length is kept, matching entries are rewritten and the others are kept. |
| Tables.ReplaceWhere | pages/PublishingSetup.tsx:207 | `map` with a fixed replacement: length is kept, each matching entry becomes the replacement and every other entry is kept. |
| Tables.FindFirst | services/mockDb.ts:43 | `find`: nothing is returned exactly when no entry matches. Otherwise the result is an entry that matches and that no earlier entry does. |
| Tables.FindFirstIsFirst | services/mockDb.ts:43 | Whenever index i holds a match and no earlier index does, `find` returns the entry at i. |
| Tables.FindAfterMapWhere | services/mockDb.ts:57-58 | When the rewrite keeps the selector true, the find after the map is the rewritten first match. |
| Tables.MapWhereInvolution | services/mockDb.ts:68 | A rewrite that is its own inverse on matches, applied twice, restores the table. |
| Tables.MapWhereIdempotent | services/mockDb.ts:42 | A rewrite that is idempotent on matches is idempotent on the table. |
| Types.MergeSongFields | types.ts:2-18 | Specifies `Types.MergeSong`: in the song spread merge, each of the fifteen fields takes the partial's value when the partial carries it and keeps the song's otherwise. |
| Types.MergeSongIdempotent | services/mockDb.ts:42 | Merging the same partial twice equals merging it once. |
| Types.MergeSongNoChanges | services/mockDb.ts:42 | The empty partial leaves a song unchanged. |
| Types.MergeSongCombine | services/mockDb.ts:42 | Two merges in a row equal one merge with the combined partial. |
| Types.MergeProFields | services/mockDb.ts:48 | In the profile spread merge, each of the six fields takes the partial's value when the partial carries it and keeps the profile's otherwise. |
| Types.MergeProWhole | services/mockDb.ts:48 | Merging a whole profile overwrites every field. |
| Types.MergeProIdempotent | services/mockDb.ts:48 | A profile merge applied twice equals one. |
| Types.MergeCompanyFields | services/mockDb.ts:52 | In the company spread merge, each of the six fields takes the partial's value when the partial carries it and keeps the company's otherwise. |
| Types.MergeCompanyWhole | services/mockDb.ts:52 | Merging a whole company overwrites every field. |
| Types.MergeCompanyIdempotent | services/mockDb.ts:52 | A company merge applied twice equals one. |
| Text.Lower | pages/VenueDirectory.tsx:20-21 | `toLowerCase`: same length, and each character is lowered. |
| Text.LowerAppend | pages/PublishingSetup.tsx:54 | Lowering a concatenation is the concatenation of the lowered parts. |
| Text.RemoveSpaces | pages/PublishingSetup.tsx:54 | `replace(/\s+/g, '')`: the result is no longer than the input. Its characters are exactly the input's non-white-space characters. |
| Text.RemoveSpacesChar | pages/PublishingSetup.tsx:54 | On one character, white space is removed and any other character is kept. |
| Text.RemoveSpacesAppend | pages/PublishingSetup.tsx:54 | Removing white space from a concatenation is removing it from each part. With the one-character case, this fixes the result as the input's non-white-space characters in order. |
| Text.IncludesIffOccurs | pages/VenueDirectory.tsx:20-21 | `includes` holds exactly when the needle occurs at some index. |
| Text.TrimStart | pages/Business.tsx:15 | `trimStart`: the result is a suffix of the input, the dropped prefix is white space, and the result does not start with white space. |
| Text.TrimEnd | pages/Business.tsx:15 | `trimEnd`: the result is a prefix of the input, the dropped suffix is white space, and the result does not end with white space. |
| Text.TrimSpec | pages/Business.tsx:15 | Specifies `Text.Trim`: `trim()` yields a contiguous middle of the input with white space before and after it, and the result neither starts nor ends with white space. |
| Text.TrimEmptyIffBlank | pages/Business.tsx:15 | `trim()` is empty exactly for a string made only of white space. |
| Text.LessTransitive | pages/VenueDirectory.tsx:13 | The sort order is transitive. |
| Text.LessTotal | pages/VenueDirectory.tsx:13 | Any two distinct strings are ordered one way or the other. |
| VenueDirectory.FilterVenues | pages/VenueDirectory.tsx:17-26 | A venue is shown exactly when it is in the list and both hold: the lowercased term is in its lowercased name or city, and the state test passes. |
| VenueDirectory.FilterIsSubsequence | pages/VenueDirectory.tsx:18 | The shown venues are an order-preserving subsequence of the list. |
| VenueDirectory.FilterCounts | pages/VenueDirectory.tsx:17-26 | Each venue that passes appears as often as in the list, and no other venue appears. With the subsequence lemma this fixes the shown list and its count. |
| VenueDirectory.FilterKeepsAll | pages/VenueDirectory.tsx:20-22 | An empty term with no state selected shows every venue, in order. |
| VenueDirectory.StateNarrows | pages/VenueDirectory.tsx:22-24 | For the same term, selecting a state shows a subsequence of what no selection shows. |
| VenueDirectory.StateOptions | pages/VenueDirectory.tsx:12-15 | The options are strictly ascending, and their members are exactly the venues' states. |
| VenueDirectory.StateOptionsDistinct | pages/VenueDirectory.tsx:13 | The options are pairwise distinct and ascending. |
| VenueDirectory.SortedSetUnique | pages/VenueDirectory.tsx:13 | Any strictly ascending list of the same states equals the options, so the derivation has one outcome. |
| VenueDirectory.WebsiteLink | pages/VenueDirectory.tsx:98-100 | A link exists exactly for a non-empty website, and it is the website's normalised target (`WebsiteHref`), so it starts with "http". |
| VenueDirectory.WebsiteHref | pages/VenueDirectory.tsx:100 | A website starting with "http" is used as it is. Any other gets "http://" in front. |
| VenueDirectory.WebsiteHrefIdempotent | pages/VenueDirectory.tsx:100 | Normalising a normalised link changes nothing. |
| VenueDirectory.Render | pages/VenueDirectory.tsx:79-132 | The count equals the number of shown venues. The "no venues found" row appears exactly when no venue passes. Otherwise the rows are the shown venues. |
| Catalog.StripExtension | pages/Catalog.tsx:24 | The result is a prefix of the name. It is the whole name exactly when no final dot-extension (no '.' or '/' after the dot) exists, and otherwise the extension starts where the result ends. |
| Catalog.ExtensionStartSpec | pages/Catalog.tsx:24 | The backward scan finds index i exactly when the pattern matches from i. |
| Catalog.UploadTitle | pages/Catalog.tsx:24 | The title is never empty. A non-empty typed title wins; otherwise the stripped file name; otherwise "Untitled", also when the file is missing or strips to nothing. |
| Catalog.UploadTitleExamples | pages/Catalog.tsx:24 | "demo.final.mp3" gives "demo.final" and ".wav" gives "Untitled". "track." and "v1.2/take" are kept whole. |
| Catalog.NewSong | pages/Catalog.tsx:21-30 | The new song carries the given id and timestamp, the derived title, user "u1", artist "Alex Rivera", no tags, sole writer "Alex Rivera (100%)", splits "100", and no optional metadata. |
| Catalog.EnrichedSong | pages/Catalog.tsx:35 | The enriched song takes each field the analysis carries and keeps the new song's value otherwise. |
| Catalog.UploadDisabled | pages/Catalog.tsx:134 | Upload is disabled exactly when both the title and the file are empty. |
| Catalog.CatalogPage.constructor | pages/Catalog.tsx:9-12 | Empty list, closed form, empty title, no file. |
| Catalog.CatalogPage.Load | pages/Catalog.tsx:15-17 | The local list becomes the store's songs. |
| Catalog.CatalogPage.OpenUpload | pages/Catalog.tsx:68 | The Upload button opens the form. |
| Catalog.CatalogPage.EditTitle | pages/Catalog.tsx:124 | Typing sets the title to the input's value. |
| Catalog.CatalogPage.ChooseFile | pages/Catalog.tsx:128 | Choosing sets the file to the chosen one, or to none when nothing is chosen. |
| Catalog.CatalogPage.CancelUpload | pages/Catalog.tsx:133 | Cancel closes the form and keeps the title and file. |
| Catalog.CatalogPage.HandleUpload | pages/Catalog.tsx:19-42 | The enriched song is appended to the end of both the store and the local list, and the form is closed and cleared. |
| Catalog.CatalogPage.HandleImproveMetadata | pages/Catalog.tsx:44-53 | An id missing from the local list changes nothing. Otherwise the store applies the update, and the local entries with the id are replaced by the returned record; with nothing returned the list is unchanged. |
| PublishingSetup.NextStatus | pages/PublishingSetup.tsx:205 | Complete goes to Not Started, and both others go to Complete. The result is never In Progress. |
| PublishingSetup.NextStatusTwice | pages/PublishingSetup.tsx:205 | Two toggles restore Not Started and Complete, but take In Progress to Not Started. |
| PublishingSetup.ReplaceReturned | pages/PublishingSetup.tsx:207 | With a returned source, the entries with its id are replaced and the others are kept. With nothing returned the list is unchanged. |
| PublishingSetup.SetupPage.ToggleRoyalty | pages/PublishingSetup.tsx:204-208 | The store sets the toggled status, and the local list takes the returned record. An id the store lacks leaves the local list unchanged. |
| PublishingSetup.SlugOf | pages/PublishingSetup.tsx:54 | The slug of a name is no longer than the name and holds no white space or upper-case letter. |
| PublishingSetup.SlugOfChar | pages/PublishingSetup.tsx:54 | On one character the slug drops white space and lowercases anything else. |
| PublishingSetup.SlugOfAppend | pages/PublishingSetup.tsx:54 | The slug of a concatenation is the concatenation of the slugs. With the one-character case, this fixes the slug as the lowercased non-white-space characters in order. |
| PublishingSetup.Slug | pages/PublishingSetup.tsx:54 | The slug has no white space and no upper-case letter. For a non-empty company name it is the slug of that name; `PublishingSetup.SlugSource` picks that name or "artist". |
| PublishingSetup.ContactEmail | pages/PublishingSetup.tsx:54 | The address is exactly "legal@", the slug of the company, then ".com". The part between has no white space or capitals. |
| PublishingSetup.EmptySlugIffBlankName | pages/PublishingSetup.tsx:54 | The slug is empty ("legal@.com") exactly when the name is non-empty white space. |
| PublishingSetup.SlugDefault | pages/PublishingSetup.tsx:54 | With no profile, or with an empty company name as in the seed data, the slug is "artist". |
| PublishingSetup.ContactExample | pages/PublishingSetup.tsx:54 | The name "A b" gives "legal@ab.com". |
| PublishingSetup.MakeOneSheet | pages/PublishingSetup.tsx:47-54 | The company line is "N/A" exactly when there is no profile or the name is empty or literally "N/A". A non-empty name is shown as it is. Entity and EIN are the profile's `entity_type` and `ein`, or "undefined" without a profile. The contact line is the contact address. |
| PublishingSetup.SetupPage.constructor | pages/PublishingSetup.tsx:10-12 | No profile drafts, and an empty checklist. |
| PublishingSetup.SetupPage.Load | pages/PublishingSetup.tsx:16-23 | Both profiles are loaded, and the checklist becomes the store's sources. |
| PublishingSetup.SetupPage.EditPro | pages/PublishingSetup.tsx:92-111 | A form edit gives the loaded draft the edited field and keeps the others. |
| PublishingSetup.SetupPage.EditCompany | pages/PublishingSetup.tsx:133-153 | The same for the company draft. |
| PublishingSetup.SetupPage.SavePro | pages/PublishingSetup.tsx:25-30 | The store is called exactly when the draft is loaded, and then the stored profile equals the draft. Otherwise the store is unchanged. |
| PublishingSetup.SetupPage.SaveCompany | pages/PublishingSetup.tsx:32-37 | The same for the company profile. |
| Optimizer.ToggleStep | pages/Optimizer.tsx:14-19 | The store is toggled. When the store returns a record, only local entries with the id become it, and length and order are kept. When it returns nothing, both lists are unchanged. |
| Optimizer.ToggleStepTwice | pages/Optimizer.tsx:14-19 | Starting with the local entries in step with the store, two toggles restore both the local list and the store. |
| Optimizer.RefreshedTaskNeverToggles | pages/Optimizer.tsx:50 | A Refresh Plan task whose id the store lacks can never be toggled: both lists stay as they are. |
| Optimizer.OptimizerPage.constructor | pages/Optimizer.tsx:8 | No tasks. |
| Optimizer.OptimizerPage.Load | pages/Optimizer.tsx:10-12 | The local list becomes the store's tasks. |
| Optimizer.OptimizerPage.ToggleTask | pages/Optimizer.tsx:14-19 | The new local list and store table are the toggle step of the old ones. |
| Optimizer.OptimizerPage.RefreshPlan | pages/Optimizer.tsx:49-51 | Exactly one not-completed task with the fixed description is appended. The store is not touched. |
| Documents.FieldOr | pages/Documents.tsx:67 | The default is shown exactly when the key is missing, its value is falsy, or its value equals the default. Any other value shown is the key's truthy value. |
| Documents.DetailsOf | pages/Documents.tsx:67-75 | Earnings, top source and note each fall back to "$1,240.50", "Spotify" and "No anomalies detected.". |
| Documents.Modal | pages/Documents.tsx:59-61 | The modal is closed exactly when the analysis is falsy. It shows processing exactly while the analysis is the sentinel, and otherwise the three fields. |
| Documents.FailedAnalysisClosed | pages/Documents.tsx:59 | A null analysis leaves the modal closed. |
| Documents.DefaultsShown | pages/Documents.tsx:67-75 | A payload without the three keys, or a plain string, shows all three defaults. |
| Documents.RenderAsWritten | pages/Documents.tsx:59-75 | As written, rendering throws exactly in two cases. One is a null analysis. The other is an open modal showing details where one of the three shown values is an object, or an array holding one. Otherwise it shows what the modal rule gives. |
| Documents.RenderAsWrittenThrowsOnObjectField | pages/Documents.tsx:71 | An analysis whose "Top Revenue Source" is an object makes the open modal throw. |
| Documents.RenderAsWrittenThrowsOnNull | pages/Documents.tsx:10 | The initial null analysis makes the page throw, where the modal rule would keep it closed. |
| Documents.ReplaceFirst | pages/Documents.tsx:41 | Only the first occurrence of the character is replaced, and length is kept. |
| Documents.BadgeLabel | pages/Documents.tsx:41 | The badge has the type name's length. Each underscore in the name becomes a space, and every other character is kept. |
| Documents.BadgeLabelContract | pages/Documents.tsx:41 | "contract" is shown unchanged. |
| Documents.BadgeLabelRegistration | pages/Documents.tsx:41 | "registration" is shown unchanged. |
| Documents.BadgeLabelRoyaltyStatement | pages/Documents.tsx:41 | The royalty statement badge reads "royalty statement". |
| Documents.BadgeLabelSplitSheet | pages/Documents.tsx:41 | The split sheet badge reads "split sheet". |
| Documents.CanAnalyze | pages/Documents.tsx:49 | Analyze is offered exactly when the stored type string is "royalty_statement". |
| Documents.SeedAnalyzable | pages/Documents.tsx:49 | Of the two seeded documents, the distributor statement offers Analyze and the split sheet does not. |
| Documents.AnalyzableBadge | pages/Documents.tsx:41-49 | A document offers Analyze exactly when its badge reads "royalty statement". |
| Documents.DocumentsPage.constructor | pages/Documents.tsx:9-10 | No documents, and a null analysis. |
| Documents.DocumentsPage.Load | pages/Documents.tsx:12-14 | The local list becomes the store's documents. |
| Documents.DocumentsPage.HandleAnalyze | pages/Documents.tsx:16-20 | While the request is outstanding the modal shows processing, and then the analysis is the result. |
| Documents.DocumentsPage.CloseModal | pages/Documents.tsx:59 | Closing sets the analysis to null, and the modal rule gives closed. |
| Business.RefusedIffBlank | pages/Business.tsx:15 | Specifies `Business.Refused` (`!input.trim()`): a send is refused exactly for empty or all-white-space input. |
| Business.AppendUser | pages/Business.tsx:18 | A user message added when no answer is awaited keeps the roles alternating, and an answer is then awaited. |
| Business.AppendBot | pages/Business.tsx:23 | A bot message added when an answer is awaited keeps the roles alternating, and no answer is then awaited. |
| Business.ChatPage.constructor | pages/Business.tsx:7-11 | The chat starts with the single bot greeting, empty input and not loading. |
| Business.ChatPage.Edit | pages/Business.tsx:73 | Typing sets the input to the field's value, and the alternation is kept. |
| Business.ChatPage.Send | pages/Business.tsx:13-20 | Blank input changes nothing. Otherwise the untrimmed input is appended as a user message, the input is cleared and loading starts. Roles keep alternating. |
| Business.ChatPage.Deliver | pages/Business.tsx:22-24 | The answer is appended as a bot message after the user message, and loading ends. |
| Business.ChatPage.HandleSend | pages/Business.tsx:13-25 | An accepted send grows the list by exactly two, the user's text and then the answer. A refused one changes nothing. |

## Left out

- The AI calls (`services/geminiService.ts`) are not part of this model. Their results are parameters:
  - the metadata analysis is a `SongPatch`;
  - the document analysis is a `Json` value;
  - the tax answer is a string.
- Timing and concurrency are not modelled. This covers the `delay` and
  `setTimeout` latencies and any interleaving of outstanding requests. Each
  handler is one sequential step, except the chat send, which is two.
- Random and clock-based values are parameters: new song ids and timestamps,
  the Refresh Plan task id, and the seed songs' timestamps.
- Rendering, styling, routing and browser side effects are not modelled:
  `alert`, `window.open`, the clipboard and the maps link. The same goes for
  the static pages and components.
- The venue dataset (`data/venues`) is not part of this model. It is a
  parameter, and each state option is its state string, not the
  value/label pair.
- `Text.Lower` lowers ASCII letters only, not the full Unicode case mapping
  of `toLowerCase`.
- `Text.Less` orders by character. JavaScript's `sort` compares UTF-16 code
  units, and the two orders differ only above the Basic Multilingual Plane.
- The stores and partials do not model a key that is present but holds
  `undefined`: a partial key is either a value or absent. Extra keys or
  wrongly typed values in the parsed analysis result are not modelled either.
- `Song.bpm` is a `real`, and `NaN` is not modelled.
- `Documents.FieldOr` models reading a property of a non-null value. An
  `undefined` analysis, which would also throw, cannot occur because the
  result is parsed JSON or null.
- The catalog's sync pitch (`handleGeneratePitch`, `syncPitch`) is an AI
  call and a display string, so it is not modelled.
- One-sheet text: `PublishingSetup.MakeOneSheet` gives only the interpolated
  values, not the surrounding text. The values are computed from the profile
  current at the call; the source reads it later, from a timer, out of the
  render's closure.
- The setup page's active tab and the Optimizer's static statistics cards
  are not modelled, and the Business tax checklist's unmanaged checkboxes
  hold no state the page reads.
- `PublishingSetup.SetupPage.EditPro` and `EditCompany` require a loaded
  draft. The form is rendered only once both profiles are loaded
  (pages/PublishingSetup.tsx:59), so no edit can reach an absent draft.
- `Business.ChatPage.Send` requires that no answer is pending. The submit
  button is disabled while loading, and the model does not cover a second
  send racing the first.

## Findings

| source | as written | input that shows it | evidently intended | confidence | as-written member | corrected member |
|---|---|---|---|---|---|---|
| pages/Documents.tsx:59-75 | The modal's children are built on every render, before the modal checks `isOpen`. The details branch reads `analysis['Estimated Total Earnings']` whenever `analysis` is not the sentinel. | `analysis === null`: the initial state (line 10), after closing (line 59), and after a failed analysis. Reading a property of null throws a TypeError. | A null analysis keeps the modal closed, with no field read. | high, not executed | Documents.RenderAsWrittenThrowsOnNull | Documents.FailedAnalysisClosed |

# SmartAceStudio planning logic in Dafny

This project models the logic around the AI part of the SmartAceStudio smart-home planner. The prompts and the language-model calls are not modelled. The project covers:

- **Proposal enrichment** (`Actions`). The server action joins the items the model selected to the product catalog by id. It drops unknown ids, keeps the order, and merges each item with its product. The module also holds the catalog-row serialiser.
- **Result dashboard** (`ResultDashboard`).
  - The total cost and the per-row subtotals.
  - Grouping items by room, with `'General'` as the default.
  - The living-room and unlock visibility rule and the one-way unlock flag.
  - The choice of currency and locale.
- **Markdown renderer** (`MarkdownRenderer`).
  - Classifies each line as a heading, bullet, numbered item or paragraph.
  - Splits paragraphs into `**bold**` segments.
- **Translations** (`I18nContext`).
  - Looks up dot-separated keys and falls back to English, then to the key itself.
  - Chooses the initial language from the browser language.
- **Planning form** (`PlanningForm`). The schema, the defaults, the tag toggle, and the encoding of accepted values as form fields.
- **Generation endpoint** (`GenerateRoute`).
  - Decodes the posted fields and builds the floor-plan data URI.
  - Serialises catalog rows.
  - Maps any thrown error to a status-500 response.
- **Lead-capture form** (`UnlockForm`). Validates the name and the Chinese mobile number, then closes the dialog.
- **Proposal request state** (`ProposalContext`).
  - The provider's `proposal`/`isLoading`/`error` fields with their start, success and failure transitions.
  - The `useProposal` guard.
  - The result page's rendering rule, which reads these fields.
- **Placeholder images** (`PlaceholderImages`). First match by id, otherwise the default image.

Some modules model JavaScript built-ins:

- `Strings`: `startsWith`, `includes`, `split` and `join` on one character, `trim`, and ASCII `toLowerCase`.
- `JsNumbers`: `String(n)` and `Number(s)` for integers.
- `FormData`: `get` and `getAll`.
- `Products`: the record types of `src/lib/products.ts`.
- `JsObjects`: the names every plain object inherits from `Object.prototype`.
- `Wrappers`: `Option`, `Result` and the thrown value.

Code that changes state is written as classes with `modifies` clauses or as methods with loops:

- `ResultDashboard.GroupByRoom` is a loop over a map accumulator, with its invariant bundled in `Grouped`.
- `ResultDashboard.Dashboard`, `UnlockForm.UnlockDialog`, `I18nContext.I18nProvider` and `ProposalContext.ProposalProvider` hold component state.
- `PlanningForm.OnSubmit` builds the form data with successive appends.
- `GenerateRoute.DecodeRequest` and `GenerateRoute.Post` are the endpoint's steps.

Each method's ensures give its result or new state, mostly through a specification function whose properties are proved as lemmas; the simple setters and the key-renaming methods state theirs directly. Pure code is written as functions and lemmas.

The product catalog, the translation tables and the image table come from data files that are not part of this model, so they are parameters. The same goes for the result of the server action, the request body, the Base64 encoder and the model's stream.

## Model

| member | source | states |
|---|---|---|
| Actions.ToChineseKeys | src/app/actions.ts:8-22 | the row has exactly the seven fixed keys, plus '来源' exactly when `isCustom`; each key holds the matching product field, and '来源' holds '用户自定义' |
| Actions.ProductIndex | src/app/actions.ts:30 | the Map's keys are exactly the catalog ids, and each id maps to a catalog row with that id |
| Actions.IndexKeepsLastRow | src/app/actions.ts:30 | for a repeated id, the Map holds the last catalog row with that id |
| Actions.EnrichItems | src/app/actions.ts:32-42 | never longer than the selection; every enriched item's `product_id` is in the Map, its product fields equal that Map entry, and its item fields come from a selected item |
| Actions.EnrichKeepsMatchedItems | src/app/actions.ts:32-42 | the item parts of the result are exactly the selected items whose id is found, in order |
| Actions.MatchedIsSubsequence | src/app/actions.ts:42 | the found items form a subsequence of the selection |
| Actions.EnrichPreservesOrder | src/app/actions.ts:32-42 | the enriched items keep the selection's order: their item parts are a subsequence of the selected items |
| Actions.EnrichAllFound | src/app/actions.ts:32-42 | when every id is in the Map, the output has the input's length and element i is the merge of item i with its product |
| Actions.EnrichConcat | src/app/actions.ts:32-42 | the join distributes over concatenation of selections |
| Actions.MissIsDropped | src/app/actions.ts:33-37 | an item whose id is missing is silently removed, and the rest is unchanged |
| Actions.EnrichProposal | src/app/actions.ts:24-49 | never an error; the report is copied unchanged; no more items than selected; each item's product is the last catalog row with its id, and its item part was selected |
| Products.Merge | src/app/actions.ts:38-41 | `{...item, ...product}` keeps both inputs whole: projecting gives back the item and the product |
| Products.MergeIsSpread | src/app/actions.ts:38-41 | the item and product key sets are disjoint; the merged keys are their union, with product keys holding the product's values and the remaining keys the item's |
| ResultDashboard.TotalCost | src/components/result/result-dashboard.tsx:23-25 | no ensures: the left fold of price × quantity over the items, 0 for no items; TotalCostAppend, TotalCostConcat and TotalCostNonNegative state its properties |
| ResultDashboard.RoomKey | src/components/result/result-dashboard.tsx:29 | no ensures: the item's room when that is non-empty, otherwise 'General'; InRoomMembers and GroupByRoom group by it |
| ResultDashboard.TotalCostAppend | src/components/result/result-dashboard.tsx:23-25 | the reduce adds price × quantity for each further item |
| ResultDashboard.TotalCostConcat | src/components/result/result-dashboard.tsx:23-25 | the total of two lists is the sum of their totals |
| ResultDashboard.TotalCostNonNegative | src/components/result/result-dashboard.tsx:23-25 | with non-negative prices and quantities the total is non-negative |
| ResultDashboard.InRoomMembers | src/components/result/result-dashboard.tsx:27-36 | an item is in a room's group iff it is an item of the list and its room key (room, or 'General' when empty) is that room |
| ResultDashboard.InRoomEmpty | src/components/result/result-dashboard.tsx:27-36 | a room no item maps to has an empty group |
| ResultDashboard.GroupSumRemove | src/components/result/result-dashboard.tsx:27-36 | a sum over groups splits into one group plus the rest |
| ResultDashboard.GroupSumUpdate | src/components/result/result-dashboard.tsx:30-33 | replacing one group changes the sum over groups by that group alone |
| ResultDashboard.RoomsAppend | src/components/result/result-dashboard.tsx:29 | one more item adds just its room key to the set of group keys |
| ResultDashboard.GroupedAll | src/components/result/result-dashboard.tsx:27-36 | the loop invariant at the end gives the grouping's full contract |
| ResultDashboard.Push | src/components/result/result-dashboard.tsx:30-33 | no ensures: one reduce step on a map accumulator, creating the room's group empty when missing and appending the item; GroupAppend proves it extends the grouping by that item |
| ResultDashboard.GroupByRoom | src/components/result/result-dashboard.tsx:27-36 | the keys are exactly the items' room keys; each group is that room's items in list order; every item lands in its own group; group sizes add up to the item count; group totals add up to `totalCost` |
| ResultDashboard.GroupAsWritten | src/components/result/result-dashboard.tsx:28-35 | the reduce over `{}` succeeds iff no room key is a name inherited from `Object.prototype`, and then has exactly the room keys, each holding the same items as in `GroupByRoom` |
| ResultDashboard.ConstructorRoomThrows | src/components/result/result-dashboard.tsx:30-33 | one item in room 'constructor' makes the grouping throw |
| ResultDashboard.ToLowerConcat | src/components/result/result-dashboard.tsx:79 | lowercasing distributes over concatenation |
| ResultDashboard.IsLivingRoom | src/components/result/result-dashboard.tsx:79 | no ensures: a room is a living room iff it is '客厅' or its lowercased name contains 'living'; LivingRoomAnyCase states the letter-case property |
| ResultDashboard.LivingRoomAnyCase | src/components/result/result-dashboard.tsx:79 | any room whose name contains 'living' in any letter case is a living room |
| ResultDashboard.ProductRows | src/components/result/result-dashboard.tsx:96-116 | one row per item, in order |
| ResultDashboard.SubtotalColumnIsTotalCost | src/components/result/result-dashboard.tsx:114 | the subtotal column of a room's rows sums to `totalCost` of its items |
| ResultDashboard.RoomBody | src/components/result/result-dashboard.tsx:94-126 | the single unlock prompt appears iff the page is locked and the room is not a living room; otherwise one row per item with its image (the default picture for an empty URL), name, brand, quantity, unit price and price × quantity subtotal, and the subtotals sum to the total |
| ResultDashboard.CurrencyFor | src/components/result/result-dashboard.tsx:38-46 | 'zh' selects zh-CN/CNY, and every other language selects en-US/USD |
| ResultDashboard.Dashboard.constructor | src/components/result/result-dashboard.tsx:18-21 | the page starts locked, with no leads recorded |
| ResultDashboard.Dashboard.HandleUnlock | src/components/result/result-dashboard.tsx:48-66 | after the handler the page is unlocked, and the lead is recorded |
| ResultDashboard.Dashboard.SummaryBlurred | src/components/result/result-dashboard.tsx:135-159 | no ensures: the total and the analysis are blurred, with the unlock button over them, exactly while the page is locked |
| ResultDashboard.Dashboard.SubmitUnlockForm | src/components/result/unlock-form.tsx:51-54 | a valid lead unlocks the page, closes the dialog and is recorded; an invalid one changes nothing; an unlocked page stays unlocked |
| MarkdownRenderer.DigitRun | src/components/result/markdown-renderer.tsx:24 | the length of the leading `\d+` run |
| MarkdownRenderer.NumberedMarker | src/components/result/markdown-renderer.tsx:24-25 | `/^\d+\.\s/` matches iff the line has digits, '.', and whitespace at its start; the match length is then digits + 2 |
| MarkdownRenderer.CloseFrom | src/components/result/markdown-renderer.tsx:28 | the lazy `.*?` finds the first '**' with no line terminator before it, and fails only when no such '**' exists |
| MarkdownRenderer.NonEmpty | src/components/result/markdown-renderer.tsx:28 | `filter(Boolean)` keeps only non-empty pieces, each one a piece of the input |
| MarkdownRenderer.Scan | src/components/result/markdown-renderer.tsx:28 | the split on `(\*\*.*?\*\*)` yields at least one piece; ScanConcat and BoldScan state its pieces |
| MarkdownRenderer.Segments | src/components/result/markdown-renderer.tsx:28 | no ensures: split, then `filter(Boolean)`; SegmentsRebuildLine and ScanUnparse state what the segments are |
| MarkdownRenderer.RenderSegment | src/components/result/markdown-renderer.tsx:32-36 | a segment is bold iff it starts and ends with '**', and then its text is the segment with two characters dropped from each end; other segments render verbatim |
| MarkdownRenderer.RenderSegments | src/components/result/markdown-renderer.tsx:32-37 | each segment is rendered on its own, in order |
| MarkdownRenderer.ClassifyLine | src/components/result/markdown-renderer.tsx:9-28 | a line yields no element iff it is all whitespace |
| MarkdownRenderer.Render | src/components/result/markdown-renderer.tsx:2-10 | empty content renders nothing; otherwise there is at most one element per `'\n'`-separated line |
| MarkdownRenderer.BlocksOfNonBlank | src/components/result/markdown-renderer.tsx:8-10 | every non-blank line yields exactly one element, in order, and blank lines yield none |
| MarkdownRenderer.RenderLines | src/components/result/markdown-renderer.tsx:2-10 | content joined from lines without '\n' renders as exactly the blocks of those lines |
| MarkdownRenderer.ClassifyTrimmedLine | src/components/result/markdown-renderer.tsx:9 | a line without surrounding whitespace is classified as it is |
| MarkdownRenderer.MarkedLine | src/components/result/markdown-renderer.tsx:12-23 | a marker before trimmed text is a prefix, and removing its length leaves the text |
| MarkdownRenderer.HeadingFourLine | src/components/result/markdown-renderer.tsx:12-14 | a '### ' line is a level-4 heading with exactly the four-character prefix removed |
| MarkdownRenderer.HeadingThreeLine | src/components/result/markdown-renderer.tsx:15-17 | a '## ' line is a level-3 heading without its prefix |
| MarkdownRenderer.HeadingTwoLine | src/components/result/markdown-renderer.tsx:18-20 | a '# ' line is a level-2 heading without its prefix |
| MarkdownRenderer.NoMarkerPrefix | src/components/result/markdown-renderer.tsx:12-23 | a line starting with a character other than '#', '-' or '*' matches none of the heading and bullet prefixes |
| MarkdownRenderer.BulletLine | src/components/result/markdown-renderer.tsx:21-23 | a '- ' or '* ' line is a bullet item minus its first two characters |
| MarkdownRenderer.NumberedLine | src/components/result/markdown-renderer.tsx:24-26 | `n. text` is a numbered item with the prefix removed once |
| MarkdownRenderer.HashWithoutSpace | src/components/result/markdown-renderer.tsx:12-28 | a '#' not followed by a space falls through to a paragraph |
| MarkdownRenderer.ClassifyByPrefix | src/components/result/markdown-renderer.tsx:12-28 | every non-blank line, however padded and whatever follows its marker, gets the element of its trimmed text's prefix, and otherwise a paragraph of the untrimmed line |
| MarkdownRenderer.ScanConcat | src/components/result/markdown-renderer.tsx:28 | the split pieces concatenate back to the scanned text |
| MarkdownRenderer.NonEmptyConcat | src/components/result/markdown-renderer.tsx:28 | dropping empty pieces does not change the concatenation |
| MarkdownRenderer.NonEmptyAppend | src/components/result/markdown-renderer.tsx:28 | the filter distributes over concatenation |
| MarkdownRenderer.SegmentsRebuildLine | src/components/result/markdown-renderer.tsx:28 | concatenating the segments gives back the untrimmed line |
| MarkdownRenderer.Sources | src/components/result/markdown-renderer.tsx:28 | each segment's source text, in order |
| MarkdownRenderer.PlainScan | src/components/result/markdown-renderer.tsx:28 | text without '*' is carried into the pending plain segment |
| MarkdownRenderer.CloseSkips | src/components/result/markdown-renderer.tsx:28 | the lazy match closes at the first '**' when no '*' or line terminator comes before it |
| MarkdownRenderer.BoldScan | src/components/result/markdown-renderer.tsx:28 | `**w**` with no '*' or terminator in `w` is split out as one captured piece |
| MarkdownRenderer.ConcatCons | src/components/result/markdown-renderer.tsx:28 | concatenating a piece before the sources gives that piece before the written text |
| MarkdownRenderer.UnparseCons | src/components/result/markdown-renderer.tsx:28 | the written text and the source list both start with the first segment |
| MarkdownRenderer.BoldStep | src/components/result/markdown-renderer.tsx:28 | a bold segment splits off after the pending text |
| MarkdownRenderer.PlainStep | src/components/result/markdown-renderer.tsx:28 | a plain segment becomes the pending text |
| MarkdownRenderer.ScanUnparse | src/components/result/markdown-renderer.tsx:28 | canonical segments written out split back into exactly their sources |
| MarkdownRenderer.ParagraphRoundTrip | src/components/result/markdown-renderer.tsx:28-37 | writing canonical plain and bold segments as a line and rendering it gives back the same segments |
| I18nContext.ParseLanguage | src/context/i18n-context.tsx:33 | a code is accepted iff it is one of en/zh/ja/ko, and it maps to that language |
| I18nContext.GetNested | src/context/i18n-context.tsx:23-25 | no ensures: the `acc && acc[part]` walk along the path split on '.'; WalkMatchesResolve and WalkStaysFalsy state its result |
| I18nContext.Lookup | src/context/i18n-context.tsx:24 | a table object answers its own keys first and then the names inherited from `Object.prototype`; nothing else has properties |
| I18nContext.WalkStaysFalsy | src/context/i18n-context.tsx:24 | once a step is falsy, `acc && acc[part]` stays at that falsy value |
| I18nContext.WalkMatchesResolve | src/context/i18n-context.tsx:23-25 | the reduce gives a truthy value iff following the path key by key succeeds with a truthy value, and then gives that value |
| I18nContext.Translate | src/context/i18n-context.tsx:38-46 | `t` returns a truthy value (a translation, or an inherited member) or the key itself |
| I18nContext.TranslateUsesCurrentLanguage | src/context/i18n-context.tsx:39-41 | a truthy entry in the current language is returned |
| I18nContext.TranslateFallsBackToEnglish | src/context/i18n-context.tsx:43-45 | otherwise a truthy English entry is returned, so an empty string counts as missing |
| I18nContext.TranslateInheritedName | src/context/i18n-context.tsx:24-42 | a key such as 'constructor' or 'toString' that the current table does not define itself returns the inherited member, not a string |
| I18nContext.TranslateReturnsKey | src/context/i18n-context.tsx:45 | a key with no truthy own or inherited entry in either table is returned unchanged |
| I18nContext.MountedLanguage | src/context/i18n-context.tsx:28-36 | a supported browser prefix before the first '-' becomes the language, and any other prefix leaves 'en' |
| I18nContext.I18nProvider.constructor | src/context/i18n-context.tsx:28 | the language starts as English |
| I18nContext.I18nProvider.DetectBrowserLanguage | src/context/i18n-context.tsx:30-36 | a supported browser prefix becomes the language; otherwise the language is unchanged |
| I18nContext.I18nProvider.SetLanguage | src/context/i18n-context.tsx:28 | the language becomes the one chosen |
| I18nContext.I18nProvider.T | src/context/i18n-context.tsx:38-46 | no ensures: Translate on the provider's current language; the Translate lemmas fix its fallback order |
| I18nContext.UseI18n | src/context/i18n-context.tsx:56-62 | the context is returned when present; otherwise the provider error |
| UnlockForm.MatchesWholeIff | src/components/result/unlock-form.tsx:40 | an anchored pattern of character classes matches iff the lengths agree and every character is in its class |
| UnlockForm.ValidName | src/components/result/unlock-form.tsx:39 | no ensures: `z.string().min(1)`, a name of at least one character; Validate reports NameRequired exactly when it fails |
| UnlockForm.ValidPhone | src/components/result/unlock-form.tsx:40 | no ensures: the whole phone matches `^1[3-9]\d{9}$`; ValidPhoneShape states that character by character |
| UnlockForm.ValidPhoneShape | src/components/result/unlock-form.tsx:40 | a phone is valid iff it has 11 characters: '1', a digit 3-9, then nine ASCII digits |
| UnlockForm.ValidPhoneIsDigits | src/components/result/unlock-form.tsx:40 | every valid phone has length 11 and only digits |
| UnlockForm.Validate | src/components/result/unlock-form.tsx:38-41 | accepted iff the name is non-empty and the phone is valid; the values are passed on unchanged; each failing field is reported |
| UnlockForm.DefaultValuesRejected | src/components/result/unlock-form.tsx:45-48 | the empty defaults fail on both fields |
| UnlockForm.UnlockDialog.constructor | src/components/result/unlock-form.tsx:36 | the dialog starts closed |
| UnlockForm.UnlockDialog.SetOpen | src/components/result/unlock-form.tsx:57 | the dialog's open flag follows the trigger |
| UnlockForm.UnlockDialog.Submit | src/components/result/unlock-form.tsx:51-54 | valid values are handed to `onUnlock` unchanged and the dialog closes; invalid values hand nothing on and leave the dialog as it was |
| PlanningForm.CoerceArea | src/components/plan/planning-form.tsx:39 | no ensures: `z.coerce.number()`, a number kept as it is and a text read by ParseNumber; Validate states how the result decides the area issues |
| PlanningForm.ParseBudget | src/components/plan/planning-form.tsx:41 | a string names a tier iff it is economy/premium/luxury, and the tier's name is that string |
| PlanningForm.Validate | src/components/plan/planning-form.tsx:38-46 | accepted iff the coerced area is a number ≥ 1, the layout is one of the five codes and the budget one of the three tiers; optional fields pass through; each issue is reported exactly when it applies: area not a number, area below 1, layout or tier missing, layout or tier not among the allowed values |
| PlanningForm.DefaultsRejected | src/components/plan/planning-form.tsx:54-60 | the untouched form fails, only because no budget tier is chosen |
| PlanningForm.DefaultsWithBudgetAccepted | src/components/plan/planning-form.tsx:54-60 | choosing any tier makes the defaults valid |
| PlanningForm.Without | src/components/plan/planning-form.tsx:213 | the filter removes every occurrence of the option and keeps every other value with its multiplicity; a single value is kept iff it differs from the option |
| PlanningForm.WithoutConcat | src/components/plan/planning-form.tsx:213 | the filter distributes over concatenation, so the kept values stay in their order |
| PlanningForm.Toggle | src/components/plan/planning-form.tsx:212-215 | the option's membership flips and no other value's membership changes; an absent option is appended at the end, and a present one is filtered out with the rest kept in order |
| PlanningForm.WithoutAbsent | src/components/plan/planning-form.tsx:213 | filtering out an absent value changes nothing |
| PlanningForm.WithoutAppended | src/components/plan/planning-form.tsx:213-214 | filtering out a value just appended removes it again |
| PlanningForm.ToggleTwice | src/components/plan/planning-form.tsx:212-214 | toggling an absent value twice gives back the original list |
| PlanningForm.TagEntries | src/components/plan/planning-form.tsx:70-75 | one entry per selected value |
| PlanningForm.Texts | src/app/api/generate/route.ts:35-36 | one text value per string, in order |
| PlanningForm.Encoded | src/components/plan/planning-form.tsx:64-79 | four single fields, one entry per tag, and one for the floor plan when there is one |
| PlanningForm.OnSubmit | src/components/plan/planning-form.tsx:63-81 | the appended form data is exactly the encoding of the accepted values |
| PlanningForm.GetAllTagEntries | src/components/plan/planning-form.tsx:70-75 | `getAll` of a tag name gives its values in selection order, and other names see none of them |
| PlanningForm.AbsentName | src/app/api/generate/route.ts:29-38 | a name no entry carries reads back as null and as an empty list |
| PlanningForm.FirstOfName | src/app/api/generate/route.ts:29-37 | `get` returns the first entry of a name |
| PlanningForm.EncodedSplits | src/components/plan/planning-form.tsx:64-79 | the four single fields come first |
| PlanningForm.EncodedSingleFields | src/components/plan/planning-form.tsx:65-68 | area reads back as `String(area)`, needs as '' when undefined, and layout and tier as written |
| PlanningForm.EncodedTagFields | src/components/plan/planning-form.tsx:70-75 | both tag lists read back in selection order |
| PlanningForm.TagFieldOf | src/components/plan/planning-form.tsx:70-79 | `getAll` over the four appended parts is the concatenation of each part's `getAll` |
| PlanningForm.EncodedFloorPlan | src/components/plan/planning-form.tsx:77-79 | the floor plan is present iff one was chosen |
| PlanningForm.TagNames | src/components/plan/planning-form.tsx:70-75 | every tag entry carries the tag's name |
| FormData.Get | src/app/api/generate/route.ts:29-37 | `get` finds a value iff an entry has the name, and returns the first such entry's value |
| FormData.GetAll | src/app/api/generate/route.ts:35-36 | `getAll` returns exactly the values appended under the name |
| FormData.GetAppend | src/components/plan/planning-form.tsx:65-79 | appending does not change an existing first entry |
| FormData.GetAllAppend | src/components/plan/planning-form.tsx:70-75 | appending extends `getAll` by the new value exactly when the name matches |
| FormData.GetConcat | src/app/api/generate/route.ts:29-37 | `get` over two lists prefers the first |
| FormData.GetAllConcat | src/app/api/generate/route.ts:35-36 | `getAll` distributes over concatenation |
| GenerateRoute.ToChineseKeys | src/app/api/generate/route.ts:7-22 | exactly the eight keys, plus '来源' = '用户自定义' iff `isCustom`; the ecosystem joined with ';' and the budget tier under 'budget_level' |
| GenerateRoute.EcosystemRoundTrip | src/app/api/generate/route.ts:14 | splitting the joined ecosystem on ';' recovers a non-empty tag list with no ';' in any tag |
| Strings.SplitJoin | src/app/api/generate/route.ts:14 | split inverts join for a non-empty list of separator-free pieces |
| Strings.JoinSplit | src/app/api/generate/route.ts:14 | join inverts split |
| GenerateRoute.NumberOfField | src/app/api/generate/route.ts:29 | `Number(null)` is 0, and a file is NaN |
| JsNumbers.ParseNumber | src/app/api/generate/route.ts:29 | a blank string is 0, and a negative result comes only from a leading '-' |
| JsNumbers.IntToString | src/components/plan/planning-form.tsx:65 | the numeral is non-empty, starts with '-' iff the number is negative, and is all digits otherwise |
| GenerateRoute.EmptyEcosystemAmbiguous | src/app/api/generate/route.ts:14 | an empty ecosystem and one empty tag serialise alike, and the empty string splits back into one empty tag |
| Strings.Split | src/app/api/generate/route.ts:14 | at least one piece, and none contains the separator |
| Strings.Trim | src/components/result/markdown-renderer.tsx:9 | the input with whitespace removed only before and after the result, whose ends are not whitespace; empty iff the input is all whitespace |
| Strings.TrimUnique | src/components/result/markdown-renderer.tsx:9 | any slice left by cutting whitespace off both ends whose ends are not whitespace is the trimmed string, so Trim is fully determined |
| Strings.ToLower | src/components/result/result-dashboard.tsx:79 | same length, each character lowercased on its own |
| MarkdownRenderer.Blocks | src/components/result/markdown-renderer.tsx:8-28 | at most one element per line |
| MarkdownRenderer.ClassifyTrimmed | src/components/result/markdown-renderer.tsx:12-28 | headings have levels 2 to 4 |
| JsNumbers.NumberOfString | src/app/api/generate/route.ts:29 | `Number(String(n))` is `n` for every integer |
| JsNumbers.NatToStringValue | src/components/plan/planning-form.tsx:65 | the decimal numeral of `n` has value `n` |
| GenerateRoute.DataUri | src/app/api/generate/route.ts:44 | starts with 'data:' and is 13 characters longer than the type and the payload together |
| GenerateRoute.IndexOf | src/app/api/generate/route.ts:44 | the first position of a character, or the length |
| GenerateRoute.ParseDataUri | src/app/api/generate/route.ts:44 | only 'data:' URIs are read |
| GenerateRoute.DataUriRoundTrip | src/app/api/generate/route.ts:44 | the data URI gives back the file's media type and the Base64 payload when the type has no ',' |
| GenerateRoute.FloorPlanFile | src/app/api/generate/route.ts:41 | a floor plan counts iff the first 'floorPlan' entry is a file of at least one byte |
| GenerateRoute.Decoded | src/app/api/generate/route.ts:29-45 | the tag lists come from `getAll`, and the data URI is present iff a non-empty file was posted, carrying its type and Base64 content |
| GenerateRoute.DecodeRequest | src/app/api/generate/route.ts:27-45 | the step-by-step reads produce the decoded request |
| GenerateRoute.EncodedNames | src/components/plan/planning-form.tsx:64-79 | the form writes only its seven field names |
| GenerateRoute.DecodeWrittenFields | src/app/api/generate/route.ts:29-36 | decoding the form's encoding gives back the area, layout, tier, needs and both tag lists in order |
| GenerateRoute.DecodeUnwrittenFields | src/app/api/generate/route.ts:33-38 | 'lightingStyle', 'ecosystem' and 'productsCsv', which the form never writes, arrive as null |
| GenerateRoute.DecodeFloorPlan | src/app/api/generate/route.ts:40-45 | the floor plan arrives as a data URI exactly when a non-empty file was chosen |
| GenerateRoute.CaughtMessage | src/app/api/generate/route.ts:64 | an `Error`'s own message, otherwise the generic one |
| GenerateRoute.Post | src/app/api/generate/route.ts:25-70 | an unreadable body or a failing model call gives status 500 with JSON content type and the caught message; otherwise the model's stream for the decoded request |
| ProposalContext.FailureMessage | src/context/proposal-context.tsx:30-37 | the request fails iff the action throws or returns a truthy `error`; the message is the error's own, the returned string, or 'An unknown error occurred.' |
| ProposalContext.TruthyErrorIsThrow | src/context/proposal-context.tsx:31-33 | a truthy `result.error` ends exactly like throwing an `Error` with that message |
| ProposalContext.Started | src/context/proposal-context.tsx:27-28 | starting sets loading, clears the error and keeps the proposal |
| ProposalContext.Settled | src/context/proposal-context.tsx:29-46 | failure stores the message and stops loading, keeping the old proposal; success stores the returned proposal and leaves loading and error as they were |
| ProposalContext.SettledConsistent | src/context/proposal-context.tsx:26-46 | an error is never shown while loading, in whatever order requests settle |
| ProposalContext.GenerationEnds | src/context/proposal-context.tsx:26-46 | a whole request ends in (new proposal, loading, no error) or (old proposal, not loading, message) |
| ProposalContext.ProposalProvider.constructor | src/context/proposal-context.tsx:20-22 | the state starts with no proposal, not loading, no error |
| ProposalContext.ProposalProvider.Begin | src/context/proposal-context.tsx:27-28 | the fields change as `Started` says |
| ProposalContext.ProposalProvider.Settle | src/context/proposal-context.tsx:29-45 | the fields change as `Settled` says |
| ProposalContext.ProposalProvider.GenerateProposal | src/context/proposal-context.tsx:26-47 | a whole request changes the fields as `Started` then `Settled` say, and keeps them consistent |
| ProposalContext.UseProposal | src/context/proposal-context.tsx:56-62 | the context is returned when present; otherwise the provider error |
| ProposalContext.ResultPageAsWritten | src/app/result/page.tsx:12-24 | the dashboard shows iff not loading and a proposal exists; the page redirects iff neither |
| ProposalContext.SuccessShowsPlaceholder | src/context/proposal-context.tsx:34-46 | after a successful request the result page still shows the empty placeholder |
| ProposalContext.ResultPageView | src/app/result/page.tsx:12-24 | corrected rule: the dashboard shows iff a proposal exists; without one the page redirects once nothing is loading |
| ProposalContext.ResultPageAfterGeneration | src/context/proposal-context.tsx:26-46 | after success the new proposal is shown; after failure the old proposal is shown, or the page redirects when there was none |
| PlaceholderImages.FirstWithId | src/lib/placeholder-images.ts:20 | the first position whose id matches, or the length |
| PlaceholderImages.FindImage | src/lib/placeholder-images.ts:19-21 | always an image: the first entry with the id, or the default when none matches |
| PlaceholderImages.FindImageIsFirstOfFilter | src/lib/placeholder-images.ts:20 | the lookup equals the head of the filtered table, or the default for an empty filter |
| PlaceholderImages.TableDefaultWins | src/lib/placeholder-images.ts:20 | a table entry with id 'default' shadows the constant default image |

## Left out

- Prices, quantities and areas are integers. The IEEE doubles of the source, fractional areas and rounding in `price * quantity` are not modelled.
- JsNumbers.ParseNumber: `Number(s)` is modelled for trimmed, optionally signed decimal integers and the empty string (0). Fractions, exponents, hexadecimal, `Infinity` and `-0` are read as NaN or not distinguished.
- Strings.ToLower: only ASCII letters are lowercased; Unicode case mapping is left out. `IsLivingRoom` is unaffected for the ASCII word 'living' and the exact name '客厅'.
- I18nContext.GetNested: a path step through a string value yields undefined. JavaScript would index the string's characters or the members of `String.prototype`.
- I18nContext.Lookup: a path step past an inherited member (for example 'toString.name') yields undefined. JavaScript reads the built-in function's own properties there.
- I18nContext.Translate: a translation entry that is an object is returned as is, without the string typing of `t`.
- The translation tables, the product catalog and the image table come from data files that are not part of this model. They are parameters.
- The LLM flows, the genkit setup and the prompt templates are left out. The streaming model call is a parameter of `GenerateRoute.Post`. The route imports it from a flow file that does not export it.
- The proposal provider imports `generateProposalAction`, which src/app/actions.ts does not export. The action's outcome is a parameter of `ProposalContext.ProposalProvider.Settle`.
- GenerateRoute.Decoded: reading the file's bytes (`arrayBuffer`) and Base64 encoding are a parameter, and their failures are not modelled. The data-URI round trip is proved only for media types without ','.
- GenerateRoute.Post: the JSON body is modelled as its `error` message, not as `JSON.stringify` text with escaping. Logging is left out.
- `Intl.NumberFormat` output is left out. ResultDashboard.CurrencyFor models only the choice of locale and currency.
- The commented-out Feishu webhook and the `console.log` of leads are left out. Leads are recorded in the `leads` field instead.
- The display order of room groups is not claimed, because JavaScript key order puts integer-like keys first.
- Actions.EnrichProposal: the catch path cannot be reached in the model, because the join over a catalog parameter cannot throw. The `console.warn` for a missing id is left out.
- The router calls (`router.push`, `router.replace`), toasts, React keys, CSS classes and markup are left out.
- ProposalContext.ProposalProvider.GenerateProposal: concurrent requests are modelled only through the separate `Begin` and `Settle` methods. No scheduler is modelled.
- PlanningForm.Validate: issues are kinds, not the (translated) message texts. A floor plan that is not a `File` is not representable. The layout codes of the product flow (uppercase) are not unified with the form's lowercase ones.
- UnlockForm.Validate: issues are kinds, not the translated `t('errors…')` texts.
- src/components/plan/loading-animation.tsx (timers, floating-point progress), the presentational components, the layout, the pages other than the result page's rendering rule, and next.config.ts are left out.
- MarkdownRenderer.Render: the React elements are modelled as `Block` values. Element keys and classes are left out.

## Findings

| source | as written | input that shows it | evidently intended | confidence | as-written member | corrected member |
|---|---|---|---|---|---|---|
| src/components/result/result-dashboard.tsx:28-35 | the grouping reduce starts from a plain `{}`, so for a room named after an `Object.prototype` member `acc[room]` is already truthy, no array is created, and `acc[room].push` throws | one enriched item with room 'constructor' | every room name gets its own array (an object without a prototype, or a `Map`) | not executed; high | ResultDashboard.GroupAsWritten, ResultDashboard.ConstructorRoomThrows | ResultDashboard.GroupByRoom |
| src/context/proposal-context.tsx:34-46 | on success `isLoading` is deliberately left true, and the provider lives in the root layout; the result page shows its empty placeholder whenever `isLoading` is true (src/app/result/page.tsx:18), so after navigating it never shows the proposal | any successful request, from any state | the result page shows the stored proposal once one exists | not executed; medium | ProposalContext.ResultPageAsWritten, ProposalContext.SuccessShowsPlaceholder | ProposalContext.ResultPageView, ProposalContext.ResultPageAfterGeneration |

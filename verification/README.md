# Komorebi OS — a verified model of its scoring, storage and editing core

Komorebi OS is a single-page habit tracker. A configuration holds protocol
sections, each section holds cards, and each card holds checkable items.
Every day the user checks items, and each card turns the checked items into
experience points (XP). A card scores either by `count_multiplier` (its full
`maxXP` when every item is checked, otherwise `perItemXP` per checked item)
or by `sum` (the `xp` of the checked items). Either way the result is capped
at the card's `maxXP`. The day's total is the sum over all cards, and the
summary bar classifies that total as ELITE, STRONG, SURVIVAL or Red Zone.

Around that engine the app keeps the following in browser storage:
- the day records, under `komorebi_day_<date>`;
- the configuration, merged over the built-in defaults at start-up;
- the API key.

A history index of the saved days feeds a 14-day statistics chart. A
settings view exports every `komorebi…` key and imports a JSON object back
key by key. The configuration editor edits the protocol tree, the workout
plan, the knowledge library and the persona in place. A daily panel picks
one library entry per category from a 32-bit string hash of the date. A
search box sends the question, with the library entries that match its
keywords. A reminder hook raises one notification per morning and evening
window.

The Dafny modules follow the program's structure:

| module | file | models |
|---|---|---|
| `Types` | types.dfy | the records of `types.ts` |
| `Defaults` | defaults.dfy | `DEFAULT_CONFIG` and what its numbers imply |
| `Scoring` | scoring.dfy | `calculateCardXP`, `isMaxed`, the day total |
| `Summary` | summary.dfy | the level chain |
| `Objects` | objects.dfy | JavaScript plain objects as property lists |
| `JsonFormat`, `Numbers`, `Codec` | json.dfy, numbers.dfy, codec.dfy | `JSON.stringify`/`JSON.parse` on the app's records, `parseInt` |
| `Store` | store.dfy | `localStorage`, the keys, config and day load, the history scan, import |
| `AppShell` | app.dfy | the `App` component's state and handlers |
| `ConfigEdits`, `Editor` | editing.dfy, editor.dfy | the editor handlers over a configuration whose nested parts are shared |
| `Inspiration` | inspiration.dfy | `seededRandom` and the daily picks |
| `Search` | search.dfy | the keyword context and `handleSearch` |
| `LibraryView` | library.dfy | the library tab and its search |
| `Stats` | stats.dfy | the 14-day chart data and bar colours |
| `Settings` | settings.dfy | export, import and their round trip |
| `Reminders` | reminders.dfy | the hour windows and the notification dedupe |
| `Wrappers`, `Seqs`, `Text` | wrappers.dfy, seqs.dfy, text.dfy | `Option`, `filter`, and string operations |

Imperative code becomes imperative Dafny. `App`, `EditorModal`, `SettingsModal`,
`JaguarSearch` and `ScheduledReminders` are classes whose methods change their
fields. The loops of the source are methods with loop invariants, each proved
equal to a specification function that the lemmas then speak about:
- `CalculateCardXP` and `CalculateTotalXP` compute the card and day XP;
- `ScanHistory` scans the history;
- `WriteAll` writes the import;
- `CollectExport` builds the export;
- `SeededRandom` computes the hash;
- `StatsData` builds the chart data.

The editor's configuration is modelled as the source shares it. `{ ...config }`
copies only the top-level object (`Editor.ConfigRef`). The protocol, workout
and library arrays live in one `Editor.ConfigTree`, and the persona lives in an
`Editor.PersonaBox`, both shared by every copy. So each handler's postcondition
says that the old configuration reference sees the edit too.

Inputs the source takes from the host are parameters of the model:
- the week number, the weekday index, the 14 day keys and the hour, which the source computes with `Date`;
- `Date.now()`;
- the answers to `confirm`;
- whether notification permission is granted and whether creating the notification succeeds;
- the AI answer.

## Model

| member | source | states |
|---|---|---|
| Types.EmptyDay | App.tsx:99-102 | the record of an unsaved day carries the given date, no checked id and an empty note |
| Types.AbsentIsUnchecked | types.ts:57 | an id missing from `checkedItems` is unchecked, and a checked id is always present |
| Objects.Get | App.tsx:181 | reading a property finds a value exactly when the key is present |
| Objects.Put | App.tsx:137 | after `o[k] = v`, `k` reads `v` and every other key reads as before; a new key is appended; distinct keys stay distinct |
| Objects.Delete | App.tsx:136 | after `delete o[k]`, `k` is absent, every other key reads as before and the key set loses exactly `k` |
| Objects.Assign | App.tsx:62 | an object spread reads the last value of every key of the right operand and the left operand's value elsewhere; its key set is the union |
| Scoring.CheckedCount | ProtocolSection.tsx:15 | the number of checked items never exceeds the item count, and equals it exactly when every item is checked |
| Scoring.CardXP | ProtocolSection.tsx:27 | a card's XP never exceeds its `maxXP` and is either the cap or the uncapped mode value |
| Scoring.CalculateCardXP | ProtocolSection.tsx:13-28 | the component's loop (count, bonus, or accumulated `xp \|\| 0` of checked items, then the cap) computes the card XP |
| Scoring.MaxedIffAtCap | ProtocolSection.tsx:42 | a card shows as maxed exactly when its XP equals its `maxXP` |
| Scoring.CountMultiplierComplete | ProtocolSection.tsx:17-18 | a `count_multiplier` card with every item checked (none included) scores its `maxXP` whatever `perItemXP` is |
| Scoring.CountMultiplierPartial | ProtocolSection.tsx:19 | a `count_multiplier` card with an unchecked item and k checked ones scores `min(k * (perItemXP \|\| 0), maxXP)` with k below the item count |
| Scoring.SumMode | ProtocolSection.tsx:20-27 | a `sum` card, or one without a scoring type, scores the capped sum of its checked items' `xp \|\| 0` |
| Scoring.ForeignKeysIgnored | ProtocolSection.tsx:22 | two day records that agree on the card's own item ids give the card the same XP |
| Scoring.CardXPMonotone | ProtocolSection.tsx:15-27 | with non-negative `xp` and `perItemXP`, checking a superset of items never lowers a card's XP |
| Scoring.CardXPNonNegative | ProtocolSection.tsx:15-27 | with non-negative `xp`, `perItemXP` and `maxXP`, a card scores between 0 and its `maxXP` |
| Scoring.CheckOneMore | ProtocolSection.tsx:15-27 | with non-negative `xp` and `perItemXP`, setting one more id to `true` never lowers a card's XP |
| Scoring.TotalXPBound | App.tsx:176-195 | the day total never exceeds the sum of every card's `maxXP` |
| Summary.Classify | Summary.tsx:26-29 | each tier holds exactly when the tests above it fail and its own passes; exactly one tier results |
| Summary.LabelsDistinct | Summary.tsx:26-29 | the four tiers show four different labels |
| Summary.ClassifyMonotone | Summary.tsx:27-29 | with elite ≥ strong ≥ survival, a higher total never shows a lower tier |
| Summary.ClassifyBands | Summary.tsx:28-29 | with ordered thresholds, STRONG, SURVIVAL and Red Zone hold exactly on their half-open bands |
| Summary.MisorderedStrongUnreachable | Summary.tsx:27-29 | when strong is not below elite, the ELITE test wins first and STRONG never shows |
| Defaults.DefaultLevelsOrdered | constants.ts:4 | the default thresholds are 3500, 5000 and 6500, strictly ordered above zero |
| Defaults.DefaultConfigParts | constants.ts:3-128 | the default configuration is maxXP 9000, the Jaguar persona, and the library, week and protocols the other lemmas describe |
| Defaults.DefaultWeek | constants.ts:47-55 | the default plan has seven workouts, Sunday first and Saturday last |
| Defaults.DefaultLibraryShape | constants.ts:12-45 | the default library holds 10 mental models, 7 productivity methods, 4 investors and 5 quotes, so no list is empty |
| Defaults.DefaultCardsBalanced | constants.ts:61-124 | each of the five default cards scores by sum, and its item xp adds up exactly to its `maxXP` |
| Defaults.SectionsBalanced | constants.ts:56-127 | every card of both default sections is balanced; the sections are worth 3000 and 2500 |
| Defaults.FullCards | ProtocolSection.tsx:20-27 | checking every item of balanced cards earns each card its full `maxXP` |
| Defaults.DefaultMaxTotal | constants.ts:64-116 | the default cards are worth 5500 together, below the ELITE threshold |
| Defaults.DefaultNeverElite | constants.ts:56-127 | with the default protocols no set of checked items reaches ELITE |
| Defaults.DefaultFullDay | constants.ts:56-127 | checking every default item earns exactly 5500, which is STRONG |
| Defaults.DefaultIdsUnique | constants.ts:56-127 | no two card ids, no two item ids and no card and item id of the default tree coincide |
| AppShell.Toggle | App.tsx:133-140 | a checked id is removed and any other becomes `true`; its checked state flips; every other key reads as before; distinct keys stay distinct |
| AppShell.ToggleTwice | App.tsx:133-140 | toggling an id twice restores every read of `checkedItems`, unless the id was stored as `false` |
| AppShell.ToggleTwiceDropsFalse | App.tsx:136-137 | an id stored as `false` is deleted after two toggles, so that round trip is not exact |
| AppShell.ToggleOnRaisesXP | App.tsx:137 | checking an unchecked item never lowers a card with non-negative xp |
| AppShell.WorkoutOfDay | App.tsx:201 | the workout at the weekday index when present, otherwise Rest / Recovery |
| AppShell.DefaultWeekHasNoRest | App.tsx:201 | with the default plan every weekday index shows its own workout, never the Rest fallback |
| AppShell.App.constructor | App.tsx:28-35 | the first render holds the defaults, today's empty record, no history and no key, and is not loaded |
| AppShell.App.LoadInitialData | App.tsx:55-89 | a saved configuration that parses is merged over the defaults; otherwise the configuration stays. A saved key is taken. The history is the scan of the store. The app is loaded |
| AppShell.App.LoadDay | App.tsx:92-104 | the day record becomes the stored record for the date, or the empty one; nothing else changes |
| AppShell.App.SetDate | App.tsx:92-104 | changing the date loads that date's record |
| AppShell.App.SaveDay | App.tsx:106-112 | the store gains the record under the day key and the history gains it under the date; nothing else changes |
| AppShell.App.SaveApiKey | App.tsx:114-119 | the key is kept and stored under the key entry |
| AppShell.App.ImportData | App.tsx:121-126 | the import succeeds exactly when the text parses to a value `Object.keys` accepts; then every entry is written over the store, otherwise nothing is |
| AppShell.App.UpdateConfig | App.tsx:128-131 | the new configuration is shown and stored as JSON under the configuration key |
| AppShell.App.ToggleItem | App.tsx:133-140 | only the day's `checkedItems` change, by the toggle |
| AppShell.App.SetNote | App.tsx:266 | only the day's note changes |
| AppShell.App.CalculateTotalXP | App.tsx:176-195 | the nested loops compute the day total, the sum of every card's XP |
| AppShell.App.AddSectionXP | App.tsx:178-193 | the inner loop adds the capped XP of every card of a section |
| AppShell.App.InlineCardXP | App.tsx:180-190 | the inline copy of the card formula, once capped, equals `calculateCardXP` |
| AppShell.App.TodayWorkout | App.tsx:200-201 | the configured workout of a present weekday index |
| Store.Storage.GetItem | App.tsx:57 | `getItem` is `null` exactly when the key is absent, and otherwise the stored text |
| Store.Storage.SetItem | App.tsx:108 | `setItem` replaces one entry and keeps the others |
| Store.Saved | App.tsx:57-58 | a stored text counts only when present and non-empty |
| Store.DayKey | App.tsx:25 | a day key is the day prefix followed by the date |
| Store.DayKeyInjective | App.tsx:25 | different dates never share a day key |
| Store.DayKeyOfSuffix | App.tsx:79-82 | a key with the day prefix is the day key of the date after the prefix |
| Store.SettingsAreNotDays | App.tsx:23-25 | the configuration and API-key entries never look like day records |
| Store.LoadedConfig | App.tsx:57-66 | a missing, empty or unparsable saved configuration leaves the defaults |
| Store.ConfigSaveLoad | App.tsx:128-131 | a configuration saved by the editor is exactly what the next start-up loads |
| Store.LoadedDay | App.tsx:92-104 | a missing record loads as the empty day; anything else is the empty day or a record decoded from the stored JSON |
| Store.DaySaveLoad | App.tsx:106-108 | a saved day record is exactly what loading its date gives back |
| Store.ScanHistory | App.tsx:76-86 | the scan maps the date of every day key whose text parses to the parsed value, and holds nothing else |
| Store.SaveKeepsHistory | App.tsx:106-112 | saving a day keeps the history index equal to the scan of the updated store |
| Store.StoredText | App.tsx:124 | an imported string is stored verbatim; any other value as JSON text that parses back to it |
| Store.ImportEntries | App.tsx:122-125 | `null` makes the import throw; an object yields exactly its keys, each stored as its text |
| Store.ImportWrites | App.tsx:121-126 | text that does not parse writes nothing |
| Store.WriteAll | App.tsx:123-125 | the key-by-key loop leaves the store equal to the old store overridden by every entry |
| Store.ImportStringVerbatim | App.tsx:124 | a string member of an imported object is stored under its key unchanged |
| JsonFormat.ParseRoundTrip | App.tsx:94-97 | whatever `JSON.stringify` prints, `JSON.parse` reads back as the same value, strings with quotes, backslashes and line breaks included |
| JsonFormat.EscapeCharStep | App.tsx:108 | the text written for each character of a string (`\"`, `\\`, `\b \t \n \f \r`, `\u00` and two hex digits, or the character itself) is non-empty, does not start with a quote, and reads back as exactly that character |
| JsonFormat.EscapeNoControl | App.tsx:108 | a printed string literal holds no raw character below U+0020, so a multi-line note is written with `\n` |
| JsonFormat.RawControlRejected | App.tsx:97 | a raw character below U+0020 inside a string literal is a syntax error to `JSON.parse` |
| Numbers.ParseIntRoundTrip | EditorModal.tsx:29 | `parseInt` of a printed integer gives that integer |
| Numbers.ParseIntNoDigits | EditorModal.tsx:29 | text without a digit is not a number to `parseInt`, so `\|\| 0` makes it 0 |
| Codec.MergeConfig | App.tsx:62 | a saved value that is not an object leaves the defaults |
| Codec.MergePersona | App.tsx:62 | a missing persona keeps the default and a saved `null` removes it |
| Codec.MergeFields | App.tsx:62 | each saved top-level key overrides its default and each missing key keeps it |
| Codec.ConfigRoundTrip | App.tsx:62 | merging a stored configuration over any defaults gives that configuration back |
| Codec.DecodeDay | App.tsx:97 | a decoded day record has one entry per item id |
| Codec.CheckedRoundTrip | App.tsx:108 | stored `checkedItems` with distinct keys parse back to themselves |
| Codec.DayRoundTrip | App.tsx:97 | a well-formed day record read back from its JSON is itself |
| ConfigEdits.SpliceStart | EditorModal.tsx:54 | `splice`'s start counts from the end when negative and is clamped to the array |
| ConfigEdits.SpliceOne | EditorModal.tsx:54 | `splice(i, 1)` drops the element at the start position and keeps the others in order; past the end it changes nothing |
| ConfigEdits.SpliceOneMultiset | EditorModal.tsx:54 | removing one element leaves exactly the other elements |
| ConfigEdits.Push | EditorModal.tsx:43-47 | `push` appends one element and keeps the earlier ones |
| ConfigEdits.Unshift | EditorModal.tsx:83-87 | `unshift` puts the element first and shifts the rest by one |
| ConfigEdits.AssignAt | EditorModal.tsx:70 | an index assignment replaces one element, appends at the length, and leaves the rest unchanged |
| ConfigEdits.WithCard | EditorModal.tsx:23 | replacing the card at (section, card) leaves every other section and card unchanged |
| ConfigEdits.SetMaxXP | EditorModal.tsx:29 | only `maxXP` changes, to `parseInt(val) \|\| 0` |
| ConfigEdits.SetItemField | EditorModal.tsx:36-37 | the label is set verbatim or `xp` to `parseInt(val) \|\| 0`; the id and the other field stay |
| ConfigEdits.NewHabit | EditorModal.tsx:43-47 | the new item is "New Habit" worth 100 with a `custom_` id |
| ConfigEdits.SetWorkoutField | EditorModal.tsx:61 | only the named field of the workout changes |
| ConfigEdits.SetLibraryField | EditorModal.tsx:74 | only the named field of the entry changes; `quote` is no field of an entry |
| ConfigEdits.WithEntries | EditorModal.tsx:72 | replacing one category's list leaves the quotes and the other lists unchanged |
| ConfigEdits.NewEntry | EditorModal.tsx:84-87 | investors get Name / Source / Era and the other categories get New Item / Description |
| ConfigEdits.UpdateEntry | EditorModal.tsx:66-78 | quotes are assigned by index unconditionally; another category's entry changes only when present, otherwise nothing does |
| ConfigEdits.AddEntry | EditorModal.tsx:80-90 | the category's default goes first and every other list is unchanged |
| ConfigEdits.RemoveEntry | EditorModal.tsx:92-101 | one element of the category is spliced out and every other list is unchanged |
| ConfigEdits.SetPersonaField | EditorModal.tsx:107 | only the named persona field changes |
| ConfigEdits.WithCardTotal | EditorModal.tsx:21-31 | replacing a card changes the day total by exactly the change in that card's XP |
| ConfigEdits.RetitleKeepsTotal | EditorModal.tsx:21-25 | renaming a card never changes the day's XP |
| Editor.ConfigRef.Copy | EditorModal.tsx:22 | the shallow copy shares the original's nested tree and persona |
| Editor.EditorModal.constructor | EditorModal.tsx:17-18 | the editor opens on the protocols tab with the mental-models category |
| Editor.EditorModal.SetActiveTab | EditorModal.tsx:17 | only the active tab changes |
| Editor.EditorModal.SetLibCategory | EditorModal.tsx:18 | only the selected category changes |
| Editor.EditorModal.UpdateProtocolTitle | EditorModal.tsx:21-25 | an existing card gets the title in the shared tree, seen by old and new configuration; a missing card throws and changes nothing |
| Editor.EditorModal.UpdateProtocolMaxXP | EditorModal.tsx:27-31 | an existing card's `maxXP` becomes `parseInt(val) \|\| 0`, seen by both references; a missing card changes nothing |
| Editor.EditorModal.UpdateProtocolItem | EditorModal.tsx:33-39 | an existing item gets its label or xp, seen by both references; a missing item changes nothing |
| Editor.EditorModal.AddProtocolItem | EditorModal.tsx:41-49 | the card gains the new habit at its end; a missing card changes nothing |
| Editor.EditorModal.RemoveProtocolItem | EditorModal.tsx:51-56 | once confirmed, one item of an existing card is spliced out; declined or missing, nothing changes and no update is issued |
| Editor.EditorModal.UpdateWorkout | EditorModal.tsx:59-63 | an existing workout gets the field; a missing one changes nothing |
| Editor.EditorModal.UpdateLibraryItem | EditorModal.tsx:66-78 | the library becomes the entry update in the selected category, seen by both references |
| Editor.EditorModal.AddLibraryItem | EditorModal.tsx:80-90 | the selected category gains its default first, seen by both references |
| Editor.EditorModal.RemoveLibraryItem | EditorModal.tsx:92-101 | once confirmed, one entry of the selected category is spliced out; declined, nothing changes |
| Editor.EditorModal.UpdatePersona | EditorModal.tsx:104-109 | the new configuration's persona has the field set, the default persona first when none was there; an existing persona is shared and changes for the old reference too, an installed one does not |
| Inspiration.ToInt32 | DailyInspiration.tsx:16 | `\|0` gives the signed 32-bit value congruent to its input modulo 2^32 |
| Inspiration.ToInt32Congruent | DailyInspiration.tsx:15-16 | congruent inputs convert alike |
| Inspiration.ShiftStep | DailyInspiration.tsx:15-16 | `((h << 5) - h) + code`, then `\|0`, is `ToInt32(31 * h + code)` |
| Inspiration.Hash | DailyInspiration.tsx:13-17 | the hash stays a signed 32-bit value |
| Inspiration.HashSnoc | DailyInspiration.tsx:14-17 | one more character is one more step of the recurrence |
| Inspiration.Seed | DailyInspiration.tsx:18 | the seed lies in [0, 2^31], and the empty string gives 0 |
| Inspiration.SeededRandom | DailyInspiration.tsx:12-19 | the shift-and-subtract loop computes the seed of the string |
| Inspiration.PickAt | DailyInspiration.tsx:37-40 | a pick is undefined exactly for an empty list, and otherwise the element at the index modulo the length |
| Inspiration.PickAtPeriodic | DailyInspiration.tsx:26-28 | adding the list length to the index picks the same element |
| Inspiration.Daily | DailyInspiration.tsx:23-41 | each card is present exactly when its list is non-empty, and is then the entry at `seed`, `2 * seed`, `3 * seed` or `weekNum` modulo the list length |
| Inspiration.InvestorOfTheWeek | DailyInspiration.tsx:33-34 | every date of one week shows the same investor |
| Inspiration.InvestorRotation | DailyInspiration.tsx:34 | the investor comes round again after as many weeks as there are investors |
| Text.ToLower | JaguarSearch.tsx:38 | lowercasing keeps the length and maps each character |
| Text.Split | JaguarSearch.tsx:38 | `split` always gives at least one piece |
| Text.SplitJoin | JaguarSearch.tsx:38 | joining the pieces with the separator restores the text |
| Text.SplitNoSeparator | JaguarSearch.tsx:38 | no piece holds the separator |
| Text.TrimBlank | JaguarSearch.tsx:23 | a query trims to nothing exactly when every character is ECMAScript white space (the Unicode space separators included) or a line terminator |
| Text.IncludesEmpty | LibraryModal.tsx:32 | every text includes the empty string |
| Seqs.Filter | LibraryModal.tsx:30 | `filter` keeps exactly the elements satisfying the predicate and never grows (how many copies: `FilterCounts`) |
| Seqs.FilterCounts | LibraryModal.tsx:30 | `filter` keeps every copy of a passing element and no copy of a failing one; with `FilterIsSubsequence` this fixes the result |
| Seqs.FilterIsSubsequence | LibraryModal.tsx:30 | `filter` keeps the survivors in their original order |
| Search.KeywordsSpec | JaguarSearch.tsx:38 | the keywords are exactly the pieces of the lowercased query longer than 3, none holds a space, and there are none exactly when every piece is short |
| Search.RelevantItemsSpec | JaguarSearch.tsx:40-45 | the relevant items are, in order, exactly the items whose lowercased name or description includes a keyword, each as often as in the list |
| Search.RelevantQuotesSpec | JaguarSearch.tsx:46-48 | the relevant quotes are, in order, exactly the quotes whose lowercase includes a keyword, each as often as in the list |
| Search.ContextSpec | JaguarSearch.tsx:38-50 | the context is a subsequence of the models followed by the productivity methods, holds exactly the matching ones with their multiplicities, quotes likewise, and is empty without a keyword |
| Search.QuoteFoundByWord | JaguarSearch.tsx:46-48 | a long query word found in a lowercased quote brings that quote along |
| Search.InvestorsExcluded | JaguarSearch.tsx:50 | an investor that is no model or method is never sent |
| Search.JaguarSearch.constructor | JaguarSearch.tsx:14-19 | the box starts with an empty query, closed, idle, with no answer or error |
| Search.JaguarSearch.SetQuery | JaguarSearch.tsx:14 | only the query changes |
| Search.JaguarSearch.HandleSearch | JaguarSearch.tsx:21-53 | a blank query changes nothing; without a key the notice is shown and nothing is sent; otherwise loading starts, answer and error clear, and the request carries the question, its context and the persona |
| Search.JaguarSearch.ReceiveResponse | JaguarSearch.tsx:54-61 | an answer is shown, a failure shows the connection error, and loading always ends |
| LibraryView.GetData | LibraryModal.tsx:22-28 | each library tab shows its list, quotes as items named "Quote", and a tab that is no library list shows nothing |
| LibraryView.Filtered | LibraryModal.tsx:30-33 | the view is, in order, exactly the tab's items whose name, description or resource includes the lowercased search, each as often as in the tab; an empty search keeps all |
| LibraryView.EmptySearchMatches | LibraryModal.tsx:30-33 | the empty search matches every item |
| LibraryView.QuoteSearchKeepsAll | LibraryModal.tsx:25-32 | on the quotes tab, a search inside "quote" keeps every quote |
| LibraryView.NoMatchEmpty | LibraryModal.tsx:30-33 | a search matching no item empties the view |
| Stats.KeyCount | StatsModal.tsx:33 | `Object.keys(v).length` throws exactly on `undefined` or `null`, and counts an object's distinct keys |
| Stats.Property | StatsModal.tsx:33 | only an object has a `checkedItems` property |
| Stats.DayXP | StatsModal.tsx:22-34 | a missing or falsy record is worth 0; a value is a non-negative multiple of 150; the estimate throws exactly when a truthy record has no countable `checkedItems` |
| Stats.DateLabel | StatsModal.tsx:37 | the label is the key without its first five characters |
| Stats.Clamp | StatsModal.tsx:38 | the bar is the smaller of xp and the maximum |
| Stats.LastDays | StatsModal.tsx:18-21 | fourteen keys, oldest first, ending with today |
| Stats.BarsSpec | StatsModal.tsx:16-41 | the chart throws exactly when some day's estimate does; otherwise each bar is that day's label and clamped estimate |
| Stats.BarsBounded | StatsModal.tsx:38 | no bar exceeds the maximum, and under a non-negative maximum a day without a record shows 0 |
| Stats.BarsNoneExtends | StatsModal.tsx:33 | once one day throws, the whole chart does |
| Stats.DayEstimate | StatsModal.tsx:24-34 | the loop body computes the day's estimate |
| Stats.PushDay | StatsModal.tsx:22-39 | one pass of the loop pushes the day's bar, giving the bars of one more day, or throws exactly when that day's estimate does |
| Stats.StatsData | StatsModal.tsx:15-42 | the countdown loop builds the bars of the fourteen days |
| Stats.ColorOf | StatsModal.tsx:56 | mint exactly above 5000, gold exactly above 2000 up to 5000, slate otherwise |
| Settings.ExportValue | SettingsModal.tsx:25-29 | a stored text is exported parsed when it parses and as the raw string otherwise |
| Settings.ExportMap | SettingsModal.tsx:21-31 | the export holds exactly the stored keys starting with "komorebi", each with its exported value |
| Settings.CollectExport | SettingsModal.tsx:21-31 | the export loop builds an object with distinct keys holding exactly the export |
| Settings.ExportHasSettings | SettingsModal.tsx:24 | a stored configuration or API key is always exported |
| Settings.Reimported | App.tsx:123-125 | importing an export writes exactly the exported keys |
| Settings.ExportImport | SettingsModal.tsx:36-38 | importing an export writes every exported key back |
| Settings.NonJsonRoundTrip | SettingsModal.tsx:28 | a stored value that is not JSON comes back verbatim |
| Settings.JsonSurvivesBackup | SettingsModal.tsx:25-29 | stored JSON text of a non-string value is written back unchanged by importing the export |
| Settings.DaySurvivesBackup | SettingsModal.tsx:21-38 | a day record the app saved comes back unchanged after export and import |
| Settings.ConfigSurvivesBackup | SettingsModal.tsx:21-38 | the saved configuration comes back unchanged after export and import |
| Settings.StringLiteralLosesQuotes | SettingsModal.tsx:26 | a stored JSON string literal comes back without its quotes, so not as stored |
| Settings.OutcomeMessage | SettingsModal.tsx:39-42 | each import outcome shows an alert |
| Settings.SettingsModal.constructor | SettingsModal.tsx:14-15 | the view starts with the saved key and an empty export |
| Settings.SettingsModal.Open | SettingsModal.tsx:17-34 | opening shows the saved key and the export of the store |
| Settings.SettingsModal.SetExportData | SettingsModal.tsx:86 | editing the text area replaces the text to import; the key field stays |
| Settings.SettingsModal.HandleImport | SettingsModal.tsx:36-44 | the import succeeds exactly when the text is readable, writing every entry; otherwise the error path writes nothing |
| Reminders.WindowAt | useScheduledReminders.ts:22-40 | hour 8 is morning, 18 and 19 are evening, and every other hour none |
| Reminders.DedupeKey | useScheduledReminders.ts:27 | the key is the day string followed by an eight-character window suffix |
| Reminders.DedupeKeyInjective | useScheduledReminders.ts:27-36 | different days or windows never share a key |
| Reminders.ScheduledReminders.constructor | useScheduledReminders.ts:7-8 | no reminder, no last key, nothing sent |
| Reminders.ScheduledReminders.TriggerSystemNotification | useScheduledReminders.ts:50-66 | a repeated key, no permission or a failed creation changes nothing; otherwise one notice is sent and its key is the last key |
| Reminders.ScheduledReminders.CheckTime | useScheduledReminders.ts:16-41 | the reminder type is the hour's window, and a notification is raised under the day's window key unless it repeats the last one |
| Reminders.ScheduledReminders.DismissReminder | useScheduledReminders.ts:68 | the reminder type is cleared and nothing else changes |
| Reminders.SameWindowNotifiesOnce | useScheduledReminders.ts:50-61 | two checks in one window of one day raise at most one notification |

## Left out

- Ill-typed saved JSON: where a stored value parses but is not shaped like a configuration field or day record, the model falls back to the default field or the empty day. The source installs the ill-typed value as it is.
- Unknown top-level configuration keys: a saved configuration's extra keys are dropped by the merge. The source keeps them on the object.
- The JSON parser reads only the compact text `JSON.stringify` produces: no white space between tokens and integer numbers only. Other JSON text counts as unparsable. Inside strings it reads every escape `JSON.parse` reads, `\/` and surrogate pairs included, except a `\u` escape of an unpaired surrogate: `JSON.parse` accepts one, the model cannot hold it (a Dafny character is a Unicode scalar value) and counts it as unparsable. For the same reason `JSON.stringify`'s `\u` escaping of unpaired surrogates is not modelled.
- The export is modelled as compact JSON: the two-space pretty printing of `JSON.stringify(data, null, 2)` is left out.
- Stored values are kept in the history index as parsed JSON values, as the source keeps them, not as decoded `DayData`.
- ConfigEdits.AssignAt: assigning a quote past the end of the list leaves holes in JavaScript; the model leaves the list unchanged there.
- The `quote` field of `updateLibraryItem` on a non-quote entry writes an extra property no view reads; the model leaves the entry unchanged.
- `Date` arithmetic: the week number, the weekday index, the fourteen day keys and the hour of the day are inputs.
- `charCodeAt` and `Object.keys` on a string count UTF-16 code units; the model counts each character's scalar value once, which differs only outside the Basic Multilingual Plane. This affects the hash, Store.ImportEntries (a string imported key by key writes one key per character, where the source writes two for a character outside that plane) and Stats.KeyCount (which counts one per character there).
- `toLowerCase` is modelled for ASCII letters only.
- Numbers.ParseInt: reads decimal digits only. Without a radix argument `parseInt` reads a `0x` or `0X` prefix as hexadecimal, so `"0x1A"` gives 26 there and 0 in the model. The result is an unbounded integer, while `parseInt` returns a double that rounds integers beyond 2^53.
- Text.Split: only the single-character separator the search uses is modelled.
- The AI service (`generateJaguarResponse`, `initGemini`) and the `sources` it returns: network calls. The answer is an input of Search.JaguarSearch.ReceiveResponse.
- `alert`, `window.location.reload`, `confirm` (a boolean input), the notification permission request, the icon and `silent` flag, `setInterval` and `console` output: host calls.
- React state scheduling: each handler's state change is applied at once.
- The progress-bar percentage `currentXP / maxXP * 100`: floating-point display.
- The insight modal's `triggerInsight` (App.tsx:143-173) is not modelled: it only forwards a prompt to the AI service; the search box's request is modelled.
- Independent copies of the configuration: the editor handlers copy only the top-level object and mutate the nested arrays it shares, so the old reference sees every edit except a newly installed persona. The model keeps that sharing; it has no configuration copy that edits leave untouched.
- Rendering, modal wrappers, the journal and reminder dialogs: presentation only.

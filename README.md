# Randomness settings components — a Dafny model

Randomness is an IntelliJ plugin that inserts random data: numbers, strings, words, UUIDs. This
project models the parts of its settings user interface that hold state and decide what may
be saved:

- **The activity table** (`ActivityTableModelEditor`). This is a table of data, each row carrying
  an "active" checkbox. It offers `data` and `activeData` views with setters, an activity column,
  and a copy action.
- **The string settings component.** It validates the symbol-set table, detects whether the
  table was modified, and loads and saves a string scheme.
- **The word settings component.** It validates the active dictionaries and the word-length range,
  splits the dictionary list into bundled and user dictionaries when it saves, and adds and removes
  user dictionaries.
- **The older word settings dialog.** Its validation moves the length spinners' bounds to the word
  lengths of the active dictionaries. It saves dictionaries by path and enables its remove button
  only for user dictionaries.

Modules:

- `Wrappers`: `Option`.
- `Shared`: spinners and their checks, the range check, button groups, `firstNonNull`, and validation messages.
- `ActivityTable`: the row list as a value, and the `ActivityTableModelEditor` class.
- `StringSettings`: the `StringSettingsComponent` class.
- `Dictionaries`: dictionaries, word-length measures, the split by kind, and the checkbox list's add and remove operations.
- `WordComponent`: the `WordSettingsComponent` class.
- `WordDialog`: the `WordSettingsDialog` class.

Widgets that change in place are classes with `modifies` clauses. The settings component classes
hold their spinner, button-group and list state in fields. Schemes and settings objects are
values, and `SaveScheme`/`SaveSettings` return the updated value. The user's selection and
highlight, the file the user chose and the dictionary read from it are parameters. Methods state their new state in terms of `old(…)`; the lemmas beside them carry the properties.

## Model

| member | source | states |
|---|---|---|
| ActivityTable.Datums | src/main/kotlin/com/fwdekker/randomness/ui/ActivityTableModelEditor.kt:84 | `data` holds one datum per row, in row order |
| ActivityTable.ActiveDatums | src/main/kotlin/com/fwdekker/randomness/ui/ActivityTableModelEditor.kt:93 | `activeData` has at most one datum per row, and is empty iff no row is ticked; the lemmas below fix its elements |
| ActivityTable.ActiveDatumsOfOneRow | src/main/kotlin/com/fwdekker/randomness/ui/ActivityTableModelEditor.kt:93 | a single row contributes its datum when it is ticked, nothing otherwise |
| ActivityTable.ActiveDatumsAppend | src/main/kotlin/com/fwdekker/randomness/ui/ActivityTableModelEditor.kt:93 | `activeData` of two row lists put together is the `activeData` of each, in order; with the one-row case, one entry per ticked row, duplicates and order kept |
| ActivityTable.ActiveDatumsMembers | src/main/kotlin/com/fwdekker/randomness/ui/ActivityTableModelEditor.kt:93 | a value is in `activeData` iff some ticked row holds it |
| ActivityTable.FreshRows | src/main/kotlin/com/fwdekker/randomness/ui/ActivityTableModelEditor.kt:55-86 | the `data` setter makes one row per element, each in the default state (active) |
| ActivityTable.Reflagged | src/main/kotlin/com/fwdekker/randomness/ui/ActivityTableModelEditor.kt:95 | the `activeData` setter keeps each row's datum and ticks it iff that datum is in the value |
| ActivityTable.Filter | src/main/kotlin/com/fwdekker/randomness/ui/ActivityTableModelEditor.kt:93-95 | the data that the `activeData` setter leaves visible: no longer than the data; the lemmas below fix its elements |
| ActivityTable.FilterOfOne | src/main/kotlin/com/fwdekker/randomness/ui/ActivityTableModelEditor.kt:93-95 | a single element is kept iff it is in the value |
| ActivityTable.FilterAppend | src/main/kotlin/com/fwdekker/randomness/ui/ActivityTableModelEditor.kt:93-95 | filtering two sequences put together filters each, in order; with the one-element case, every occurrence in the value is kept, in order |
| ActivityTable.FilterMembers | src/main/kotlin/com/fwdekker/randomness/ui/ActivityTableModelEditor.kt:93-95 | a value survives filtering iff it is in the data and in the value |
| ActivityTable.Copies | src/main/kotlin/com/fwdekker/randomness/ui/ActivityTableModelEditor.kt:193-195 | one clone per selected row, in selection order |
| ActivityTable.DataRoundTrip | src/main/kotlin/com/fwdekker/randomness/ui/ActivityTableModelEditor.kt:83-87 | setting `data` and reading it back gives the same sequence, duplicates and order kept |
| ActivityTable.FreshRowsAllActive | src/main/kotlin/com/fwdekker/randomness/ui/ActivityTableModelEditor.kt:55-93 | after the `data` setter, `activeData` equals `data` |
| ActivityTable.ActiveIsSubsequence | src/main/kotlin/com/fwdekker/randomness/ui/ActivityTableModelEditor.kt:84-93 | `activeData` is always an order-preserving subsequence of `data` |
| ActivityTable.ReflaggedKeepsData | src/main/kotlin/com/fwdekker/randomness/ui/ActivityTableModelEditor.kt:95 | the `activeData` setter leaves `data` unchanged |
| ActivityTable.ReflaggedActive | src/main/kotlin/com/fwdekker/randomness/ui/ActivityTableModelEditor.kt:93-95 | after the `activeData` setter, `activeData` is `data` filtered by membership in the value |
| ActivityTable.ReflaggedIdempotent | src/main/kotlin/com/fwdekker/randomness/ui/ActivityTableModelEditor.kt:95 | assigning the same `activeData` twice is the same as assigning it once |
| ActivityTable.ReflaggedIgnoresAbsent | src/main/kotlin/com/fwdekker/randomness/ui/ActivityTableModelEditor.kt:95 | elements of the assigned value that are not in the table make no difference |
| ActivityTable.ActivityTableModelEditor.constructor | src/main/kotlin/com/fwdekker/randomness/ui/ActivityTableModelEditor.kt:43-50 | an empty table with the given copy rule and row cloner |
| ActivityTable.ActivityTableModelEditor.SetData | src/main/kotlin/com/fwdekker/randomness/ui/ActivityTableModelEditor.kt:85-87 | the rows become fresh active rows; `data` and `activeData` then both equal the value |
| ActivityTable.ActivityTableModelEditor.ValueAt | src/main/kotlin/com/fwdekker/randomness/ui/ActivityTableModelEditor.kt:66 | the activity column shows exactly the row's flag; a ticked row's datum is in `activeData` |
| ActivityTable.ActivityTableModelEditor.SetValueAt | src/main/kotlin/com/fwdekker/randomness/ui/ActivityTableModelEditor.kt:68-70 | writing the activity column changes only that row's flag |
| ActivityTable.ActivityTableModelEditor.SetActiveData | src/main/kotlin/com/fwdekker/randomness/ui/ActivityTableModelEditor.kt:94-96 | the row-by-row loop ends with exactly the rows whose datum is in the value ticked, `data` unchanged, and `activeData` equal to the old data filtered by the value |
| ActivityTable.ActivityTableModelEditor.CopyEnabled | src/main/kotlin/com/fwdekker/randomness/ui/ActivityTableModelEditor.kt:141 | copying is enabled iff every selected datum is copyable (so an empty selection enables it) |
| ActivityTable.ActivityTableModelEditor.SelectedData | src/main/kotlin/com/fwdekker/randomness/ui/ActivityTableModelEditor.kt:141 | the datums of the selected rows, in selection order |
| ActivityTable.ActivityTableModelEditor.CopySelectedItems | src/main/kotlin/com/fwdekker/randomness/ui/ActivityTableModelEditor.kt:190-198 | appends a clone of every selected row in selection order; existing rows are kept; an empty selection changes nothing |
| Shared.FirstNonNull | src/main/java/com/fwdekker/randomness/word/WordSettingsComponent.java:146-151 | the result is none iff every candidate is none, else it is the first present candidate |
| Shared.ValidateValue | src/main/kotlin/com/fwdekker/randomness/string/StringSettingsComponent.kt:122-123 | a spinner passes its own check iff its value lies within its bounds; below the minimum the error on that spinner advises at least the minimum, above the maximum it advises at most the maximum |
| Shared.ValidateRange | src/main/kotlin/com/fwdekker/randomness/string/StringSettingsComponent.kt:124 | the range check passes iff the minimum does not exceed the maximum; otherwise the error is the inverted-range text on the maximum spinner |
| Shared.ValidateLengths | src/main/kotlin/com/fwdekker/randomness/string/StringSettingsComponent.kt:121-124 | the spinner checks pass iff both spinners are in bounds and ordered; otherwise the first failing check, in order, is reported |
| Shared.SetValue | src/main/kotlin/com/fwdekker/randomness/string/StringSettingsComponent.kt:82-83 | selecting a value that a button carries selects it; any other value leaves no button selected |
| StringSettings.Names | src/main/kotlin/com/fwdekker/randomness/string/StringSettingsComponent.kt:115 | the names of the symbol sets, position by position |
| StringSettings.Distinct | src/main/kotlin/com/fwdekker/randomness/string/StringSettingsComponent.kt:115 | `distinct`: no repeats, nothing added, nothing lost |
| StringSettings.DistinctSizeIff | src/main/kotlin/com/fwdekker/randomness/string/StringSettingsComponent.kt:115 | the distinct names are as many as the sets iff no name repeats, so the size test is a uniqueness test |
| StringSettings.ValidateSymbolSets | src/main/kotlin/com/fwdekker/randomness/string/StringSettingsComponent.kt:111-125 | the rules in order: a missing name, repeated names, a set without symbols, no active set, then the spinner checks |
| StringSettings.SymbolSetMessagesOnlyWhen | src/main/kotlin/com/fwdekker/randomness/string/StringSettingsComponent.kt:111-120 | each symbol-set message appears only when every earlier rule passes and its own rule fails |
| StringSettings.SymbolSetsDiffer | src/main/kotlin/com/fwdekker/randomness/string/StringSettingsComponent.kt:107-108 | the size-or-pairwise comparison is true iff the two lists differ |
| StringSettings.LoadSaveSymbolSets | src/main/kotlin/com/fwdekker/randomness/string/StringSettingsComponent.kt:84-85 | loading a list and an active list, then reading them back, gives the list and the members of the list that were in the active list |
| StringSettings.StringSettingsComponent.constructor | src/main/kotlin/com/fwdekker/randomness/string/StringSettingsComponent.kt:72-76 | spinners start at 1, bounded below by 1 and above by the largest 32-bit integer; no button is selected |
| StringSettings.StringSettingsComponent.SaveScheme | src/main/kotlin/com/fwdekker/randomness/string/StringSettingsComponent.kt:88-95 | the scheme gets the spinner values, the selected buttons or the defaults, and the table's data and active data; its other fields are kept |
| StringSettings.StringSettingsComponent.LoadScheme | src/main/kotlin/com/fwdekker/randomness/string/StringSettingsComponent.kt:79-86 | the widgets show the scheme; saving right after gives back the lengths and the list, and the active sets filtered to the list |
| StringSettings.StringSettingsComponent.IsModified | src/main/kotlin/com/fwdekker/randomness/string/StringSettingsComponent.kt:103-109 | modified iff the table's symbol sets differ from the settings' current list |
| StringSettings.StringSettingsComponent.DoValidate | src/main/kotlin/com/fwdekker/randomness/string/StringSettingsComponent.kt:111-125 | the input passes iff every set has a name and symbols, names are unique, a set is active, and the spinners hold ordered in-bounds values |
| Dictionaries.MaxWordLength | src/main/java/com/fwdekker/randomness/word/WordSettingsComponent.java:215 | the length of some word, and no word is longer |
| Dictionaries.MinWordLength | src/main/java/com/fwdekker/randomness/word/WordSettingsComponent.java:224 | the length of some word, and no word is shorter |
| Dictionaries.CombinedWords | src/main/java/com/fwdekker/randomness/word/WordSettingsComponent.java:213 | every word of every dictionary is included, and nothing else |
| Dictionaries.FilterIsInstance | src/main/java/com/fwdekker/randomness/word/WordSettingsComponent.java:246-248 | the set of the list's dictionaries of the given kind |
| Dictionaries.PathsOfKind | src/main/java/com/fwdekker/randomness/word/WordSettingsDialog.java:133-136 | the set of paths of the list's dictionaries of the given kind |
| Dictionaries.KindsPartition | src/main/java/com/fwdekker/randomness/word/WordSettingsComponent.java:117-122 | the bundled and the user dictionaries together are the whole list, with no overlap |
| Dictionaries.WithEntry | src/main/java/com/fwdekker/randomness/word/WordSettingsComponent.java:186 | adding an entry keeps every existing row with its tick and appends one unticked row for the dictionary; the active data do not change |
| Dictionaries.WithoutEntry | src/main/java/com/fwdekker/randomness/word/WordSettingsComponent.java:200 | removing a dictionary not in the list changes nothing; otherwise the list loses one row |
| Dictionaries.WithoutEntryRemovesOne | src/main/java/com/fwdekker/randomness/word/WordSettingsComponent.java:200 | removal takes exactly one copy of the dictionary out of the data |
| Dictionaries.WithoutEntryKeepsOrder | src/main/java/com/fwdekker/randomness/word/WordSettingsComponent.java:200 | removal keeps the other rows in their order |
| Dictionaries.WithoutEntryRemovesFirst | src/main/java/com/fwdekker/randomness/word/WordSettingsComponent.java:200 | the row removed is the first one holding the dictionary, and the list is the rows before it followed by the rows after it |
| WordComponent.ValidateWordRangeAsWritten | src/main/java/com/fwdekker/randomness/word/WordSettingsComponent.java:212-234 | as written: an error on the minimum spinner iff no word is as long as the minimum, advising at most the longest length; otherwise an error on the maximum spinner iff no word is as short as the maximum, advising at most the shortest length; none iff the range meets the word lengths; any error points at a length spinner, at the minimum one exactly when the minimum exceeds the longest word, for any word list |
| WordComponent.ValidateWordRange | src/main/java/com/fwdekker/randomness/word/WordSettingsComponent.java:212-234 | corrected: the same errors on the same inputs, but the maximum-length message advises at least the shortest length; any error points at a length spinner, at the minimum one exactly when the minimum exceeds the longest word, for any word list |
| WordComponent.WordRangeVersionsDifferInAdviceOnly | src/main/java/com/fwdekker/randomness/word/WordSettingsComponent.java:216-231 | the as-written and the corrected check fail on the same inputs, on the same spinner, with the same numbers; only the direction of the maximum-length advice differs |
| WordComponent.InvalidDictionary | src/main/java/com/fwdekker/randomness/word/WordSettingsComponent.java:139-142 | the message points at the dictionary list and reads "Dictionary ", the dictionary's name, " is invalid: ", then the reason it is invalid |
| WordComponent.FollowingWordRangeAdviceClears | src/main/java/com/fwdekker/randomness/word/WordSettingsComponent.java:216-231 | moving the reported spinner to a value that the corrected message allows clears that spinner's error |
| WordComponent.AsWrittenAdviceAlreadyMet | src/main/java/com/fwdekker/randomness/word/WordSettingsComponent.java:224-230 | as written, the rejected maximum already satisfies the advice in the message that rejects it |
| WordComponent.AsWrittenAdviceExample | src/main/java/com/fwdekker/randomness/word/WordSettingsComponent.java:224-230 | with the word "ab" and both lengths 1, the message advises a maximum "less than or equal to 2", which 1 already meets |
| Shared.RenderShortestWordEndsWithAdvice | src/main/java/com/fwdekker/randomness/word/WordSettingsComponent.java:226-228 | the shortest-word message ends with "Set the maximum length to a value " followed by its advice spelled out |
| WordComponent.WordSettingsComponent.DoValidate | src/main/java/com/fwdekker/randomness/word/WordSettingsComponent.java:128-152 | no active dictionary is an error; otherwise the first invalid active dictionary, in list order, is reported; otherwise the first failing check among word range, minimum, maximum and range |
| WordComponent.WordSettingsComponent.SaveSettings | src/main/java/com/fwdekker/randomness/word/WordSettingsComponent.java:104-124 | lengths saved; a selected button's value is stored, and missing buttons fall back to the defaults; entries and active entries each split exactly into bundled and user sets |
| WordComponent.WordSettingsComponent.AddDictionary | src/main/java/com/fwdekker/randomness/word/WordSettingsComponent.java:160-190 | no file: nothing; an unreadable file: its error in a balloon; an empty dictionary: the "empty" balloon; otherwise the dictionary is appended, unticked, and no balloon is shown; the active entries never change |
| WordComponent.WordSettingsComponent.RemoveDictionary | src/main/java/com/fwdekker/randomness/word/WordSettingsComponent.java:198-203 | a user dictionary is removed from the list; a bundled one is never removed |
| WordDialog.AdjustedBoundsMeetWords | src/main/java/com/fwdekker/randomness/word/WordSettingsDialog.java:159-165 | once the bounds follow the words, passing the spinner checks means some word fits the minimum and some word fits the maximum |
| WordDialog.WordSettingsDialog.constructor | src/main/java/com/fwdekker/randomness/word/WordSettingsDialog.java:76-81 | spinners bounded by 1 and the largest 32-bit integer; an empty list |
| WordDialog.WordSettingsDialog.DoValidate | src/main/java/com/fwdekker/randomness/word/WordSettingsDialog.java:153-171 | no active dictionary is an error with the bounds untouched; otherwise the bounds become the shortest and longest word lengths, and the result passes iff both spinners then hold ordered in-bounds values |
| WordDialog.WordSettingsDialog.RemoveEnabled | src/main/java/com/fwdekker/randomness/word/WordSettingsDialog.java:102-108 | the remove button is enabled iff a dictionary is highlighted and it is not a bundled one |
| WordDialog.WordSettingsDialog.RemoveAction | src/main/java/com/fwdekker/randomness/word/WordSettingsDialog.java:95-107 | the highlighted dictionary is removed exactly when the remove button is enabled, that is, when it is a user dictionary |
| WordDialog.WordSettingsDialog.AddAction | src/main/java/com/fwdekker/randomness/word/WordSettingsDialog.java:84-93 | a chosen file's dictionary is appended, unticked, so the active entries stay as they were; with no file nothing changes |
| WordDialog.WordSettingsDialog.SaveSettings | src/main/java/com/fwdekker/randomness/word/WordSettingsDialog.java:127-149 | lengths and selected buttons saved; each path set holds exactly the paths of the entries, or active entries, of its kind |

## Left out

- Swing and IntelliJ wiring, the preview panel, listeners, toolbar layout, balloons' placement and `addItem`: user-interface plumbing. The user's table selection and list highlight are parameters.
- The file chooser and reading a dictionary file: I/O. The result is a parameter, `Option<Dictionary>`, whose `problem` field holds an `InvalidDictionaryException` message.
- Clearing the bundled and user dictionary caches: has no effect on the modelled state.
- Loading settings in `WordSettingsComponent.loadSettings` and `WordSettingsDialog.loadSettings`: the dictionaries there are rebuilt from paths by code outside this model.
- `CapitalizationMode.getMode`: button values are taken to be capitalization modes directly.
- The size limit that `JSpinnerRange` places on a range: its source is not part of this model. The range check covers only the ordering of the two values.
- Spinner values are taken as whole numbers. `Math.toIntExact` in the dialog cannot fail, because the spinners are bounded by the largest 32-bit integer.
- The `toString` of a dictionary is not part of this model. An invalid dictionary is named by its path.
- The checkbox list's `addEntry` and `removeEntry` are not part of this model. They are modelled as appending an unticked row and removing the first equal row.
- The item editor's `clone` and the `isCopyable` rule are constructor parameters of the table editor.
- `DEFAULT_ENCLOSURE` and `DEFAULT_CAPITALIZATION` are taken as `"` and `Retain`.
- Word lengths of an empty word list are taken as 0. The source's helpers for that case are not part of this model. The case is reachable: the dialog's add action appends a file without checking that it has words, and the component re-reads its files at validation, so a file emptied after it was added also counts as empty.
- Word length is the number of characters of a `string`. Java and Kotlin count UTF-16 code units, so the two differ for characters outside the Basic Multilingual Plane, such as emoji.
- Messages are kept as structured values. `Shared.Render` gives their text, but the `Enter a value …` wording of spinner messages follows the messages expected in StringSettingsComponentTest.kt.
- WordComponent.WordSettingsComponent.DoValidate: calls the corrected word-range check, so its maximum-length message advises "greater than or equal to" where the source says "less than or equal to". Failures, spinners and numbers are the same; `WordComponent.WordRangeVersionsDifferInAdviceOnly` proves this.
- WordComponent.ValidateWordRange: is the corrected version of the check. `WordComponent.ValidateWordRangeAsWritten` models the code as written.
- StringSettings.StringSettingsComponent.SaveScheme: stores the table's data as a list. The scheme keeps its symbol sets in a map keyed by name, so the source keeps one set per name where the model keeps repeated names. The preview saves a scheme without validating it first.
- Shared.SetValue: a button group is modelled by the value of its selected button, so the source's `getValue` is the `selection` field and has no member of its own. When several buttons carry the value, the source selects one of them; the model records the value, not which button.

## Findings

| source | as written | input that shows it | evidently intended | confidence | as-written member | corrected member |
|---|---|---|---|---|---|---|
| src/main/java/com/fwdekker/randomness/word/WordSettingsComponent.java:224-230 | when the maximum length is below the shortest word length, the message says to set the maximum "to a value less than or equal to" that length | one active dictionary with the word "ab", minimum and maximum length 1: the message advises at most 2, which 1 already meets, and the error stays | advise a maximum greater than or equal to the shortest word length; following that advice clears the error | not executed | WordComponent.AsWrittenAdviceExample | WordComponent.FollowingWordRangeAdviceClears |

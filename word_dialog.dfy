/**
 * The older dialog for random-word settings: a list of dictionaries with add and remove
 * buttons, and two length spinners whose bounds follow the active dictionaries.
 */
module WordDialog {
  import opened Wrappers
  import opened Shared
  import opened ActivityTable
  import opened Dictionaries

  /**
   * The part of the word settings that the dialog's `saveSettings` writes; dictionaries by path.
   * The dialog stores the selected buttons as they are, none when no button is selected.
   */
  datatype WordSettings = WordSettings(
    minLength: int,
    maxLength: int,
    enclosure: Option<string>,
    capitalization: Option<CapitalizationMode>,
    bundledDictionaries: set<string>,
    activeBundledDictionaries: set<string>,
    userDictionaries: set<string>,
    activeUserDictionaries: set<string>)

  /**
   * Once the spinner bounds are set from the combined active words, the spinner checks pass
   * only if some word is at least as long as the minimum and some word at most as long as the
   * maximum.
   */
  lemma AdjustedBoundsMeetWords(minLength: Spinner, maxLength: Spinner, words: seq<string>)
    requires words != []
    requires ValidateLengths(minLength.(minValue := MinWordLength(words)), maxLength.(maxValue := MaxWordLength(words))).None?
    ensures exists i | 0 <= i < |words| :: minLength.value <= |words[i]|
    ensures exists i | 0 <= i < |words| :: |words[i]| <= maxLength.value
  {
  }

  class WordSettingsDialog {
    var minLength: Spinner
    var maxLength: Spinner
    var enclosureGroup: ButtonGroup<string>
    var capitalizationGroup: ButtonGroup<CapitalizationMode>
    /** The rows of the dictionary list. */
    var dictionaries: seq<EditableDatum<Dictionary>>

    /** The spinners as `createUIComponents` makes them, the button groups, and an empty list. */
    constructor (enclosures: seq<string>, capitalizations: seq<CapitalizationMode>)
      ensures minLength == Spinner(MinLengthSpinner, 1, 1, IntMax)
      ensures maxLength == Spinner(MaxLengthSpinner, 1, 1, IntMax)
      ensures enclosureGroup == ButtonGroup(enclosures, None)
      ensures capitalizationGroup == ButtonGroup(capitalizations, None)
      ensures dictionaries == []
    {
      minLength := Spinner(MinLengthSpinner, 1, 1, IntMax);
      maxLength := Spinner(MaxLengthSpinner, 1, 1, IntMax);
      enclosureGroup := ButtonGroup(enclosures, None);
      capitalizationGroup := ButtonGroup(capitalizations, None);
      dictionaries := [];
    }

    function Entries(): seq<Dictionary>
      reads this
    {
      Datums(dictionaries)
    }

    function ActiveEntries(): seq<Dictionary>
      reads this
    {
      ActiveDatums(dictionaries)
    }

    /**
     * The validation of the dialog (`doValidate`): at least one active dictionary; then the
     * minimum spinner's lower bound becomes the shortest and the maximum spinner's upper bound
     * the longest word length of the active dictionaries, and the spinners are checked.
     */
    method DoValidate() returns (r: Option<ValidationInfo>)
      modifies this
      ensures dictionaries == old(dictionaries)
      ensures enclosureGroup == old(enclosureGroup) && capitalizationGroup == old(capitalizationGroup)
      ensures ActiveEntries() == [] ==>
        && r == Some(ValidationInfo(Text(NoDictionary), DictionaryPanel))
        && minLength == old(minLength) && maxLength == old(maxLength)
      ensures ActiveEntries() != [] ==>
        var words := CombinedWords(ActiveEntries());
        && minLength == old(minLength).(minValue := MinWordLength(words))
        && maxLength == old(maxLength).(maxValue := MaxWordLength(words))
        && r == ValidateLengths(minLength, maxLength)
      ensures r.None? <==>
        var words := CombinedWords(ActiveEntries());
        && ActiveEntries() != []
        && MinWordLength(words) <= minLength.value <= minLength.maxValue
        && maxLength.minValue <= maxLength.value <= MaxWordLength(words)
        && minLength.value <= maxLength.value
    {
      var active := ActiveEntries();
      if active == [] {
        return Some(ValidationInfo(Text(NoDictionary), DictionaryPanel));
      }
      var words := CombinedWords(active);
      minLength := minLength.(minValue := MinWordLength(words));
      maxLength := maxLength.(maxValue := MaxWordLength(words));
      r := ValidateLengths(minLength, maxLength);
    }

    /**
     * The remove button is enabled exactly when a user dictionary is highlighted: never with
     * nothing highlighted, never for a bundled dictionary.
     */
    function RemoveEnabled(highlighted: Option<Dictionary>): (r: bool)
      ensures highlighted.None? ==> !r
      ensures highlighted.Some? ==> (r <==> highlighted.value.kind != Bundled)
    {
      highlighted.Some? && highlighted.value.kind == User
    }

    /**
     * The remove button's action: removes the highlighted dictionary if it is a user
     * dictionary, exactly when the button is enabled; otherwise nothing changes.
     */
    method RemoveAction(highlighted: Option<Dictionary>)
      modifies this
      ensures dictionaries == if RemoveEnabled(highlighted) then WithoutEntry(old(dictionaries), highlighted.value)
                              else old(dictionaries)
      ensures minLength == old(minLength) && maxLength == old(maxLength)
      ensures enclosureGroup == old(enclosureGroup) && capitalizationGroup == old(capitalizationGroup)
    {
      if highlighted.Some? {
        var dictionary := highlighted.value;
        if dictionary.kind == User {
          dictionaries := WithoutEntry(dictionaries, dictionary);
        }
      }
    }

    /**
     * The add button's action: appends the user dictionary read from the chosen file; with no
     * file chosen nothing changes.
     */
    method AddAction(chosen: Option<Dictionary>)
      requires chosen.Some? ==> chosen.value.kind == User
      modifies this
      ensures dictionaries == if chosen.Some? then WithEntry(old(dictionaries), chosen.value) else old(dictionaries)
      ensures Entries() == old(Entries()) + if chosen.Some? then [chosen.value] else []
      ensures ActiveEntries() == old(ActiveEntries())
      ensures minLength == old(minLength) && maxLength == old(maxLength)
      ensures enclosureGroup == old(enclosureGroup) && capitalizationGroup == old(capitalizationGroup)
    {
      if chosen.Some? {
        dictionaries := WithEntry(dictionaries, chosen.value);
      }
    }

    /**
     * The settings as the dialog's `saveSettings` writes them: the lengths, the selected buttons,
     * and the paths of the entries and of the active entries, each split into bundled and user ones.
     */
    function SaveSettings(): (r: WordSettings)
      reads this
      ensures r.minLength == minLength.value && r.maxLength == maxLength.value
      ensures r.enclosure == enclosureGroup.selection && r.capitalization == capitalizationGroup.selection
      ensures forall p ::
        (p in r.bundledDictionaries <==> exists d | d in Entries() :: d.kind == Bundled && d.path == p)
        && (p in r.userDictionaries <==> exists d | d in Entries() :: d.kind == User && d.path == p)
        && (p in r.activeBundledDictionaries <==> exists d | d in ActiveEntries() :: d.kind == Bundled && d.path == p)
        && (p in r.activeUserDictionaries <==> exists d | d in ActiveEntries() :: d.kind == User && d.path == p)
      ensures r.bundledDictionaries + r.userDictionaries == set d | d in Entries() :: d.path
    {
      WordSettings(
        minLength.value,
        maxLength.value,
        enclosureGroup.selection,
        capitalizationGroup.selection,
        PathsOfKind(Entries(), Bundled),
        PathsOfKind(ActiveEntries(), Bundled),
        PathsOfKind(Entries(), User),
        PathsOfKind(ActiveEntries(), User))
    }
  }
}

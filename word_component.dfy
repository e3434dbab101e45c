/**
 * The settings component for random words: a checkbox list of dictionaries, two length
 * spinners and two button groups; how it validates, saves, and adds and removes dictionaries.
 */
module WordComponent {
  import opened Wrappers
  import opened Shared
  import opened ActivityTable
  import opened Dictionaries

  const EmptyDictionary: string := "The dictionary file is empty."

  /** The part of the word settings that `saveSettings` writes. */
  datatype WordSettings = WordSettings(
    minLength: int,
    maxLength: int,
    enclosure: string,
    capitalization: CapitalizationMode,
    bundledDictionaries: set<Dictionary>,
    activeBundledDictionaries: set<Dictionary>,
    userDictionaries: set<Dictionary>,
    activeUserDictionaries: set<Dictionary>)

  /**
   * The message for an invalid dictionary; the dictionary is named by its path. It points at
   * the dictionary list, names the dictionary and ends with the reason it is invalid.
   */
  function InvalidDictionary(d: Dictionary): (r: ValidationInfo)
    requires d.problem.Some?
    ensures r.component == DictionaryPanel && r.message.Text?
    ensures var t, p := r.message.text, d.problem.value;
      && |t| == |"Dictionary "| + |d.path| + |" is invalid: "| + |p|
      && t[..|"Dictionary "|] == "Dictionary "
      && t[|"Dictionary "|..|"Dictionary "| + |d.path|] == d.path
      && t[|"Dictionary "| + |d.path|..|t| - |p|] == " is invalid: "
      && t[|t| - |p|..] == p
  {
    ValidationInfo(Text("Dictionary " + d.path + " is invalid: " + d.problem.value), DictionaryPanel)
  }

  /**
   * `validateWordRange` as the source writes it: the minimum length against the longest word,
   * then the maximum length against the shortest word. The second message advises a maximum
   * "less than or equal to" the shortest word length.
   */
  function ValidateWordRangeAsWritten(minValue: int, maxValue: int, words: seq<string>): (r: Option<ValidationInfo>)
    ensures words != [] ==>
      (r.Some? && r.value.component == MinLengthSpinner <==> forall i | 0 <= i < |words| :: |words[i]| < minValue)
    ensures words != [] ==>
      (r.Some? && r.value.component == MaxLengthSpinner <==>
         (exists i | 0 <= i < |words| :: minValue <= |words[i]|) && forall i | 0 <= i < |words| :: maxValue < |words[i]|)
    ensures r.None? <==> minValue <= MaxWordLength(words) && MinWordLength(words) <= maxValue
    ensures r.Some? ==> r.value.component == MinLengthSpinner || r.value.component == MaxLengthSpinner
    ensures r.Some? ==> (r.value.component == MinLengthSpinner <==> minValue > MaxWordLength(words))
    ensures r.Some? && r.value.component == MinLengthSpinner ==>
      r.value.message == LongestWord(MaxWordLength(words), AtMost(MaxWordLength(words)))
    ensures r.Some? && r.value.component == MaxLengthSpinner ==>
      r.value.message == ShortestWord(MinWordLength(words), AtMost(MinWordLength(words)))
  {
    var longest := MaxWordLength(words);
    if minValue > longest then
      Some(ValidationInfo(LongestWord(longest, AtMost(longest)), MinLengthSpinner))
    else
      var shortest := MinWordLength(words);
      if maxValue < shortest then
        Some(ValidationInfo(ShortestWord(shortest, AtMost(shortest)), MaxLengthSpinner))
      else None
  }

  /**
   * `validateWordRange` with the maximum-length advice pointing the right way: an error on the
   * minimum spinner exactly when no word is as long as the minimum, else an error on the
   * maximum spinner exactly when no word is as short as the maximum.
   */
  function ValidateWordRange(minValue: int, maxValue: int, words: seq<string>): (r: Option<ValidationInfo>)
    ensures words != [] ==>
      (r.Some? && r.value.component == MinLengthSpinner <==> forall i | 0 <= i < |words| :: |words[i]| < minValue)
    ensures words != [] ==>
      (r.Some? && r.value.component == MaxLengthSpinner <==>
         (exists i | 0 <= i < |words| :: minValue <= |words[i]|) && forall i | 0 <= i < |words| :: maxValue < |words[i]|)
    ensures r.None? <==> minValue <= MaxWordLength(words) && MinWordLength(words) <= maxValue
    ensures r.Some? ==> r.value.component == MinLengthSpinner || r.value.component == MaxLengthSpinner
    ensures r.Some? ==> (r.value.component == MinLengthSpinner <==> minValue > MaxWordLength(words))
    ensures r.Some? && r.value.component == MinLengthSpinner ==>
      r.value.message == LongestWord(MaxWordLength(words), AtMost(MaxWordLength(words)))
    ensures r.Some? && r.value.component == MaxLengthSpinner ==>
      r.value.message == ShortestWord(MinWordLength(words), AtLeast(MinWordLength(words)))
  {
    var longest := MaxWordLength(words);
    if minValue > longest then
      Some(ValidationInfo(LongestWord(longest, AtMost(longest)), MinLengthSpinner))
    else
      var shortest := MinWordLength(words);
      if maxValue < shortest then
        Some(ValidationInfo(ShortestWord(shortest, AtLeast(shortest)), MaxLengthSpinner))
      else None
  }

  /**
   * The advice of the corrected word-range message works: moving the reported spinner to any
   * value the message allows clears that spinner's error.
   */
  lemma FollowingWordRangeAdviceClears(minValue: int, maxValue: int, words: seq<string>, v: int)
    requires ValidateWordRange(minValue, maxValue, words).Some?
    requires Satisfies(v, ValidateWordRange(minValue, maxValue, words).value.message.advice)
    ensures var reported := ValidateWordRange(minValue, maxValue, words).value.component;
      && (reported == MinLengthSpinner ==>
            !(ValidateWordRange(v, maxValue, words).Some? && ValidateWordRange(v, maxValue, words).value.component == MinLengthSpinner))
      && (reported == MaxLengthSpinner ==> ValidateWordRange(minValue, v, words).None?)
  {
  }

  /**
   * As written, the maximum-length advice is already met by the value it rejects, so following
   * it cannot clear the error.
   */
  lemma AsWrittenAdviceAlreadyMet(minValue: int, maxValue: int, words: seq<string>)
    requires ValidateWordRangeAsWritten(minValue, maxValue, words).Some?
    requires ValidateWordRangeAsWritten(minValue, maxValue, words).value.component == MaxLengthSpinner
    ensures Satisfies(maxValue, ValidateWordRangeAsWritten(minValue, maxValue, words).value.message.advice)
  {
  }

  /**
   * With the word "ab" and both lengths at 1, the message advises a maximum of at most 2; the
   * rejected 1 already meets that, so the error stays.
   */
  lemma AsWrittenAdviceExample()
    ensures var r := ValidateWordRangeAsWritten(1, 1, ["ab"]);
      && r == Some(ValidationInfo(ShortestWord(2, AtMost(2)), MaxLengthSpinner))
      && AdviceText(r.value.message.advice) == "less than or equal to 2"
      && Satisfies(1, r.value.message.advice)
  {
    assert MinWordLength(["ab"]) == 2 && MaxWordLength(["ab"]) == 2;
    assert IntToString(2) == NatToString(2) == "2";
  }

  /**
   * The code as written and the corrected version report on the same inputs, on the same
   * spinner, with the same numbers; they differ only in the direction of the maximum-length
   * advice.
   */
  lemma WordRangeVersionsDifferInAdviceOnly(minValue: int, maxValue: int, words: seq<string>)
    ensures var w, c := ValidateWordRangeAsWritten(minValue, maxValue, words), ValidateWordRange(minValue, maxValue, words);
      && (w.None? <==> c.None?)
      && (w.Some? ==> w.value.component == c.value.component)
      && (w.Some? && w.value.component == MinLengthSpinner ==> w == c)
      && (w.Some? && w.value.component == MaxLengthSpinner ==>
            w.value.message.length == c.value.message.length
            && w.value.message.advice == AtMost(c.value.message.advice.limit)
            && c.value.message.advice == AtLeast(c.value.message.advice.limit))
  {
  }

  class WordSettingsComponent {
    var minLength: Spinner
    var maxLength: Spinner
    var enclosureGroup: ButtonGroup<string>
    var capitalizationGroup: ButtonGroup<CapitalizationMode>
    /** The rows of the dictionary checkbox list. */
    var dictionaries: seq<EditableDatum<Dictionary>>

    function Entries(): seq<Dictionary>
      reads this
    {
      Datums(dictionaries)
    }

    function ActiveEntries(): seq<Dictionary>
      reads this
    {
      ActiveDatums(dictionaries)
    }

    /**
     * The validation of the word settings (`doValidate`): at least one active dictionary, then
     * every active dictionary valid (the first invalid one in list order is reported), then the
     * word range and the spinners, in that order.
     */
    method DoValidate() returns (r: Option<ValidationInfo>)
      ensures ActiveEntries() == [] ==> r == Some(ValidationInfo(Text(NoDictionary), DictionaryPanel))
      ensures var active := ActiveEntries();
        active != [] && (exists i | 0 <= i < |active| :: active[i].problem.Some?) ==>
          exists i | 0 <= i < |active| ::
            && active[i].problem.Some?
            && (forall j | 0 <= j < i :: active[j].problem.None?)
            && r == Some(InvalidDictionary(active[i]))
      ensures var active := ActiveEntries();
        active != [] && (forall i | 0 <= i < |active| :: active[i].problem.None?) ==>
          r == FirstNonNull([
            ValidateWordRange(minLength.value, maxLength.value, CombinedWords(active)),
            ValidateValue(minLength),
            ValidateValue(maxLength),
            ValidateRange(minLength, maxLength)])
    {
      var active := ActiveEntries();
      if active == [] {
        return Some(ValidationInfo(Text(NoDictionary), DictionaryPanel));
      }
      var i := 0;
      while i < |active|
        invariant 0 <= i <= |active|
        invariant forall j | 0 <= j < i :: active[j].problem.None?
      {
        if active[i].problem.Some? {
          return Some(InvalidDictionary(active[i]));
        }
        i := i + 1;
      }
      r := FirstNonNull([
        ValidateWordRange(minLength.value, maxLength.value, CombinedWords(active)),
        ValidateValue(minLength),
        ValidateValue(maxLength),
        ValidateRange(minLength, maxLength)]);
    }

    /**
     * The settings as `saveSettings` writes them: the lengths, the selected buttons or their
     * defaults, and the entries and the active entries each split into bundled and user ones.
     */
    function SaveSettings(): (r: WordSettings)
      reads this
      ensures r.minLength == minLength.value && r.maxLength == maxLength.value
      ensures r.enclosure == enclosureGroup.selection.GetOr(DefaultEnclosure)
      ensures enclosureGroup.selection.None? ==> r.enclosure == DefaultEnclosure
      ensures r.capitalization == capitalizationGroup.selection.GetOr(DefaultCapitalization)
      ensures capitalizationGroup.selection.None? ==> r.capitalization == DefaultCapitalization
      ensures r.bundledDictionaries + r.userDictionaries == set d | d in Entries()
      ensures r.bundledDictionaries * r.userDictionaries == {}
      ensures r.activeBundledDictionaries + r.activeUserDictionaries == set d | d in ActiveEntries()
      ensures r.activeBundledDictionaries * r.activeUserDictionaries == {}
      ensures forall d | d in r.bundledDictionaries + r.activeBundledDictionaries :: d.kind == Bundled
      ensures forall d | d in r.userDictionaries + r.activeUserDictionaries :: d.kind == User
    {
      KindsPartition(Entries());
      KindsPartition(ActiveEntries());
      WordSettings(
        minLength.value,
        maxLength.value,
        enclosureGroup.selection.GetOr(DefaultEnclosure),
        capitalizationGroup.selection.GetOr(DefaultCapitalization),
        FilterIsInstance(Entries(), Bundled),
        FilterIsInstance(ActiveEntries(), Bundled),
        FilterIsInstance(Entries(), User),
        FilterIsInstance(ActiveEntries(), User))
    }

    /**
     * Adds the dictionary the user chose (`addDictionary`); `chosen` is none when no file was
     * chosen or it has no canonical path. A dictionary that cannot be read or has no words is
     * not added, and the returned balloon message says why.
     */
    method AddDictionary(chosen: Option<Dictionary>) returns (balloon: Option<string>)
      requires chosen.Some? ==> chosen.value.kind == User
      modifies this
      ensures chosen.None? ==> balloon.None?
      ensures chosen.Some? && chosen.value.problem.Some? ==> balloon == chosen.value.problem
      ensures chosen.Some? && chosen.value.problem.None? && chosen.value.words == [] ==> balloon == Some(EmptyDictionary)
      ensures balloon.None? <==> chosen.None? || dictionaries != old(dictionaries)
      ensures dictionaries == if chosen.Some? && chosen.value.problem.None? && chosen.value.words != []
                              then WithEntry(old(dictionaries), chosen.value) else old(dictionaries)
      ensures ActiveEntries() == old(ActiveEntries())
      ensures minLength == old(minLength) && maxLength == old(maxLength)
      ensures enclosureGroup == old(enclosureGroup) && capitalizationGroup == old(capitalizationGroup)
    {
      if chosen.None? {
        return None;
      }
      var newDictionary := chosen.value;
      if newDictionary.problem.Some? {
        return newDictionary.problem;
      }
      if newDictionary.words == [] {
        return Some(EmptyDictionary);
      }
      dictionaries := WithEntry(dictionaries, newDictionary);
      balloon := None;
    }

    /** Removes the given dictionary from the list if it is a user dictionary (`removeDictionary`). */
    method RemoveDictionary(dictionary: Dictionary)
      modifies this
      ensures dictionaries == if dictionary.kind == User then WithoutEntry(old(dictionaries), dictionary)
                              else old(dictionaries)
      ensures dictionary.kind == Bundled ==> Entries() == old(Entries())
      ensures minLength == old(minLength) && maxLength == old(maxLength)
      ensures enclosureGroup == old(enclosureGroup) && capitalizationGroup == old(capitalizationGroup)
    {
      if dictionary.kind == User {
        dictionaries := WithoutEntry(dictionaries, dictionary);
      }
    }
  }
}

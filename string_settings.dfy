/**
 * The settings component for random strings: its symbol-set table, two length spinners and
 * two button groups; how it validates the table, detects a change, and loads and saves a
 * string scheme.
 */
module StringSettings {
  import opened Wrappers
  import opened Shared
  import opened ActivityTable

  /** A named set of symbols to draw characters from. */
  datatype SymbolSet = SymbolSet(name: string, symbols: string)

  /**
   * The part of a string scheme that the component reads and writes; `myName` and
   * `excludeLookAlikeSymbols` stand for the fields it leaves alone.
   */
  datatype StringScheme = StringScheme(
    myName: string,
    minLength: int,
    maxLength: int,
    enclosure: string,
    capitalization: CapitalizationMode,
    excludeLookAlikeSymbols: bool,
    symbolSetList: seq<SymbolSet>,
    activeSymbolSetList: seq<SymbolSet>)

  const NameMissing: string := "All symbol sets must have a name."
  const NamesNotUnique: string := "Symbol sets must have unique names."
  const SymbolsMissing: string := "Symbol sets must have at least one symbol each."
  const NoneActive: string := "Activate at least one symbol set."

  predicate NoDuplicates<T(==)>(s: seq<T>) {
    forall i, j | 0 <= i < j < |s| :: s[i] != s[j]
  }

  /** The names of the symbol sets, in order. */
  function Names(sets: seq<SymbolSet>): (r: seq<string>)
    ensures |r| == |sets|
    ensures forall i | 0 <= i < |sets| :: r[i] == sets[i].name
  {
    if sets == [] then [] else [sets[0].name] + Names(sets[1..])
  }

  /** The elements of `s` without repeats, each at its first occurrence (Kotlin's `distinct`). */
  function Distinct<T(==)>(s: seq<T>): (r: seq<T>)
    ensures |r| <= |s|
    ensures NoDuplicates(r)
    ensures forall k | 0 <= k < |r| :: r[k] in s
    ensures forall i | 0 <= i < |s| :: s[i] in r
  {
    if s == [] then []
    else
      var front := s[..|s| - 1];
      var t := Distinct(front);
      assert forall i | 0 <= i < |s| - 1 :: s[i] == front[i];
      if s[|s| - 1] in t then t else t + [s[|s| - 1]]
  }

  /** There are as many distinct elements as elements exactly when no element repeats. */
  lemma {:induction false} DistinctSizeIff<T>(s: seq<T>)
    ensures |Distinct(s)| == |s| <==> NoDuplicates(s)
  {
    if s != [] {
      var front, x := s[..|s| - 1], s[|s| - 1];
      DistinctSizeIff(front);
      assert s == front + [x];
      if x in Distinct(front) {
        assert x in front;
        var i :| 0 <= i < |front| && front[i] == x;
        assert s[i] == s[|s| - 1];
      } else {
        assert x !in front;
        if NoDuplicates(front) {
          forall i, j | 0 <= i < j < |s| ensures s[i] != s[j] {
            if j == |s| - 1 {
              assert s[i] == front[i];
            } else {
              assert s[i] == front[i] && s[j] == front[j];
            }
          }
        } else {
          var i, j :| 0 <= i < j < |front| && front[i] == front[j];
          assert s[i] == s[j];
        }
      }
    }
  }

  predicate HasUnnamed(data: seq<SymbolSet>) {
    exists k | 0 <= k < |data| :: data[k].name == ""
  }

  predicate HasDuplicateNames(data: seq<SymbolSet>) {
    !NoDuplicates(Names(data))
  }

  predicate HasEmptySymbols(data: seq<SymbolSet>) {
    exists k | 0 <= k < |data| :: data[k].symbols == ""
  }

  /**
   * The validation of the string settings (`doValidate`): the four symbol-set rules in order,
   * then the spinners.
   */
  function ValidateSymbolSets(rows: seq<EditableDatum<SymbolSet>>, minLength: Spinner, maxLength: Spinner)
    : (r: Option<ValidationInfo>)
    ensures var data := Datums(rows);
      && (HasUnnamed(data) ==>
            r == Some(ValidationInfo(Text(NameMissing), SymbolSetPanel)))
      && (!HasUnnamed(data) && HasDuplicateNames(data) ==>
            r == Some(ValidationInfo(Text(NamesNotUnique), SymbolSetPanel)))
      && (!HasUnnamed(data) && !HasDuplicateNames(data) && HasEmptySymbols(data) ==>
            r == Some(ValidationInfo(Text(SymbolsMissing), SymbolSetPanel)))
      && (!HasUnnamed(data) && !HasDuplicateNames(data) && !HasEmptySymbols(data) ==>
            if forall i | 0 <= i < |rows| :: !rows[i].active
            then r == Some(ValidationInfo(Text(NoneActive), SymbolSetPanel))
            else r == ValidateLengths(minLength, maxLength))
  {
    var data := Datums(rows);
    DistinctSizeIff(Names(data));
    if exists k | 0 <= k < |data| :: data[k].name == "" then
      Some(ValidationInfo(Text(NameMissing), SymbolSetPanel))
    else if |Distinct(Names(data))| != |data| then
      Some(ValidationInfo(Text(NamesNotUnique), SymbolSetPanel))
    else if exists k | 0 <= k < |data| :: data[k].symbols == "" then
      Some(ValidationInfo(Text(SymbolsMissing), SymbolSetPanel))
    else if ActiveDatums(rows) == [] then
      Some(ValidationInfo(Text(NoneActive), SymbolSetPanel))
    else
      ValidateLengths(minLength, maxLength)
  }

  /** Each symbol-set message is reported only when the rules before it pass and its own fails. */
  lemma SymbolSetMessagesOnlyWhen(rows: seq<EditableDatum<SymbolSet>>, minLength: Spinner, maxLength: Spinner)
    ensures var data, r := Datums(rows), ValidateSymbolSets(rows, minLength, maxLength);
      && (r == Some(ValidationInfo(Text(NameMissing), SymbolSetPanel)) ==> HasUnnamed(data))
      && (r == Some(ValidationInfo(Text(NamesNotUnique), SymbolSetPanel)) ==>
            !HasUnnamed(data) && HasDuplicateNames(data))
      && (r == Some(ValidationInfo(Text(SymbolsMissing), SymbolSetPanel)) ==>
            !HasUnnamed(data) && !HasDuplicateNames(data) && HasEmptySymbols(data))
      && (r == Some(ValidationInfo(Text(NoneActive), SymbolSetPanel)) ==>
            !HasUnnamed(data) && !HasDuplicateNames(data) && !HasEmptySymbols(data) && ActiveDatums(rows) == [])
  {
    var data := Datums(rows);
    if !HasUnnamed(data) && !HasDuplicateNames(data) && !HasEmptySymbols(data) && ActiveDatums(rows) != [] {
      var r := ValidateLengths(minLength, maxLength);
      assert |RangeInverted| != |NameMissing| && |RangeInverted| != |NamesNotUnique| && |RangeInverted| != |SymbolsMissing| && |RangeInverted| != |NoneActive|;
      assert r.Some? && r.value.message.Text? ==> r.value.message.text == RangeInverted;
    }
  }

  /**
   * Whether the table's symbol sets differ from the settings' (`isModified`): a different
   * count, or a different set at some position.
   */
  function SymbolSetsDiffer(table: seq<SymbolSet>, settings: seq<SymbolSet>): (r: bool)
    ensures r <==> table != settings
  {
    |table| != |settings| || exists i | 0 <= i < |table| && i < |settings| :: table[i] != settings[i]
  }

  /** Loading a list and an active list into the table and reading both back. */
  lemma {:induction false} LoadSaveSymbolSets(list: seq<SymbolSet>, active: seq<SymbolSet>)
    ensures Datums(Reflagged(FreshRows(list), active)) == list
    ensures ActiveDatums(Reflagged(FreshRows(list), active)) == Filter(list, active)
  {
    ReflaggedKeepsData(FreshRows(list), active);
    ReflaggedActive(FreshRows(list), active);
    DataRoundTrip(list);
  }

  class StringSettingsComponent {
    var minLength: Spinner
    var maxLength: Spinner
    var enclosureGroup: ButtonGroup<string>
    var capitalizationGroup: ButtonGroup<CapitalizationMode>
    const symbolSetTable: ActivityTableModelEditor<SymbolSet>

    /** The components as the scene builder creates them, before any scheme is loaded. */
    constructor (symbolSetTable: ActivityTableModelEditor<SymbolSet>, enclosures: seq<string>,
                 capitalizations: seq<CapitalizationMode>)
      ensures this.symbolSetTable == symbolSetTable
      ensures minLength == Spinner(MinLengthSpinner, 1, 1, IntMax)
      ensures maxLength == Spinner(MaxLengthSpinner, 1, 1, IntMax)
      ensures enclosureGroup == ButtonGroup(enclosures, None)
      ensures capitalizationGroup == ButtonGroup(capitalizations, None)
    {
      this.symbolSetTable := symbolSetTable;
      minLength := Spinner(MinLengthSpinner, 1, 1, IntMax);
      maxLength := Spinner(MaxLengthSpinner, 1, 1, IntMax);
      enclosureGroup := ButtonGroup(enclosures, None);
      capitalizationGroup := ButtonGroup(capitalizations, None);
    }

    /** Writes the component's values into `scheme` (`saveScheme`). */
    function SaveScheme(scheme: StringScheme): (r: StringScheme)
      reads this, symbolSetTable
      ensures r.symbolSetList == symbolSetTable.Data() && r.activeSymbolSetList == symbolSetTable.ActiveData()
      ensures r.minLength == minLength.value && r.maxLength == maxLength.value
      ensures r.enclosure == if enclosureGroup.selection.Some? then enclosureGroup.selection.value else DefaultEnclosure
      ensures r.capitalization == capitalizationGroup.selection.GetOr(DefaultCapitalization)
      ensures r.myName == scheme.myName && r.excludeLookAlikeSymbols == scheme.excludeLookAlikeSymbols
    {
      scheme.(
        minLength := minLength.value,
        maxLength := maxLength.value,
        enclosure := enclosureGroup.selection.GetOr(DefaultEnclosure),
        capitalization := capitalizationGroup.selection.GetOr(DefaultCapitalization),
        symbolSetList := symbolSetTable.Data(),
        activeSymbolSetList := symbolSetTable.ActiveData())
    }

    /**
     * Shows `scheme` in the component (`loadScheme`). Saving right afterwards gives back the
     * lengths and the symbol-set list, and as active list the sets of that list that the
     * scheme had active.
     */
    method LoadScheme(scheme: StringScheme)
      modifies this, symbolSetTable
      ensures minLength == old(minLength).(value := scheme.minLength)
      ensures maxLength == old(maxLength).(value := scheme.maxLength)
      ensures enclosureGroup == SetValue(old(enclosureGroup), scheme.enclosure)
      ensures capitalizationGroup == SetValue(old(capitalizationGroup), scheme.capitalization)
      ensures symbolSetTable.rows == Reflagged(FreshRows(scheme.symbolSetList), scheme.activeSymbolSetList)
      ensures var saved := SaveScheme(scheme);
        && saved.minLength == scheme.minLength && saved.maxLength == scheme.maxLength
        && saved.symbolSetList == scheme.symbolSetList
        && saved.activeSymbolSetList == Filter(scheme.symbolSetList, scheme.activeSymbolSetList)
        && saved.enclosure == (if scheme.enclosure in enclosureGroup.commands then scheme.enclosure else DefaultEnclosure)
        && saved.capitalization == (if scheme.capitalization in capitalizationGroup.commands
                                    then scheme.capitalization else DefaultCapitalization)
    {
      minLength := minLength.(value := scheme.minLength);
      maxLength := maxLength.(value := scheme.maxLength);
      enclosureGroup := SetValue(enclosureGroup, scheme.enclosure);
      capitalizationGroup := SetValue(capitalizationGroup, scheme.capitalization);
      symbolSetTable.SetData(scheme.symbolSetList);
      symbolSetTable.SetActiveData(scheme.activeSymbolSetList);
      LoadSaveSymbolSets(scheme.symbolSetList, scheme.activeSymbolSetList);
    }

    /**
     * Whether the table's symbol sets differ from those in the settings' current scheme: right
     * after a load, only when the table's list differs from the loaded one.
     */
    function IsModified(settingsSymbolSets: seq<SymbolSet>): (r: bool)
      reads this, symbolSetTable
      ensures r <==> symbolSetTable.Data() != settingsSymbolSets
    {
      SymbolSetsDiffer(symbolSetTable.Data(), settingsSymbolSets)
    }

    /**
     * The first problem with the component's input, if any: the input passes exactly when every
     * symbol set has a name and symbols, the names are unique, a set is active, and the spinners
     * hold an ordered pair of in-bounds values.
     */
    function DoValidate(): (r: Option<ValidationInfo>)
      reads this, symbolSetTable
      ensures var data := symbolSetTable.Data();
        r.None? <==>
          && !HasUnnamed(data) && !HasDuplicateNames(data) && !HasEmptySymbols(data)
          && symbolSetTable.ActiveData() != []
          && InBounds(minLength) && InBounds(maxLength) && minLength.value <= maxLength.value
    {
      ValidateSymbolSets(symbolSetTable.rows, minLength, maxLength)
    }
  }
}

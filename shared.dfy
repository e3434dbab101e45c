/**
 * The widgets and helpers that the settings components lean on: number spinners and the range
 * check between two of them, button groups, the validation message a component reports, and
 * `firstNonNull`. Their own source is not part of this model; each is modelled after the
 * behaviour that its callers and its tests rely on.
 */
module Shared {
  import opened Wrappers

  /** The largest value of a 32-bit signed integer, the default upper bound of a spinner. */
  const IntMax: int := 0x7fff_ffff

  /** The widget a validation message points at. */
  datatype Component = SymbolSetPanel | DictionaryPanel | MinLengthSpinner | MaxLengthSpinner

  /** A limit that a message asks the user to respect. */
  datatype Bound = AtMost(limit: int) | AtLeast(limit: int)

  predicate Satisfies(v: int, b: Bound) {
    match b
    case AtMost(n) => v <= n
    case AtLeast(n) => n <= v
  }

  /**
   * What a validation message says. Fixed messages keep their text; the messages that embed
   * numbers keep the numbers, and `Render` spells them out.
   */
  datatype Message =
    | Text(text: string)
    | LongestWord(length: int, advice: Bound)
    | ShortestWord(length: int, advice: Bound)
    | OutOfRange(advice: Bound)

  /** A message together with the widget it is about (IntelliJ's `ValidationInfo`). */
  datatype ValidationInfo = ValidationInfo(message: Message, component: Component)

  function NatToString(n: nat): string {
    if n < 10 then ["0123456789"[n]] else NatToString(n / 10) + ["0123456789"[n % 10]]
  }

  function IntToString(n: int): string {
    if n < 0 then "-" + NatToString(-n) else NatToString(n)
  }

  function AdviceText(b: Bound): string {
    match b
    case AtMost(n) => "less than or equal to " + IntToString(n)
    case AtLeast(n) => "greater than or equal to " + IntToString(n)
  }

  /** The text the user sees. */
  function Render(m: Message): string {
    match m
    case Text(t) => t
    case LongestWord(n, b) =>
      "The longest word in the selected dictionaries is " + IntToString(n) + " characters. "
      + "Set the minimum length to a value " + AdviceText(b) + "."
    case ShortestWord(n, b) =>
      "The shortest word in the selected dictionaries is " + IntToString(n) + " characters. "
      + "Set the maximum length to a value " + AdviceText(b) + "."
    case OutOfRange(b) => "Enter a value " + AdviceText(b) + "."
  }

  /** The text of a shortest-word message ends with its advice, spelled out. */
  lemma RenderShortestWordEndsWithAdvice(n: int, b: Bound)
    ensures var t, tail := Render(ShortestWord(n, b)), "Set the maximum length to a value " + AdviceText(b) + ".";
      |tail| <= |t| && t[|t| - |tail|..] == tail
  {
    var head := "The shortest word in the selected dictionaries is " + IntToString(n) + " characters. ";
    var tail := "Set the maximum length to a value " + AdviceText(b) + ".";
    assert Render(ShortestWord(n, b)) == head + tail;
  }

  /** The first present value of `xs`, or none (`JavaHelperKt.firstNonNull`, and the `?:` chain). */
  function FirstNonNull<V>(xs: seq<Option<V>>): (r: Option<V>)
    ensures r.None? <==> forall i | 0 <= i < |xs| :: xs[i].None?
    ensures r.Some? ==> exists i | 0 <= i < |xs| :: xs[i] == r && forall j | 0 <= j < i :: xs[j].None?
  {
    if xs == [] then None
    else if xs[0].Some? then xs[0]
    else
      var r := FirstNonNull(xs[1..]);
      assert r.Some? ==> exists i | 0 <= i < |xs[1..]| :: xs[1..][i] == r && forall j | 0 <= j < i :: xs[1..][j].None?;
      r
  }

  /** A number spinner: the value the user typed and the bounds it must lie in. */
  datatype Spinner = Spinner(component: Component, value: int, minValue: int, maxValue: int)

  predicate InBounds(s: Spinner) {
    s.minValue <= s.value <= s.maxValue
  }

  /** A spinner's own check (`validateValue`): below its minimum, then above its maximum. */
  function ValidateValue(s: Spinner): (r: Option<ValidationInfo>)
    ensures r.None? <==> InBounds(s)
    ensures r.Some? ==> r.value.component == s.component
    ensures s.value < s.minValue ==> r == Some(ValidationInfo(OutOfRange(AtLeast(s.minValue)), s.component))
    ensures s.minValue <= s.value && s.value > s.maxValue ==>
      r == Some(ValidationInfo(OutOfRange(AtMost(s.maxValue)), s.component))
  {
    if s.value < s.minValue then Some(ValidationInfo(OutOfRange(AtLeast(s.minValue)), s.component))
    else if s.value > s.maxValue then Some(ValidationInfo(OutOfRange(AtMost(s.maxValue)), s.component))
    else None
  }

  const RangeInverted: string := "The maximum length should not be smaller than the minimum length."

  /** The check of a minimum/maximum spinner pair (`JSpinnerRange`), reported on the maximum. */
  function ValidateRange(min: Spinner, max: Spinner): (r: Option<ValidationInfo>)
    ensures r.None? <==> min.value <= max.value
    ensures r.Some? ==> r.value == ValidationInfo(Text(RangeInverted), max.component)
  {
    if min.value > max.value then Some(ValidationInfo(Text(RangeInverted), max.component)) else None
  }

  /**
   * The spinner checks every settings component ends with: the minimum spinner, the maximum
   * spinner, then the range between them; the first that fails is reported.
   */
  function ValidateLengths(min: Spinner, max: Spinner): (r: Option<ValidationInfo>)
    ensures r.None? <==> InBounds(min) && InBounds(max) && min.value <= max.value
    ensures !InBounds(min) ==> r == ValidateValue(min)
    ensures InBounds(min) && !InBounds(max) ==> r == ValidateValue(max)
    ensures InBounds(min) && InBounds(max) && min.value > max.value ==> r == ValidateRange(min, max)
    ensures r.Some? && r.value.message.Text? ==> r.value.message.text == RangeInverted
  {
    var checks := [ValidateValue(min), ValidateValue(max), ValidateRange(min, max)];
    assert checks[0] == ValidateValue(min) && checks[1] == ValidateValue(max) && checks[2] == ValidateRange(min, max);
    FirstNonNull(checks)
  }

  /**
   * A group of radio buttons, each carrying a value (its action command); at most one is
   * selected. The group is modelled by the values of its buttons and the value of the selected
   * button, so `selection` is what `ButtonGroup.getValue` returns.
   */
  datatype ButtonGroup<V> = ButtonGroup(commands: seq<V>, selection: Option<V>)

  /**
   * Selects the button with the given value; when no button has it, no button stays selected
   * (`ButtonGroup.setValue`).
   */
  function SetValue<V(==)>(g: ButtonGroup<V>, v: V): (r: ButtonGroup<V>)
    ensures r.commands == g.commands
    ensures r.selection == Some(v) <==> v in g.commands
    ensures r.selection.None? <==> v !in g.commands
  {
    g.(selection := if v in g.commands then Some(v) else None)
  }

  /** How generated text is capitalised. */
  datatype CapitalizationMode = Retain | Sentence | Upper | Lower | FirstLetter | Random

  /** The enclosure stored when no enclosure button is selected. */
  const DefaultEnclosure: string := "\""

  /** The capitalization stored when no capitalization button is selected. */
  const DefaultCapitalization: CapitalizationMode := Retain

  /** The error of the word settings when no dictionary is active. */
  const NoDictionary: string := "Select at least one dictionary."
}

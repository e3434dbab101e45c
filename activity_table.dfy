/**
 * The activity table: an ordered list of rows, each a datum with a checkbox saying whether the
 * datum is active. Symbol sets are edited in such a table.
 *
 * The row list is `seq<EditableDatum<T>>`; the functions below are the pure projections and
 * updates of that list, and `ActivityTableModelEditor` is the object whose methods replace it.
 */
module ActivityTable {

  /** A row: a datum and whether its checkbox is ticked. */
  datatype EditableDatum<T> = EditableDatum(active: bool, datum: T)

  /** Whether newly added data are active. */
  const DefaultState: bool := true

  /** The datums of all rows, in row order (the `data` getter). */
  function Datums<T>(rows: seq<EditableDatum<T>>): (r: seq<T>)
    ensures |r| == |rows|
    ensures forall i | 0 <= i < |rows| :: r[i] == rows[i].datum
  {
    if rows == [] then [] else [rows[0].datum] + Datums(rows[1..])
  }

  /** The datums of the active rows, in row order (the `activeData` getter). */
  function ActiveDatums<T(==)>(rows: seq<EditableDatum<T>>): (r: seq<T>)
    ensures |r| <= |rows|
    ensures r == [] <==> forall i | 0 <= i < |rows| :: !rows[i].active
  {
    if rows == [] then []
    else
      var rest := ActiveDatums(rows[1..]);
      assert forall i | 1 <= i < |rows| :: rows[i] == rows[1..][i - 1];
      if rows[0].active then [rows[0].datum] + rest else rest
  }

  /** One fresh row per element, each in the default state (the `data` setter). */
  function FreshRows<T>(value: seq<T>): (r: seq<EditableDatum<T>>)
    ensures |r| == |value|
    ensures forall i | 0 <= i < |value| :: r[i] == EditableDatum(DefaultState, value[i])
  {
    if value == [] then [] else [EditableDatum(DefaultState, value[0])] + FreshRows(value[1..])
  }

  /** The rows with every flag set to whether the row's datum is in `value` (the `activeData` setter). */
  function Reflagged<T(==)>(rows: seq<EditableDatum<T>>, value: seq<T>): (r: seq<EditableDatum<T>>)
    ensures |r| == |rows|
    ensures forall i | 0 <= i < |rows| :: r[i] == EditableDatum(rows[i].datum in value, rows[i].datum)
  {
    if rows == [] then []
    else [EditableDatum(rows[0].datum in value, rows[0].datum)] + Reflagged(rows[1..], value)
  }

  /** The elements of `s` that are in `value`, in the order of `s`. */
  function Filter<T(==)>(s: seq<T>, value: seq<T>): (r: seq<T>)
    ensures |r| <= |s|
  {
    if s == [] then []
    else
      var rest := Filter(s[1..], value);
      assert forall i | 1 <= i < |s| :: s[i] == s[1..][i - 1];
      if s[0] in value then [s[0]] + rest else rest
  }

  /** `a` is `b` with some elements left out, the rest in their order. */
  predicate IsSubsequence<T(==)>(a: seq<T>, b: seq<T>)
    decreases |b|
  {
    if a == [] then true
    else if b == [] then false
    else (a[0] == b[0] && IsSubsequence(a[1..], b[1..])) || IsSubsequence(a, b[1..])
  }

  /** Every sequence is a subsequence of itself. */
  lemma {:induction false} SelfIsSubsequence<T>(s: seq<T>)
    ensures IsSubsequence(s, s)
  {
    if s != [] {
      SelfIsSubsequence(s[1..]);
    }
  }

  /** The rows that `selection` picks, each passed through `clone`, in selection order. */
  function Copies<T>(rows: seq<EditableDatum<T>>, selection: seq<nat>, clone: EditableDatum<T> -> EditableDatum<T>)
    : (r: seq<EditableDatum<T>>)
    requires forall k | 0 <= k < |selection| :: selection[k] < |rows|
    ensures |r| == |selection|
    ensures forall k | 0 <= k < |selection| :: r[k] == clone(rows[selection[k]])
  {
    if selection == [] then []
    else [clone(rows[selection[0]])] + Copies(rows, selection[1..], clone)
  }

  /** Setting `data` and reading it back gives the same elements in the same order, duplicates kept. */
  lemma {:induction false} DataRoundTrip<T>(value: seq<T>)
    ensures Datums(FreshRows(value)) == value
  {
    var rows := FreshRows(value);
    assert |Datums(rows)| == |value|;
    forall i | 0 <= i < |value| ensures Datums(rows)[i] == value[i] {
      assert rows[i] == EditableDatum(DefaultState, value[i]);
    }
  }

  /** Every row that the `data` setter creates is active, so `activeData` then equals `data`. */
  lemma {:induction false} FreshRowsAllActive<T>(value: seq<T>)
    ensures ActiveDatums(FreshRows(value)) == value
  {
    if value != [] {
      FreshRowsAllActive(value[1..]);
      assert FreshRows(value)[1..] == FreshRows(value[1..]);
    }
  }

  /** `activeData` is always a subsequence of `data`. */
  lemma {:induction false} ActiveIsSubsequence<T>(rows: seq<EditableDatum<T>>)
    ensures IsSubsequence(ActiveDatums(rows), Datums(rows))
  {
    if rows != [] {
      ActiveIsSubsequence(rows[1..]);
      assert Datums(rows)[1..] == Datums(rows[1..]);
      if rows[0].active {
        assert ActiveDatums(rows)[1..] == ActiveDatums(rows[1..]);
      }
    }
  }

  /** The `activeData` setter keeps the rows' count and datums. */
  lemma {:induction false} ReflaggedKeepsData<T>(rows: seq<EditableDatum<T>>, value: seq<T>)
    ensures Datums(Reflagged(rows, value)) == Datums(rows)
  {
    if rows != [] {
      ReflaggedKeepsData(rows[1..], value);
      assert Reflagged(rows, value)[1..] == Reflagged(rows[1..], value);
    }
  }

  /** After `activeData := value`, `activeData` is `data` filtered by membership in `value`. */
  lemma {:induction false} ReflaggedActive<T>(rows: seq<EditableDatum<T>>, value: seq<T>)
    ensures ActiveDatums(Reflagged(rows, value)) == Filter(Datums(rows), value)
  {
    if rows != [] {
      ReflaggedActive(rows[1..], value);
      assert Reflagged(rows, value)[1..] == Reflagged(rows[1..], value);
      assert Datums(rows)[1..] == Datums(rows[1..]);
    }
  }

  /** `activeData` of a single row: its datum when it is ticked, nothing otherwise. */
  lemma ActiveDatumsOfOneRow<T>(x: EditableDatum<T>)
    ensures ActiveDatums([x]) == if x.active then [x.datum] else []
  {
    assert [x][1..] == [];
  }

  /**
   * `activeData` of two row lists put together is the `activeData` of each, in order; with
   * `ActiveDatumsOfOneRow` this fixes every element of `activeData`, duplicates and order included.
   */
  lemma {:induction false} ActiveDatumsAppend<T>(a: seq<EditableDatum<T>>, b: seq<EditableDatum<T>>)
    ensures ActiveDatums(a + b) == ActiveDatums(a) + ActiveDatums(b)
  {
    if a == [] {
      assert a + b == b;
    } else {
      var ab := a + b;
      assert ab[0] == a[0] && ab[1..] == a[1..] + b;
      ActiveDatumsAppend(a[1..], b);
      var head := ActiveDatums([a[0]]);
      var rest, tail := ActiveDatums(a[1..]), ActiveDatums(b);
      ActiveDatumsCons(ab);
      ActiveDatumsCons(a);
      assert head + (rest + tail) == (head + rest) + tail;
    }
  }

  /** The active datums of a non-empty list: those of its first row, then those of the rest. */
  lemma {:induction false} ActiveDatumsCons<T>(rows: seq<EditableDatum<T>>)
    requires rows != []
    ensures ActiveDatums(rows) == ActiveDatums([rows[0]]) + ActiveDatums(rows[1..])
  {
    ActiveDatumsOfOneRow(rows[0]);
    var rest := ActiveDatums(rows[1..]);
    if !rows[0].active {
      assert [] + rest == rest;
    }
  }

  /** A value is in `activeData` exactly when some ticked row holds it. */
  lemma {:induction false} ActiveDatumsMembers<T>(rows: seq<EditableDatum<T>>)
    ensures forall x :: x in ActiveDatums(rows) <==> exists i | 0 <= i < |rows| :: rows[i].active && rows[i].datum == x
  {
    if rows != [] {
      ActiveDatumsMembers(rows[1..]);
      assert forall i | 1 <= i < |rows| :: rows[i] == rows[1..][i - 1];
    }
  }

  /** Filtering keeps exactly the elements that are in the value. */
  lemma {:induction false} FilterMembers<T>(s: seq<T>, value: seq<T>)
    ensures forall x :: x in Filter(s, value) <==> x in s && x in value
  {
    if s != [] {
      FilterMembers(s[1..], value);
      assert forall x | x in s :: x == s[0] || x in s[1..];
    }
  }

  /** Filtering a single element keeps it exactly when it is in the value. */
  lemma FilterOfOne<T>(x: T, value: seq<T>)
    ensures Filter([x], value) == if x in value then [x] else []
  {
    assert [x][1..] == [];
  }

  /** Filtering two sequences put together filters each, in order; every occurrence is kept. */
  lemma {:induction false} FilterAppend<T>(a: seq<T>, b: seq<T>, value: seq<T>)
    ensures Filter(a + b, value) == Filter(a, value) + Filter(b, value)
  {
    if a == [] {
      assert a + b == b;
    } else {
      var ab := a + b;
      assert ab[0] == a[0] && ab[1..] == a[1..] + b;
      FilterAppend(a[1..], b, value);
      var head := if a[0] in value then [a[0]] else [];
      var rest, tail := Filter(a[1..], value), Filter(b, value);
      assert Filter(ab, value) == head + (rest + tail);
      assert Filter(a, value) == head + rest;
      assert head + (rest + tail) == (head + rest) + tail;
    }
  }

  /** Assigning the same `activeData` twice changes nothing the second time. */
  lemma ReflaggedIdempotent<T>(rows: seq<EditableDatum<T>>, value: seq<T>)
    ensures Reflagged(Reflagged(rows, value), value) == Reflagged(rows, value)
  {
  }

  /** Values given to the `activeData` setter that are not in the table make no difference. */
  lemma ReflaggedIgnoresAbsent<T>(rows: seq<EditableDatum<T>>, value: seq<T>, other: seq<T>)
    requires forall x | x in Datums(rows) :: x in value <==> x in other
    ensures Reflagged(rows, value) == Reflagged(rows, other)
  {
    forall i | 0 <= i < |rows| ensures rows[i].datum in value <==> rows[i].datum in other {
      assert Datums(rows)[i] == rows[i].datum;
    }
  }

  /**
   * The table editor: its rows (`model.items`), which data may be copied, and how the item
   * editor clones a row.
   */
  class ActivityTableModelEditor<T(==)> {
    var rows: seq<EditableDatum<T>>
    const isCopyable: T -> bool
    const clone: EditableDatum<T> -> EditableDatum<T>

    constructor (isCopyable: T -> bool, clone: EditableDatum<T> -> EditableDatum<T>)
      ensures rows == [] && this.isCopyable == isCopyable && this.clone == clone
    {
      rows := [];
      this.isCopyable := isCopyable;
      this.clone := clone;
    }

    /** All data in the table. */
    function Data(): seq<T>
      reads this
    {
      Datums(rows)
    }

    /** The data whose checkbox is ticked. */
    function ActiveData(): seq<T>
      reads this
    {
      ActiveDatums(rows)
    }

    /** Replaces the rows by one active row per element of `value`. */
    method SetData(value: seq<T>)
      modifies this
      ensures rows == FreshRows(value)
      ensures Data() == value && ActiveData() == value
    {
      rows := FreshRows(value);
      DataRoundTrip(value);
      FreshRowsAllActive(value);
    }

    /** The activity column's value of a row: its flag. */
    function ValueAt(row: nat): (r: bool)
      reads this
      requires row < |rows|
      ensures r == rows[row].active
      ensures r ==> rows[row].datum in ActiveData()
    {
      ActiveDatumsMembers(rows);
      rows[row].active
    }

    /** Writes the activity column of one row: its flag changes, nothing else. */
    method SetValueAt(value: bool, row: nat)
      requires row < |rows|
      modifies this
      ensures |rows| == |old(rows)| && ValueAt(row) == value
      ensures rows[row].datum == old(rows)[row].datum
      ensures forall i | 0 <= i < |rows| && i != row :: rows[i] == old(rows)[i]
      ensures Data() == old(Data())
    {
      rows := rows[row := EditableDatum(value, rows[row].datum)];
      assert Datums(rows) == Datums(old(rows));
    }

    /** Ticks exactly the rows whose datum is in `value`, row by row. */
    method SetActiveData(value: seq<T>)
      modifies this
      ensures rows == Reflagged(old(rows), value)
      ensures Data() == old(Data())
      ensures ActiveData() == Filter(old(Data()), value)
    {
      var i := 0;
      while i < |rows|
        invariant 0 <= i <= |rows| == |old(rows)|
        invariant forall k | 0 <= k < i :: rows[k] == EditableDatum(old(rows)[k].datum in value, old(rows)[k].datum)
        invariant forall k | i <= k < |rows| :: rows[k] == old(rows)[k]
      {
        SetValueAt(rows[i].datum in value, i);
        i := i + 1;
      }
      assert rows == Reflagged(old(rows), value);
      ReflaggedKeepsData(old(rows), value);
      ReflaggedActive(old(rows), value);
    }

    /** The copy action is enabled when every selected datum may be copied. */
    function CopyEnabled(selection: seq<nat>): (r: bool)
      reads this
      requires forall k | 0 <= k < |selection| :: selection[k] < |rows|
      ensures r <==> forall d | d in SelectedData(selection) :: isCopyable(d)
    {
      forall k | 0 <= k < |selection| :: isCopyable(rows[selection[k]].datum)
    }

    /** The data in the selected rows, in selection order. */
    function SelectedData(selection: seq<nat>): (r: seq<T>)
      reads this
      requires forall k | 0 <= k < |selection| :: selection[k] < |rows|
      ensures |r| == |selection| && forall k | 0 <= k < |selection| :: r[k] == rows[selection[k]].datum
    {
      var rs := rows;
      seq(|selection|, k requires 0 <= k < |selection| => rs[selection[k]].datum)
    }

    /**
     * Appends a clone of every selected row, in selection order; an empty selection leaves the
     * table as it is.
     */
    method CopySelectedItems(selection: seq<nat>)
      requires forall k | 0 <= k < |selection| :: selection[k] < |rows|
      modifies this
      ensures rows == old(rows) + Copies(old(rows), selection, clone)
      ensures selection == [] ==> rows == old(rows)
      ensures rows[..|old(rows)|] == old(rows)
    {
      if |selection| == 0 {
        return;
      }
      var originals := rows;
      var k := 0;
      while k < |selection|
        invariant 0 <= k <= |selection|
        invariant rows == originals + Copies(originals, selection[..k], clone)
      {
        assert selection[..k + 1] == selection[..k] + [selection[k]];
        rows := rows + [clone(originals[selection[k]])];
        k := k + 1;
      }
      assert selection[..k] == selection;
    }
  }
}

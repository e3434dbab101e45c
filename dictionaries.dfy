/**
 * Dictionaries as the word settings see them, the word-length measures taken over the active
 * ones, the split of a dictionary list by kind, and the row operations of the checkbox list
 * that shows them.
 */
module Dictionaries {
  import opened Wrappers
  import opened ActivityTable

  /** Bundled dictionaries ship with the plugin; user dictionaries are files the user chose. */
  datatype Kind = Bundled | User

  /**
   * A dictionary: its kind, the path it is read from, its words, and, when reading or
   * validating it fails, the message of the `InvalidDictionaryException` that says why.
   */
  datatype Dictionary = Dictionary(kind: Kind, path: string, words: seq<string>, problem: Option<string>)

  /** The length of the longest word; 0 when there are no words. */
  function MaxWordLength(words: seq<string>): (r: nat)
    ensures forall i | 0 <= i < |words| :: |words[i]| <= r
    ensures words != [] ==> exists i | 0 <= i < |words| :: |words[i]| == r
    ensures words == [] ==> r == 0
  {
    if words == [] then 0
    else
      var rest := MaxWordLength(words[1..]);
      assert forall i | 1 <= i < |words| :: words[i] == words[1..][i - 1];
      if |words[0]| > rest then |words[0]| else rest
  }

  /** The length of the shortest word; 0 when there are no words. */
  function MinWordLength(words: seq<string>): (r: nat)
    ensures forall i | 0 <= i < |words| :: r <= |words[i]|
    ensures words != [] ==> exists i | 0 <= i < |words| :: |words[i]| == r
    ensures words == [] ==> r == 0
  {
    if words == [] then 0
    else if |words| == 1 then |words[0]|
    else
      var rest := MinWordLength(words[1..]);
      assert forall i | 1 <= i < |words| :: words[i] == words[1..][i - 1];
      if |words[0]| < rest then |words[0]| else rest
  }

  /** The words of all the given dictionaries together (`combine`, `combineDictionaries`). */
  function CombinedWords(ds: seq<Dictionary>): (r: seq<string>)
    ensures forall i, k | 0 <= i < |ds| && 0 <= k < |ds[i].words| :: ds[i].words[k] in r
    ensures forall k | 0 <= k < |r| :: exists i | 0 <= i < |ds| :: r[k] in ds[i].words
  {
    if ds == [] then []
    else
      var rest := CombinedWords(ds[1..]);
      assert forall i | 1 <= i < |ds| :: ds[i] == ds[1..][i - 1];
      assert forall k | |ds[0].words| <= k < |ds[0].words + rest| :: (ds[0].words + rest)[k] == rest[k - |ds[0].words|];
      ds[0].words + rest
  }

  /** The dictionaries of the list that are of the given kind (`filterIsInstance`). */
  function FilterIsInstance(list: seq<Dictionary>, kind: Kind): (r: set<Dictionary>)
    ensures forall d :: d in r <==> d in list && d.kind == kind
  {
    if list == [] then {}
    else
      assert forall d | d in list :: d == list[0] || d in list[1..];
      (if list[0].kind == kind then {list[0]} else {}) + FilterIsInstance(list[1..], kind)
  }

  /** The paths of the dictionaries of the list that are of the given kind. */
  function PathsOfKind(list: seq<Dictionary>, kind: Kind): (r: set<string>)
    ensures forall p :: p in r <==> exists i | 0 <= i < |list| :: list[i].kind == kind && list[i].path == p
  {
    if list == [] then {}
    else
      assert forall i | 1 <= i < |list| :: list[i] == list[1..][i - 1];
      (if list[0].kind == kind then {list[0].path} else {}) + PathsOfKind(list[1..], kind)
  }

  /** The bundled and the user dictionaries of a list split it: together all of it, and no overlap. */
  lemma KindsPartition(list: seq<Dictionary>)
    ensures FilterIsInstance(list, Bundled) + FilterIsInstance(list, User) == set d | d in list
    ensures FilterIsInstance(list, Bundled) * FilterIsInstance(list, User) == {}
  {
  }

  /**
   * The list with a row for `d` appended, unticked (the checkbox list's `addEntry`): the existing
   * rows keep their ticks, so the active data do not change.
   */
  function WithEntry<T>(rows: seq<EditableDatum<T>>, d: T): (r: seq<EditableDatum<T>>)
    ensures |r| == |rows| + 1 && r[..|rows|] == rows && r[|rows|] == EditableDatum(false, d)
    ensures Datums(r) == Datums(rows) + [d]
    ensures ActiveDatums(r) == ActiveDatums(rows)
  {
    var r := rows + [EditableDatum(false, d)];
    assert Datums(r) == Datums(rows) + [d];
    ActiveDatumsAppend(rows, [EditableDatum(false, d)]);
    ActiveDatumsOfOneRow(EditableDatum(false, d));
    assert ActiveDatums(rows) + [] == ActiveDatums(rows);
    r
  }

  /** The list without its first row that holds `d` (the checkbox list's `removeEntry`). */
  function WithoutEntry<T(==)>(rows: seq<EditableDatum<T>>, d: T): (r: seq<EditableDatum<T>>)
    ensures d !in Datums(rows) ==> r == rows
    ensures d in Datums(rows) ==> |r| == |rows| - 1
  {
    if rows == [] then []
    else
      assert Datums(rows) == [rows[0].datum] + Datums(rows[1..]);
      if rows[0].datum == d then rows[1..] else [rows[0]] + WithoutEntry(rows[1..], d)
  }

  /** Removing an entry takes exactly one `d` out of the data. */
  lemma {:induction false} WithoutEntryRemovesOne<T>(rows: seq<EditableDatum<T>>, d: T)
    ensures multiset(Datums(WithoutEntry(rows, d))) == multiset(Datums(rows)) - multiset{d}
  {
    if rows != [] {
      var r := WithoutEntry(rows, d);
      assert Datums(rows) == [rows[0].datum] + Datums(rows[1..]);
      assert multiset(Datums(rows)) == multiset{rows[0].datum} + multiset(Datums(rows[1..]));
      if rows[0].datum != d {
        var rest := WithoutEntry(rows[1..], d);
        WithoutEntryRemovesOne(rows[1..], d);
        assert Datums(r) == [rows[0].datum] + Datums(rest);
        calc {
          multiset(Datums(r));
          multiset{rows[0].datum} + multiset(Datums(rest));
          multiset{rows[0].datum} + (multiset(Datums(rows[1..])) - multiset{d});
          (multiset{rows[0].datum} + multiset(Datums(rows[1..]))) - multiset{d};
        }
      }
    }
  }

  /** Removing an entry keeps the other rows in their order. */
  lemma {:induction false} WithoutEntryKeepsOrder<T>(rows: seq<EditableDatum<T>>, d: T)
    ensures IsSubsequence(WithoutEntry(rows, d), rows)
  {
    if rows != [] {
      var r := WithoutEntry(rows, d);
      if rows[0].datum == d {
        SelfIsSubsequence(rows[1..]);
      } else {
        WithoutEntryKeepsOrder(rows[1..], d);
        assert r[0] == rows[0] && r[1..] == WithoutEntry(rows[1..], d);
      }
    }
  }

  /** The row that removing an entry takes out is the first one holding `d`. */
  lemma WithoutEntryRemovesFirst<T>(rows: seq<EditableDatum<T>>, d: T)
    ensures d in Datums(rows) ==> exists i | 0 <= i < |rows| ::
      && rows[i].datum == d
      && (forall k | 0 <= k < i :: rows[k].datum != d)
      && WithoutEntry(rows, d) == rows[..i] + rows[i + 1..]
  {
    if d in Datums(rows) {
      var k :| 0 <= k < |rows| && Datums(rows)[k] == d;
      var i := FirstRowOf(rows, d, k);
    }
  }

  /**
   * The index of the first row holding `d`, given some row `k` that holds it; removal takes
   * out exactly that row.
   */
  lemma {:induction false} FirstRowOf<T>(rows: seq<EditableDatum<T>>, d: T, k: nat) returns (i: nat)
    requires k < |rows| && rows[k].datum == d
    ensures i <= k && rows[i].datum == d
    ensures forall j | 0 <= j < i :: rows[j].datum != d
    ensures WithoutEntry(rows, d) == rows[..i] + rows[i + 1..]
  {
    if rows[0].datum == d {
      i := 0;
    } else {
      var tail := rows[1..];
      var j := FirstRowOf(tail, d, k - 1);
      i := j + 1;
      forall n | 0 <= n < i
        ensures rows[n].datum != d
      {
        if n > 0 {
          assert rows[n] == tail[n - 1];
        }
      }
      assert WithoutEntry(rows, d) == [rows[0]] + WithoutEntry(tail, d);
      ConsSplit(rows, j);
    }
  }

  /** Putting the head back in front of a tail with element `j` cut out cuts out element `j + 1`. */
  lemma ConsSplit<T>(s: seq<T>, j: nat)
    requires j + 1 < |s|
    ensures [s[0]] + (s[1..][..j] + s[1..][j + 1..]) == s[..j + 1] + s[j + 2..]
  {
    assert [s[0]] + s[1..][..j] == s[..j + 1];
    assert s[1..][j + 1..] == s[j + 2..];
  }
}

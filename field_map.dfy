/** The fixed table that says which spreadsheet column fills which form
    field of the template, and the conversion of a column letter to a
    zero-based column index. */
module FieldMap {
  import opened Pdf

  /** One entry of the table: a form-field name and the letter of the
      column that fills it. */
  datatype Entry = Entry(name: string, letter: char)

  /** The table as configured for the template, entry by entry in the order
      it is written. */
  const Entries: seq<Entry> := [
    Entry("Champ de texte 110", 'A'),
    Entry("Champ de texte 111", 'F'),
    Entry("Champ de texte 112", 'J'),
    Entry("Champ de texte 113", 'N'),
    Entry("Champ de texte 114", 'H'),
    Entry("Champ de texte 115", 'L'),
    Entry("Champ de texte 117", 'G'),
    Entry("Champ de texte 118", 'K'),
    Entry("Champ de texte 120", 'I'),
    Entry("Champ de texte 121", 'M'),
    Entry("Champ de texte 122", 'E'),
    Entry("Champ de texte 123", 'B'),
    Entry("Champ de texte 124", 'C'),
    Entry("Champ de texte 125", 'D'),
    Entry("Champ de texte 126", 'O'),
    Entry("Champ de texte 127", 'P'),
    Entry("Champ de texte 128", 'Q'),
    Entry("Champ de texte 129", 'R'),
    Entry("Champ de texte 130", 'S'),
    Entry("Champ de texte 131", 'T'),
    Entry("Champ de texte 132", 'U')
  ]

  /** The dictionary a display of entries builds: its keys are the entries'
      names, and a later entry for a name replaces an earlier one. */
  function TableOf(entries: seq<Entry>): (m: map<string, char>)
    ensures entries == [] ==> m == map[]
    decreases |entries|
  {
    if entries == [] then map[]
    else
      var last := entries[|entries| - 1];
      TableOf(entries[..|entries| - 1])[last.name := last.letter]
  }

  /** Form-field name to column letter, as configured for the template.
      The proofs read the table through `Lookup` on `Entries`;
      `LookupTable` shows the two agree. */
  const Mapping: map<string, char> := TableOf(Entries)

  /** Reading a name in the dictionary an entry list builds: the letter of
      the last entry with that name, or None when no entry has it. */
  function Lookup(entries: seq<Entry>, name: string): (r: Option<char>)
    ensures entries == [] ==> r == None
    decreases |entries|
  {
    if entries == [] then None
    else if entries[|entries| - 1].name == name then Some(entries[|entries| - 1].letter)
    else Lookup(entries[..|entries| - 1], name)
  }

  /** A name is found exactly when some entry has it, and what is found is
      the letter of such an entry. */
  lemma {:induction false} LookupFound(entries: seq<Entry>, name: string)
    ensures Lookup(entries, name).None? <==> forall i :: 0 <= i < |entries| ==> entries[i].name != name
    ensures Lookup(entries, name).Some? ==>
      exists i :: 0 <= i < |entries| && entries[i] == Entry(name, Lookup(entries, name).value)
    decreases |entries|
  {
    if entries != [] {
      var n := |entries| - 1;
      LookupFound(entries[..n], name);
      assert forall i :: 0 <= i < n ==> entries[..n][i] == entries[i];
    }
  }

  /** The keys of the dictionary an entry list builds are the entries'
      names. */
  lemma {:induction false} TableKeys(entries: seq<Entry>, name: string)
    ensures name in TableOf(entries) <==> exists i :: 0 <= i < |entries| && entries[i].name == name
    decreases |entries|
  {
    if entries != [] {
      var n := |entries| - 1;
      TableKeys(entries[..n], name);
      assert forall i :: 0 <= i < n ==> entries[..n][i] == entries[i];
    }
  }

  /** The reading agrees with the dictionary: a name is found exactly when
      it is a key, and then with the letter the dictionary holds for it. */
  lemma {:induction false} LookupTable(entries: seq<Entry>, name: string)
    ensures Lookup(entries, name) ==
      if name in TableOf(entries) then Some(TableOf(entries)[name]) else None
    decreases |entries|
  {
    if entries != [] {
      LookupTable(entries[..|entries| - 1], name);
    }
  }

  /** Number of columns the table feeds from. */
  const Width: nat := 21

  /** The letter's code point minus that of 'A'. */
  function Idx(c: char): (k: int)
    ensures 'A' <= c <= 'Z' ==> 0 <= k < 26
    ensures c < 'A' ==> k < 0
  {
    c as int - 'A' as int
  }

  /** Every entry's letter is one of A to U: the form over `Entries` that
      `Column` needs; `LettersInAtoU` is the same fact over `Mapping`. */
  lemma LettersInRange()
    ensures forall i :: 0 <= i < |Entries| ==> 'A' <= Entries[i].letter <= 'U'
  {
  }

  /** The column a field is filled from, or None when the field is not in
      the table (it is then never drawn). */
  function Column(name: string): (r: Option<int>)
    ensures r.Some? ==> 0 <= r.value < Width
  {
    LookupFound(Entries, name);
    LettersInRange();
    match Lookup(Entries, name)
    case None => None
    case Some(c) => Some(Idx(c))
  }

  /** A field has a column exactly when it is a key of the table, and the
      column is the index of the letter the table gives it. */
  lemma ColumnOfMapping(name: string)
    ensures Column(name).Some? <==> name in Mapping
    ensures Column(name).Some? ==> Column(name).value == Idx(Mapping[name])
  {
    LookupTable(Entries, name);
  }

  /** The last two characters of a field name, read as one number: the
      table's field names differ there. `Tag` and `IncreasingTags` serve
      only `NamesDistinct`, comparing 20 neighbouring pairs instead of all
      210 pairs of names, which keeps that proof cheap. */
  function Tag(name: string): (t: int)
    ensures |name| < 2 ==> t == -1
  {
    if |name| < 2 then -1
    else (name[|name| - 2] as int) * 0x1_0000 + name[|name| - 1] as int
  }

  /** When the tags of an entry list increase from each entry to the next,
      they increase from any entry to any later one, so no two entries share
      a name. */
  lemma {:induction false} IncreasingTags(entries: seq<Entry>, p: int, q: int)
    requires forall i :: 0 <= i < |entries| - 1 ==> Tag(entries[i].name) < Tag(entries[i + 1].name)
    requires 0 <= p < q < |entries|
    ensures Tag(entries[p].name) < Tag(entries[q].name)
    ensures entries[p].name != entries[q].name
    decreases q - p
  {
    if p + 1 < q {
      IncreasingTags(entries, p + 1, q);
    }
  }

  /** No two entries of the table name the same field. */
  lemma NamesDistinct()
    ensures forall i, j :: 0 <= i < j < |Entries| ==> Entries[i].name != Entries[j].name
  {
    assert forall i :: 0 <= i < |Entries| - 1 ==> Tag(Entries[i].name) < Tag(Entries[i + 1].name);
    forall i, j | 0 <= i < j < |Entries|
      ensures Entries[i].name != Entries[j].name
    {
      IncreasingTags(Entries, i, j);
    }
  }

  /** No two entries of the table name the same column. */
  lemma LettersDistinct()
    ensures forall i, j :: 0 <= i < j < |Entries| ==> Entries[i].letter != Entries[j].letter
  {
  }

  /** The table read backwards: for each column A to U, the position of the
      entry that names it. */
  const EntryOfColumn: seq<nat> :=
    [0, 11, 12, 13, 10, 1, 6, 4, 8, 2, 7, 5, 9, 3, 14, 15, 16, 17, 18, 19, 20]

  lemma EntryOfEachColumn()
    ensures |EntryOfColumn| == Width
    ensures forall k :: 0 <= k < Width ==>
      EntryOfColumn[k] < |Entries| && Idx(Entries[EntryOfColumn[k]].letter) == k
  {
  }

  /** In an entry list without repeated names, each entry's name reads back
      its own letter. */
  lemma {:induction false} LookupFinds(entries: seq<Entry>, i: int)
    requires 0 <= i < |entries|
    requires forall p, q :: 0 <= p < q < |entries| ==> entries[p].name != entries[q].name
    ensures Lookup(entries, entries[i].name) == Some(entries[i].letter)
    decreases |entries|
  {
    var n := |entries| - 1;
    if i < n {
      assert entries[n].name != entries[i].name;
      LookupFinds(entries[..n], i);
    }
  }

  /** Every column from A to U feeds a field of the table: the one its
      entry names. */
  lemma ColumnHasField(k: int)
    requires 0 <= k < Width
    ensures exists name :: name in Mapping && Column(name) == Some(k)
  {
    EntryOfEachColumn();
    var i := EntryOfColumn[k];
    NamesDistinct();
    LookupFinds(Entries, i);
    ColumnOfMapping(Entries[i].name);
  }

  /** No two fields of the table share a column. */
  lemma ColumnInjective(n1: string, n2: string)
    requires Column(n1).Some? && Column(n1) == Column(n2)
    ensures n1 == n2
  {
    var c := Lookup(Entries, n1).value;
    assert Lookup(Entries, n2) == Some(c);
    LookupFound(Entries, n1);
    LookupFound(Entries, n2);
    var i :| 0 <= i < |Entries| && Entries[i] == Entry(n1, c);
    var j :| 0 <= j < |Entries| && Entries[j] == Entry(n2, c);
    LettersDistinct();
  }

  /** A dictionary built from entries with distinct names has one key per
      entry. */
  lemma {:induction false} TableOfDistinct(entries: seq<Entry>)
    requires forall p, q :: 0 <= p < q < |entries| ==> entries[p].name != entries[q].name
    ensures |TableOf(entries)| == |entries|
    decreases |entries|
  {
    if entries != [] {
      var n := |entries| - 1;
      var front := entries[..n];
      assert forall p, q :: 0 <= p < q < n ==> front[p].name != front[q].name;
      TableOfDistinct(front);
      var m, last := TableOf(front), entries[n];
      TableKeys(front, last.name);
      assert forall i :: 0 <= i < n ==> front[i].name != last.name;
      assert last.name !in m;
      assert TableOf(entries) == m[last.name := last.letter];
    }
  }

  /** The table has 21 distinct fields, one per column 0 to 20. */
  lemma MappingSize()
    ensures |Mapping| == Width
  {
    NamesDistinct();
    TableOfDistinct(Entries);
  }

  /** Every field's letter is one of A to U. */
  lemma LettersInAtoU(name: string)
    requires name in Mapping
    ensures 'A' <= Mapping[name] <= 'U'
  {
    ColumnOfMapping(name);
  }

  /** Each letter from A to U is some field's letter. */
  lemma LetterUsed(c: char)
    requires 'A' <= c <= 'U'
    ensures c in Mapping.Values
  {
    EntryOfEachColumn();
    NamesDistinct();
    var i := EntryOfColumn[Idx(c)];
    LookupFinds(Entries, i);
    LookupTable(Entries, Entries[i].name);
    assert Mapping[Entries[i].name] == c;
  }

  /** The table's letters are exactly A to U. */
  lemma LettersAtoU()
    ensures forall c :: c in Mapping.Values <==> 'A' <= c <= 'U'
  {
    forall c | c in Mapping.Values
      ensures 'A' <= c <= 'U'
    {
      var name :| name in Mapping && Mapping[name] == c;
      LettersInAtoU(name);
    }
    forall c | 'A' <= c <= 'U'
      ensures c in Mapping.Values
    {
      LetterUsed(c);
    }
  }
}

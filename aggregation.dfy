/**
 * `/api/get-all-templates`: for every row of `users_and_templates`, in
 * table order, the non-NULL template columns are concatenated in the
 * canonical finger order into one combined template. Reading never changes
 * the tables.
 */
module Aggregation {
  import opened Base
  import opened Columns
  import opened Agent
  import opened Tables

  const QueryFailed := "Gagal mengambil data template dari database."

  datatype TemplateRecord = TemplateRecord(userId: nat, idNumber: string, name: string, combined: Bytes)

  /** The non-NULL template columns of a row, in the order of `order` (the `filter` over the column list). */
  function PresentTemplates(t: map<Finger, Bytes>, order: seq<Finger>): seq<Bytes> {
    if order == [] then []
    else (if order[0] in t then [t[order[0]]] else []) + PresentTemplates(t, order[1..])
  }

  /** `Buffer.concat`. */
  function Concat(parts: seq<Bytes>): Bytes {
    if parts == [] then [] else parts[0] + Concat(parts[1..])
  }

  function CombinedTemplate(t: map<Finger, Bytes>): Bytes {
    Concat(PresentTemplates(t, CanonicalOrder))
  }

  /** The record `rows.map` builds for one user. */
  function Record(row: UserRow): TemplateRecord {
    TemplateRecord(row.id, row.idNumber, row.name, CombinedTemplate(row.templates))
  }

  /** One record per row, in table order, carrying that row's id, id number and name. */
  function Aggregate(rows: seq<UserRow>): (r: seq<TemplateRecord>)
    ensures |r| == |rows|
    ensures forall i :: 0 <= i < |rows| ==>
      && r[i].userId == rows[i].id && r[i].idNumber == rows[i].idNumber && r[i].name == rows[i].name
      && r[i].combined == CombinedTemplate(rows[i].templates)
  {
    if rows == [] then [] else [Record(rows[0])] + Aggregate(rows[1..])
  }

  datatype TemplatesReply = TemplatesReply(status: nat, success: bool, data: seq<TemplateRecord>, message: string)

  /**
   * The handler: `query` is what `SELECT ... FROM users_and_templates`
   * returned, or `None` when it failed. An empty table is a success with no
   * records.
   */
  function GetAllTemplates(query: Option<seq<UserRow>>): (r: TemplatesReply)
    ensures r.success <==> query.Some?
    ensures r.status == (if query.Some? then 200 else 500)
    ensures query.Some? ==> r.data == Aggregate(query.value)
    ensures query == Some([]) ==> r.data == []
    ensures query.None? ==> r.data == [] && r.message == QueryFailed
  {
    match query
    case None => TemplatesReply(500, false, [], QueryFailed)
    case Some(rows) => TemplatesReply(200, true, Aggregate(rows), "")
  }

  // ---------------------------------------------------------------------
  // The combined template
  // ---------------------------------------------------------------------

  /** A template column read as bytes, NULL as nothing. */
  function SlotOrEmpty(t: map<Finger, Bytes>, f: Finger): Bytes {
    if f in t then t[f] else []
  }

  /** The sum of the lengths of the non-NULL columns among `order`. */
  function TotalLength(t: map<Finger, Bytes>, order: seq<Finger>): nat {
    if order == [] then 0 else |SlotOrEmpty(t, order[0])| + TotalLength(t, order[1..])
  }

  lemma {:induction false} ConcatPresent(t: map<Finger, Bytes>, order: seq<Finger>)
    ensures order != [] ==> Concat(PresentTemplates(t, order)) == SlotOrEmpty(t, order[0]) + Concat(PresentTemplates(t, order[1..]))
  {
    if order != [] {
      var rest := PresentTemplates(t, order[1..]);
      if order[0] in t {
        assert PresentTemplates(t, order) == [t[order[0]]] + rest;
        assert ([t[order[0]]] + rest)[1..] == rest;
      } else {
        assert PresentTemplates(t, order) == rest;
      }
    }
  }

  /**
   * The combined template is the right thumb, index, middle, ring and little
   * templates followed by the left ones, each NULL column contributing nothing.
   */
  lemma {:induction false} CombinedIsCanonicalConcatenation(t: map<Finger, Bytes>)
    ensures CombinedTemplate(t) ==
      SlotOrEmpty(t, RightThumb) + SlotOrEmpty(t, RightIndex) + SlotOrEmpty(t, RightMiddle)
      + SlotOrEmpty(t, RightRing) + SlotOrEmpty(t, RightLittle)
      + SlotOrEmpty(t, LeftThumb) + SlotOrEmpty(t, LeftIndex) + SlotOrEmpty(t, LeftMiddle)
      + SlotOrEmpty(t, LeftRing) + SlotOrEmpty(t, LeftLittle)
  {
    var o := CanonicalOrder;
    ConcatIsPrefix(t, o);
    assert Prefix(t, o, 1) == SlotOrEmpty(t, RightThumb) by {
      assert Prefix(t, o, 1) == [] + SlotOrEmpty(t, RightThumb);
    }
    assert Prefix(t, o, 2) == Prefix(t, o, 1) + SlotOrEmpty(t, RightIndex);
    assert Prefix(t, o, 3) == Prefix(t, o, 2) + SlotOrEmpty(t, RightMiddle);
    assert Prefix(t, o, 4) == Prefix(t, o, 3) + SlotOrEmpty(t, RightRing);
    assert Prefix(t, o, 5) == Prefix(t, o, 4) + SlotOrEmpty(t, RightLittle);
    assert Prefix(t, o, 6) == Prefix(t, o, 5) + SlotOrEmpty(t, LeftThumb);
    assert Prefix(t, o, 7) == Prefix(t, o, 6) + SlotOrEmpty(t, LeftIndex);
    assert Prefix(t, o, 8) == Prefix(t, o, 7) + SlotOrEmpty(t, LeftMiddle);
    assert Prefix(t, o, 9) == Prefix(t, o, 8) + SlotOrEmpty(t, LeftRing);
    assert Prefix(t, o, 10) == Prefix(t, o, 9) + SlotOrEmpty(t, LeftLittle);
  }

  /** Filtering out NULL columns and concatenating is concatenating every column, NULL read as nothing. */
  lemma ConcatIsPrefix(t: map<Finger, Bytes>, o: seq<Finger>)
    ensures Concat(PresentTemplates(t, o)) == Prefix(t, o, |o|)
  {
    PrefixThenRest(t, o, |o|);
    assert o[|o|..] == [];
  }

  /** The first `k` columns, then the rest filtered and concatenated, make up the whole combined template. */
  lemma {:induction false} PrefixThenRest(t: map<Finger, Bytes>, o: seq<Finger>, k: nat)
    requires k <= |o|
    ensures Concat(PresentTemplates(t, o)) == Prefix(t, o, k) + Concat(PresentTemplates(t, o[k..]))
    decreases k
  {
    if k == 0 {
      assert o[0..] == o;
    } else {
      PrefixThenRest(t, o, k - 1);
      var rest := o[k - 1..];
      assert rest[1..] == o[k..];
      ConcatPresent(t, rest);
      var p, x, r := Prefix(t, o, k - 1), SlotOrEmpty(t, o[k - 1]), Concat(PresentTemplates(t, o[k..]));
      assert p + (x + r) == (p + x) + r;
    }
  }

  /** The first `k` columns of `order`, concatenated left to right. */
  function Prefix(t: map<Finger, Bytes>, order: seq<Finger>, k: nat): Bytes
    requires k <= |order|
  {
    if k == 0 then [] else Prefix(t, order, k - 1) + SlotOrEmpty(t, order[k - 1])
  }

  /** Its length is the sum of the lengths of the non-NULL template columns. */
  lemma {:induction false} CombinedLength(t: map<Finger, Bytes>, order: seq<Finger>)
    ensures |Concat(PresentTemplates(t, order))| == TotalLength(t, order)
  {
    if order != [] {
      ConcatPresent(t, order);
      CombinedLength(t, order[1..]);
    }
  }

  /** A user whose template columns are all NULL still gets a record, with an empty template. */
  lemma AllNullGivesEmptyTemplate(row: UserRow)
    requires row.templates == map[]
    ensures Record(row).combined == []
    ensures Aggregate([row]) == [Record(row)]
  {
    CombinedLength(row.templates, CanonicalOrder);
    assert forall order: seq<Finger> :: TotalLength(row.templates, order) == 0 by {
      forall order: seq<Finger> ensures TotalLength(row.templates, order) == 0 {
        TotalLengthOfNothing(row.templates, order);
      }
    }
  }

  lemma {:induction false} TotalLengthOfNothing(t: map<Finger, Bytes>, order: seq<Finger>)
    requires t == map[]
    ensures TotalLength(t, order) == 0
  {
    if order != [] {
      TotalLengthOfNothing(t, order[1..]);
    }
  }

  /** Enrolling one more user adds exactly its record at the end and leaves the other records as they were. */
  lemma AggregateAppend(rows: seq<UserRow>, row: UserRow)
    ensures Aggregate(rows + [row]) == Aggregate(rows) + [Record(row)]
  {
    var a, b := Aggregate(rows + [row]), Aggregate(rows) + [Record(row)];
    assert |a| == |b|;
    forall i | 0 <= i < |a| ensures a[i] == b[i] {
      if i < |rows| {
        assert (rows + [row])[i] == rows[i];
      }
    }
  }

  /** Overwriting a column that was NULL adds its bytes to the total, once, as the canonical order lists it once. */
  lemma {:induction false} TotalLengthInsert(m: map<Finger, Bytes>, f: Finger, b: Bytes, order: seq<Finger>)
    requires f !in m
    requires forall i, j :: 0 <= i < j < |order| ==> order[i] != order[j]
    ensures TotalLength(m[f := b], order) == TotalLength(m, order) + (if f in order then |b| else 0)
  {
    if order != [] {
      TotalLengthInsert(m, f, b, order[1..]);
    }
  }

  /** No two keys name the same template column. */
  predicate DistinctColumns(entries: seq<Entry>) {
    forall i, j :: 0 <= i < j < |entries| ==> ParseTemplateColumn(entries[i].key) != ParseTemplateColumn(entries[j].key)
  }

  /** The sum of the decoded lengths of a list of payload entries. */
  function PayloadLength(entries: seq<Entry>): nat
    requires AllApply(ParseTemplateColumn, entries)
  {
    if entries == [] then 0
    else PayloadLength(entries[..|entries| - 1]) + |entries[|entries| - 1].value.decoded|
  }

  /**
   * When no two template keys name the same column, the combined template of
   * the enrolled row is exactly as long as all template payloads together.
   */
  lemma {:induction false} CombinedLengthOfPayload(entries: seq<Entry>)
    requires AllApply(ParseTemplateColumn, entries)
    requires DistinctColumns(entries)
    ensures |CombinedTemplate(Written(ParseTemplateColumn, map[], entries))| == PayloadLength(entries)
  {
    TotalLengthOfPayload(entries);
    CombinedLength(Written(ParseTemplateColumn, map[], entries), CanonicalOrder);
  }

  lemma {:induction false} TotalLengthOfPayload(entries: seq<Entry>)
    requires AllApply(ParseTemplateColumn, entries)
    requires DistinctColumns(entries)
    ensures TotalLength(Written(ParseTemplateColumn, map[], entries), CanonicalOrder) == PayloadLength(entries)
  {
    if entries != [] {
      var n := |entries| - 1;
      var prefix := entries[..n];
      LastColumnIsNew(entries);
      TotalLengthOfPayload(prefix);
      var f, b := ParseTemplateColumn(entries[n].key).value, entries[n].value.decoded;
      assert Written(ParseTemplateColumn, map[], entries) == Written(ParseTemplateColumn, map[], prefix)[f := b];
      CanonicalInsert(Written(ParseTemplateColumn, map[], prefix), f, b);
    }
  }

  /** Filling a NULL column adds its length to the total over the canonical order. */
  lemma CanonicalInsert(m: map<Finger, Bytes>, f: Finger, b: Bytes)
    requires f !in m
    ensures TotalLength(m[f := b], CanonicalOrder) == TotalLength(m, CanonicalOrder) + |b|
  {
    CanonicalOrderIsComplete();
    CanonicalOrderIsDistinct();
    TotalLengthInsert(m, f, b, CanonicalOrder);
  }

  /** With distinct columns, the last key names a column the earlier keys left NULL. */
  lemma LastColumnIsNew(entries: seq<Entry>)
    requires entries != []
    requires AllApply(ParseTemplateColumn, entries)
    requires DistinctColumns(entries)
    ensures AllApply(ParseTemplateColumn, entries[..|entries| - 1])
    ensures DistinctColumns(entries[..|entries| - 1])
    ensures ParseTemplateColumn(entries[|entries| - 1].key).value !in Written(ParseTemplateColumn, map[], entries[..|entries| - 1])
  {
    var n := |entries| - 1;
    var prefix := entries[..n];
    assert forall j :: 0 <= j < n ==> prefix[j] == entries[j];
    WrittenKeys(ParseTemplateColumn, prefix);
  }
}

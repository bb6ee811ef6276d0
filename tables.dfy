/**
 * The two tables as values: a `users_and_templates` row holds an identity
 * and its ten nullable template columns, a `fingerprint_images` row its
 * thirteen nullable image columns. A NULL column is a slot missing from the
 * row's map. This module also states the schema's constraints and what the
 * sequence of `UPDATE ... SET <key> = ?` statements of an enrollment leaves
 * in a row.
 */
module Tables {
  import opened Base
  import opened Columns
  import opened Agent

  datatype UserRow = UserRow(id: nat, idNumber: string, name: string, templates: map<Finger, Bytes>)

  datatype ImageRow = ImageRow(id: nat, userId: nat, images: map<ImageSlot, Bytes>)

  // ---------------------------------------------------------------------
  // Schema constraints
  // ---------------------------------------------------------------------

  /** `id INTEGER PRIMARY KEY AUTOINCREMENT`: ids ascend in table order and never exceed the sequence counter. */
  predicate UserIdsAscending(users: seq<UserRow>, userSeq: nat) {
    && (forall i, j :: 0 <= i < j < |users| ==> users[i].id < users[j].id)
    && (forall i :: 0 <= i < |users| ==> 0 < users[i].id <= userSeq)
  }

  predicate ImageIdsAscending(images: seq<ImageRow>, imageSeq: nat) {
    && (forall k, l :: 0 <= k < l < |images| ==> images[k].id < images[l].id)
    && (forall k :: 0 <= k < |images| ==> 0 < images[k].id <= imageSeq)
  }

  predicate IdNumberTaken(users: seq<UserRow>, idNumber: string) {
    exists i :: 0 <= i < |users| && users[i].idNumber == idNumber
  }

  /** `id_number TEXT NOT NULL UNIQUE`. */
  predicate IdNumbersUnique(users: seq<UserRow>) {
    forall i, j :: 0 <= i < j < |users| ==> users[i].idNumber != users[j].idNumber
  }

  predicate UserExists(users: seq<UserRow>, id: nat) {
    exists i :: 0 <= i < |users| && users[i].id == id
  }

  /** `FOREIGN KEY (user_id) REFERENCES users_and_templates(id)`. */
  predicate ImagesReferenceUsers(users: seq<UserRow>, images: seq<ImageRow>) {
    forall k :: 0 <= k < |images| ==> UserExists(users, images[k].userId)
  }

  /** `user_id INTEGER NOT NULL UNIQUE`: at most one image row per user. */
  predicate OneImageRowPerUser(images: seq<ImageRow>) {
    forall k, l :: 0 <= k < l < |images| ==> images[k].userId != images[l].userId
  }

  predicate Schema(users: seq<UserRow>, images: seq<ImageRow>, userSeq: nat, imageSeq: nat) {
    && UserIdsAscending(users, userSeq)
    && IdNumbersUnique(users)
    && ImageIdsAscending(images, imageSeq)
    && ImagesReferenceUsers(users, images)
    && OneImageRowPerUser(images)
  }

  /**
   * What the application keeps beyond the schema: every user row has its
   * image row, in the same order, since both are written in one transaction.
   */
  predicate Paired(users: seq<UserRow>, images: seq<ImageRow>) {
    |users| == |images| && forall i :: 0 <= i < |users| ==> images[i].userId == users[i].id
  }

  /** The id AUTOINCREMENT hands out next is above every id in use, and no image row points at it yet. */
  lemma NextIdIsFresh(users: seq<UserRow>, images: seq<ImageRow>, userSeq: nat, imageSeq: nat)
    requires Schema(users, images, userSeq, imageSeq)
    ensures forall i :: 0 <= i < |users| ==> users[i].id < userSeq + 1
    ensures forall k :: 0 <= k < |images| ==> images[k].userId != userSeq + 1
  {
    forall k | 0 <= k < |images| ensures images[k].userId != userSeq + 1 {
      assert UserExists(users, images[k].userId);
    }
  }

  /**
   * Appending a new identity with a fresh id and its image row keeps every
   * constraint, and keeps users and image rows paired.
   */
  lemma EnrollKeepsSchema(users: seq<UserRow>, images: seq<ImageRow>, userSeq: nat, imageSeq: nat,
                          user: UserRow, image: ImageRow)
    requires Schema(users, images, userSeq, imageSeq)
    requires !IdNumberTaken(users, user.idNumber)
    requires user.id == userSeq + 1 && image.id == imageSeq + 1 && image.userId == user.id
    ensures Schema(users + [user], images + [image], userSeq + 1, imageSeq + 1)
    ensures Paired(users, images) ==> Paired(users + [user], images + [image])
  {
    NextIdIsFresh(users, images, userSeq, imageSeq);
    var users', images' := users + [user], images + [image];
    forall k | 0 <= k < |images'| ensures UserExists(users', images'[k].userId) {
      if k < |images| {
        assert UserExists(users, images[k].userId);
        var i :| 0 <= i < |users| && users[i].id == images[k].userId;
        assert users'[i].id == images'[k].userId;
      } else {
        assert users'[|users|].id == images'[k].userId;
      }
    }
  }

  // ---------------------------------------------------------------------
  // The UPDATE statements of an enrollment
  // ---------------------------------------------------------------------

  /**
   * An entry can be written: its value is text that decodes to bytes, and
   * its key names a column of the table.
   */
  predicate EntryApplies<S>(parse: string -> Option<S>, e: Entry) {
    e.value.Base64Text? && parse(e.key).Some?
  }

  predicate AllApply<S>(parse: string -> Option<S>, entries: seq<Entry>) {
    forall i :: 0 <= i < |entries| ==> EntryApplies(parse, entries[i])
  }

  /**
   * The slots of a row after `SET <key> = <bytes>` for each entry in turn,
   * starting from `init`: a later entry naming the same column overwrites an
   * earlier one.
   */
  function Written<S>(parse: string -> Option<S>, init: map<S, Bytes>, entries: seq<Entry>): map<S, Bytes>
    requires AllApply(parse, entries)
    decreases |entries|
  {
    if entries == [] then init
    else
      var e := entries[|entries| - 1];
      Written(parse, init, entries[..|entries| - 1])[parse(e.key).value := e.value.decoded]
  }

  /** The columns the keys of `entries` name. */
  function NamedSlots<S>(parse: string -> Option<S>, entries: seq<Entry>): set<S> {
    set i | 0 <= i < |entries| && parse(entries[i].key).Some? :: parse(entries[i].key).value
  }

  /** An entry that no later entry overrides leaves its bytes in the column it names. */
  lemma {:induction false} WrittenHolds<S>(parse: string -> Option<S>, init: map<S, Bytes>, entries: seq<Entry>, i: nat)
    requires AllApply(parse, entries)
    requires i < |entries|
    requires forall j :: i < j < |entries| ==> parse(entries[j].key) != parse(entries[i].key)
    ensures parse(entries[i].key).value in Written(parse, init, entries)
    ensures Written(parse, init, entries)[parse(entries[i].key).value] == entries[i].value.decoded
  {
    var n := |entries| - 1;
    if i < n {
      var prefix := entries[..n];
      assert forall j :: 0 <= j < n ==> prefix[j] == entries[j];
      WrittenHolds(parse, init, prefix, i);
    }
  }

  /** A column no key names keeps its value from `init`. */
  lemma {:induction false} WrittenElsewhere<S>(parse: string -> Option<S>, init: map<S, Bytes>, entries: seq<Entry>, s: S)
    requires AllApply(parse, entries)
    requires forall i :: 0 <= i < |entries| ==> parse(entries[i].key) != Some(s)
    ensures s in Written(parse, init, entries) <==> s in init
    ensures s in init ==> Written(parse, init, entries)[s] == init[s]
  {
    if entries != [] {
      var n := |entries| - 1;
      var prefix := entries[..n];
      assert forall j :: 0 <= j < n ==> prefix[j] == entries[j];
      WrittenElsewhere(parse, init, prefix, s);
    }
  }

  /** Starting from a row of NULLs, exactly the named columns end up non-NULL. */
  lemma {:induction false} WrittenKeys<S>(parse: string -> Option<S>, entries: seq<Entry>)
    requires AllApply(parse, entries)
    ensures Written(parse, map[], entries).Keys == NamedSlots(parse, entries)
  {
    if entries != [] {
      var n := |entries| - 1;
      var prefix := entries[..n];
      assert forall j :: 0 <= j < n ==> prefix[j] == entries[j];
      WrittenKeys(parse, prefix);
      NamedSlotsSnoc(parse, entries);
    }
  }

  lemma NamedSlotsSnoc<S>(parse: string -> Option<S>, entries: seq<Entry>)
    requires entries != []
    ensures var n := |entries| - 1;
      NamedSlots(parse, entries) ==
        NamedSlots(parse, entries[..n]) + (if parse(entries[n].key).Some? then {parse(entries[n].key).value} else {})
  {
    var n := |entries| - 1;
    var prefix := entries[..n];
    assert forall j :: 0 <= j < n ==> prefix[j] == entries[j];
    var extra := if parse(entries[n].key).Some? then {parse(entries[n].key).value} else {};
    forall s ensures s in NamedSlots(parse, entries) <==> s in NamedSlots(parse, prefix) + extra {
      if s in NamedSlots(parse, entries) {
        var i :| 0 <= i < |entries| && parse(entries[i].key) == Some(s);
        if i < n {
          assert parse(prefix[i].key) == Some(s);
        }
      }
      if s in NamedSlots(parse, prefix) {
        var i :| 0 <= i < n && parse(prefix[i].key) == Some(s);
        assert parse(entries[i].key) == Some(s);
      }
    }
  }

  /**
   * Keys name at most as many columns as there are keys, and strictly fewer
   * when two keys name the same column.
   */
  lemma {:induction false} NamedSlotsBound<S>(parse: string -> Option<S>, entries: seq<Entry>)
    ensures |NamedSlots(parse, entries)| <= |entries|
    ensures (exists i, j :: 0 <= i < j < |entries| && parse(entries[i].key).Some? && parse(entries[i].key) == parse(entries[j].key))
            ==> |NamedSlots(parse, entries)| < |entries|
  {
    if entries != [] {
      var n := |entries| - 1;
      var prefix := entries[..n];
      assert forall j :: 0 <= j < n ==> prefix[j] == entries[j];
      NamedSlotsBound(parse, prefix);
      NamedSlotsSnoc(parse, entries);
      if exists i, j :: 0 <= i < j < |entries| && parse(entries[i].key).Some? && parse(entries[i].key) == parse(entries[j].key) {
        var i, j :| 0 <= i < j < |entries| && parse(entries[i].key).Some? && parse(entries[i].key) == parse(entries[j].key);
        if j == n {
          assert parse(prefix[i].key).value in NamedSlots(parse, prefix);
        } else {
          assert parse(prefix[i].key).Some? && parse(prefix[i].key) == parse(prefix[j].key);
        }
      }
    }
  }

  /**
   * A payload whose keys name every template and every image column passes
   * the completeness gate: counting keys never refuses a complete payload.
   */
  lemma CompletePayloadPassesGate(p: Payload)
    requires p.templates.Some? && AllFingers <= NamedSlots(ParseTemplateColumn, p.templates.value)
    requires p.images.Some? && AllImageSlots <= NamedSlots(ParseImageColumn, p.images.value)
    ensures CompletenessGate(p)
  {
    FingersAreTen();
    ImageSlotsAreThirteen();
    NamedSlotsBound(ParseTemplateColumn, p.templates.value);
    NamedSlotsBound(ParseImageColumn, p.images.value);
    SubsetCardinality(AllFingers, NamedSlots(ParseTemplateColumn, p.templates.value));
    SubsetCardinality(AllImageSlots, NamedSlots(ParseImageColumn, p.images.value));
  }

  /**
   * The converse fails: ten template keys of which two spell the same column
   * (say `fmr_right_thumb` and `FMR_RIGHT_THUMB`) pass the gate, yet the row
   * they write keeps some template column NULL.
   */
  lemma RepeatedColumnLeavesSlotNull(entries: seq<Entry>)
    requires AllApply(ParseTemplateColumn, entries)
    requires |entries| <= RequiredTemplateKeys
    requires exists i, j :: 0 <= i < j < |entries| && ParseTemplateColumn(entries[i].key) == ParseTemplateColumn(entries[j].key)
    ensures exists f :: f !in Written(ParseTemplateColumn, map[], entries)
  {
    WrittenKeys(ParseTemplateColumn, entries);
    NamedSlotsBound(ParseTemplateColumn, entries);
    FingersAreTen();
    if forall f :: f in Written(ParseTemplateColumn, map[], entries) {
      SubsetCardinality(AllFingers, NamedSlots(ParseTemplateColumn, entries));
      assert false;
    }
  }

  lemma SubsetCardinality<T>(a: set<T>, b: set<T>)
    requires a <= b
    ensures |a| <= |b|
  {
    assert b == a + (b - a);
  }

  // ---------------------------------------------------------------------
  // UPDATE ... WHERE on the working copy of a table
  // ---------------------------------------------------------------------

  /** `UPDATE users_and_templates SET <column of f> = b WHERE id = id`. */
  function UpdateUserTemplate(rows: seq<UserRow>, id: nat, f: Finger, b: Bytes): seq<UserRow> {
    seq(|rows|, i requires 0 <= i < |rows| =>
      if rows[i].id == id then rows[i].(templates := rows[i].templates[f := b]) else rows[i])
  }

  /** `UPDATE fingerprint_images SET <column of s> = b WHERE user_id = userId`. */
  function UpdateUserImage(rows: seq<ImageRow>, userId: nat, s: ImageSlot, b: Bytes): seq<ImageRow> {
    seq(|rows|, k requires 0 <= k < |rows| =>
      if rows[k].userId == userId then rows[k].(images := rows[k].images[s := b]) else rows[k])
  }

  /** When only the freshly inserted last row carries the id, the UPDATE changes that row and no other. */
  lemma UpdateTouchesOnlyNewUser(rows: seq<UserRow>, row: UserRow, f: Finger, b: Bytes)
    requires forall i :: 0 <= i < |rows| ==> rows[i].id != row.id
    ensures UpdateUserTemplate(rows + [row], row.id, f, b) == rows + [row.(templates := row.templates[f := b])]
  {
  }

  lemma UpdateTouchesOnlyNewImageRow(rows: seq<ImageRow>, row: ImageRow, s: ImageSlot, b: Bytes)
    requires forall k :: 0 <= k < |rows| ==> rows[k].userId != row.userId
    ensures UpdateUserImage(rows + [row], row.userId, s, b) == rows + [row.(images := row.images[s := b])]
  {
  }
}

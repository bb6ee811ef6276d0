/**
 * The `/api/save_enrollment` handler over an in-memory copy of the two
 * tables. The handler checks the request, fetches the payload from the
 * agent, applies the completeness gate and then runs one transaction:
 * BEGIN, INSERT the user, one UPDATE per template key, INSERT the image
 * row, one UPDATE per image key, COMMIT. Every statement works on a copy of
 * the tables; COMMIT installs the copy, and any failure drops it, which is
 * what ROLLBACK does.
 */
module Store {
  import opened Base
  import opened Columns
  import opened Agent
  import opened Requests
  import opened Tables

  const DataIncomplete := "Data yang diterima dari agen tidak lengkap."
  const SaveFailed := "Terjadi kesalahan pada server saat menyimpan data."

  /** The reply's message: fixed text, or one of the two templates filled in. */
  datatype Message =
    | Fixed(text: string)
    | Saved(name: string, id: nat)                // "Data untuk <name> berhasil disimpan dengan ID: <id>"
    | AlreadyRegistered(idNumber: string)         // "Nomor ID <idNumber> sudah terdaftar."

  datatype Reply = Reply(status: nat, success: bool, message: Message)

  /**
   * The statements of the transaction are numbered in the order they run:
   * 0 BEGIN, 1 INSERT user, then one per template key, the image INSERT,
   * one per image key, and COMMIT last.
   */
  function StatementCount(templates: seq<Entry>, images: seq<Entry>): nat {
    4 + |templates| + |images|
  }

  /**
   * The engine reports an error at statement `step` that leaves the
   * transaction open, so the ROLLBACK in the handler's `catch` succeeds: a
   * statement-level SQLITE_BUSY, or a COMMIT that fails with SQLITE_BUSY.
   * At step 0 (BEGIN) no transaction is open; the README says what the
   * code does then.
   */
  predicate FaultAt(fault: Option<nat>, step: nat) {
    fault == Some(step)
  }

  /** The request reaches BEGIN: fields given, payload fetched, gate passed. */
  predicate ReachesTransaction(name: Option<string>, idNumber: Option<string>, fetch: FetchOutcome) {
    SaveRequestComplete(name, idNumber) && fetch.Fetched? && CompletenessGate(fetch.payload)
  }

  /** Every statement of the transaction succeeds. */
  predicate Commits(users: seq<UserRow>, name: Option<string>, idNumber: Option<string>, fetch: FetchOutcome, fault: Option<nat>) {
    && ReachesTransaction(name, idNumber, fetch)
    && !IdNumberTaken(users, idNumber.value)
    && AllApply(ParseTemplateColumn, fetch.payload.templates.value)
    && AllApply(ParseImageColumn, fetch.payload.images.value)
    && (fault.Some? ==> fault.value >= StatementCount(fetch.payload.templates.value, fetch.payload.images.value))
  }

  /** The user INSERT is the first statement to fail, on the UNIQUE constraint of `id_number`. */
  predicate HitsDuplicate(users: seq<UserRow>, name: Option<string>, idNumber: Option<string>, fetch: FetchOutcome, fault: Option<nat>) {
    && ReachesTransaction(name, idNumber, fetch)
    && IdNumberTaken(users, idNumber.value)
    && !FaultAt(fault, 0) && !FaultAt(fault, 1)
  }

  /** The result of the transaction on the working copy: the tables to install, or a rollback. */
  datatype Outcome =
    | Committed(users: seq<UserRow>, images: seq<ImageRow>, userSeq: nat, imageSeq: nat, id: nat)
    | RolledBack(duplicate: bool)

  /**
   * The template UPDATE loop on the working copy `before + [row]`, where
   * `row` is the user just inserted. Statement `firstStep + i` writes the
   * `i`-th key. `None` means some statement failed.
   */
  method WriteTemplates(before: seq<UserRow>, row: UserRow, templates: seq<Entry>, fault: Option<nat>, firstStep: nat)
    returns (r: Option<seq<UserRow>>)
    requires forall i :: 0 <= i < |before| ==> before[i].id != row.id
    ensures r.Some? <==>
      AllApply(ParseTemplateColumn, templates) && !(fault.Some? && firstStep <= fault.value < firstStep + |templates|)
    ensures r.Some? ==> r.value == before + [row.(templates := Written(ParseTemplateColumn, row.templates, templates))]
  {
    var u := before + [row];
    var i := 0;
    while i < |templates|
      invariant 0 <= i <= |templates|
      invariant AllApply(ParseTemplateColumn, templates[..i])
      invariant !(fault.Some? && firstStep <= fault.value < firstStep + i)
      invariant u == before + [row.(templates := Written(ParseTemplateColumn, row.templates, templates[..i]))]
    {
      var e := templates[i];
      if e.value.NotText? {
        return None;    // Buffer.from throws before the statement runs
      }
      if FaultAt(fault, firstStep + i) {
        return None;
      }
      var column := ParseTemplateColumn(e.key);
      if column.None? {
        return None;    // no such column
      }
      assert templates[..i + 1][..i] == templates[..i];
      UpdateTouchesOnlyNewUser(before, row.(templates := Written(ParseTemplateColumn, row.templates, templates[..i])),
                               column.value, e.value.decoded);
      u := UpdateUserTemplate(u, row.id, column.value, e.value.decoded);
      i := i + 1;
    }
    assert templates[..|templates|] == templates;
    return Some(u);
  }

  /** The image UPDATE loop, `WHERE user_id = row.userId`, on the working copy `before + [row]`. */
  method WriteImages(before: seq<ImageRow>, row: ImageRow, entries: seq<Entry>, fault: Option<nat>, firstStep: nat)
    returns (r: Option<seq<ImageRow>>)
    requires forall k :: 0 <= k < |before| ==> before[k].userId != row.userId
    ensures r.Some? <==>
      AllApply(ParseImageColumn, entries) && !(fault.Some? && firstStep <= fault.value < firstStep + |entries|)
    ensures r.Some? ==> r.value == before + [row.(images := Written(ParseImageColumn, row.images, entries))]
  {
    var im := before + [row];
    var k := 0;
    while k < |entries|
      invariant 0 <= k <= |entries|
      invariant AllApply(ParseImageColumn, entries[..k])
      invariant !(fault.Some? && firstStep <= fault.value < firstStep + k)
      invariant im == before + [row.(images := Written(ParseImageColumn, row.images, entries[..k]))]
    {
      var e := entries[k];
      if e.value.NotText? {
        return None;
      }
      if FaultAt(fault, firstStep + k) {
        return None;
      }
      var column := ParseImageColumn(e.key);
      if column.None? {
        return None;
      }
      assert entries[..k + 1][..k] == entries[..k];
      UpdateTouchesOnlyNewImageRow(before, row.(images := Written(ParseImageColumn, row.images, entries[..k])),
                                   column.value, e.value.decoded);
      im := UpdateUserImage(im, row.userId, column.value, e.value.decoded);
      k := k + 1;
    }
    assert entries[..|entries|] == entries;
    return Some(im);
  }

  /**
   * The statements from BEGIN to COMMIT, run on a copy of the tables. A
   * commit yields the copy with one new user and its image row; any failed
   * statement yields a rollback, flagged as a duplicate when it was the
   * UNIQUE constraint of `id_number`.
   */
  method Transaction(users: seq<UserRow>, images: seq<ImageRow>, userSeq: nat, imageSeq: nat,
                     name: string, idNumber: string, templates: seq<Entry>, imageEntries: seq<Entry>, fault: Option<nat>)
    returns (outcome: Outcome)
    requires Schema(users, images, userSeq, imageSeq)
    ensures outcome.Committed? <==>
      && !IdNumberTaken(users, idNumber)
      && AllApply(ParseTemplateColumn, templates) && AllApply(ParseImageColumn, imageEntries)
      && (fault.Some? ==> fault.value >= StatementCount(templates, imageEntries))
    ensures outcome.RolledBack? ==> (outcome.duplicate <==> IdNumberTaken(users, idNumber) && !FaultAt(fault, 0) && !FaultAt(fault, 1))
    ensures outcome.Committed? ==>
      && outcome.id == userSeq + 1
      && (forall i :: 0 <= i < |users| ==> users[i].id < outcome.id)
      && outcome.users == users + [UserRow(outcome.id, idNumber, name, Written(ParseTemplateColumn, map[], templates))]
      && outcome.images == images + [ImageRow(imageSeq + 1, outcome.id, Written(ParseImageColumn, map[], imageEntries))]
      && outcome.userSeq == userSeq + 1 && outcome.imageSeq == imageSeq + 1
      && Schema(outcome.users, outcome.images, outcome.userSeq, outcome.imageSeq)
      && (Paired(users, images) ==> Paired(outcome.users, outcome.images))
  {
    // BEGIN TRANSACTION
    if FaultAt(fault, 0) {
      return RolledBack(false);
    }
    // INSERT INTO users_and_templates (id_number, name) VALUES (?, ?)
    if FaultAt(fault, 1) {
      return RolledBack(false);
    }
    if IdNumberTaken(users, idNumber) {
      return RolledBack(true);
    }
    var userId := userSeq + 1;
    NextIdIsFresh(users, images, userSeq, imageSeq);
    var newUser := UserRow(userId, idNumber, name, map[]);
    var u := WriteTemplates(users, newUser, templates, fault, 2);
    if u.None? {
      return RolledBack(false);
    }
    // INSERT INTO fingerprint_images (user_id) VALUES (?): its UNIQUE and FOREIGN KEY constraints hold for the fresh id
    var imageStep := 2 + |templates|;
    if FaultAt(fault, imageStep) {
      return RolledBack(false);
    }
    assert u.value[|users|].id == userId;
    assert UserExists(u.value, userId);
    var newImage := ImageRow(imageSeq + 1, userId, map[]);
    var im := WriteImages(images, newImage, imageEntries, fault, imageStep + 1);
    if im.None? {
      return RolledBack(false);
    }
    // COMMIT
    if FaultAt(fault, imageStep + 1 + |imageEntries|) {
      return RolledBack(false);
    }
    EnrollKeepsSchema(users, images, userSeq, imageSeq, u.value[|users|], im.value[|images|]);
    return Committed(u.value, im.value, userId, imageSeq + 1, userId);
  }

  class EnrollmentStore {
    var users: seq<UserRow>
    var images: seq<ImageRow>
    /** The `sqlite_sequence` entries of the two tables: the largest id each has handed out. */
    var userSeq: nat
    var imageSeq: nat

    ghost predicate Valid()
      reads this
    {
      Schema(users, images, userSeq, imageSeq)
    }

    /** A freshly created database: both tables empty. */
    constructor ()
      ensures Valid() && Paired(users, images)
      ensures users == [] && images == [] && userSeq == 0 && imageSeq == 0
    {
      users, images, userSeq, imageSeq := [], [], 0, 0;
    }

    /**
     * `fetch` is what the agent call produced and `fault` the statement, if
     * any, at which the storage engine fails.
     */
    method SaveEnrollment(name: Option<string>, idNumber: Option<string>, fetch: FetchOutcome, fault: Option<nat>)
      returns (reply: Reply)
      requires Valid()
      modifies this
      ensures Valid()
      ensures old(Paired(users, images)) ==> Paired(users, images)
      ensures reply.status in {200, 400, 409, 500}
      ensures reply.success <==> reply.status == 200
      // validation comes first and touches nothing
      ensures reply.status == 400 <==> !SaveRequestComplete(name, idNumber)
      ensures reply.status == 400 ==> reply.message == Fixed(MissingNameOrId)
      // the gate refuses before any transaction
      ensures SaveRequestComplete(name, idNumber) && fetch.Fetched? && !CompletenessGate(fetch.payload)
              ==> reply == Reply(500, false, Fixed(DataIncomplete))
      ensures SaveRequestComplete(name, idNumber) && fetch.FetchFailed? ==> reply == Reply(500, false, Fixed(SaveFailed))
      // outcome of the transaction
      ensures reply.status == 200 <==> Commits(old(users), name, idNumber, fetch, fault)
      ensures reply.status == 409 <==> HitsDuplicate(old(users), name, idNumber, fetch, fault)
      ensures reply.status == 409 ==> reply.message == AlreadyRegistered(idNumber.value)
      ensures reply.status == 500 && ReachesTransaction(name, idNumber, fetch) ==> reply.message == Fixed(SaveFailed)
      // commit: one new user with a fresh id and the written templates, one image row pointing at it
      ensures reply.status == 200 ==>
        && var id := old(userSeq) + 1;
        && (forall i :: 0 <= i < |old(users)| ==> old(users)[i].id < id)
        && users == old(users) + [UserRow(id, idNumber.value, name.value, Written(ParseTemplateColumn, map[], fetch.payload.templates.value))]
        && images == old(images) + [ImageRow(old(imageSeq) + 1, id, Written(ParseImageColumn, map[], fetch.payload.images.value))]
        && userSeq == id && imageSeq == old(imageSeq) + 1
        && reply.message == Saved(name.value, id)
      // every other outcome: the store is exactly as before
      ensures reply.status != 200 ==>
        users == old(users) && images == old(images) && userSeq == old(userSeq) && imageSeq == old(imageSeq)
    {
      if !SaveRequestComplete(name, idNumber) {
        return Reply(400, false, Fixed(MissingNameOrId));
      }
      if fetch.FetchFailed? {
        return Reply(500, false, Fixed(SaveFailed));
      }
      var payload := fetch.payload;
      if !CompletenessGate(payload) {
        return Reply(500, false, Fixed(DataIncomplete));
      }
      var outcome := Transaction(users, images, userSeq, imageSeq, name.value, idNumber.value,
                                 payload.templates.value, payload.images.value, fault);
      match outcome
      case RolledBack(duplicate) =>
        // ROLLBACK: the working copy is dropped
        if duplicate {
          reply := Reply(409, false, AlreadyRegistered(idNumber.value));
        } else {
          reply := Reply(500, false, Fixed(SaveFailed));
        }
      case Committed(u, im, us, iseq, id) =>
        users, images, userSeq, imageSeq := u, im, us, iseq;
        reply := Reply(200, true, Saved(name.value, id));
    }
  }
}

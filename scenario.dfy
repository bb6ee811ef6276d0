/**
 * A client of the model: enroll one identity with a full payload, try the
 * same id number again, and list the combined templates. The store's
 * replies and state follow from `SaveEnrollment`'s contract; the listing
 * follows from `GetAllTemplates` and `Aggregate`.
 */
module Scenario {
  import opened Base
  import opened Columns
  import opened Agent
  import opened Tables
  import opened Store
  import opened Aggregation

  /** A template payload with one key per column, each spelled as the column is named. */
  function FullTemplates(templates: seq<Bytes>): (r: seq<Entry>)
    requires |templates| == 10
    ensures |r| == 10
    ensures forall i :: 0 <= i < 10 ==> ParseTemplateColumn(r[i].key) == Some(CanonicalOrder[i]) && r[i].value == Base64Text(templates[i])
  {
    AllColumnsRoundTrip();
    seq(10, i requires 0 <= i < 10 => Entry(TemplateColumn(CanonicalOrder[i]), Base64Text(templates[i])))
  }

  function FullImages(images: seq<Bytes>): (r: seq<Entry>)
    requires |images| == 13
    ensures |r| == 13
    ensures forall k :: 0 <= k < 13 ==> ParseImageColumn(r[k].key) == Some(ImageSlotOrder[k]) && r[k].value == Base64Text(images[k])
  {
    AllColumnsRoundTrip();
    seq(13, k requires 0 <= k < 13 => Entry(ImageColumn(ImageSlotOrder[k]), Base64Text(images[k])))
  }

  /** Every key of a full payload is text that names a column, and no two keys name the same column. */
  lemma FullPayloadApplies(templates: seq<Bytes>, images: seq<Bytes>)
    requires |templates| == 10 && |images| == 13
    ensures AllApply(ParseTemplateColumn, FullTemplates(templates))
    ensures AllApply(ParseImageColumn, FullImages(images))
    ensures var e := FullTemplates(templates);
      forall i, j :: 0 <= i < j < |e| ==> ParseTemplateColumn(e[i].key) != ParseTemplateColumn(e[j].key)
  {
    CanonicalOrderIsDistinct();
  }

  method EnrollAliceTwice(templates: seq<Bytes>, images: seq<Bytes>)
    requires |templates| == 10 && |images| == 13
  {
    var store := new EnrollmentStore();
    var entries := FullTemplates(templates);
    var payload := Payload(Some(entries), Some(FullImages(images)));
    FullPayloadApplies(templates, images);

    var first := store.SaveEnrollment(Some("Alice"), Some("ID-001"), Fetched(payload), None);
    assert first == Reply(200, true, Saved("Alice", 1));

    assert IdNumberTaken(store.users, "ID-001") by {
      assert store.users[0].idNumber == "ID-001";
    }
    var second := store.SaveEnrollment(Some("Alice B."), Some("ID-001"), Fetched(payload), None);
    assert second == Reply(409, false, AlreadyRegistered("ID-001"));

    var listed := GetAllTemplates(Some(store.users));
    assert |listed.data| == 1 && listed.data[0].userId == 1 && listed.data[0].name == "Alice";
    CombinedLengthOfPayload(entries);
    assert |listed.data[0].combined| == PayloadLength(entries);
  }
}

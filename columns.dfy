/**
 * The slots of the two tables: the ten fingerprint template columns of
 * `users_and_templates` and the thirteen image columns of
 * `fingerprint_images`, their SQL column names, and how a payload key is
 * resolved to a column. SQLite compares identifiers without regard to ASCII
 * case, so `FMR_RIGHT_THUMB` names the same column as `fmr_right_thumb`.
 */
module Columns {
  import opened Base

  datatype Finger =
    | RightThumb | RightIndex | RightMiddle | RightRing | RightLittle
    | LeftThumb | LeftIndex | LeftMiddle | LeftRing | LeftLittle

  /** The thirteen image slots: three slap composites and one image per finger. */
  datatype ImageSlot =
    | SlapRightFour | SlapLeftFour | SlapTwoThumbs
    | Single(finger: Finger)

  /** The order in which aggregation reads the template columns: right thumb to right little, then left thumb to left little. */
  const CanonicalOrder: seq<Finger> :=
    [RightThumb, RightIndex, RightMiddle, RightRing, RightLittle,
     LeftThumb, LeftIndex, LeftMiddle, LeftRing, LeftLittle]

  const AllFingers: set<Finger> :=
    {RightThumb, RightIndex, RightMiddle, RightRing, RightLittle,
     LeftThumb, LeftIndex, LeftMiddle, LeftRing, LeftLittle}

  /** The image columns in the order `CREATE TABLE fingerprint_images` declares them. */
  const ImageSlotOrder: seq<ImageSlot> :=
    [SlapRightFour, SlapLeftFour, SlapTwoThumbs,
     Single(RightThumb), Single(RightIndex), Single(RightMiddle), Single(RightRing), Single(RightLittle),
     Single(LeftThumb), Single(LeftIndex), Single(LeftMiddle), Single(LeftRing), Single(LeftLittle)]

  const AllImageSlots: set<ImageSlot> :=
    {SlapRightFour, SlapLeftFour, SlapTwoThumbs,
     Single(RightThumb), Single(RightIndex), Single(RightMiddle), Single(RightRing), Single(RightLittle),
     Single(LeftThumb), Single(LeftIndex), Single(LeftMiddle), Single(LeftRing), Single(LeftLittle)}

  function TemplateColumn(f: Finger): string {
    match f
    case RightThumb => "fmr_right_thumb"
    case RightIndex => "fmr_right_index"
    case RightMiddle => "fmr_right_middle"
    case RightRing => "fmr_right_ring"
    case RightLittle => "fmr_right_little"
    case LeftThumb => "fmr_left_thumb"
    case LeftIndex => "fmr_left_index"
    case LeftMiddle => "fmr_left_middle"
    case LeftRing => "fmr_left_ring"
    case LeftLittle => "fmr_left_little"
  }

  function ImageColumn(s: ImageSlot): string {
    match s
    case SlapRightFour => "img_slap_right_four"
    case SlapLeftFour => "img_slap_left_four"
    case SlapTwoThumbs => "img_slap_two_thumbs"
    case Single(RightThumb) => "img_right_thumb"
    case Single(RightIndex) => "img_right_index"
    case Single(RightMiddle) => "img_right_middle"
    case Single(RightRing) => "img_right_ring"
    case Single(RightLittle) => "img_right_little"
    case Single(LeftThumb) => "img_left_thumb"
    case Single(LeftIndex) => "img_left_index"
    case Single(LeftMiddle) => "img_left_middle"
    case Single(LeftRing) => "img_left_ring"
    case Single(LeftLittle) => "img_left_little"
  }

  function LowerChar(c: char): char {
    if 'A' <= c <= 'Z' then (c as int + 32) as char else c
  }

  /** ASCII case folding, as SQLite applies it when it compares identifiers. */
  function LowerAscii(s: string): (r: string)
    ensures |r| == |s|
    ensures forall i :: 0 <= i < |s| ==> r[i] == LowerChar(s[i])
  {
    seq(|s|, i requires 0 <= i < |s| => LowerChar(s[i]))
  }

  /** The template columns by name. */
  const TemplateColumns: map<string, Finger> :=
    map["fmr_right_thumb" := RightThumb, "fmr_right_index" := RightIndex, "fmr_right_middle" := RightMiddle,
        "fmr_right_ring" := RightRing, "fmr_right_little" := RightLittle,
        "fmr_left_thumb" := LeftThumb, "fmr_left_index" := LeftIndex, "fmr_left_middle" := LeftMiddle,
        "fmr_left_ring" := LeftRing, "fmr_left_little" := LeftLittle]

  /** The image columns by name. */
  const ImageColumns: map<string, ImageSlot> :=
    map["img_slap_right_four" := SlapRightFour, "img_slap_left_four" := SlapLeftFour,
        "img_slap_two_thumbs" := SlapTwoThumbs,
        "img_right_thumb" := Single(RightThumb), "img_right_index" := Single(RightIndex),
        "img_right_middle" := Single(RightMiddle), "img_right_ring" := Single(RightRing),
        "img_right_little" := Single(RightLittle),
        "img_left_thumb" := Single(LeftThumb), "img_left_index" := Single(LeftIndex),
        "img_left_middle" := Single(LeftMiddle), "img_left_ring" := Single(LeftRing),
        "img_left_little" := Single(LeftLittle)]

  /** The template column a payload key names in `UPDATE users_and_templates SET <key> = ?`, if any. */
  function ParseTemplateColumn(key: string): (r: Option<Finger>)
  {
    var k := LowerAscii(key);
    if k in TemplateColumns then Some(TemplateColumns[k]) else None
  }

  /** The image column a payload key names in `UPDATE fingerprint_images SET <key> = ?`, if any. */
  function ParseImageColumn(key: string): (r: Option<ImageSlot>)
  {
    var k := LowerAscii(key);
    if k in ImageColumns then Some(ImageColumns[k]) else None
  }

  /** Every column name resolves back to its own slot. */
  lemma TemplateColumnRoundTrip(f: Finger)
    ensures ParseTemplateColumn(TemplateColumn(f)) == Some(f)
  {
    LowerAsciiOfLowerCase(TemplateColumn(f));
  }

  lemma ImageColumnRoundTrip(s: ImageSlot)
    ensures ParseImageColumn(ImageColumn(s)) == Some(s)
  {
    LowerAsciiOfLowerCase(ImageColumn(s));
    match s
    case SlapRightFour =>
    case SlapLeftFour =>
    case SlapTwoThumbs =>
    case Single(f) =>
      match f {
        case RightThumb =>
        case RightIndex =>
        case RightMiddle =>
        case RightRing =>
        case RightLittle =>
        case LeftThumb =>
        case LeftIndex =>
        case LeftMiddle =>
        case LeftRing =>
        case LeftLittle =>
      }
  }

  /** Folding leaves a string without upper-case ASCII letters as it is. */
  lemma LowerAsciiOfLowerCase(s: string)
    requires forall i :: 0 <= i < |s| ==> s[i] == '_' || 'a' <= s[i] <= 'z'
    ensures LowerAscii(s) == s
  {
  }

  lemma AllColumnsRoundTrip()
    ensures forall f :: ParseTemplateColumn(TemplateColumn(f)) == Some(f)
    ensures forall s :: ParseImageColumn(ImageColumn(s)) == Some(s)
  {
    forall f ensures ParseTemplateColumn(TemplateColumn(f)) == Some(f) {
      TemplateColumnRoundTrip(f);
    }
    forall s ensures ParseImageColumn(ImageColumn(s)) == Some(s) {
      ImageColumnRoundTrip(s);
    }
  }

  /** A key resolves to a slot exactly when it spells that slot's column name up to ASCII case. */
  lemma ParseTemplateColumnExactly(key: string, f: Finger)
    ensures ParseTemplateColumn(key) == Some(f) <==> LowerAscii(key) == TemplateColumn(f)
  {
    if LowerAscii(key) == TemplateColumn(f) {
      TemplateColumnRoundTrip(f);
    }
  }

  lemma ParseImageColumnExactly(key: string, s: ImageSlot)
    ensures ParseImageColumn(key) == Some(s) <==> LowerAscii(key) == ImageColumn(s)
  {
    if LowerAscii(key) == ImageColumn(s) {
      ImageColumnRoundTrip(s);
    }
  }

  /** An upper-case spelling names the same column. */
  lemma UpperCaseKeyNamesColumn()
    ensures ParseTemplateColumn("FMR_RIGHT_THUMB") == Some(RightThumb)
  {
    var l := LowerAscii("FMR_RIGHT_THUMB");
    assert l[0] == 'f' && l[1] == 'm' && l[2] == 'r' && l[3] == '_' && l[4] == 'r' && l[5] == 'i' && l[6] == 'g';
    assert l[7] == 'h' && l[8] == 't' && l[9] == '_' && l[10] == 't' && l[11] == 'h' && l[12] == 'u' && l[13] == 'm' && l[14] == 'b';
    assert l == "fmr_right_thumb";
  }

  /** The canonical order lists each finger exactly once. */
  lemma FingersAreTen()
    ensures |AllFingers| == 10
  {
  }

  lemma CanonicalOrderIsDistinct()
    ensures forall i, j :: 0 <= i < j < |CanonicalOrder| ==> CanonicalOrder[i] != CanonicalOrder[j]
  {
  }

  lemma CanonicalOrderIsComplete()
    ensures forall f :: f in AllFingers && f in CanonicalOrder
  {
    forall f ensures f in AllFingers && f in CanonicalOrder {
      match f
      case RightThumb => assert CanonicalOrder[0] == f;
      case RightIndex => assert CanonicalOrder[1] == f;
      case RightMiddle => assert CanonicalOrder[2] == f;
      case RightRing => assert CanonicalOrder[3] == f;
      case RightLittle => assert CanonicalOrder[4] == f;
      case LeftThumb => assert CanonicalOrder[5] == f;
      case LeftIndex => assert CanonicalOrder[6] == f;
      case LeftMiddle => assert CanonicalOrder[7] == f;
      case LeftRing => assert CanonicalOrder[8] == f;
      case LeftLittle => assert CanonicalOrder[9] == f;
    }
  }

  lemma ImageSlotsAreThirteen()
    ensures |AllImageSlots| == 13
    ensures forall s :: s in AllImageSlots
  {
    forall s ensures s in AllImageSlots {
      match s
      case SlapRightFour =>
      case SlapLeftFour =>
      case SlapTwoThumbs =>
      case Single(f) => match f {
        case RightThumb =>
        case RightIndex =>
        case RightMiddle =>
        case RightRing =>
        case RightLittle =>
        case LeftThumb =>
        case LeftIndex =>
        case LeftMiddle =>
        case LeftRing =>
        case LeftLittle =>
      }
    }
  }
}

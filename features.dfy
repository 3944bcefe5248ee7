/** The expression-level decisions the writer takes on a document's features:
    defaults for optional strings, the isFinancial flag, the block selector,
    the effective date, the polarity of a sentiment word and the buffer the
    document identifier is digested from. */
module DocumentFeatures {
  import opened Wrappers

  /** A feature lookup; an absent feature reads as null, here `None`. */
  function Get(features: map<string, string>, name: string): Option<string>
  {
    if name in features then Some(features[name]) else None
  }

  /** `value ?? ""`: a missing optional string becomes the empty string. */
  function OrEmpty(value: Option<string>): (s: string)
    ensures value.Some? ==> s == value.value
    ensures value.None? ==> s == ""
  {
    match value
    case Some(v) => v
    case None => ""
  }

  /** The isFinancial flag holds only for the exact, case-sensitive string "True". */
  function IsFinancial(value: Option<string>): (b: bool)
    ensures b <==> value == Some("True")
  {
    match value
    case Some(v) => v == "True"
    case None => false
  }

  lemma IsFinancialOnlyExactTrue()
    ensures IsFinancial(Some("True"))
    ensures !IsFinancial(Some("true")) && !IsFinancial(Some("TRUE"))
    ensures !IsFinancial(Some("False")) && !IsFinancial(Some("")) && !IsFinancial(None)
  {
  }

  const ContentSelector := "TextBlock/Content"
  const UnseenSelector := "TextBlock/Content/Unseen"

  /** Revision "1" reads the content layer; any other revision, or none, the unseen layer. */
  function BlockSelector(rev: Option<string>): (selector: string)
    ensures selector == ContentSelector <==> rev == Some("1")
    ensures selector == UnseenSelector <==> rev != Some("1")
  {
    if rev != Some("1") then UnseenSelector else ContentSelector
  }

  // Timestamps are DateTime ticks (100 ns units, never negative).
  const TicksPerMinute: nat := 600_000_000
  const TicksPerDay: nat := 864_000_000_000

  /** The calendar day of a timestamp (the "yyyy-MM-dd" projection). */
  function Day(t: nat): nat
  {
    t / TicksPerDay
  }

  /** The minute of a timestamp (the "yyyy-MM-dd HH:mm" projection). */
  function Minute(t: nat): nat
  {
    t / TicksPerMinute
  }

  /** The effective day of a document: the ingestion day, unless the
      publication time parsed, lies strictly before ingestion and less than
      three days before it; then the publication day. A publication time that
      did not parse is `None` and leaves the ingestion day in place. */
  function EffectiveDay(timeGet: nat, pubTime: Option<nat>): (day: nat)
    ensures day == Day(timeGet) || (pubTime.Some? && day == Day(pubTime.value))
  {
    if pubTime.Some? && pubTime.value < timeGet && timeGet - pubTime.value < 3 * TicksPerDay
    then Day(pubTime.value)
    else Day(timeGet)
  }

  lemma DayMonotone(a: nat, b: nat)
    requires a <= b
    ensures Day(a) <= Day(b)
  {
  }

  lemma DayShift(t: nat, days: nat)
    ensures Day(t + days * TicksPerDay) == Day(t) + days
  {
  }

  /** The effective day is never after the ingestion day and never more than
      three calendar days before it. It is the publication day exactly when
      the publication time parsed, lies strictly before ingestion and less
      than three days (in ticks) before it; without a parsed publication
      time, with one not strictly before ingestion, or with one three days or
      more before ingestion, it is the ingestion day. */
  lemma EffectiveDayBounds(timeGet: nat, pubTime: Option<nat>)
    ensures Day(timeGet) <= EffectiveDay(timeGet, pubTime) + 3
    ensures EffectiveDay(timeGet, pubTime) <= Day(timeGet)
    ensures pubTime.None? ==> EffectiveDay(timeGet, pubTime) == Day(timeGet)
    ensures pubTime.Some? && timeGet <= pubTime.value ==> EffectiveDay(timeGet, pubTime) == Day(timeGet)
    ensures pubTime.Some? && timeGet - pubTime.value >= 3 * TicksPerDay ==> EffectiveDay(timeGet, pubTime) == Day(timeGet)
    ensures pubTime.Some? && pubTime.value < timeGet && timeGet - pubTime.value < 3 * TicksPerDay
            ==> EffectiveDay(timeGet, pubTime) == Day(pubTime.value)
  {
    if pubTime.Some? && pubTime.value < timeGet && timeGet - pubTime.value < 3 * TicksPerDay {
      var p := pubTime.value;
      DayMonotone(p, timeGet);
      DayMonotone(timeGet, p + 3 * TicksPerDay);
      DayShift(p, 3);
    }
  }

  /** Ingestion on day d at noon: a publication two days before is used, one
      five days before or two days after is not, an unparsable one is not. */
  lemma EffectiveDayExamples(d: nat)
    requires d >= 5
    ensures EffectiveDay(d * TicksPerDay + TicksPerDay / 2, Some((d - 2) * TicksPerDay)) == d - 2
    ensures EffectiveDay(d * TicksPerDay + TicksPerDay / 2, Some((d - 5) * TicksPerDay)) == d
    ensures EffectiveDay(d * TicksPerDay + TicksPerDay / 2, Some((d + 2) * TicksPerDay)) == d
    ensures EffectiveDay(d * TicksPerDay + TicksPerDay / 2, None) == d
  {
    DayShift(TicksPerDay / 2, d);
    DayShift(0, d - 2);
    DayShift(0, d - 5);
  }

  const PositiveSuffix := "PositiveWord"
  const NegativeSuffix := "NegativeWord"

  /** Ordinal suffix test. */
  predicate EndsWith(s: string, suffix: string)
  {
    |suffix| <= |s| && s[|s| - |suffix|..] == suffix
  }

  datatype Polarity = Positive | Negative | Unclassified

  /** A sentiment word's polarity, read from the suffix of its class URI;
      the positive suffix is tested first. */
  function Classify(classUri: string): Polarity
  {
    if EndsWith(classUri, PositiveSuffix) then Positive
    else if EndsWith(classUri, NegativeSuffix) then Negative
    else Unclassified
  }

  /** Both directions: a class URI is positive exactly when it ends with
      "PositiveWord" and negative exactly when it ends with "NegativeWord";
      no URI ends with both, so testing the positive suffix first loses nothing. */
  lemma ClassifyBySuffix(classUri: string)
    ensures Classify(classUri) == Positive <==> EndsWith(classUri, PositiveSuffix)
    ensures Classify(classUri) == Negative <==> EndsWith(classUri, NegativeSuffix)
    ensures Classify(classUri) == Unclassified <==>
      !EndsWith(classUri, PositiveSuffix) && !EndsWith(classUri, NegativeSuffix)
  {
  }

  newtype byte = x: int | 0 <= x < 256

  /** The 16 bytes of a parsed GUID, in the order ToByteArray gives them. */
  type GuidBytes = s: seq<byte> | |s| == 16 witness seq(16, _ => 0)

  /** The 32-byte buffer whose digest identifies a document: the corpus
      GUID's bytes, then the document GUID's bytes. */
  function DigestInput(corpusGuid: GuidBytes, documentGuid: GuidBytes): (buffer: seq<byte>)
    ensures |buffer| == 32
    ensures buffer[..16] == corpusGuid && buffer[16..] == documentGuid
  {
    corpusGuid + documentGuid
  }

  /** The buffer determines both GUIDs, so swapping corpus and document
      changes the buffer exactly when the two GUIDs differ. */
  lemma DigestInputInjective(c1: GuidBytes, d1: GuidBytes, c2: GuidBytes, d2: GuidBytes)
    ensures DigestInput(c1, d1) == DigestInput(c2, d2) <==> c1 == c2 && d1 == d2
  {
    if DigestInput(c1, d1) == DigestInput(c2, d2) {
      assert c1 == DigestInput(c1, d1)[..16] == DigestInput(c2, d2)[..16] == c2;
      assert d1 == DigestInput(c1, d1)[16..] == DigestInput(c2, d2)[16..] == d2;
    }
  }

  lemma DigestInputOrderSensitive(corpusGuid: GuidBytes, documentGuid: GuidBytes)
    ensures DigestInput(corpusGuid, documentGuid) == DigestInput(documentGuid, corpusGuid)
            <==> corpusGuid == documentGuid
  {
    DigestInputInjective(corpusGuid, documentGuid, documentGuid, corpusGuid);
  }
}

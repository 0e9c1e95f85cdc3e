/** `submissionSchema`: the validator a submission form's data must pass.
    The raw data is a JSON object; the result of a successful parse holds
    exactly the four declared fields. */
module SubmissionSchema {
  import opened Wrappers
  import opened Languages

  /** A JSON value as it may arrive in the raw form data. */
  datatype Json =
    | JString(str: string)
    | JNumber(num: real)
    | JBool(truth: bool)
    | JNull
    | JArray(items: seq<Json>)
    | JObject(members: map<string, Json>)

  /** A JSON object; a key that is absent reads as `undefined`. */
  type RawObject = map<string, Json>

  /** Bounds on the length of `code`, in UTF-16 code units. */
  const MinCodeLength: nat := 50
  const MaxCodeLength: nat := 65000

  const DeclaredKeys: set<string> := {"problemId", "contestId", "language", "code"}

  /** The parsed form data. */
  datatype Submission = Submission(
    problemId: string,
    contestId: Option<string>,
    language: Language,
    code: string)

  /** `z.string()`: the key must be present and hold a string. */
  function StringField(raw: RawObject, key: string): Option<string>
  {
    if key in raw && raw[key].JString? then Some(raw[key].str) else None
  }

  /** `z.string().optional()`: absent is accepted as absent; present must
      be a string (`null` is not `undefined`). */
  function OptionalStringField(raw: RawObject, key: string): Option<Option<string>>
  {
    if key !in raw then Some(None)
    else if raw[key].JString? then Some(Some(raw[key].str))
    else None
  }

  /** `z.nativeEnum(Language)`: the value must be one of the enumeration's values. */
  function EnumField(raw: RawObject, key: string): Option<Language>
  {
    match StringField(raw, key)
    case None => None
    case Some(s) => FromName(s)
  }

  /** `z.string().min(lo).max(hi)`. */
  function BoundedStringField(raw: RawObject, key: string, lo: nat, hi: nat): Option<string>
  {
    match StringField(raw, key)
    case None => None
    case Some(s) => if lo <= |s| && |s| <= hi then Some(s) else None
  }

  /** `submissionSchema.safeParse`: `Some` exactly when every declared field
      is acceptable; keys the schema does not declare are dropped. */
  function SafeParse(raw: RawObject): (r: Option<Submission>)
    ensures r.Some? <==>
      && "problemId" in raw && raw["problemId"].JString?
      && ("contestId" in raw ==> raw["contestId"].JString?)
      && "language" in raw && raw["language"].JString?
      && FromName(raw["language"].str).Some?
      && "code" in raw && raw["code"].JString?
      && MinCodeLength <= |raw["code"].str| <= MaxCodeLength
    ensures r.Some? ==> Shape(r.value) == Declared(raw)
  {
    match (StringField(raw, "problemId"), OptionalStringField(raw, "contestId"),
           EnumField(raw, "language"), BoundedStringField(raw, "code", MinCodeLength, MaxCodeLength))
    case (Some(p), Some(c), Some(l), Some(code)) =>
      var s := Submission(p, c, l, code);
      assert Shape(s) == Declared(raw) by {
        ShapeKeys(s);
        assert forall k :: k in Declared(raw) <==> k in Shape(s);
      }
      Some(s)
    case _ => None
  }

  /** The object a client sends for `s`: the four fields under their own
      names, with `contestId` left out when there is none. */
  function Shape(s: Submission): RawObject
  {
    var required := map["problemId" := JString(s.problemId),
                        "language" := JString(Name(s.language)),
                        "code" := JString(s.code)];
    match s.contestId
    case None => required
    case Some(c) => required["contestId" := JString(c)]
  }

  /** The part of `raw` the schema reads. */
  function Declared(raw: RawObject): RawObject
  {
    map k | k in raw && k in DeclaredKeys :: raw[k]
  }

  lemma ShapeKeys(s: Submission)
    ensures Shape(s).Keys <= DeclaredKeys
    ensures "contestId" in Shape(s) <==> s.contestId.Some?
  {
  }

  /** A well-formed submission survives the validator unchanged, whatever
      undeclared keys travel with it; one whose code is too short or too
      long does not. */
  lemma ShapeRoundTrip(s: Submission, extra: RawObject)
    requires extra.Keys !! DeclaredKeys
    ensures SafeParse(Shape(s) + extra) == Some(s) <==> MinCodeLength <= |s.code| <= MaxCodeLength
    ensures SafeParse(Shape(s) + extra).None? <==> !(MinCodeLength <= |s.code| <= MaxCodeLength)
  {
  }

  /** The length bounds are inclusive at both ends. */
  lemma CodeLengthBoundaries(s: Submission, code: string)
    ensures |code| == MinCodeLength - 1 ==> SafeParse(Shape(s.(code := code))).None?
    ensures |code| == MinCodeLength ==> SafeParse(Shape(s.(code := code))) == Some(s.(code := code))
    ensures |code| == MaxCodeLength ==> SafeParse(Shape(s.(code := code))) == Some(s.(code := code))
    ensures |code| == MaxCodeLength + 1 ==> SafeParse(Shape(s.(code := code))).None?
  {
  }

  /** Removing the required `problemId` makes any object invalid. */
  lemma ProblemIdRequired(raw: RawObject)
    ensures SafeParse(raw - {"problemId"}).None?
  {
  }

  /** A `language` that is not one of the enumeration's values, or not a
      string at all, makes any object invalid. */
  lemma LanguageMustBeEnumMember(raw: RawObject, v: Json)
    requires v.JString? ==> forall l: Language :: Name(l) != v.str
    ensures SafeParse(raw["language" := v]).None?
  {
  }

  /** `contestId` may be left out; `null` or any other non-string is refused. */
  lemma ContestIdOptional(raw: RawObject, v: Json)
    requires !v.JString?
    ensures SafeParse(raw - {"contestId"}).Some? <==> SafeParse(raw["contestId" := JString("")]).Some?
    ensures SafeParse(raw["contestId" := v]).None?
  {
  }
}

/** The request schemas, as predicates over a request's JSON fields, and the
    middleware that answers 400 when a schema refuses the input. Joi's
    defaults are modelled: keys a schema does not name are refused, strings
    must be non-empty, numbers may arrive as numeric strings, booleans as
    "true"/"false" in any case. The email and URI format checks are passed in. */
module Validation {
  import opened Common
  import opened JsText

  /** What `req[property]` holds: nothing (no JSON body was parsed), a
      non-object, or an object's fields. */
  datatype Input = Missing | NotObject | Fields(fields: map<string, Json>)

  /** Joi's number() refuses integers beyond 2^53 - 1. */
  const MaxSafeInteger: int := 9007199254740991

  /** `Joi.string().min(min).max(max)`: a string, never empty, whose length in
      UTF-16 units lies within the bounds. */
  predicate StringOk(v: Json, min: nat, max: Option<nat>)
  {
    v.JStr? && v.s != [] && Utf16Length(v.s) >= min && (max.None? || Utf16Length(v.s) <= max.value)
  }

  /** The integer a number field denotes: an integral JSON number, or a string
      of decimal digits with an optional minus sign. */
  function IntegerValue(v: Json): (r: Option<int>)
    ensures v.JNum? && v.n.Floor as real == v.n ==> r == Some(v.n.Floor)
    ensures v.JStr? && AllDigits(v.s) && v.s != [] ==> r == Some(DigitsValue(v.s))
    ensures v.JBool? || v.JNull? || v.JArray? || v.JObject? ==> r.None?
  {
    match v
    case JNum(n) => if n.Floor as real == n then Some(n.Floor) else None
    case JStr(s) =>
      if s != [] && AllDigits(s) then Some(DigitsValue(s))
      else if |s| >= 2 && s[0] == '-' && AllDigits(s[1..]) then Some(-(DigitsValue(s[1..]) as int))
      else None
    case _ => None
  }

  /** `Joi.number().integer().min(min).max(max)`. */
  predicate IntegerOk(v: Json, min: int, max: Option<int>)
  {
    var n := IntegerValue(v);
    n.Some? && min <= n.value && -MaxSafeInteger <= n.value <= MaxSafeInteger && (max.None? || n.value <= max.value)
  }

  /** `Joi.number().integer().positive()`. */
  predicate PositiveId(v: Json)
  {
    IntegerOk(v, 1, None)
  }

  /** `Joi.boolean()`. */
  predicate BooleanOk(v: Json)
  {
    v.JBool? || (v.JStr? && (Lower(v.s) == "true" || Lower(v.s) == "false"))
  }

  /** An optional key: absent, or its value passes. */
  predicate OptionalString(fields: map<string, Json>, key: string, min: nat, max: Option<nat>)
  {
    key !in fields || StringOk(fields[key], min, max)
  }

  predicate RequiredString(fields: map<string, Json>, key: string, min: nat, max: Option<nat>)
  {
    key in fields && StringOk(fields[key], min, max)
  }

  datatype Schema =
    | RegisterSchema | LoginSchema | ProfileUpdateSchema | ConsultationSchema | MessageSchema
    | ArticleSchema | PrescriptionSchema | IdParamSchema | PaginationSchema
    | UserIdParamSchema   // the corrected parameter schema of the history route

  /** The format checks Joi performs on `.email()` and `.uri()` strings. */
  datatype Formats = Formats(isEmail: string -> bool, isUri: string -> bool)

  const Roles: set<string> := {"farmer", "veterinarian", "administrator"}

  /** The keys each schema names. */
  function Keys(schema: Schema): set<string>
  {
    match schema
    case RegisterSchema => {"name", "email", "password", "role", "specialization"}
    case LoginSchema => {"email", "password"}
    case ProfileUpdateSchema => {"name", "specialization", "is_available"}
    case ConsultationSchema => {"veterinarian_id", "diagnosis_id"}
    case MessageSchema => {"message"}
    case ArticleSchema => {"title", "content", "thumbnail_url", "published"}
    case PrescriptionSchema => {"diagnosis_id", "farmer_id", "consultation_id", "medicine", "usage_instructions", "notes"}
    case IdParamSchema => {"id"}
    case PaginationSchema => {"page", "limit"}
    case UserIdParamSchema => {"userId"}
  }

  predicate EmailOk(fields: map<string, Json>, f: Formats)
  {
    RequiredString(fields, "email", 0, None) && f.isEmail(fields["email"].s)
  }

  /** registerSchema: specialization is required (2..200) for a veterinarian
      and anything goes for it otherwise. */
  predicate RegisterOk(fields: map<string, Json>, f: Formats)
  {
    && RequiredString(fields, "name", 2, Some(100))
    && EmailOk(fields, f)
    && RequiredString(fields, "password", 6, None)
    && "role" in fields && fields["role"].JStr? && fields["role"].s in Roles
    && (fields["role"].s == "veterinarian" ==> RequiredString(fields, "specialization", 2, Some(200)))
  }

  predicate ProfileUpdateOk(fields: map<string, Json>)
  {
    && |fields| >= 1
    && OptionalString(fields, "name", 2, Some(100))
    && OptionalString(fields, "specialization", 2, Some(200))
    && ("is_available" in fields ==> BooleanOk(fields["is_available"]))
  }

  predicate ArticleOk(fields: map<string, Json>, f: Formats)
  {
    && RequiredString(fields, "title", 5, Some(200))
    && RequiredString(fields, "content", 10, None)
    && OptionalString(fields, "thumbnail_url", 0, None)
    && ("thumbnail_url" in fields ==> f.isUri(fields["thumbnail_url"].s))
    && ("published" in fields ==> BooleanOk(fields["published"]))
  }

  predicate PrescriptionOk(fields: map<string, Json>)
  {
    && "diagnosis_id" in fields && PositiveId(fields["diagnosis_id"])
    && "farmer_id" in fields && PositiveId(fields["farmer_id"])
    && ("consultation_id" in fields ==> PositiveId(fields["consultation_id"]))
    && RequiredString(fields, "medicine", 2, Some(500))
    && RequiredString(fields, "usage_instructions", 10, Some(1000))
    && OptionalString(fields, "notes", 0, Some(500))
  }

  predicate PaginationOk(fields: map<string, Json>)
  {
    && ("page" in fields ==> IntegerOk(fields["page"], 1, None))
    && ("limit" in fields ==> IntegerOk(fields["limit"], 1, Some(100)))
  }

  /** Whether a schema accepts an object's fields. */
  predicate FieldsValid(schema: Schema, fields: map<string, Json>, f: Formats)
  {
    && fields.Keys <= Keys(schema)
    && match schema
       case RegisterSchema => RegisterOk(fields, f)
       case LoginSchema => EmailOk(fields, f) && RequiredString(fields, "password", 0, None)
       case ProfileUpdateSchema => ProfileUpdateOk(fields)
       case ConsultationSchema =>
         "veterinarian_id" in fields && PositiveId(fields["veterinarian_id"])
         && "diagnosis_id" in fields && PositiveId(fields["diagnosis_id"])
       case MessageSchema => RequiredString(fields, "message", 1, Some(1000))
       case ArticleSchema => ArticleOk(fields, f)
       case PrescriptionSchema => PrescriptionOk(fields)
       case IdParamSchema => "id" in fields && PositiveId(fields["id"])
       case PaginationSchema => PaginationOk(fields)
       case UserIdParamSchema => "userId" in fields && PositiveId(fields["userId"])
  }

  /** Whether `schema.validate(input)` reports no error: an absent value is
      not refused by an optional object schema. */
  predicate Accepts(schema: Schema, input: Input, f: Formats)
  {
    input.Missing? || (input.Fields? && FieldsValid(schema, input.fields, f))
  }

  /** One entry of Joi's error details. */
  datatype Detail = Detail(path: seq<string>, message: string)

  datatype FieldError = FieldError(field: string, message: string)

  /** The middleware's outcome: next, or 400 'Validation error' with the details. */
  datatype Verdict = Pass | ValidationFailed(status: int, message: string, details: seq<FieldError>)

  function FieldErrors(details: seq<Detail>): (r: seq<FieldError>)
    ensures |r| == |details|
    ensures forall i :: 0 <= i < |details| ==>
              r[i] == FieldError(Join(details[i].path, "."), details[i].message)
  {
    if details == [] then []
    else [FieldError(Join(details[0].path, "."), details[0].message)] + FieldErrors(details[1..])
  }

  /** validate(schema, property): `details` is what Joi reports when it refuses. */
  function Validate(schema: Schema, input: Input, f: Formats, details: seq<Detail>): (v: Verdict)
    ensures v.Pass? <==> Accepts(schema, input, f)
    ensures v.ValidationFailed? ==>
              v.status == 400 && v.message == "Validation error" && v.details == FieldErrors(details)
  {
    if Accepts(schema, input, f) then Pass else ValidationFailed(400, "Validation error", FieldErrors(details))
  }

  /** A nested path is reported joined with dots. */
  lemma NestedFieldName(details: seq<Detail>, i: nat, a: string, b: string)
    requires i < |details| && details[i].path == [a, b]
    ensures FieldErrors(details)[i].field == a + "." + b
  {
    JoinTwo(a, b, ".");
  }

  // ---------------------------------------------------------------------------
  // What the schemas accept

  /** Every schema refuses a key it does not name, and a non-object. */
  lemma UnknownKeyRefused(schema: Schema, fields: map<string, Json>, key: string, f: Formats)
    requires key in fields && key !in Keys(schema)
    ensures !FieldsValid(schema, fields, f)
    ensures !Accepts(schema, NotObject, f)
  {
  }

  /** Registration: the name is 2..100 UTF-16 units, the password at least 6,
      the role one of the three, and specialization matters exactly for a
      veterinarian. */
  lemma RegisterMeaning(fields: map<string, Json>, f: Formats)
    ensures FieldsValid(RegisterSchema, fields, f) ==>
              && 2 <= Utf16Length(fields["name"].s) <= 100
              && Utf16Length(fields["password"].s) >= 6
              && fields["role"].s in Roles
    ensures FieldsValid(RegisterSchema, fields, f) && fields["role"].s == "veterinarian" ==>
              "specialization" in fields && 2 <= Utf16Length(fields["specialization"].s) <= 200
  {
  }

  /** Lengths are UTF-16 units: a name of 51 characters beyond U+FFFF (such as
      the emoji U+1F414) is 102 units long and too long for registration. */
  lemma AstralNameRefused(fields: map<string, Json>, f: Formats)
    requires "name" in fields && fields["name"].JStr? && |fields["name"].s| == 51
    requires forall i :: 0 <= i < 51 ==> fields["name"].s[i] as int > 0xFFFF
    ensures Utf16Length(fields["name"].s) == 102
    ensures !FieldsValid(RegisterSchema, fields, f)
  {
  }

  /** The same name in characters up to U+FFFF is within the bound. */
  lemma BasicNameLength(s: string)
    requires 2 <= |s| <= 100 && forall i :: 0 <= i < |s| ==> s[i] as int <= 0xFFFF
    ensures StringOk(JStr(s), 2, Some(100))
  {
  }

  /** For any other role, specialization may be anything, or absent. */
  lemma SpecializationOptionalOtherwise(fields: map<string, Json>, f: Formats, v: Json)
    requires FieldsValid(RegisterSchema, fields, f) && fields["role"].s != "veterinarian"
    ensures FieldsValid(RegisterSchema, fields["specialization" := v], f)
    ensures FieldsValid(RegisterSchema, fields - {"specialization"}, f)
  {
    var g := fields["specialization" := v];
    assert g["name"] == fields["name"] && g["email"] == fields["email"];
    assert g["password"] == fields["password"] && g["role"] == fields["role"];
    var h := fields - {"specialization"};
    assert h["name"] == fields["name"] && h["email"] == fields["email"];
    assert h["password"] == fields["password"] && h["role"] == fields["role"];
  }

  /** A veterinarian without a specialization is refused. */
  lemma VeterinarianNeedsSpecialization(fields: map<string, Json>, f: Formats)
    requires "role" in fields && fields["role"] == JStr("veterinarian") && "specialization" !in fields
    ensures !FieldsValid(RegisterSchema, fields, f)
  {
  }

  /** A profile update needs at least one field; each given field obeys its bounds. */
  lemma ProfileUpdateMeaning(fields: map<string, Json>, f: Formats)
    ensures !FieldsValid(ProfileUpdateSchema, map[], f)
    ensures FieldsValid(ProfileUpdateSchema, fields, f) ==>
              && |fields| >= 1
              && ("name" in fields ==> 2 <= Utf16Length(fields["name"].s) <= 100)
              && ("specialization" in fields ==> 2 <= Utf16Length(fields["specialization"].s) <= 200)
    ensures FieldsValid(ProfileUpdateSchema, map["is_available" := JBool(false)], f)
    ensures FieldsValid(ProfileUpdateSchema, map["is_available" := JStr("TRUE")], f)
  {
    assert Lower("TRUE") == "true";
  }

  /** Pagination: both parameters are optional integers, page at least 1 and
      limit within 1..100. */
  lemma PaginationMeaning(fields: map<string, Json>, f: Formats)
    ensures FieldsValid(PaginationSchema, map[], f)
    ensures FieldsValid(PaginationSchema, fields, f) && "limit" in fields ==>
              1 <= IntegerValue(fields["limit"]).value <= 100
    ensures FieldsValid(PaginationSchema, fields, f) && "page" in fields ==>
              IntegerValue(fields["page"]).value >= 1
  {
  }

  /** The bounds of the limit, given as query strings. */
  lemma PaginationExamples(f: Formats)
    ensures FieldsValid(PaginationSchema, map["page" := JStr("2"), "limit" := JStr("100")], f)
    ensures !FieldsValid(PaginationSchema, map["limit" := JStr("101")], f)
    ensures !FieldsValid(PaginationSchema, map["page" := JStr("0")], f)
  {
    assert IntegerValue(JStr("2")) == Some(2) by { assert AllDigits("2"); }
    assert IntegerValue(JStr("100")) == Some(100) by { assert AllDigits("100"); assert DigitsValue("100") == 100; }
    assert IntegerValue(JStr("101")) == Some(101) by { assert AllDigits("101"); assert DigitsValue("101") == 101; }
    assert IntegerValue(JStr("0")) == Some(0) by { assert AllDigits("0"); }
  }

  /** The id parameter is a positive integer: 0, negatives and text are refused. */
  lemma IdParamMeaning(fields: map<string, Json>, f: Formats)
    ensures FieldsValid(IdParamSchema, fields, f) ==> "id" in fields && IntegerValue(fields["id"]).value >= 1
    ensures FieldsValid(IdParamSchema, map["id" := JStr("7")], f)
    ensures !FieldsValid(IdParamSchema, map["id" := JStr("0")], f)
    ensures !FieldsValid(IdParamSchema, map["id" := JNum(-3.0)], f)
    ensures !FieldsValid(IdParamSchema, map["id" := JNum(2.5)], f)
    ensures !FieldsValid(IdParamSchema, map["id" := JStr("abc")], f)
  {
    assert IntegerValue(JStr("7")) == Some(7) by { assert AllDigits("7"); }
    assert IntegerValue(JStr("0")) == Some(0) by { assert AllDigits("0"); }
    assert "abc"[0] == 'a' && !IsDigit("abc"[0]);
    assert IntegerValue(JNum(2.5)) == None by { assert (2.5).Floor == 2; }
  }

  /** A message is 1..1000 UTF-16 units. */
  lemma MessageMeaning(fields: map<string, Json>, f: Formats)
    ensures FieldsValid(MessageSchema, fields, f) <==>
              fields.Keys <= {"message"} && "message" in fields && fields["message"].JStr?
              && 1 <= Utf16Length(fields["message"].s) <= 1000
    ensures !FieldsValid(MessageSchema, map["message" := JStr("")], f)
  {
  }

  /** A prescription needs positive diagnosis and farmer ids, a medicine of
      2..500 UTF-16 units and instructions of 10..1000; notes, when given, are
      non-empty and at most 500. */
  lemma PrescriptionMeaning(fields: map<string, Json>, f: Formats)
    ensures FieldsValid(PrescriptionSchema, fields, f) ==>
              && IntegerValue(fields["diagnosis_id"]).value >= 1
              && IntegerValue(fields["farmer_id"]).value >= 1
              && 2 <= Utf16Length(fields["medicine"].s) <= 500
              && 10 <= Utf16Length(fields["usage_instructions"].s) <= 1000
              && ("notes" in fields ==> 1 <= Utf16Length(fields["notes"].s) <= 500)
              && ("consultation_id" in fields ==> IntegerValue(fields["consultation_id"]).value >= 1)
  {
  }

  /** An article needs a 5..200 title and content of at least 10 UTF-16 units. */
  lemma ArticleMeaning(fields: map<string, Json>, f: Formats)
    ensures FieldsValid(ArticleSchema, fields, f) ==>
              && 5 <= Utf16Length(fields["title"].s) <= 200
              && Utf16Length(fields["content"].s) >= 10
              && ("thumbnail_url" in fields ==> f.isUri(fields["thumbnail_url"].s))
  {
  }

  /** The history route's parameters are `{userId}`, checked against the id
      schema: it demands `id` and refuses `userId`, so it refuses them all. */
  lemma IdSchemaRefusesUserIdParams(v: Json, f: Formats)
    ensures !Accepts(IdParamSchema, Fields(map["userId" := v]), f)
  {
    assert "userId" in map["userId" := v];
  }

  /** The schema the route evidently means accepts the owner's id. */
  lemma UserIdSchemaAcceptsIds(n: int, f: Formats)
    requires 1 <= n <= MaxSafeInteger
    ensures Accepts(UserIdParamSchema, Fields(map["userId" := JStr(IntToString(n))]), f)
  {
    assert IntToString(n) == NatToString(n);
    NatToStringValue(n);
  }
}

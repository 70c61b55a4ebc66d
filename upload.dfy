/** The upload middleware: the image-type filter, the size and count limits,
    the order in which the multipart parser applies them to the incoming file
    parts, and the mapping of its errors onto 400 answers for the single- and
    multi-file routes. */
module Upload {
  import opened Common
  import opened JsText

  const DefaultMaxSize: int := 1048576
  const Megabyte: int := 1048576

  /** One file part of a multipart request. */
  datatype Part = Part(field: string, mimetype: string, size: nat)

  /** fileFilter's verdict: accept, or an error with its message. */
  datatype Filter = Accept | Refuse(message: string)

  const NotAnImage := "Only image files are allowed"

  /** fileFilter, with ALLOWED_IMAGE_TYPES given: a type under image/ must be one of
      the comma-separated entries exactly (they are not trimmed). */
  function FileFilter(mimetype: string, allowedTypes: string): (r: Filter)
    ensures !StartsWith(mimetype, "image/") ==> r == Refuse(NotAnImage)
    ensures StartsWith(mimetype, "image/") ==>
              (r.Accept? <==> mimetype in Split(allowedTypes, ','))
    ensures StartsWith(mimetype, "image/") && r.Refuse? ==>
              r.message == "Only " + Join(Split(allowedTypes, ','), ", ") + " files are allowed"
  {
    if !StartsWith(mimetype, "image/") then Refuse(NotAnImage)
    else
      var allowed := Split(allowedTypes, ',');
      if mimetype !in allowed then Refuse("Only " + Join(allowed, ", ") + " files are allowed") else Accept
  }

  /** A non-image is refused whatever the allow-list says. */
  lemma NonImageRefusedFirst(mimetype: string, list1: string, list2: string)
    requires !StartsWith(mimetype, "image/")
    ensures FileFilter(mimetype, list1) == FileFilter(mimetype, list2) == Refuse(NotAnImage)
  {
  }

  /** Splitting at a separator splits the pieces on either side. */
  lemma {:induction false} SplitAround(a: string, b: string, c: char)
    requires c !in a
    ensures Split(a + [c] + b, c) == [a] + Split(b, c)
  {
    if a == [] {
      assert a + [c] + b == [c] + b;
      assert ([c] + b)[1..] == b;
    } else {
      assert (a + [c] + b)[1..] == a[1..] + [c] + b;
      SplitAround(a[1..], b, c);
      assert [a[0]] + a[1..] == a;
    }
  }

  /** A piece without separators splits into itself. */
  lemma {:induction false} SplitWhole(s: string, c: char)
    requires c !in s
    ensures Split(s, c) == [s]
  {
    if s != [] {
      SplitWhole(s[1..], c);
      assert [s[0]] + s[1..] == s;
    }
  }

  /** The entries are not trimmed: in "a, t" the second entry is " t", so t
      itself is refused. */
  lemma SpacedListRefuses(a: string, t: string)
    requires StartsWith(t, "image/") && ',' !in a && ',' !in t && t != a
    ensures FileFilter(t, a + ", " + t).Refuse?
    ensures FileFilter(t, a + "," + t).Accept?
  {
    assert a + ", " + t == a + [','] + (" " + t);
    assert ',' !in " " + t;
    SplitAround(a, " " + t, ',');
    SplitWhole(" " + t, ',');
    assert |" " + t| != |t|;
    assert a + "," + t == a + [','] + t;
    SplitAround(a, t, ',');
    SplitWhole(t, ',');
  }

  /** The limits handed to the parser: the byte limit from MAX_IMAGE_SIZE
      (1 MB when it does not parse or is 0) and at most one file. */
  datatype Limits = Limits(fileSize: int, files: nat)

  function UploadLimits(maxImageSize: Option<string>): (l: Limits)
    ensures l.files == 1
    ensures ParseIntOpt(maxImageSize).None? ==> l.fileSize == DefaultMaxSize
    ensures ParseIntOpt(maxImageSize).Some? && ParseIntOpt(maxImageSize).value != 0 ==>
              l.fileSize == ParseIntOpt(maxImageSize).value
    ensures ParseIntOpt(maxImageSize) == Some(0) ==> l.fileSize == DefaultMaxSize
  {
    Limits(ParseIntOr(maxImageSize, DefaultMaxSize), 1)
  }

  /** What the parser reports: a parser error with its code, the filter's
      error, or the files it kept. */
  datatype Parsed = ParserError(code: string, message: string) | FilterError(message: string) | Files(files: seq<Part>)

  /** The parser over the parts in order: a part beyond the files limit stops
      it with LIMIT_FILE_COUNT; then a part for another field, or beyond the
      route's own count, stops it with LIMIT_UNEXPECTED_FILE; then the filter;
      then a part larger than the byte limit stops it with LIMIT_FILE_SIZE. */
  function Parse(parts: seq<Part>, limits: Limits, field: string, maxCount: nat, allowedTypes: string): (r: Parsed)
    ensures r.Files? ==> |r.files| == |parts| <= limits.files && |parts| <= maxCount
    ensures r.Files? ==> r.files == parts
  {
    ParseFrom(parts, 0, limits, field, maxCount, allowedTypes)
  }

  function ParseFrom(parts: seq<Part>, i: nat, limits: Limits, field: string, maxCount: nat,
                     allowedTypes: string): (r: Parsed)
    requires i <= |parts|
    ensures r.Files? ==> r.files == parts[i..]
    ensures r.Files? && i < |parts| ==> |parts| <= limits.files && |parts| <= maxCount
    decreases |parts| - i
  {
    if i == |parts| then Files([])
    else
      var p := parts[i];
      if i >= limits.files then ParserError("LIMIT_FILE_COUNT", "Too many files")
      else if p.field != field || i >= maxCount then ParserError("LIMIT_UNEXPECTED_FILE", "Unexpected field")
      else
        var verdict := FileFilter(p.mimetype, allowedTypes);
        if verdict.Refuse? then FilterError(verdict.message)
        else if p.size > limits.fileSize then ParserError("LIMIT_FILE_SIZE", "File too large")
        else
          var rest := ParseFrom(parts, i + 1, limits, field, maxCount, allowedTypes);
          if rest.Files? then Files([p] + rest.files) else rest
  }

  /** `Math.round(parseInt(MAX_IMAGE_SIZE) / 1024 / 1024)` in the size message,
      as written: NaN when the variable does not parse. */
  function MegabytesAsWritten(maxImageSize: Option<string>): string
  {
    var n := ParseIntOpt(maxImageSize);
    if n.None? then "NaN" else IntToString(RoundedMegabytes(n.value))
  }

  /** Math.round of a byte count in megabytes (halves round up). */
  function RoundedMegabytes(bytes: int): int
  {
    (2 * bytes + Megabyte) / (2 * Megabyte)
  }

  lemma RoundedMegabytesBounds(bytes: int)
    ensures 2 * Megabyte * RoundedMegabytes(bytes) <= 2 * bytes + Megabyte < 2 * Megabyte * (RoundedMegabytes(bytes) + 1)
  {
  }

  /** The size message as it evidently means: the limit in force. */
  function Megabytes(maxImageSize: Option<string>): string
  {
    IntToString(RoundedMegabytes(UploadLimits(maxImageSize).fileSize))
  }

  function SizeMessage(maxImageSize: Option<string>): string
  {
    SizeText(Megabytes(maxImageSize))
  }

  /** The size message both handlers send, as written. */
  function SizeMessageAsWritten(maxImageSize: Option<string>): string
  {
    SizeText(MegabytesAsWritten(maxImageSize))
  }

  function SizeText(megabytes: string): string
  {
    "File size too large. Maximum size is " + megabytes + "MB"
  }

  /** As written, the message names no size when MAX_IMAGE_SIZE is unset, and
      0 when it is "0", though a 1 MB limit is in force in both cases. */
  lemma SizeMessageWithoutSetting()
    ensures SizeMessageAsWritten(None) == "File size too large. Maximum size is NaNMB"
    ensures UploadLimits(None).fileSize == UploadLimits(Some("0")).fileSize == DefaultMaxSize
    ensures SizeMessage(None) == "File size too large. Maximum size is 1MB"
    ensures MegabytesAsWritten(Some("0")) == "0" && Megabytes(Some("0")) == "1"
  {
    assert RoundedMegabytes(DefaultMaxSize) == 1;
    assert RoundedMegabytes(0) == 0;
    assert ParseIntOpt(Some("0")) == Some(0) by { ParseIntRoundTrip(0); }
  }

  /** Where the setting parses to a non-zero size the two agree. */
  lemma SizeMessageWithSetting(maxImageSize: Option<string>)
    requires ParseIntOpt(maxImageSize).Some? && ParseIntOpt(maxImageSize).value != 0
    ensures Megabytes(maxImageSize) == MegabytesAsWritten(maxImageSize)
    ensures SizeMessage(maxImageSize) == SizeMessageAsWritten(maxImageSize)
  {
  }

  const SingleFileOnly := "Only one file is allowed per upload"
  const MultipleFilesMax := "Maximum 5 files allowed per upload"
  const NoFile := "No image file uploaded"
  const NoFiles := "No image files uploaded"

  /** The shared error mapping of both handlers: every parser or filter error
      is a 400. */
  function ErrorReply(p: Parsed, maxImageSize: Option<string>, countMessage: string): (r: Reply)
    requires !p.Files?
    ensures r.status == 400
    ensures p.FilterError? ==> r.message == p.message
    ensures p.ParserError? && p.code == "LIMIT_FILE_SIZE" ==> r.message == SizeMessageAsWritten(maxImageSize)
    ensures p.ParserError? && p.code == "LIMIT_FILE_COUNT" ==> r.message == countMessage
    ensures p.ParserError? && p.code != "LIMIT_FILE_SIZE" && p.code != "LIMIT_FILE_COUNT" ==>
              r.message == "Upload error: " + p.message
  {
    if p.FilterError? then Reply(400, p.message)
    else if p.code == "LIMIT_FILE_SIZE" then Reply(400, SizeMessageAsWritten(maxImageSize))
    else if p.code == "LIMIT_FILE_COUNT" then Reply(400, countMessage)
    else Reply(400, "Upload error: " + p.message)
  }

  /** handleImageUpload: one part under the field "image". */
  function HandleImageUpload(parts: seq<Part>, maxImageSize: Option<string>, allowedTypes: string): (g: Gate)
  {
    var p := Parse(parts, UploadLimits(maxImageSize), "image", 1, allowedTypes);
    if !p.Files? then Respond(ErrorReply(p, maxImageSize, SingleFileOnly))
    else if p.files == [] then Respond(Reply(400, NoFile))
    else Next
  }

  /** The single-file route passes exactly one accepted image of allowed size. */
  lemma ImageUploadMeaning(parts: seq<Part>, maxImageSize: Option<string>, allowedTypes: string)
    ensures HandleImageUpload(parts, maxImageSize, allowedTypes).Next? <==>
              |parts| == 1 && GoodPart(parts[0], "image", maxImageSize, allowedTypes)
  {
    var l := UploadLimits(maxImageSize);
    if |parts| == 1 && GoodPart(parts[0], "image", maxImageSize, allowedTypes) {
      assert ParseFrom(parts, 1, l, "image", 1, allowedTypes) == Files([]);
      assert ParseFrom(parts, 0, l, "image", 1, allowedTypes) == Files([parts[0]]);
    }
  }

  /** No part at all is answered with "No image file uploaded". */
  lemma ImageUploadEmpty(maxImageSize: Option<string>, allowedTypes: string)
    ensures HandleImageUpload([], maxImageSize, allowedTypes) == Respond(Reply(400, NoFile))
  {
  }

  /** A good first image followed by any other part is refused as a second file. */
  lemma ImageUploadTooMany(parts: seq<Part>, maxImageSize: Option<string>, allowedTypes: string)
    requires |parts| >= 2 && GoodPart(parts[0], "image", maxImageSize, allowedTypes)
    ensures HandleImageUpload(parts, maxImageSize, allowedTypes) == Respond(Reply(400, SingleFileOnly))
  {
    var l := UploadLimits(maxImageSize);
    assert ParseFrom(parts, 1, l, "image", 1, allowedTypes) == ParserError("LIMIT_FILE_COUNT", "Too many files");
  }

  /** handleMultipleImageUpload as written: up to five parts under "images",
      but parsed with the shared one-file limit. */
  function HandleMultipleImageUpload(parts: seq<Part>, maxImageSize: Option<string>, allowedTypes: string): Gate
  {
    MultipleWith(UploadLimits(maxImageSize), parts, maxImageSize, allowedTypes)
  }

  /** The multi-file route as it evidently means: a files limit of five. */
  function HandleMultipleFiveFileLimit(parts: seq<Part>, maxImageSize: Option<string>, allowedTypes: string): Gate
  {
    MultipleWith(UploadLimits(maxImageSize).(files := 5), parts, maxImageSize, allowedTypes)
  }

  function MultipleWith(limits: Limits, parts: seq<Part>, maxImageSize: Option<string>, allowedTypes: string): Gate
  {
    var p := Parse(parts, limits, "images", 5, allowedTypes);
    if !p.Files? then Respond(ErrorReply(p, maxImageSize, MultipleFilesMax))
    else if |p.files| == 0 then Respond(Reply(400, NoFiles))
    else Next
  }

  predicate GoodPart(p: Part, field: string, maxImageSize: Option<string>, allowedTypes: string)
  {
    p.field == field && FileFilter(p.mimetype, allowedTypes).Accept? && p.size <= UploadLimits(maxImageSize).fileSize
  }

  /** As written, two good images are refused as if they were more than five. */
  lemma TwoImagesRefusedAsWritten(a: Part, b: Part, maxImageSize: Option<string>, allowedTypes: string)
    requires GoodPart(a, "images", maxImageSize, allowedTypes)
    ensures HandleMultipleImageUpload([a, b], maxImageSize, allowedTypes) == Respond(Reply(400, MultipleFilesMax))
  {
    var l := UploadLimits(maxImageSize);
    assert ParseFrom([a, b], 1, l, "images", 5, allowedTypes) == ParserError("LIMIT_FILE_COUNT", "Too many files");
  }

  /** Corrected, one to five good images pass; a sixth is refused; none is
      'No image files uploaded'. */
  lemma {:induction false} MultipleUploadMeaning(parts: seq<Part>, maxImageSize: Option<string>, allowedTypes: string)
    requires forall i :: 0 <= i < |parts| ==> GoodPart(parts[i], "images", maxImageSize, allowedTypes)
    ensures 1 <= |parts| <= 5 ==> HandleMultipleFiveFileLimit(parts, maxImageSize, allowedTypes) == Next
    ensures |parts| > 5 ==>
              HandleMultipleFiveFileLimit(parts, maxImageSize, allowedTypes) == Respond(Reply(400, MultipleFilesMax))
    ensures parts == [] ==> HandleMultipleFiveFileLimit(parts, maxImageSize, allowedTypes) == Respond(Reply(400, NoFiles))
  {
    var l := UploadLimits(maxImageSize).(files := 5);
    GoodPartsParse(parts, 0, l, maxImageSize, allowedTypes);
  }

  /** Good parts are kept up to the limits; the first part past them stops the parser. */
  lemma {:induction false} GoodPartsParse(parts: seq<Part>, i: nat, l: Limits, maxImageSize: Option<string>,
                                          allowedTypes: string)
    requires i <= |parts| && l == UploadLimits(maxImageSize).(files := 5)
    requires forall j :: 0 <= j < |parts| ==> GoodPart(parts[j], "images", maxImageSize, allowedTypes)
    ensures |parts| <= 5 ==> ParseFrom(parts, i, l, "images", 5, allowedTypes) == Files(parts[i..])
    ensures |parts| > 5 && i <= 5 ==>
              ParseFrom(parts, i, l, "images", 5, allowedTypes) == ParserError("LIMIT_FILE_COUNT", "Too many files")
    decreases |parts| - i
  {
    if i < |parts| && i < 5 {
      GoodPartsParse(parts, i + 1, l, maxImageSize, allowedTypes);
      assert parts[i..] == [parts[i]] + parts[i + 1..];
    }
  }
}

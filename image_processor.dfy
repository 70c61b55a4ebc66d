/** Image checks around the image library: the dimension gate, the re-encode
    ladder that brings a photo under the size budget, and the stored file name.
    The library itself (decode, resize, JPEG encode, metadata) is a pair of
    uninterpreted functions. */
module ImageProcessor {
  import opened Common
  import opened JsText

  /** The bounding box of a resize with fit 'inside' and no enlargement. */
  datatype Box = Box(width: int, height: int)

  /** What the library reports about a buffer; "" stands for a missing format. */
  datatype Metadata = Metadata(format: string, width: int, height: int)

  /** One encode of the input image: the JPEG of it fitted inside `box` at
      `quality`, or None when the library throws. */
  type Encoder = (Box, int) -> Option<seq<byte>>

  /** Reading a buffer's metadata, or None when the library throws. */
  type Inspector = seq<byte> -> Option<Metadata>

  // ---------------------------------------------------------------------------
  // validateImage

  const MinDimension := 100
  const MaxDimension := 4000

  datatype Validation = Valid(metadata: Metadata) | Invalid(error: string)

  /** validateImage on the metadata read from the upload (None: the read threw). */
  function ValidateImage(m: Option<Metadata>): (r: Validation)
    ensures r.Valid? <==> m.Some? && m.value.format != ""
                          && MinDimension <= m.value.width <= MaxDimension
                          && MinDimension <= m.value.height <= MaxDimension
    ensures r.Valid? ==> r.metadata == m.value
  {
    match m
    case None => Invalid("Failed to validate image")
    case Some(md) =>
      if md.format == "" then Invalid("Invalid image format")
      else if md.width < MinDimension || md.height < MinDimension then
        Invalid("Image too small. Minimum dimensions: 100x100px")
      else if md.width > MaxDimension || md.height > MaxDimension then
        Invalid("Image too large. Maximum dimensions: 4000x4000px")
      else Valid(md)
  }

  /** The order of the tests: a missing format is reported before any dimension,
      and a too-small axis before a too-large one. */
  lemma ValidateImageOrder(m: Metadata)
    ensures m.format == "" ==> ValidateImage(Some(m)) == Invalid("Invalid image format")
    ensures m.format != "" && (m.width < 100 || m.height < 100)
            ==> ValidateImage(Some(m)) == Invalid("Image too small. Minimum dimensions: 100x100px")
    ensures m.format != "" && 100 <= m.width && 100 <= m.height && (m.width > 4000 || m.height > 4000)
            ==> ValidateImage(Some(m)) == Invalid("Image too large. Maximum dimensions: 4000x4000px")
    ensures ValidateImage(None) == Invalid("Failed to validate image")
  {
  }

  /** A 50 x 5000 photo is reported as too small, not too large. */
  lemma NarrowTallIsTooSmall()
    ensures ValidateImage(Some(Metadata("jpeg", 50, 5000))).error
            == "Image too small. Minimum dimensions: 100x100px"
  {
  }

  // ---------------------------------------------------------------------------
  // processImage

  datatype Options = Options(maxWidth: int, maxHeight: int, quality: int)

  const DefaultOptions: Options := Options(1024, 1024, 80)
  const DefaultMaxSize: int := 1048576
  const ShrinkQuality: int := 70

  /** `parseInt(process.env.MAX_IMAGE_SIZE) || 1048576`. */
  function Budget(env: Option<string>): (r: int)
    ensures ParseIntOpt(env).None? ==> r == DefaultMaxSize
    ensures ParseIntOpt(env) == Some(0) ==> r == DefaultMaxSize
    ensures ParseIntOpt(env).Some? && ParseIntOpt(env).value != 0 ==> r == ParseIntOpt(env).value
  {
    ParseIntOr(env, DefaultMaxSize)
  }

  /** `Math.floor(dimension * 0.8)`. */
  function Shrink(d: int): int
  {
    (4 * d) / 5
  }

  /** One encode request: bounding box and JPEG quality. */
  datatype Step = Step(box: Box, quality: int)

  /** The qualities the while loop tries from `r` on: r, r - 10, ... while above 10. */
  function Retries(box: Box, r: int): seq<Step>
    decreases r
  {
    if r > 10 then [Step(box, r)] + Retries(box, r - 10) else []
  }

  /** The encode at the shrunken box, made once when the retries did not fit. */
  function ShrunkStep(o: Options): Step
  {
    Step(Box(Shrink(o.maxWidth), Shrink(o.maxHeight)), ShrinkQuality)
  }

  /** The encodes that may follow once the loop is at quality r. */
  function LadderFrom(o: Options, r: int): (l: seq<Step>)
    ensures |l| >= 1
  {
    Retries(Box(o.maxWidth, o.maxHeight), r) + [ShrunkStep(o)]
  }

  /** Every encode processImage may run, in order: the first at the requested
      quality, the retries, and the one at the shrunken box. */
  function Ladder(o: Options): (l: seq<Step>)
    ensures |l| >= 2
  {
    [Step(Box(o.maxWidth, o.maxHeight), o.quality)] + LadderFrom(o, o.quality - 10)
  }

  predicate Fits(b: Option<seq<byte>>, maxSize: int)
  {
    b.Some? && |b.value| <= maxSize
  }

  /** How many encodes run: the ladder stops after the first encode that throws
      or fits, and after its last step in any case. */
  function Encodes(encode: Encoder, steps: seq<Step>, maxSize: int): (n: nat)
    requires |steps| >= 1
    ensures 1 <= n <= |steps|
  {
    var b := encode(steps[0].box, steps[0].quality);
    if |steps| == 1 || b.None? || |b.value| <= maxSize then 1
    else 1 + Encodes(encode, steps[1..], maxSize)
  }

  /** The outcome of processImage; the error text of a throw is not modelled. */
  datatype Processed = Processed(buffer: seq<byte>, metadata: Metadata) | ProcessFailed

  /** The specification of processImage: the buffer of the last encode run, with
      the metadata read from it. */
  function ProcessOutcome(encode: Encoder, inspect: Inspector, o: Options, env: Option<string>): Processed
  {
    var steps := Ladder(o);
    var last := steps[Encodes(encode, steps, Budget(env)) - 1];
    Finish(encode(last.box, last.quality), inspect)
  }

  /** The end of processImage: the last encode's buffer and its metadata. */
  function Finish(b: Option<seq<byte>>, inspect: Inspector): Processed
  {
    if b.None? then ProcessFailed
    else
      var m := inspect(b.value);
      if m.None? then ProcessFailed else Processed(b.value, m.value)
  }

  /** Once the encodes that ran are known, the outcome is fixed by the last one. */
  lemma OutcomeOfTried(encode: Encoder, inspect: Inspector, o: Options, env: Option<string>, tried: seq<Step>)
    requires tried == Ladder(o)[..Encodes(encode, Ladder(o), Budget(env))]
    ensures |tried| >= 1
    ensures ProcessOutcome(encode, inspect, o, env)
            == Finish(encode(tried[|tried| - 1].box, tried[|tried| - 1].quality), inspect)
  {
  }

  /** Unfolding Encodes at one step that neither throws nor fits. */
  lemma EncodesOver(encode: Encoder, steps: seq<Step>, maxSize: int)
    requires |steps| >= 2
    requires encode(steps[0].box, steps[0].quality).Some?
    requires |encode(steps[0].box, steps[0].quality).value| > maxSize
    ensures Encodes(encode, steps, maxSize) == 1 + Encodes(encode, steps[1..], maxSize)
  {
  }

  lemma LadderFromStep(o: Options, r: int)
    requires r > 10
    ensures |LadderFrom(o, r)| >= 2
    ensures LadderFrom(o, r)[0] == Step(Box(o.maxWidth, o.maxHeight), r)
    ensures LadderFrom(o, r)[1..] == LadderFrom(o, r - 10)
  {
    var box := Box(o.maxWidth, o.maxHeight);
    assert Retries(box, r) == [Step(box, r)] + Retries(box, r - 10);
    assert LadderFrom(o, r) == [Step(box, r)] + LadderFrom(o, r - 10);
  }

  /** One more encode taken from the front of the remaining steps. */
  lemma Advance(steps: seq<Step>, tried: seq<Step>, rest: seq<Step>)
    requires steps == tried + rest && |rest| >= 1
    ensures steps == (tried + [rest[0]]) + rest[1..]
    ensures tried + [rest[0]] == steps[..|tried| + 1]
  {
    assert rest == [rest[0]] + rest[1..];
  }

  /** processImage: encode, then re-encode at falling quality while over the
      budget and above quality 10, then once at the shrunken box if still over.
      `tried` records the encodes in the order they run. */
  method ProcessImage(encode: Encoder, inspect: Inspector, o: Options, env: Option<string>)
    returns (r: Processed, ghost tried: seq<Step>)
    ensures tried == Ladder(o)[..Encodes(encode, Ladder(o), Budget(env))]
    ensures r == ProcessOutcome(encode, inspect, o, env)
  {
    ghost var steps := Ladder(o);
    var box := Box(o.maxWidth, o.maxHeight);
    var maxSize := Budget(env);
    var first := encode(box, o.quality);
    tried := [Step(box, o.quality)];
    if first.None? {
      assert steps[..1] == tried;
      OutcomeOfTried(encode, inspect, o, env, tried);
      return ProcessFailed, tried;
    }
    var buffer := first.value;
    if |buffer| > maxSize {
      var reduceQuality := o.quality - 10;
      EncodesOver(encode, steps, maxSize);
      while |buffer| > maxSize && reduceQuality > 10
        invariant |tried| >= 1 && encode(tried[|tried| - 1].box, tried[|tried| - 1].quality) == Some(buffer)
        invariant |buffer| > maxSize ==> steps == tried + LadderFrom(o, reduceQuality)
        invariant |buffer| > maxSize ==>
                    Encodes(encode, steps, maxSize) == |tried| + Encodes(encode, LadderFrom(o, reduceQuality), maxSize)
        invariant |buffer| <= maxSize ==> |tried| <= |steps| && tried == steps[..|tried|] && Encodes(encode, steps, maxSize) == |tried|
        decreases reduceQuality
      {
        ghost var rest := LadderFrom(o, reduceQuality);
        LadderFromStep(o, reduceQuality);
        var next := encode(box, reduceQuality);
        Advance(steps, tried, rest);
        tried := tried + [Step(box, reduceQuality)];
        if next.None? {
          OutcomeOfTried(encode, inspect, o, env, tried);
          return ProcessFailed, tried;
        }
        if |next.value| > maxSize {
          EncodesOver(encode, rest, maxSize);
        }
        buffer := next.value;
        reduceQuality := reduceQuality - 10;
      }
      if |buffer| > maxSize {
        var shrunk := ShrunkStep(o);
        assert LadderFrom(o, reduceQuality) == [shrunk];
        var last := encode(shrunk.box, shrunk.quality);
        tried := tried + [shrunk];
        if last.None? {
          OutcomeOfTried(encode, inspect, o, env, tried);
          return ProcessFailed, tried;
        }
        buffer := last.value;
      }
    }
    assert tried == steps[..|tried|];
    OutcomeOfTried(encode, inspect, o, env, tried);
    var metadata := inspect(buffer);
    if metadata.None? {
      return ProcessFailed, tried;
    }
    return Processed(buffer, metadata.value), tried;
  }

  /** What Encodes counts: every encode before the last one ran and came out over
      the budget; the last one threw, fitted, or was the final step. */
  lemma {:induction false} EncodesMeaning(encode: Encoder, steps: seq<Step>, maxSize: int)
    requires |steps| >= 1
    ensures forall j :: 0 <= j < Encodes(encode, steps, maxSize) - 1 ==>
              encode(steps[j].box, steps[j].quality).Some? && !Fits(encode(steps[j].box, steps[j].quality), maxSize)
    ensures var n := Encodes(encode, steps, maxSize);
            n == |steps| || !encode(steps[n - 1].box, steps[n - 1].quality).Some?
            || Fits(encode(steps[n - 1].box, steps[n - 1].quality), maxSize)
  {
    var b := encode(steps[0].box, steps[0].quality);
    if !(|steps| == 1 || b.None? || |b.value| <= maxSize) {
      EncodesMeaning(encode, steps[1..], maxSize);
      forall j | 0 <= j < Encodes(encode, steps, maxSize) - 1
        ensures encode(steps[j].box, steps[j].quality).Some? && !Fits(encode(steps[j].box, steps[j].quality), maxSize)
      {
        if j > 0 { assert steps[j] == steps[1..][j - 1]; }
      }
    }
  }

  /** For quality r the loop tries r, r - 10, ... and stops once the next value
      would be 10 or less. */
  lemma {:induction false} RetriesShape(box: Box, r: int)
    ensures forall i :: 0 <= i < |Retries(box, r)| ==>
              Retries(box, r)[i] == Step(box, r - 10 * i) && r - 10 * i > 10
    ensures r - 10 * |Retries(box, r)| <= 10
    decreases r
  {
    if r > 10 {
      RetriesShape(box, r - 10);
      var t := Retries(box, r - 10);
      forall i | 0 <= i < |Retries(box, r)|
        ensures Retries(box, r)[i] == Step(box, r - 10 * i) && r - 10 * i > 10
      {
        if i > 0 { assert Retries(box, r)[i] == t[i - 1]; }
      }
    }
  }

  /** With the default options the ladder is quality 80, then 70 down to 20 at
      1024 x 1024, then 819 x 819 at 70: eight encodes at most, never quality 10. */
  lemma DefaultLadder()
    ensures Ladder(DefaultOptions) ==
              [Step(Box(1024, 1024), 80), Step(Box(1024, 1024), 70), Step(Box(1024, 1024), 60),
               Step(Box(1024, 1024), 50), Step(Box(1024, 1024), 40), Step(Box(1024, 1024), 30),
               Step(Box(1024, 1024), 20), Step(Box(819, 819), 70)]
    ensures |Ladder(DefaultOptions)| == 8
    ensures forall i :: 0 <= i < |Ladder(DefaultOptions)| ==> Ladder(DefaultOptions)[i].quality != 10
  {
    assert Retries(Box(1024, 1024), 70) ==
             [Step(Box(1024, 1024), 70), Step(Box(1024, 1024), 60), Step(Box(1024, 1024), 50),
              Step(Box(1024, 1024), 40), Step(Box(1024, 1024), 30), Step(Box(1024, 1024), 20)];
  }

  /** The first encode within budget is the only one; otherwise the returned
      buffer is over budget only when every encode ran. */
  lemma ProcessStops(encode: Encoder, inspect: Inspector, o: Options, env: Option<string>)
    ensures Fits(encode(Box(o.maxWidth, o.maxHeight), o.quality), Budget(env))
            ==> Encodes(encode, Ladder(o), Budget(env)) == 1
    ensures var r := ProcessOutcome(encode, inspect, o, env);
            r.Processed? && |r.buffer| > Budget(env) ==> Encodes(encode, Ladder(o), Budget(env)) == |Ladder(o)|
    ensures var r := ProcessOutcome(encode, inspect, o, env);
            r.Processed? && Encodes(encode, Ladder(o), Budget(env)) < |Ladder(o)| ==> |r.buffer| <= Budget(env)
  {
    EncodesMeaning(encode, Ladder(o), Budget(env));
  }

  /** A nonzero decimal MAX_IMAGE_SIZE is taken as written. */
  lemma BudgetOfSetting(n: int)
    requires n != 0
    ensures Budget(Some(IntToString(n))) == n
  {
    ParseIntOfRendering(n, "");
    assert IntToString(n) + "" == IntToString(n);
  }

  /** An unset or unparsable MAX_IMAGE_SIZE falls back to 1 MiB. */
  lemma BudgetFallback()
    ensures Budget(None) == 1048576
    ensures Budget(Some("big")) == 1048576
  {
  }

  // ---------------------------------------------------------------------------
  // generateFileName

  /** Node's posix `path.extname`: the last segment after trailing slashes are
      dropped, from its last '.' on; "" when it has no '.', when that '.' is its
      first character, or when it is "..". */
  function Extname(p: string): (r: string)
    ensures r == [] || (r[0] == '.' && '/' !in r && EndsWith(TrimSlashes(p), r))
    ensures forall i :: 1 <= i < |r| ==> r[i] != '.'
  {
    var seg := LastSegment(TrimSlashes(p));
    var d := LastDot(seg);
    if d <= 0 || seg == ".." then "" else seg[d..]
  }

  function TrimSlashes(p: string): (r: string)
    ensures |r| <= |p| && r == p[..|r|]
    ensures r == [] || r[|r| - 1] != '/'
  {
    if p != [] && p[|p| - 1] == '/' then TrimSlashes(p[..|p| - 1]) else p
  }

  /** The part after the last '/'. */
  function LastSegment(p: string): (r: string)
    ensures '/' !in r && EndsWith(p, r)
  {
    if p == [] || p[|p| - 1] == '/' then []
    else LastSegment(p[..|p| - 1]) + [p[|p| - 1]]
  }

  /** Index of the last '.', or -1. */
  function LastDot(s: string): (d: int)
    ensures -1 <= d < |s|
    ensures d >= 0 ==> s[d] == '.' && forall i :: d < i < |s| ==> s[i] != '.'
    ensures d == -1 ==> '.' !in s
  {
    if s == [] then -1
    else if s[|s| - 1] == '.' then |s| - 1
    else LastDot(s[..|s| - 1])
  }

  lemma {:induction false} LastSegmentWithoutSlash(p: string)
    requires '/' !in p
    ensures LastSegment(p) == p
  {
    if p != [] {
      LastSegmentWithoutSlash(p[..|p| - 1]);
    }
  }

  lemma {:induction false} LastDotBefore(a: string, b: string)
    requires '.' !in b
    ensures LastDot(a + "." + b) == |a|
  {
    if b != [] {
      assert (a + "." + b)[..|a + "." + b| - 1] == a + "." + b[..|b| - 1];
      LastDotBefore(a, b[..|b| - 1]);
    } else {
      assert (a + "." + b)[|a|] == '.';
    }
  }

  lemma NoSlashInName(stem: string, ext: string)
    requires '/' !in stem && '/' !in ext
    ensures '/' !in stem + "." + ext
  {
    var p := stem + "." + ext;
    forall i | 0 <= i < |p| ensures p[i] != '/' {
      if i < |stem| { assert p[i] == stem[i]; }
      else if i > |stem| { assert p[i] == ext[i - |stem| - 1]; }
    }
  }

  /** A plain file name `stem.ext` with no '/' and no '.' in `ext` has extension
      "." + ext, unless the stem is empty or the name is "..". */
  lemma ExtnameOfName(stem: string, ext: string)
    requires '/' !in stem && '/' !in ext && '.' !in ext
    ensures Extname(stem + "." + ext) == (if stem == [] || (stem == "." && ext == []) then [] else "." + ext)
  {
    var p := stem + "." + ext;
    NameSegment(stem, ext);
    DotDotName(stem, ext);
    assert Extname(p) == if |stem| <= 0 || p == ".." then "" else p[|stem|..];
    if stem != [] && p != ".." {
      assert p[|stem|..] == "." + ext;
    }
  }

  /** The name is ".." exactly for the stem "." and no extension. */
  lemma DotDotName(stem: string, ext: string)
    requires '.' !in ext
    ensures stem + "." + ext == ".." <==> stem == "." && ext == []
  {
    var p := stem + "." + ext;
    if |stem| == 0 && ext != [] {
      assert p[1] == ext[0];
    } else if |stem| == 1 && ext == [] {
      assert stem == [stem[0]];
      assert p == [stem[0], '.'];
    }
  }

  /** Such a name is its own last segment, and its last dot ends the stem. */
  lemma NameSegment(stem: string, ext: string)
    requires '/' !in stem && '/' !in ext && '.' !in ext
    ensures var p := stem + "." + ext;
            LastSegment(TrimSlashes(p)) == p && LastDot(p) == |stem|
  {
    var p := stem + "." + ext;
    NoSlashInName(stem, ext);
    assert TrimSlashes(p) == p;
    LastSegmentWithoutSlash(p);
    LastDotBefore(stem, ext);
  }

  /** `path.extname(originalName).toLowerCase() || '.jpg'`. */
  function Extension(originalName: string): (r: string)
    ensures r != [] && r[0] == '.'
    ensures Extname(originalName) == [] ==> r == ".jpg"
    ensures Extname(originalName) != [] ==> r == Lower(Extname(originalName))
  {
    var e := Lower(Extname(originalName));
    if e == [] then ".jpg" else e
  }

  /** The uploader's id as generateFileName receives it: null, or a number
      (truthy unless 0). */
  predicate UserTruthy(userId: Option<int>)
  {
    userId.Some? && userId.value != 0
  }

  /** `${timestamp}_${uuid}${extension}` with the uuid cut at its first '-'. */
  function Stamp(timestamp: nat, uuid: string, originalName: string): (r: string)
  {
    NatToString(timestamp) + ("_" + (BeforeFirst(uuid, '-') + Extension(originalName)))
  }

  /** generateFileName with the clock reading and the uuid passed in. */
  function GenerateFileName(originalName: string, userId: Option<int>, timestamp: nat, uuid: string): string
  {
    var stamp := Stamp(timestamp, uuid, originalName);
    if UserTruthy(userId) then IntToString(userId.value) + ("_" + stamp) else stamp
  }

  lemma PrefixedShape(head: string, stamp: string)
    ensures EndsWith(head + ("_" + stamp), stamp)
    ensures StartsWith(head + ("_" + stamp), head + "_")
  {
    assert head + ("_" + stamp) == (head + "_") + stamp;
    EndsWithAppend(head + "_", stamp);
    StartsWithAppend(head + "_", stamp);
  }

  lemma SelfShape(stamp: string)
    ensures EndsWith(stamp, stamp)
  {
    assert stamp[|stamp| - |stamp|..] == stamp;
  }

  /** The name ends with the stamp, after "id_" when the uploader is truthy. */
  lemma FileNameShape(originalName: string, userId: Option<int>, timestamp: nat, uuid: string)
    ensures EndsWith(GenerateFileName(originalName, userId, timestamp, uuid), Stamp(timestamp, uuid, originalName))
    ensures UserTruthy(userId) ==>
              StartsWith(GenerateFileName(originalName, userId, timestamp, uuid), IntToString(userId.value) + "_")
  {
    if UserTruthy(userId) {
      PrefixedShape(IntToString(userId.value), Stamp(timestamp, uuid, originalName));
    } else {
      SelfShape(Stamp(timestamp, uuid, originalName));
    }
  }

  /** parseInt of the name is the uploader's id when there is one. */
  lemma FileNameOwner(originalName: string, uid: int, timestamp: nat, uuid: string)
    requires uid != 0
    ensures ParseInt(GenerateFileName(originalName, Some(uid), timestamp, uuid)) == Some(uid)
  {
    ParseIntOfRendering(uid, "_" + Stamp(timestamp, uuid, originalName));
  }

  /** Without a (truthy) uploader the name is the stamp, and parseInt of it is the timestamp. */
  lemma FileNameWithoutOwner(originalName: string, userId: Option<int>, timestamp: nat, uuid: string)
    requires !UserTruthy(userId)
    ensures GenerateFileName(originalName, userId, timestamp, uuid) == Stamp(timestamp, uuid, originalName)
    ensures ParseInt(GenerateFileName(originalName, userId, timestamp, uuid)) == Some(timestamp)
  {
    ParseNatRendering(timestamp, "_" + (BeforeFirst(uuid, '-') + Extension(originalName)));
  }

  /** The stamp is the timestamp, '_', the uuid's text before its first '-' and
      the extension, in that order. */
  lemma StampParts(timestamp: nat, uuid: string, originalName: string)
    ensures StartsWith(Stamp(timestamp, uuid, originalName), NatToString(timestamp) + "_")
    ensures EndsWith(Stamp(timestamp, uuid, originalName), Extension(originalName))
    ensures '-' !in BeforeFirst(uuid, '-') && StartsWith(uuid, BeforeFirst(uuid, '-'))
  {
    var head := NatToString(timestamp);
    var u := BeforeFirst(uuid, '-');
    var ext := Extension(originalName);
    StampHead(head, u, ext);
    StampTail(head, u, ext);
  }

  lemma StampHead(head: string, u: string, ext: string)
    ensures StartsWith(head + ("_" + (u + ext)), head + "_")
  {
    assert head + ("_" + (u + ext)) == (head + "_") + (u + ext);
    StartsWithAppend(head + "_", u + ext);
  }

  lemma StampTail(head: string, u: string, ext: string)
    ensures EndsWith(head + ("_" + (u + ext)), ext)
  {
    assert head + ("_" + (u + ext)) == (head + "_" + u) + ext;
    EndsWithAppend(head + "_" + u, ext);
  }

  /** The extension of `stem.ext` is "." and `ext` lower-cased, for a stem
      that neither is empty nor is "."; a name without one gets ".jpg". */
  lemma ExtensionOfName(stem: string, ext: string)
    requires '/' !in stem && '/' !in ext && '.' !in ext
    requires stem != [] && stem != "."
    ensures Extension(stem + "." + ext) == "." + Lower(ext)
  {
    ExtnameOfName(stem, ext);
    var r := Lower("." + ext);
    assert r == "." + Lower(ext) by {
      forall k | 0 <= k < |r| ensures r[k] == ("." + Lower(ext))[k] {
        if k > 0 { assert ("." + ext)[k] == ext[k - 1]; }
      }
    }
  }

  /** A uuid `u-rest` with no '-' in `u` contributes `u`. */
  lemma StampOfName(timestamp: nat, u: string, rest: string, stem: string, ext: string)
    requires '-' !in u
    requires '/' !in stem && '/' !in ext && '.' !in ext && stem != [] && stem != "."
    ensures Stamp(timestamp, u + "-" + rest, stem + "." + ext) == NatToString(timestamp) + ("_" + (u + ("." + Lower(ext))))
  {
    ExtensionOfName(stem, ext);
    BeforeFirstOf(u, rest, '-');
  }
}

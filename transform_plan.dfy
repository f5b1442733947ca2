/** The transformation pipeline `transformImage` builds: a fixed sequence of
    tagged image operations, each step present only when its trigger field
    is truthy. What each operation does to pixels is left to the image
    library and not modelled. */
module TransformPlan {
  import opened Common
  import opened ImageDto

  datatype Format = Jpeg | Png | Webp | Avif

  datatype Op =
    | Extract(left: int, top: int, width: int, height: int)
    | Resize(targetWidth: Option<int>, targetHeight: Option<int>, fit: string)
    | Rotate(angle: int)
    | Flop
    | Flip
    | Composite(text: string, gravity: string)
    | Encode(format: Format, quality: int)

  /** Position of each kind of operation in the fixed order. */
  function Rank(op: Op): nat {
    match op
    case Extract(_, _, _, _) => 0
    case Resize(_, _, _) => 1
    case Rotate(_) => 2
    case Flop => 3
    case Flip => 4
    case Composite(_, _) => 5
    case Encode(_, _) => 6
  }

  const DefaultFit := "cover"
  const DefaultFormat := "jpeg"
  const DefaultQuality := 80
  const WatermarkGravity := "southeast"

  predicate CropRequested(d: TransformImageDto) {
    d.cropX.Some? && d.cropY.Some? && TruthyNumber(d.cropWidth) && TruthyNumber(d.cropHeight)
  }

  predicate ResizeRequested(d: TransformImageDto) {
    TruthyNumber(d.width) || TruthyNumber(d.height)
  }

  predicate FlopRequested(d: TransformImageDto) {
    TruthyText(d.flip) && (d.flip.value == "horizontal" || d.flip.value == "both")
  }

  predicate FlipRequested(d: TransformImageDto) {
    TruthyText(d.flip) && (d.flip.value == "vertical" || d.flip.value == "both")
  }

  /** `transformDto.format || 'jpeg'`: also names the output key's extension
      and the stored MIME type. */
  function FormatName(d: TransformImageDto): string {
    TextOr(d.format, DefaultFormat)
  }

  /** `transformDto.quality || 80`. */
  function QualityOf(d: TransformImageDto): int {
    NumberOr(d.quality, DefaultQuality)
  }

  /** The encoder chosen by the if/else-if chain on the format name; an
      unknown name selects none. */
  function Encoder(name: string): (f: Option<Format>)
    ensures f.Some? <==> name in FormatValues
  {
    if name == "jpeg" then Some(Jpeg)
    else if name == "png" then Some(Png)
    else if name == "webp" then Some(Webp)
    else if name == "avif" then Some(Avif)
    else None
  }

  function CropStep(d: TransformImageDto): seq<Op> {
    if CropRequested(d) then [Extract(d.cropX.value, d.cropY.value, d.cropWidth.value, d.cropHeight.value)] else []
  }

  function ResizeStep(d: TransformImageDto): seq<Op> {
    if ResizeRequested(d) then [Resize(d.width, d.height, TextOr(d.fit, DefaultFit))] else []
  }

  function RotateStep(d: TransformImageDto): seq<Op> {
    if TruthyNumber(d.rotate) then [Rotate(d.rotate.value)] else []
  }

  function FlopStep(d: TransformImageDto): seq<Op> {
    if FlopRequested(d) then [Flop] else []
  }

  function FlipStep(d: TransformImageDto): seq<Op> {
    if FlipRequested(d) then [Flip] else []
  }

  function WatermarkStep(d: TransformImageDto): seq<Op> {
    if TruthyText(d.watermarkText) then [Composite(d.watermarkText.value, WatermarkGravity)] else []
  }

  function EncodeStep(d: TransformImageDto): seq<Op> {
    var encoder := Encoder(FormatName(d));
    if encoder.Some? then [Encode(encoder.value, QualityOf(d))] else []
  }

  /** The plan as a specification: the steps concatenated in their fixed
      order, crop, resize, rotate, flop, flip, watermark, encode. */
  function Plan(d: TransformImageDto): seq<Op> {
    CropStep(d) + ResizeStep(d) + RotateStep(d) + FlopStep(d) + FlipStep(d) + WatermarkStep(d) + EncodeStep(d)
  }

  /** The builder chain of `transformImage`: the transformer is extended step
      by step, each step guarded by its trigger. */
  method BuildPlan(d: TransformImageDto) returns (transformer: seq<Op>)
    ensures transformer == Plan(d)
  {
    transformer := [];
    if d.cropX.Some? && d.cropY.Some? && TruthyNumber(d.cropWidth) && TruthyNumber(d.cropHeight) {
      transformer := transformer + [Extract(d.cropX.value, d.cropY.value, d.cropWidth.value, d.cropHeight.value)];
    }
    assert transformer == CropStep(d);
    if TruthyNumber(d.width) || TruthyNumber(d.height) {
      transformer := transformer + [Resize(d.width, d.height, TextOr(d.fit, DefaultFit))];
    }
    assert transformer == CropStep(d) + ResizeStep(d);
    if TruthyNumber(d.rotate) {
      transformer := transformer + [Rotate(d.rotate.value)];
    }
    assert transformer == CropStep(d) + ResizeStep(d) + RotateStep(d);
    if TruthyText(d.flip) {
      if d.flip.value == "horizontal" || d.flip.value == "both" {
        transformer := transformer + [Flop];
      }
      if d.flip.value == "vertical" || d.flip.value == "both" {
        transformer := transformer + [Flip];
      }
    }
    assert transformer == CropStep(d) + ResizeStep(d) + RotateStep(d) + FlopStep(d) + FlipStep(d);
    if TruthyText(d.watermarkText) {
      transformer := transformer + [Composite(d.watermarkText.value, WatermarkGravity)];
    }
    ghost var prefix := transformer;
    assert prefix == CropStep(d) + ResizeStep(d) + RotateStep(d) + FlopStep(d) + FlipStep(d) + WatermarkStep(d);
    var format := TextOr(d.format, DefaultFormat);
    var quality := NumberOr(d.quality, DefaultQuality);
    if format == "jpeg" {
      transformer := transformer + [Encode(Jpeg, quality)];
    } else if format == "png" {
      transformer := transformer + [Encode(Png, quality)];
    } else if format == "webp" {
      transformer := transformer + [Encode(Webp, quality)];
    } else if format == "avif" {
      transformer := transformer + [Encode(Avif, quality)];
    }
    assert transformer == prefix + EncodeStep(d);
  }

  /** Strictly increasing ranks: no step appears twice and no two steps are
      ever out of the fixed order. */
  ghost predicate InOrder(p: seq<Op>) {
    forall i, j :: 0 <= i < j < |p| ==> Rank(p[i]) < Rank(p[j])
  }

  ghost predicate Has(p: seq<Op>, rank: nat) {
    exists i :: 0 <= i < |p| && Rank(p[i]) == rank
  }

  /** Appending a step of rank `k` (at most one operation) to a prefix in
      order whose ranks are all below `k`. */
  lemma AppendStep(p: seq<Op>, step: seq<Op>, k: nat)
    requires InOrder(p) && forall op :: op in p ==> Rank(op) < k
    requires |step| <= 1 && forall op :: op in step ==> Rank(op) == k
    ensures InOrder(p + step) && forall op :: op in p + step ==> Rank(op) < k + 1
    ensures Has(p + step, k) <==> step != []
    ensures forall j: nat :: j < k ==> (Has(p + step, j) <==> Has(p, j))
  {
    var q := p + step;
    forall i, j | 0 <= i < j < |q| ensures Rank(q[i]) < Rank(q[j]) {
      if j >= |p| {
        assert q[j] == step[0] && q[i] == p[i] && p[i] in p;
      }
    }
    forall op | op in q ensures Rank(op) < k + 1 {
      if op in p { } else { assert op in step; }
    }
    if step != [] { assert q[|p|] == step[0]; }
    if step == [] { assert q == p; }
    forall i | |p| <= i < |q| ensures Rank(q[i]) == k {
      assert q[i] == step[i - |p|];
    }
    forall j: nat | j < k ensures Has(q, j) <==> Has(p, j) {
      if Has(q, j) {
        var i :| 0 <= i < |q| && Rank(q[i]) == j;
        assert q[i] == p[i];
      }
      if Has(p, j) {
        var i :| 0 <= i < |p| && Rank(p[i]) == j;
        assert q[i] == p[i];
      }
    }
  }

  /** The plan grown one step at a time; after each step it is in order and
      holds exactly the steps whose triggers held so far. */
  lemma PlanBands(d: TransformImageDto)
    ensures InOrder(Plan(d))
    ensures Has(Plan(d), 0) <==> CropStep(d) != []
    ensures Has(Plan(d), 1) <==> ResizeStep(d) != []
    ensures Has(Plan(d), 2) <==> RotateStep(d) != []
    ensures Has(Plan(d), 3) <==> FlopStep(d) != []
    ensures Has(Plan(d), 4) <==> FlipStep(d) != []
    ensures Has(Plan(d), 5) <==> WatermarkStep(d) != []
    ensures Has(Plan(d), 6) <==> EncodeStep(d) != []
  {
    var c0, c1, c2, c3 := CropStep(d), ResizeStep(d), RotateStep(d), FlopStep(d);
    var c4, c5, c6 := FlipStep(d), WatermarkStep(d), EncodeStep(d);
    AppendStep([], c0, 0);
    assert [] + c0 == c0;
    AppendStep(c0, c1, 1);
    AppendStep(c0 + c1, c2, 2);
    AppendStep(c0 + c1 + c2, c3, 3);
    AppendStep(c0 + c1 + c2 + c3, c4, 4);
    AppendStep(c0 + c1 + c2 + c3 + c4, c5, 5);
    AppendStep(c0 + c1 + c2 + c3 + c4 + c5, c6, 6);
  }

  /** Each step is in the plan exactly when its trigger holds: crop needs
      cropX and cropY present and a truthy width and height, resize a truthy
      width or height, rotate a non-zero angle, and encode a known format. */
  lemma PlanSteps(d: TransformImageDto)
    ensures Has(Plan(d), 0) <==> CropRequested(d)
    ensures Has(Plan(d), 1) <==> ResizeRequested(d)
    ensures Has(Plan(d), 2) <==> TruthyNumber(d.rotate)
    ensures Has(Plan(d), 3) <==> FlopRequested(d)
    ensures Has(Plan(d), 4) <==> FlipRequested(d)
    ensures Has(Plan(d), 5) <==> TruthyText(d.watermarkText)
    ensures Has(Plan(d), 6) <==> FormatName(d) in FormatValues
  {
    PlanBands(d);
  }

  /** The parameters each operation carries: the crop rectangle as given,
      the resize target with fit "cover" when none is given, a non-zero
      angle, and the watermark anchored bottom-right. */
  lemma PlanValues(d: TransformImageDto)
    ensures CropRequested(d) ==> Plan(d)[0] == Extract(d.cropX.value, d.cropY.value, d.cropWidth.value, d.cropHeight.value)
    ensures forall op :: op in Plan(d) && op.Resize? ==>
      op.targetWidth == d.width && op.targetHeight == d.height
      && op.fit == (if TruthyText(d.fit) then d.fit.value else "cover")
    ensures forall op :: op in Plan(d) && op.Rotate? ==> Some(op.angle) == d.rotate && op.angle != 0
    ensures forall op :: op in Plan(d) && op.Composite? ==> Some(op.text) == d.watermarkText && op.gravity == "southeast"
  {
    var p := Plan(d);
    forall op | op in p
      ensures op.Resize? ==> op == Resize(d.width, d.height, TextOr(d.fit, DefaultFit))
      ensures op.Rotate? ==> op == Rotate(d.rotate.value) && TruthyNumber(d.rotate)
      ensures op.Composite? ==> op == Composite(d.watermarkText.value, WatermarkGravity) && TruthyText(d.watermarkText)
    {
      assert op in CropStep(d) || op in ResizeStep(d) || op in RotateStep(d) || op in FlopStep(d)
          || op in FlipStep(d) || op in WatermarkStep(d) || op in EncodeStep(d);
    }
  }

  /** `flip` picks the mirror operations: "horizontal" only Flop,
      "vertical" only Flip, "both" Flop and then Flip. */
  lemma FlipAxes(d: TransformImageDto)
    ensures d.flip == Some("horizontal") ==> Has(Plan(d), 3) && !Has(Plan(d), 4)
    ensures d.flip == Some("vertical") ==> !Has(Plan(d), 3) && Has(Plan(d), 4)
    ensures d.flip == Some("both") ==> Has(Plan(d), 3) && Has(Plan(d), 4)
    ensures d.flip.None? ==> !Has(Plan(d), 3) && !Has(Plan(d), 4)
  {
    PlanBands(d);
  }

  /** For a request the validators accept, the plan always ends by encoding,
      in the requested format or JPEG, at the requested quality or 80: the
      `|| 80` default only fires when quality is absent, since 0 is refused. */
  lemma EncodeIsLast(d: TransformImageDto)
    requires ValidTransform(d)
    ensures |Plan(d)| > 0
    ensures Plan(d)[|Plan(d)| - 1]
         == Encode(if d.format.None? then Jpeg else Encoder(d.format.value).value,
                   if d.quality.None? then 80 else d.quality.value)
  {
    assert FormatName(d) in FormatValues;
    assert Plan(d) == (CropStep(d) + ResizeStep(d) + RotateStep(d) + FlopStep(d) + FlipStep(d) + WatermarkStep(d)) + EncodeStep(d);
  }

  /** A rotation of 0 passes validation yet adds no rotation. */
  lemma ZeroRotationSkipped(d: TransformImageDto)
    requires ValidTransform(d) && d.rotate == Some(0)
    ensures !Has(Plan(d), 2)
  {
    PlanBands(d);
  }

  /** For a valid request the crop runs exactly when all four crop fields
      are given, since width and height of 0 are refused. */
  lemma ValidCropNeedsAllFour(d: TransformImageDto)
    requires ValidTransform(d)
    ensures Has(Plan(d), 0) <==> d.cropX.Some? && d.cropY.Some? && d.cropWidth.Some? && d.cropHeight.Some?
  {
    PlanBands(d);
  }

  /** An empty request only re-encodes, as JPEG at quality 80. */
  lemma EmptyRequestOnlyEncodes()
    ensures Plan(NoTransform) == [Encode(Jpeg, 80)]
  {
  }
}

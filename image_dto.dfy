/** The request bodies and query strings of the image routes, with the bounds
    their validators enforce and the defaults they fill in. */
module ImageDto {
  import opened Common

  /** Every field is optional; a missing one is `None`. */
  datatype TransformImageDto = TransformImageDto(
    width: Option<int>,
    height: Option<int>,
    fit: Option<string>,
    rotate: Option<int>,
    flip: Option<string>,
    format: Option<string>,
    quality: Option<int>,
    cropX: Option<int>,
    cropY: Option<int>,
    cropWidth: Option<int>,
    cropHeight: Option<int>,
    watermarkText: Option<string>)

  const NoTransform := TransformImageDto(None, None, None, None, None, None, None, None, None, None, None, None)

  const FitValues: set<string> := {"contain", "cover", "fill", "inside", "outside"}
  const FlipValues: set<string> := {"horizontal", "vertical", "both"}
  const FormatValues: set<string> := {"jpeg", "png", "webp", "avif"}

  /** An optional integer field with `@Min(lo) @Max(hi)`. */
  predicate IntIn(v: Option<int>, lo: int, hi: int) {
    v.None? || lo <= v.value <= hi
  }

  /** An optional field with `@IsEnum(allowed)`. */
  predicate OneOf(v: Option<string>, allowed: set<string>) {
    v.None? || v.value in allowed
  }

  /** What the validators of TransformImageDto accept. On an accepted
      request the numeric fields whose minimum is 1 are truthy exactly when
      they are present, and a format, when given, is one of the four. */
  predicate ValidTransform(d: TransformImageDto)
    ensures ValidTransform(d) ==>
      && (TruthyNumber(d.width) <==> d.width.Some?)
      && (TruthyNumber(d.height) <==> d.height.Some?)
      && (TruthyNumber(d.quality) <==> d.quality.Some?)
      && (TruthyNumber(d.cropWidth) <==> d.cropWidth.Some?)
      && (TruthyNumber(d.cropHeight) <==> d.cropHeight.Some?)
      && (d.format.Some? ==> d.format.value in FormatValues && d.format.value != "")
  {
    && IntIn(d.width, 1, 5000)
    && IntIn(d.height, 1, 5000)
    && OneOf(d.fit, FitValues)
    && IntIn(d.rotate, 0, 360)
    && OneOf(d.flip, FlipValues)
    && OneOf(d.format, FormatValues)
    && IntIn(d.quality, 1, 100)
    && IntIn(d.cropX, 0, 5000)
    && IntIn(d.cropY, 0, 5000)
    && IntIn(d.cropWidth, 1, 5000)
    && IntIn(d.cropHeight, 1, 5000)
  }

  /** The query of the list routes as the client sends it. */
  datatype ListImagesDto = ListImagesDto(
    limit: Option<int>,
    page: Option<int>,
    sortBy: Option<string>,
    sortOrder: Option<string>)

  /** The query after defaults and validation. */
  datatype ListQuery = ListQuery(limit: int, page: int, sortBy: string, sortOrder: string)

  const DefaultLimit := 10
  const DefaultPage := 1
  const DefaultSortBy := "createdAt"
  const DefaultSortOrder := "desc"

  function OrDefault<T>(v: Option<T>, d: T): T {
    if v.None? then d else v.value
  }

  /** Fill in the field initialisers, then apply the validators: limit in
      [1, 100], page at least 1 with no upper bound, sortOrder "asc" or
      "desc", sortBy any string. A failure names the offending fields. */
  function ValidateList(d: ListImagesDto): (r: Result<ListQuery, seq<string>>)
    ensures r.Success? <==>
      IntIn(d.limit, 1, 100) && (d.page.None? || d.page.value >= 1) && OneOf(d.sortOrder, {"asc", "desc"})
    ensures r.Failure? ==> |r.error| > 0 && forall f :: f in r.error ==> f in ["limit", "page", "sortOrder"]
    ensures r.Failure? ==> ("limit" in r.error <==> !IntIn(d.limit, 1, 100))
    ensures r.Failure? ==> ("page" in r.error <==> d.page.Some? && d.page.value < 1)
    ensures r.Failure? ==> ("sortOrder" in r.error <==> !OneOf(d.sortOrder, {"asc", "desc"}))
    ensures r.Success? ==>
      && 1 <= r.value.limit <= 100 && r.value.page >= 1
      && r.value.sortOrder in {"asc", "desc"}
      && r.value.limit == OrDefault(d.limit, DefaultLimit)
      && r.value.page == OrDefault(d.page, DefaultPage)
      && r.value.sortBy == OrDefault(d.sortBy, DefaultSortBy)
      && r.value.sortOrder == OrDefault(d.sortOrder, DefaultSortOrder)
  {
    var q := ListQuery(OrDefault(d.limit, DefaultLimit), OrDefault(d.page, DefaultPage),
                       OrDefault(d.sortBy, DefaultSortBy), OrDefault(d.sortOrder, DefaultSortOrder));
    var bad := (if 1 <= q.limit <= 100 then [] else ["limit"])
             + (if q.page >= 1 then [] else ["page"])
             + (if q.sortOrder in {"asc", "desc"} then [] else ["sortOrder"]);
    if bad == [] then Success(q) else Failure(bad)
  }

  /** An empty query lists the first ten records, newest first. */
  lemma ListDefaults()
    ensures ValidateList(ListImagesDto(None, None, None, None))
         == Success(ListQuery(10, 1, "createdAt", "desc"))
  {
  }
}

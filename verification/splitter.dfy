/** The splitter configuration model: per-document-type chunking parameters
    and the validating constructor that admits only consistent ones.

    A configuration is built from raw fields. Every field of the raw form is
    optional: an absent field takes the declared default, and a field without
    a default must be supplied. Construction then runs in two stages, as the
    model validators of the configuration classes do:
      1. field checks: required fields present, `chunk_size >= 1`,
         `chunk_overlap >= 0`, and for JSON `split_level >= 1`; every failing
         field check is reported;
      2. only when every field check passes, the cross-field validators:
         `chunk_overlap < chunk_size`, then (JSON only) `array_handling` is
         "split" or "merge"; the first one that fails is reported.
    On success the configuration is returned exactly as filled in. */
module SplitterConfig {
  import opened Common

  // ---------------------------------------------------------------------
  // Defaults
  // ---------------------------------------------------------------------

  const DefaultChunkSize: int := 1500
  const DefaultChunkOverlap: int := 150
  const DefaultSplitByPage: bool := false
  const DefaultKeepLayout: bool := true
  const DefaultExtractImages: bool := false
  const DefaultTableExtractMode: string := "text"
  const DefaultStripWhitespace: bool := false
  const DefaultSplitLevel: int := 1
  const DefaultPreserveStructure: bool := true
  const DefaultArrayHandling: string := "split"

  /** The array-handling modes a JSON configuration accepts. */
  const ArrayHandlingModes: set<string> := {"split", "merge"}

  // ---------------------------------------------------------------------
  // Validated configurations
  // ---------------------------------------------------------------------

  /** Where a plain-text splitter keeps the separator: a flag (`true` means
      at the start of the chunk) or an explicit side. */
  datatype KeepSeparator = Flag(keep: bool) | AtStart | AtEnd

  const DefaultKeepSeparator: KeepSeparator := Flag(false)

  /** One configuration per document type; every alternative carries the
      shared `chunkSize` / `chunkOverlap` base fields. */
  datatype SplitConfig =
    | Base(chunkSize: int, chunkOverlap: int)
    | Markdown(chunkSize: int, chunkOverlap: int,
               separators: Option<seq<string>>, splitRegex: Option<string>)
    | Pdf(chunkSize: int, chunkOverlap: int,
          splitByPage: bool, keepLayout: bool, extractImages: bool,
          tableExtractMode: string)
    | Text(chunkSize: int, chunkOverlap: int,
           keepSeparator: KeepSeparator, stripWhitespace: bool)
    | Json(chunkSize: int, chunkOverlap: int,
           splitLevel: int, preserveStructure: bool, arrayHandling: string,
           keyFilters: Option<seq<string>>)

  /** The base invariant shared by every document type. */
  predicate BaseValid(chunkSize: int, chunkOverlap: int) {
    chunkSize >= 1 && chunkOverlap >= 0 && chunkOverlap < chunkSize
  }

  /** The invariants a configuration of each type must satisfy. */
  predicate Valid(c: SplitConfig) {
    && BaseValid(c.chunkSize, c.chunkOverlap)
    && (c.Json? ==> c.splitLevel >= 1 && c.arrayHandling in ArrayHandlingModes)
  }

  // ---------------------------------------------------------------------
  // Raw input and errors
  // ---------------------------------------------------------------------

  /** The fields a caller supplies; `None` means the field was not given.
      For a field that is itself nullable (`separators`, `splitRegex`,
      `keyFilters`) `Some(None)` means it was given as null. */
  datatype RawConfig =
    | RawBase(chunkSize: Option<int>, chunkOverlap: Option<int>)
    | RawMarkdown(chunkSize: Option<int>, chunkOverlap: Option<int>,
                  separators: Option<Option<seq<string>>>,
                  splitRegex: Option<Option<string>>)
    | RawPdf(chunkSize: Option<int>, chunkOverlap: Option<int>,
             splitByPage: Option<bool>, keepLayout: Option<bool>,
             extractImages: Option<bool>, tableExtractMode: Option<string>)
    | RawText(chunkSize: Option<int>, chunkOverlap: Option<int>,
              keepSeparator: Option<KeepSeparator>, stripWhitespace: Option<bool>)
    | RawJson(chunkSize: Option<int>, chunkOverlap: Option<int>,
              splitLevel: Option<int>, preserveStructure: Option<bool>,
              arrayHandling: Option<string>,
              keyFilters: Option<Option<seq<string>>>)

  /** The fields a validation error can name. */
  datatype FieldName = ChunkSize | ChunkOverlap | Separators | SplitRegex | SplitLevel

  /** Why construction failed. */
  datatype ConfigError =
    | Missing(field: FieldName)
    | BelowMinimum(field: FieldName, minimum: int)
    | OverlapNotBelowSize
    | ArrayHandlingNotAllowed(given: string)

  /** `e` is a correct report for `raw`: the check it names really fails,
      and a cross-field error only once every field check has passed. */
  predicate CorrectReport(raw: RawConfig, e: ConfigError) {
    match e
    case BelowMinimum(f, m) =>
      || (f == ChunkSize && m == 1 && SizeOf(raw) < 1)
      || (f == ChunkOverlap && m == 0 && OverlapOf(raw) < 0)
      || (f == SplitLevel && m == 1 && raw.RawJson? && SplitLevelOf(raw) < 1)
    case Missing(f) =>
      || (f == Separators && raw.RawMarkdown? && raw.separators.None?)
      || (f == SplitRegex && raw.RawMarkdown? && raw.splitRegex.None?)
    case OverlapNotBelowSize =>
      FieldsValid(raw) && OverlapOf(raw) >= SizeOf(raw)
    case ArrayHandlingNotAllowed(g) =>
      && raw.RawJson? && FieldsValid(raw) && OverlapOf(raw) < SizeOf(raw)
      && g == raw.arrayHandling.GetOr(DefaultArrayHandling) && g !in ArrayHandlingModes
  }

  /** No error is reported twice. */
  predicate NoRepeats(errs: seq<ConfigError>) {
    forall i, j :: 0 <= i < j < |errs| ==> errs[i] != errs[j]
  }

  /** The errors a construction result reports (none on success). */
  function Errors(r: Result<SplitConfig, seq<ConfigError>>): seq<ConfigError> {
    if r.Failure? then r.error else []
  }

  function SizeOf(raw: RawConfig): int {
    raw.chunkSize.GetOr(DefaultChunkSize)
  }

  function OverlapOf(raw: RawConfig): int {
    raw.chunkOverlap.GetOr(DefaultChunkOverlap)
  }

  function SplitLevelOf(raw: RawConfig): int
    requires raw.RawJson?
  {
    raw.splitLevel.GetOr(DefaultSplitLevel)
  }

  /** Every field-level rule holds: required fields present and each bounded
      field (after defaults) within its bound. */
  predicate FieldsValid(raw: RawConfig) {
    && Complete(raw)
    && SizeOf(raw) >= 1
    && OverlapOf(raw) >= 0
    && (raw.RawJson? ==> SplitLevelOf(raw) >= 1)
  }

  /** Every field without a default was supplied. */
  predicate Complete(raw: RawConfig) {
    raw.RawMarkdown? ==> raw.separators.Some? && raw.splitRegex.Some?
  }

  /** A supplied field is kept as given. */
  predicate Agrees<T(==)>(given: Option<T>, actual: T) {
    given.Some? ==> given.value == actual
  }

  /** `c` is a configuration of the document type `raw` asks for, and every
      field `raw` supplies holds the supplied value in `c`. */
  predicate KeepsSupplied(raw: RawConfig, c: SplitConfig) {
    match raw
    case RawBase(s, o) =>
      c.Base? && Agrees(s, c.chunkSize) && Agrees(o, c.chunkOverlap)
    case RawMarkdown(s, o, seps, rx) =>
      && c.Markdown? && Agrees(s, c.chunkSize) && Agrees(o, c.chunkOverlap)
      && Agrees(seps, c.separators) && Agrees(rx, c.splitRegex)
    case RawPdf(s, o, byPage, layout, images, tables) =>
      && c.Pdf? && Agrees(s, c.chunkSize) && Agrees(o, c.chunkOverlap)
      && Agrees(byPage, c.splitByPage) && Agrees(layout, c.keepLayout)
      && Agrees(images, c.extractImages) && Agrees(tables, c.tableExtractMode)
    case RawText(s, o, keep, strip) =>
      && c.Text? && Agrees(s, c.chunkSize) && Agrees(o, c.chunkOverlap)
      && Agrees(keep, c.keepSeparator) && Agrees(strip, c.stripWhitespace)
    case RawJson(s, o, level, preserve, arrays, keys) =>
      && c.Json? && Agrees(s, c.chunkSize) && Agrees(o, c.chunkOverlap)
      && Agrees(level, c.splitLevel) && Agrees(preserve, c.preserveStructure)
      && Agrees(arrays, c.arrayHandling) && Agrees(keys, c.keyFilters)
  }

  /** An absent field takes its default. */
  predicate Defaulted<T(==)>(given: Option<T>, actual: T, default: T) {
    given.None? ==> actual == default
  }

  /** Every field `raw` leaves out holds its declared default in `c`. */
  predicate DefaultsAbsent(raw: RawConfig, c: SplitConfig) {
    && Defaulted(raw.chunkSize, c.chunkSize, DefaultChunkSize)
    && Defaulted(raw.chunkOverlap, c.chunkOverlap, DefaultChunkOverlap)
    && match raw
       case RawPdf(_, _, byPage, layout, images, tables) =>
         && c.Pdf?
         && Defaulted(byPage, c.splitByPage, DefaultSplitByPage)
         && Defaulted(layout, c.keepLayout, DefaultKeepLayout)
         && Defaulted(images, c.extractImages, DefaultExtractImages)
         && Defaulted(tables, c.tableExtractMode, DefaultTableExtractMode)
       case RawText(_, _, keep, strip) =>
         && c.Text?
         && Defaulted(keep, c.keepSeparator, DefaultKeepSeparator)
         && Defaulted(strip, c.stripWhitespace, DefaultStripWhitespace)
       case RawJson(_, _, level, preserve, arrays, keys) =>
         && c.Json?
         && Defaulted(level, c.splitLevel, DefaultSplitLevel)
         && Defaulted(preserve, c.preserveStructure, DefaultPreserveStructure)
         && Defaulted(arrays, c.arrayHandling, DefaultArrayHandling)
         && Defaulted(keys, c.keyFilters, None)
       case _ => true
  }

  /** The raw form with absent fields replaced by their defaults. */
  function Fill(raw: RawConfig): (c: SplitConfig)
    requires Complete(raw)
    // same document type, every supplied field kept as given
    ensures KeepsSupplied(raw, c)
    // every absent field holds its declared default
    ensures DefaultsAbsent(raw, c)
    ensures c.chunkSize == SizeOf(raw) && c.chunkOverlap == OverlapOf(raw)
  {
    match raw
    case RawBase(_, _) =>
      Base(SizeOf(raw), OverlapOf(raw))
    case RawMarkdown(_, _, seps, rx) =>
      Markdown(SizeOf(raw), OverlapOf(raw), seps.value, rx.value)
    case RawPdf(_, _, byPage, layout, images, tables) =>
      Pdf(SizeOf(raw), OverlapOf(raw),
          byPage.GetOr(DefaultSplitByPage), layout.GetOr(DefaultKeepLayout),
          images.GetOr(DefaultExtractImages), tables.GetOr(DefaultTableExtractMode))
    case RawText(_, _, keep, strip) =>
      Text(SizeOf(raw), OverlapOf(raw),
           keep.GetOr(DefaultKeepSeparator), strip.GetOr(DefaultStripWhitespace))
    case RawJson(_, _, level, preserve, arrays, keys) =>
      Json(SizeOf(raw), OverlapOf(raw),
           level.GetOr(DefaultSplitLevel), preserve.GetOr(DefaultPreserveStructure),
           arrays.GetOr(DefaultArrayHandling), keys.GetOr(None))
  }

  /** A validated configuration given back as raw input with every field supplied. */
  function ToRaw(c: SplitConfig): (raw: RawConfig)
    ensures Complete(raw) && Fill(raw) == c
  {
    match c
    case Base(s, o) => RawBase(Some(s), Some(o))
    case Markdown(s, o, seps, rx) => RawMarkdown(Some(s), Some(o), Some(seps), Some(rx))
    case Pdf(s, o, byPage, layout, images, tables) =>
      RawPdf(Some(s), Some(o), Some(byPage), Some(layout), Some(images), Some(tables))
    case Text(s, o, keep, strip) => RawText(Some(s), Some(o), Some(keep), Some(strip))
    case Json(s, o, level, preserve, arrays, keys) =>
      RawJson(Some(s), Some(o), Some(level), Some(preserve), Some(arrays), Some(keys))
  }

  // ---------------------------------------------------------------------
  // Construction
  // ---------------------------------------------------------------------

  /** Stage 1: the failing field checks, in field declaration order. */
  function FieldErrors(raw: RawConfig): (errs: seq<ConfigError>)
    ensures errs == [] <==> FieldsValid(raw)
    ensures NoRepeats(errs)
  {
    (if SizeOf(raw) < 1 then [BelowMinimum(ChunkSize, 1)] else [])
    + (if OverlapOf(raw) < 0 then [BelowMinimum(ChunkOverlap, 0)] else [])
    + match raw
      case RawMarkdown(_, _, seps, rx) =>
        (if seps.None? then [Missing(Separators)] else [])
        + (if rx.None? then [Missing(SplitRegex)] else [])
      case RawJson(_, _, _, _, _, _) =>
        if SplitLevelOf(raw) < 1 then [BelowMinimum(SplitLevel, 1)] else []
      case _ => []
  }

  /** Stage 2: the first failing cross-field validator, if any. */
  function ModelError(c: SplitConfig): (r: Option<ConfigError>)
    // both validators pass exactly when the overlap is below the size and,
    // for JSON, the array-handling mode is allowed
    ensures r.None? <==>
              c.chunkOverlap < c.chunkSize && (c.Json? ==> c.arrayHandling in ArrayHandlingModes)
    // with the field bounds met, passing both is being valid
    ensures c.chunkSize >= 1 && c.chunkOverlap >= 0 && (c.Json? ==> c.splitLevel >= 1) ==>
              (r.None? <==> Valid(c))
    // the overlap validator runs first
    ensures r == Some(OverlapNotBelowSize) <==> c.chunkOverlap >= c.chunkSize
    ensures r.Some? && r.value.ArrayHandlingNotAllowed? ==>
              c.Json? && c.chunkOverlap < c.chunkSize && r.value.given == c.arrayHandling
    // past the overlap validator, the only failure is the array-handling one
    ensures r.Some? && c.chunkOverlap < c.chunkSize ==>
              r == Some(ArrayHandlingNotAllowed(c.arrayHandling))
  {
    if c.chunkOverlap >= c.chunkSize then Some(OverlapNotBelowSize)
    else if c.Json? && c.arrayHandling !in ArrayHandlingModes then
      Some(ArrayHandlingNotAllowed(c.arrayHandling))
    else None
  }

  /** The validating constructor of every configuration type. */
  function Make(raw: RawConfig): (r: Result<SplitConfig, seq<ConfigError>>)
    // success exactly when the required fields are there and the filled-in
    // configuration satisfies its invariants
    ensures r.Success? <==> Complete(raw) && Valid(Fill(raw))
    // success hands back the filled-in fields, nothing altered
    ensures r.Success? ==> r.value == Fill(raw) && Valid(r.value) && KeepsSupplied(raw, r.value)
    ensures r.Failure? ==> |r.error| >= 1
    // every reported error names a check that really fails
    ensures forall e :: e in Errors(r) ==> CorrectReport(raw, e)
    // and is reported once
    ensures NoRepeats(Errors(r))
    // each field check is reported exactly when it fails
    ensures BelowMinimum(ChunkSize, 1) in Errors(r) <==> SizeOf(raw) < 1
    ensures BelowMinimum(ChunkOverlap, 0) in Errors(r) <==> OverlapOf(raw) < 0
    ensures Missing(Separators) in Errors(r) <==> raw.RawMarkdown? && raw.separators.None?
    ensures Missing(SplitRegex) in Errors(r) <==> raw.RawMarkdown? && raw.splitRegex.None?
    ensures BelowMinimum(SplitLevel, 1) in Errors(r) <==> raw.RawJson? && SplitLevelOf(raw) < 1
    // the cross-field checks are reported only once every field check passed
    ensures OverlapNotBelowSize in Errors(r) <==>
              FieldsValid(raw) && OverlapOf(raw) >= SizeOf(raw)
    ensures r.Failure? && r.error[0].ArrayHandlingNotAllowed? <==>
              && raw.RawJson?
              && BaseValid(SizeOf(raw), OverlapOf(raw)) && SplitLevelOf(raw) >= 1
              && raw.arrayHandling.GetOr(DefaultArrayHandling) !in ArrayHandlingModes
    ensures r.Failure? && r.error[0].ArrayHandlingNotAllowed? ==>
              r.error == [ArrayHandlingNotAllowed(raw.arrayHandling.GetOr(DefaultArrayHandling))]
  {
    var fieldErrors := FieldErrors(raw);
    if fieldErrors != [] then Failure(fieldErrors)
    else
      var c := Fill(raw);
      match ModelError(c)
      case Some(e) => Failure([e])
      case None => Success(c)
  }

  /** Validation of an already typed configuration: construction from all
      of its fields. */
  function Validate(c: SplitConfig): (r: Result<SplitConfig, seq<ConfigError>>)
    ensures r.Success? <==> Valid(c)
    ensures r.Success? ==> r.value == c
  {
    Make(ToRaw(c))
  }
}

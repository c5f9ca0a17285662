/** Properties of the splitter configuration constructor, one per promise
    the configuration classes make to their callers. */
module SplitterProperties {
  import opened Common
  import opened SplitterConfig

  /** A base configuration is accepted exactly when `chunk_size >= 1`,
      `chunk_overlap >= 0` and the overlap is below the size; with both
      bounds met, an overlap at or above the size is reported as such. */
  lemma BaseAcceptedIff(size: int, overlap: int)
    ensures (Make(RawBase(Some(size), Some(overlap))).Success?
             <==> size >= 1 && overlap >= 0 && overlap < size)
    ensures size >= 1 && overlap >= 0 && overlap >= size ==>
              Make(RawBase(Some(size), Some(overlap))) == Failure([OverlapNotBelowSize])
  {
  }

  /** Whatever the document type, an accepted configuration has
      `0 <= chunk_overlap < chunk_size`, hence `chunk_size >= 1`. */
  lemma AcceptedKeepsOverlapBelowSize(raw: RawConfig)
    requires Make(raw).Success?
    ensures 0 <= Make(raw).value.chunkOverlap < Make(raw).value.chunkSize
    ensures Make(raw).value.chunkSize >= 1
  {
  }

  /** The defaults (1500, 150) satisfy the base invariant, so every type
      whose fields all have defaults is accepted with nothing supplied. */
  lemma DefaultsAccepted()
    ensures BaseValid(DefaultChunkSize, DefaultChunkOverlap)
    ensures Make(RawBase(None, None)) == Success(Base(1500, 150))
    ensures Make(RawPdf(None, None, None, None, None, None))
              == Success(Pdf(1500, 150, false, true, false, "text"))
    ensures Make(RawText(None, None, None, None))
              == Success(Text(1500, 150, Flag(false), false))
    ensures Make(RawJson(None, None, None, None, None, None))
              == Success(Json(1500, 150, 1, true, "split", None))
  {
  }

  /** The Markdown type has no default for `separators` and `split_regex`:
      left out they are reported missing; given (even as null) with the base
      fields left to their defaults, the configuration is accepted. */
  lemma MarkdownRequiresItsFields(seps: Option<seq<string>>, rx: Option<string>)
    ensures Make(RawMarkdown(None, None, None, None))
              == Failure([Missing(Separators), Missing(SplitRegex)])
    ensures Make(RawMarkdown(None, None, Some(seps), Some(rx)))
              == Success(Markdown(1500, 150, seps, rx))
  {
    var bare := RawMarkdown(None, None, None, None);
    assert SizeOf(bare) == 1500 && OverlapOf(bare) == 150;
    assert FieldErrors(bare) == [Missing(Separators), Missing(SplitRegex)];
  }

  /** With every other field valid, a JSON configuration is accepted exactly
      when `array_handling` is "split" or "merge"; any other value is
      reported by name. */
  lemma JsonArrayHandlingRule(size: int, overlap: int, level: int, preserve: bool,
                              arrays: string, keys: Option<seq<string>>)
    requires BaseValid(size, overlap) && level >= 1
    ensures var r := Make(RawJson(Some(size), Some(overlap), Some(level), Some(preserve),
                                  Some(arrays), Some(keys)));
            && (r.Success? <==> arrays == "split" || arrays == "merge")
            && (r.Failure? ==> r.error == [ArrayHandlingNotAllowed(arrays)])
  {
  }

  /** `split_level` must be at least 1, whatever else is given. */
  lemma JsonSplitLevelBound(raw: RawConfig)
    requires raw.RawJson? && SplitLevelOf(raw) < 1
    ensures Make(raw).Failure?
    ensures BelowMinimum(SplitLevel, 1) in Make(raw).error
  {
  }

  /** A JSON configuration is accepted only if both the inherited overlap
      invariant and its own rules hold. */
  lemma JsonNeedsBothRules(raw: RawConfig)
    requires raw.RawJson?
    ensures Make(raw).Success? <==>
              && BaseValid(SizeOf(raw), OverlapOf(raw))
              && SplitLevelOf(raw) >= 1
              && raw.arrayHandling.GetOr(DefaultArrayHandling) in ArrayHandlingModes
  {
  }

  /** `table_extract_mode` is free-form: changing it never changes whether a
      PDF configuration is accepted, which depends on the base fields only. */
  lemma PdfTableModeUnchecked(size: Option<int>, overlap: Option<int>,
                              byPage: Option<bool>, layout: Option<bool>,
                              images: Option<bool>, mode: Option<string>)
    ensures Make(RawPdf(size, overlap, byPage, layout, images, mode)).Success? <==>
              BaseValid(size.GetOr(DefaultChunkSize), overlap.GetOr(DefaultChunkOverlap))
  {
  }

  /** Every value of the `keep_separator` union (a flag, "start", "end") is
      accepted: a text configuration fails only on the base fields. */
  lemma TextKeepSeparatorUnchecked(size: Option<int>, overlap: Option<int>,
                                   keep: Option<KeepSeparator>, strip: Option<bool>)
    ensures Make(RawText(size, overlap, keep, strip)).Success? <==>
              BaseValid(size.GetOr(DefaultChunkSize), overlap.GetOr(DefaultChunkOverlap))
  {
  }

  /** The validators hand back the configuration they were given: anything
      construction accepts passes validation again unchanged, with every
      supplied field as it was given. */
  lemma ValidationKeepsFields(raw: RawConfig)
    requires Make(raw).Success?
    ensures Validate(Make(raw).value) == Make(raw)
    ensures KeepsSupplied(ToRaw(Make(raw).value), Make(raw).value)
  {
  }
}

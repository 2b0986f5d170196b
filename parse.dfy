/**
 * Normalising the settings read back from storage: every field of the
 * stored object is either accepted as it is or replaced by its default,
 * and every redaction rule is given its capture-group fields (and a
 * replacement text when it is a "replace" rule without one).
 */
module Parse {
  import opened JsValues
  import opened Types

  /** The width a pixel setting falls back to when its value is not a number. */
  const DefaultPixelWidth := 800

  /** The replacement text given to a "replace" rule stored without one. */
  const DefaultReplacementText := "[REDACTED]"

  /** What reading a property of `null` or `undefined` throws. */
  const NullPropertyError := "TypeError: Cannot read properties of null or undefined"

  /**
   * The settings as the normaliser returns them. Disposition and width are
   * rebuilt from scratch; the header list and the rule lists are passed
   * through element by element, so their elements stay untyped values.
   */
  datatype ParsedSettings = ParsedSettings(
    headersToHide: seq<Json>,
    disposition: Disposition,
    width: WidthSetting,
    highlights: seq<Json>,
    redactions: seq<Json>)

  // ---------------------------------------------------------------- encoding

  function EncodeStrings(ss: seq<string>): (r: seq<Json>)
    ensures |r| == |ss| && forall i :: 0 <= i < |ss| ==> r[i] == Str(ss[i])
  {
    seq(|ss|, i requires 0 <= i < |ss| => Str(ss[i]))
  }

  function EncodeInts(ns: seq<int>): (r: seq<Json>)
    ensures |r| == |ns| && forall i :: 0 <= i < |ns| ==> r[i] == Num(ns[i])
  {
    seq(|ns|, i requires 0 <= i < |ns| => Num(ns[i]))
  }

  /** A width setting as the object it is stored as. */
  function EncodeWidth(w: WidthSetting): Json {
    match w
    case Pixel(value) => Obj(map["mode" := Str("pixel"), "value" := Num(value)])
    case _ => Obj(map["mode" := Str(WidthModeName(w))])
  }

  function EncodeHighlight(h: HighlightRule): Json {
    Obj(map[
      "id" := Str(h.id),
      "regex" := Str(h.regex),
      "target" := Str(RuleTargetName(h.target)),
      "color" := Str(h.color),
      "mode" := Str(HighlightModeName(h.mode))])
  }

  /** A redaction rule as the object it is stored as: the style adds its own field. */
  function EncodeRedaction(r: RedactionRule): Json {
    var common := map[
      "id" := Str(r.id),
      "regex" := Str(r.regex),
      "target" := Str(RuleTargetName(r.target)),
      "useCaptureGroups" := Bool(r.useCaptureGroups),
      "selectedGroups" := Arr(EncodeInts(r.selectedGroups)),
      "mode" := Str(RedactionModeName(r.Mode()))];
    match r.style
    case OpaqueStyle(color) => Obj(common["color" := Str(color)])
    case BlurStyle => Obj(common)
    case ReplaceStyle(text) => Obj(common["replacementText" := Str(text)])
  }

  function EncodeHighlights(hs: seq<HighlightRule>): (r: seq<Json>)
    ensures |r| == |hs| && forall i :: 0 <= i < |hs| ==> r[i] == EncodeHighlight(hs[i])
  {
    seq(|hs|, i requires 0 <= i < |hs| => EncodeHighlight(hs[i]))
  }

  function EncodeRedactions(rs: seq<RedactionRule>): (r: seq<Json>)
    ensures |r| == |rs| && forall i :: 0 <= i < |rs| ==> r[i] == EncodeRedaction(rs[i])
  {
    seq(|rs|, i requires 0 <= i < |rs| => EncodeRedaction(rs[i]))
  }

  /** Typed settings seen as the values the normaliser works on. */
  function FromSettings(s: ScreenshotSettings): ParsedSettings {
    ParsedSettings(
      EncodeStrings(s.headersToHide),
      s.disposition,
      s.width,
      EncodeHighlights(s.highlights),
      EncodeRedactions(s.redactions))
  }

  /** Normalised settings as the object they are stored as. */
  function SettingsJson(p: ParsedSettings): Json {
    Obj(map[
      "headersToHide" := Arr(p.headersToHide),
      "disposition" := Str(DispositionName(p.disposition)),
      "width" := EncodeWidth(p.width),
      "highlights" := Arr(p.highlights),
      "redactions" := Arr(p.redactions)])
  }

  /** `{ ...DEFAULT_SETTINGS }`. */
  function DefaultParsed(): ParsedSettings {
    FromSettings(DefaultSettings)
  }

  // ----------------------------------------------------------------- parsing

  /** `parseWidthSetting`: anything that is not a recognised width object is full width. */
  function ParseWidthSetting(width: Json): (w: WidthSetting)
    ensures !IsObject(width) ==> w == Full
    ensures w.Pixel? <==> IsObject(width) && Get(width, "mode") == Str("pixel")
    ensures w.Pixel? ==> w.value == (if Get(width, "value").Num? then Get(width, "value").n else DefaultPixelWidth)
    ensures w == A4 <==> IsObject(width) && Get(width, "mode") == Str("a4")
    ensures w == Letter <==> IsObject(width) && Get(width, "mode") == Str("letter")
  {
    if !IsObject(width) then Full
    else
      var mode := Get(width, "mode");
      if mode == Str("pixel") then
        var value := Get(width, "value");
        Pixel(if value.Num? then value.n else DefaultPixelWidth)
      else if mode == Str("a4") then A4
      else if mode == Str("letter") then Letter
      else Full
  }

  /** Only the exact string "vertical" selects the vertical layout. */
  function ParseDisposition(v: Json): (d: Disposition)
    ensures d == Vertical <==> v == Str("vertical")
  {
    if v == Str(DispositionName(Vertical)) then Vertical else Horizontal
  }

  /**
   * A redaction rule that needs no normalising: its capture-group fields
   * are already typed, and a "replace" rule already has its text.
   */
  predicate IsNormalizedRedaction(v: Json) {
    && v.Obj?
    && Get(v, "selectedGroups").Arr?
    && Get(v, "useCaptureGroups").Bool?
    && (Get(v, "mode") == Str("replace") ==> Get(v, "replacementText").Str?)
  }

  /**
   * The callback of `redactions.map` in `parseRedactions`. Reading a
   * property of a null or undefined element throws; anything else is
   * spread into a fresh object and given its capture-group fields.
   */
  function NormalizeRedaction(r: Json): (res: Result<Json>)
    ensures res.Thrown? <==> r.Null? || r.Undefined?
    ensures res.Ok? ==> IsNormalizedRedaction(res.value)
  {
    if r.Null? || r.Undefined? then Thrown(NullPropertyError)
    else
      var given := Get(r, "selectedGroups");
      var selectedGroups := if given.Arr? then given else Arr([]);
      var flag := Get(r, "useCaptureGroups");
      var useCaptureGroups := if flag.Bool? then flag else Bool(|selectedGroups.items| > 0);
      var base := Spread(r)["useCaptureGroups" := useCaptureGroups]["selectedGroups" := selectedGroups];
      SpreadKeepsNamedProperty(r, "mode");
      SpreadKeepsNamedProperty(r, "replacementText");
      if Get(r, "mode") == Str("replace") && !Get(r, "replacementText").Str? then
        Ok(Obj(base["replacementText" := Str(DefaultReplacementText)]))
      else
        Ok(Obj(base))
  }

  /**
   * What the callback does to each field: the capture-group fields are
   * typed or defaulted, a "replace" rule without a string text gets the
   * default text, and every other field passes through unchanged.
   */
  lemma NormalizeRedactionFields(r: Json)
    requires !r.Null? && !r.Undefined?
    ensures var v := NormalizeRedaction(r).value;
      && v.fields["selectedGroups"] ==
           (if Get(r, "selectedGroups").Arr? then Get(r, "selectedGroups") else Arr([]))
      && v.fields["useCaptureGroups"] ==
           (if Get(r, "useCaptureGroups").Bool? then Get(r, "useCaptureGroups")
            else Bool(|v.fields["selectedGroups"].items| > 0))
      && Get(v, "replacementText") ==
           (if Get(r, "mode") == Str("replace") && !Get(r, "replacementText").Str? then Str(DefaultReplacementText)
            else Get(r, "replacementText"))
    ensures var v := NormalizeRedaction(r).value;
      forall key :: key in Spread(r) && key != "selectedGroups" && key != "useCaptureGroups" && key != "replacementText" ==>
        key in v.fields && v.fields[key] == Spread(r)[key]
    ensures var v := NormalizeRedaction(r).value;
      forall key :: key in v.fields ==>
        key in Spread(r) || key == "selectedGroups" || key == "useCaptureGroups" || key == "replacementText"
  {
    SpreadKeepsNamedProperty(r, "replacementText");
  }

  /**
   * `redactions.map(...)`, evaluated left to right: the first element that
   * throws ends the whole map.
   */
  function NormalizeRedactions(rs: seq<Json>): (res: Result<seq<Json>>)
    ensures res.Ok? <==> forall i :: 0 <= i < |rs| ==> !rs[i].Null? && !rs[i].Undefined?
    ensures res.Ok? ==> |res.value| == |rs|
    ensures res.Ok? ==> forall i :: 0 <= i < |rs| ==> NormalizeRedaction(rs[i]) == Ok(res.value[i])
    ensures res.Thrown? ==> res.message == NullPropertyError
  {
    if rs == [] then Ok([])
    else
      match NormalizeRedaction(rs[0])
      case Thrown(message) => Thrown(message)
      case Ok(first) =>
        match NormalizeRedactions(rs[1..])
        case Thrown(message) => Thrown(message)
        case Ok(rest) =>
          assert forall i :: 1 <= i < |rs| ==> rs[i] == rs[1..][i - 1];
          Ok([first] + rest)
  }

  /** `parseRedactions`: anything but an array holds no rules. */
  function ParseRedactions(redactions: Json): (res: Result<seq<Json>>)
    ensures !redactions.Arr? ==> res == Ok([])
    ensures redactions.Arr? ==> res == NormalizeRedactions(redactions.items)
  {
    if redactions.Arr? then NormalizeRedactions(redactions.items) else Ok([])
  }

  /** `parseStoredSettings`: only the redactions can throw. */
  function ParseStoredSettings(stored: Json): (res: Result<ParsedSettings>)
    ensures !IsObject(stored) ==> res == Ok(DefaultParsed())
    ensures IsObject(stored) ==> (res.Thrown? <==> ParseRedactions(Get(stored, "redactions")).Thrown?)
  {
    if !IsObject(stored) then Ok(DefaultParsed())
    else
      var headers := Get(stored, "headersToHide");
      var highlights := Get(stored, "highlights");
      match ParseRedactions(Get(stored, "redactions"))
      case Thrown(message) => Thrown(message)
      case Ok(redactions) =>
        Ok(ParsedSettings(
          if headers.Arr? then headers.items else EncodeStrings(DefaultHeadersToHide),
          ParseDisposition(Get(stored, "disposition")),
          ParseWidthSetting(Get(stored, "width")),
          if highlights.Arr? then highlights.items else [],
          redactions))
  }

  // ------------------------------------------------------------------ lemmas

  /** Every width setting survives being stored and read back. */
  lemma WidthRoundTrip(w: WidthSetting)
    ensures ParseWidthSetting(EncodeWidth(w)) == w
  {
  }

  /** Only a pixel width is stored with a value. */
  lemma EncodedWidthKeys(w: WidthSetting)
    ensures EncodeWidth(w).Obj? && "mode" in EncodeWidth(w).fields
    ensures "value" in EncodeWidth(w).fields <==> w.Pixel?
  {
  }

  /** Each style of redaction rule carries its own field and not the other's. */
  lemma EncodedRedactionKeys(r: RedactionRule)
    ensures "color" in EncodeRedaction(r).fields <==> r.Mode() == Opaque
    ensures "replacementText" in EncodeRedaction(r).fields <==> r.Mode() == Replace
  {
  }

  /** A stored redaction rule of the typed shape is already normalised. */
  lemma EncodedRedactionNormalized(r: RedactionRule)
    ensures IsNormalizedRedaction(EncodeRedaction(r))
  {
    if Get(EncodeRedaction(r), "mode") == Str("replace") {
      assert RedactionModeName(r.Mode()) == "replace";
      assert r.style.ReplaceStyle?;
    }
  }

  /** Normalising a normalised rule changes nothing. */
  lemma NormalizeFixedPoint(v: Json)
    requires IsNormalizedRedaction(v)
    ensures NormalizeRedaction(v) == Ok(v)
  {
    var base := v.fields["useCaptureGroups" := Get(v, "useCaptureGroups")]["selectedGroups" := Get(v, "selectedGroups")];
    assert base == v.fields;
  }

  /** Normalising a rule twice is normalising it once. */
  lemma NormalizeIdempotent(r: Json)
    requires NormalizeRedaction(r).Ok?
    ensures NormalizeRedaction(NormalizeRedaction(r).value) == NormalizeRedaction(r)
  {
    NormalizeFixedPoint(NormalizeRedaction(r).value);
  }

  /** A list of normalised rules is returned as it is. */
  lemma {:induction false} NormalizeRedactionsFixedPoint(vs: seq<Json>)
    requires forall i :: 0 <= i < |vs| ==> IsNormalizedRedaction(vs[i])
    ensures NormalizeRedactions(vs) == Ok(vs)
  {
    if vs != [] {
      NormalizeFixedPoint(vs[0]);
      NormalizeRedactionsFixedPoint(vs[1..]);
      assert [vs[0]] + vs[1..] == vs;
    }
  }

  /** An element that is not an object never names a mode, so no replacement text is added to it. */
  lemma NonObjectRuleGetsNoText(r: Json)
    requires !r.Obj? && !r.Null? && !r.Undefined?
    ensures NormalizeRedaction(r).Ok?
    ensures "mode" !in NormalizeRedaction(r).value.fields
    ensures "replacementText" !in NormalizeRedaction(r).value.fields
  {
    var v := NormalizeRedaction(r).value;
    if "mode" in v.fields {
      SpreadOfNonObjectHasOnlyIndexKeys(r, "mode");
    }
    if "replacementText" in Spread(r) {
      SpreadOfNonObjectHasOnlyIndexKeys(r, "replacementText");
    }
  }

  /** A value that is not an object, or an array, reads back as the defaults. */
  lemma ParseWithoutFieldsGivesDefaults(stored: Json)
    requires !stored.Obj?
    ensures ParseStoredSettings(stored) == Ok(DefaultParsed())
  {
  }

  /** The fields of a stored object that does not throw, one by one. */
  lemma ParsedFields(stored: Json)
    requires stored.Obj? && ParseStoredSettings(stored).Ok?
    ensures var p := ParseStoredSettings(stored).value;
      && p.headersToHide == (if Get(stored, "headersToHide").Arr? then Get(stored, "headersToHide").items else EncodeStrings(DefaultHeadersToHide))
      && p.disposition == (if Get(stored, "disposition") == Str("vertical") then Vertical else Horizontal)
      && p.width == ParseWidthSetting(Get(stored, "width"))
      && p.highlights == (if Get(stored, "highlights").Arr? then Get(stored, "highlights").items else [])
      && (Get(stored, "redactions").Arr? ==> |p.redactions| == |Get(stored, "redactions").items|)
      && (!Get(stored, "redactions").Arr? ==> p.redactions == [])
  {
  }

  /** Reading throws exactly when the stored rules hold a null or undefined element. */
  lemma ParseThrowsIff(stored: Json)
    ensures ParseStoredSettings(stored).Thrown? <==>
      && IsObject(stored)
      && Get(stored, "redactions").Arr?
      && exists i :: 0 <= i < |Get(stored, "redactions").items| &&
           (Get(stored, "redactions").items[i].Null? || Get(stored, "redactions").items[i].Undefined?)
  {
  }

  /** Every rule of a successful read is normalised. */
  lemma ParsedRedactionsNormalized(stored: Json)
    requires ParseStoredSettings(stored).Ok?
    ensures forall i :: 0 <= i < |ParseStoredSettings(stored).value.redactions| ==>
      IsNormalizedRedaction(ParseStoredSettings(stored).value.redactions[i])
  {
    var p := ParseStoredSettings(stored).value;
    if IsObject(stored) && Get(stored, "redactions").Arr? {
      var items := Get(stored, "redactions").items;
      forall i | 0 <= i < |p.redactions|
        ensures IsNormalizedRedaction(p.redactions[i])
      {
        assert NormalizeRedaction(items[i]) == Ok(p.redactions[i]);
      }
    } else {
      var d := DefaultParsed();
      assert p.redactions == [] || p.redactions == d.redactions;
    }
  }

  /** Settings whose rules are normalised survive being stored and read back. */
  lemma ParseOfStored(p: ParsedSettings)
    requires forall i :: 0 <= i < |p.redactions| ==> IsNormalizedRedaction(p.redactions[i])
    ensures ParseStoredSettings(SettingsJson(p)) == Ok(p)
  {
    NormalizeRedactionsFixedPoint(p.redactions);
    WidthRoundTrip(p.width);
    SettingsJsonFields(p);
    var j := SettingsJson(p);
    assert ParseRedactions(Get(j, "redactions")) == Ok(p.redactions);
    assert ParseDisposition(Get(j, "disposition")) == p.disposition;
  }

  /** The fields of the stored form of settings. */
  lemma SettingsJsonFields(p: ParsedSettings)
    ensures IsObject(SettingsJson(p))
    ensures Get(SettingsJson(p), "headersToHide") == Arr(p.headersToHide)
    ensures Get(SettingsJson(p), "disposition") == Str(DispositionName(p.disposition))
    ensures Get(SettingsJson(p), "width") == EncodeWidth(p.width)
    ensures Get(SettingsJson(p), "highlights") == Arr(p.highlights)
    ensures Get(SettingsJson(p), "redactions") == Arr(p.redactions)
  {
    var fields := SettingsJson(p).fields;
    assert fields["headersToHide"] == Arr(p.headersToHide);
    assert fields["disposition"] == Str(DispositionName(p.disposition));
    assert fields["width"] == EncodeWidth(p.width);
    assert fields["highlights"] == Arr(p.highlights);
  }

  /** Storing what was read and reading it again gives the same settings. */
  lemma ParseIdempotent(stored: Json)
    requires ParseStoredSettings(stored).Ok?
    ensures ParseStoredSettings(SettingsJson(ParseStoredSettings(stored).value)) == ParseStoredSettings(stored)
  {
    ParsedRedactionsNormalized(stored);
    ParseOfStored(ParseStoredSettings(stored).value);
  }

  /** Typed settings read back exactly as they were stored. */
  lemma TypedSettingsRoundTrip(s: ScreenshotSettings)
    ensures ParseStoredSettings(SettingsJson(FromSettings(s))) == Ok(FromSettings(s))
  {
    var p := FromSettings(s);
    forall i | 0 <= i < |p.redactions|
      ensures IsNormalizedRedaction(p.redactions[i])
    {
      EncodedRedactionNormalized(s.redactions[i]);
    }
    ParseOfStored(p);
  }
}

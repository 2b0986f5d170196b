/**
 * The pure part of the older, module-level settings store: its copy of
 * the settings, and its own copies of the storage normaliser and of the
 * migration. These copies differ from the template store's in one place:
 * a "replace" rule read back is never given a replacement text.
 */
module Settings {
  import opened JsValues
  import opened Types
  import opened Parse
  import opened Migrate

  /**
   * `cloneSettings`: a copy made field by field, with fresh lists for the
   * headers, the rules and each rule's selected groups. With value
   * semantics the copy is the same value as the original.
   */
  function CloneSettings(s: ScreenshotSettings): (r: ScreenshotSettings)
    ensures r == s
  {
    var width := if s.width.Pixel? then Pixel(s.width.value) else s.width;
    var highlights := seq(|s.highlights|, i requires 0 <= i < |s.highlights| => s.highlights[i]);
    var redactions := seq(|s.redactions|, i requires 0 <= i < |s.redactions| =>
      s.redactions[i].(selectedGroups := s.redactions[i].selectedGroups[..]));
    ScreenshotSettings(s.headersToHide[..], s.disposition, width, highlights, redactions)
  }

  /** The older copy of the `redactions.map` callback: capture-group fields only. */
  function LegacyNormalizeRedaction(r: Json): (res: Result<Json>)
    ensures res.Thrown? <==> r.Null? || r.Undefined?
    ensures res.Ok? ==> res.value.Obj?
    ensures res.Ok? ==> Get(res.value, "replacementText") == Get(r, "replacementText")
  {
    if r.Null? || r.Undefined? then Thrown(NullPropertyError)
    else
      var given := Get(r, "selectedGroups");
      var selectedGroups := if given.Arr? then given else Arr([]);
      var flag := Get(r, "useCaptureGroups");
      var useCaptureGroups := if flag.Bool? then flag else Bool(|selectedGroups.items| > 0);
      SpreadKeepsNamedProperty(r, "replacementText");
      Ok(Obj(Spread(r)["useCaptureGroups" := useCaptureGroups]["selectedGroups" := selectedGroups]))
  }

  function LegacyNormalizeRedactions(rs: seq<Json>): (res: Result<seq<Json>>)
    ensures res.Ok? ==> |res.value| == |rs|
    ensures res.Ok? ==> forall i :: 0 <= i < |rs| ==> LegacyNormalizeRedaction(rs[i]) == Ok(res.value[i])
    ensures res.Thrown? ==> exists i :: 0 <= i < |rs| && (rs[i].Null? || rs[i].Undefined?)
  {
    if rs == [] then Ok([])
    else
      match LegacyNormalizeRedaction(rs[0])
      case Thrown(message) => Thrown(message)
      case Ok(first) =>
        match LegacyNormalizeRedactions(rs[1..])
        case Thrown(message) =>
          assert forall i :: 1 <= i < |rs| ==> rs[i] == rs[1..][i - 1];
          Thrown(message)
        case Ok(rest) =>
          assert forall i :: 1 <= i < |rs| ==> rs[i] == rs[1..][i - 1];
          Ok([first] + rest)
  }

  function LegacyParseRedactions(redactions: Json): Result<seq<Json>> {
    if redactions.Arr? then LegacyNormalizeRedactions(redactions.items) else Ok([])
  }

  /** The older copy of `parseStoredSettings`. */
  function LegacyParseStoredSettings(stored: Json): (res: Result<ParsedSettings>)
    ensures !IsObject(stored) ==> res == Ok(DefaultParsed())
  {
    if !IsObject(stored) then Ok(DefaultParsed())
    else
      var headers := Get(stored, "headersToHide");
      var highlights := Get(stored, "highlights");
      match LegacyParseRedactions(Get(stored, "redactions"))
      case Thrown(message) => Thrown(message)
      case Ok(redactions) =>
        Ok(ParsedSettings(
          if headers.Arr? then headers.items else EncodeStrings(DefaultHeadersToHide),
          ParseDisposition(Get(stored, "disposition")),
          ParseWidthSetting(Get(stored, "width")),
          if highlights.Arr? then highlights.items else [],
          redactions))
  }

  /** The older copy of `migrateStorage`. */
  function LegacyMigrateStorage(stored: Json, freshId: string): (res: Result<Json>)
    ensures IsStoredData(stored) ==> res == Ok(stored)
    ensures res.Ok? ==> IsStoredData(res.value)
  {
    if IsStoredData(stored) then Ok(stored)
    else
      match LegacyParseStoredSettings(stored)
      case Thrown(message) => Thrown(message)
      case Ok(settings) => Ok(WrapSettings(settings, freshId))
  }

  // ------------------------------------------------------------------ lemmas

  /**
   * The two callbacks agree except that the newer one gives a "replace"
   * rule without a string text the default text.
   */
  lemma NormalizeAgreesWithLegacy(r: Json)
    ensures NormalizeRedaction(r).Ok? <==> LegacyNormalizeRedaction(r).Ok?
    ensures NormalizeRedaction(r).Ok? ==>
      NormalizeRedaction(r).value ==
        if Get(r, "mode") == Str("replace") && !Get(r, "replacementText").Str?
        then Obj(LegacyNormalizeRedaction(r).value.fields["replacementText" := Str(DefaultReplacementText)])
        else LegacyNormalizeRedaction(r).value
  {
  }

  /** Element by element, the two list normalisers fail together and agree as above. */
  lemma {:induction false} NormalizeRedactionsAgreeWithLegacy(rs: seq<Json>)
    ensures NormalizeRedactions(rs).Ok? <==> LegacyNormalizeRedactions(rs).Ok?
    ensures NormalizeRedactions(rs).Thrown? ==> NormalizeRedactions(rs) == LegacyNormalizeRedactions(rs)
    ensures NormalizeRedactions(rs).Ok? ==> forall i :: 0 <= i < |rs| ==>
      NormalizeRedactions(rs).value[i] ==
        if Get(rs[i], "mode") == Str("replace") && !Get(rs[i], "replacementText").Str?
        then Obj(LegacyNormalizeRedactions(rs).value[i].fields["replacementText" := Str(DefaultReplacementText)])
        else LegacyNormalizeRedactions(rs).value[i]
  {
    if rs != [] {
      NormalizeAgreesWithLegacy(rs[0]);
      NormalizeRedactionsAgreeWithLegacy(rs[1..]);
    }
    if NormalizeRedactions(rs).Ok? {
      forall i | 0 <= i < |rs| {
        NormalizeAgreesWithLegacy(rs[i]);
      }
    }
  }

  /** The older reader throws exactly when the newer one does, and agrees on every field but the rules' texts. */
  lemma LegacyParseAgrees(stored: Json)
    ensures LegacyParseStoredSettings(stored).Thrown? <==> ParseStoredSettings(stored).Thrown?
    ensures ParseStoredSettings(stored).Ok? ==>
      var p := ParseStoredSettings(stored).value;
      var q := LegacyParseStoredSettings(stored).value;
      && p.headersToHide == q.headersToHide
      && p.disposition == q.disposition
      && p.width == q.width
      && p.highlights == q.highlights
      && |p.redactions| == |q.redactions|
  {
    if IsObject(stored) && Get(stored, "redactions").Arr? {
      NormalizeRedactionsAgreeWithLegacy(Get(stored, "redactions").items);
    }
  }

  /** The older reader never invents a replacement text. */
  lemma LegacyKeepsReplacementText(stored: Json, i: nat)
    requires IsObject(stored) && Get(stored, "redactions").Arr?
    requires LegacyParseStoredSettings(stored).Ok?
    requires i < |Get(stored, "redactions").items|
    ensures i < |LegacyParseStoredSettings(stored).value.redactions|
    ensures Get(LegacyParseStoredSettings(stored).value.redactions[i], "replacementText") ==
      Get(Get(stored, "redactions").items[i], "replacementText")
  {
    var items := Get(stored, "redactions").items;
    var q := LegacyParseStoredSettings(stored).value;
    assert LegacyNormalizeRedaction(items[i]) == Ok(q.redactions[i]);
  }

  /** The two migrations agree on stored documents, and fail together on everything else. */
  lemma LegacyMigrateAgrees(stored: Json, freshId: string)
    ensures IsStoredData(stored) ==> LegacyMigrateStorage(stored, freshId) == MigrateStorage(stored, freshId)
    ensures LegacyMigrateStorage(stored, freshId).Thrown? <==> MigrateStorage(stored, freshId).Thrown?
  {
    LegacyParseAgrees(stored);
  }
}

/**
 * The plugin's data model: rule modes, the width setting, highlight and
 * redaction rules, the settings of one screenshot, templates, the stored
 * document, and the built-in defaults.
 */
module Types {

  datatype HighlightMode = Highlight | Rectangle
  datatype RedactionMode = Blur | Opaque | Replace
  datatype RuleTarget = Request | Response
  datatype Disposition = Horizontal | Vertical

  /** Only the pixel variant carries a number. */
  datatype WidthSetting = Pixel(value: int) | Full | A4 | Letter

  /** The string each mode is stored and compared as. */
  function HighlightModeName(m: HighlightMode): string {
    match m
    case Highlight => "highlight"
    case Rectangle => "rectangle"
  }

  function RedactionModeName(m: RedactionMode): string {
    match m
    case Blur => "blur"
    case Opaque => "opaque"
    case Replace => "replace"
  }

  function RuleTargetName(t: RuleTarget): string {
    match t
    case Request => "request"
    case Response => "response"
  }

  function DispositionName(d: Disposition): string {
    match d
    case Horizontal => "horizontal"
    case Vertical => "vertical"
  }

  function WidthModeName(w: WidthSetting): string {
    match w
    case Pixel(_) => "pixel"
    case Full => "full"
    case A4 => "a4"
    case Letter => "letter"
  }

  datatype HighlightRule = HighlightRule(
    id: string,
    regex: string,
    target: RuleTarget,
    color: string,
    mode: HighlightMode)

  /** The mode-specific part of a redaction rule: the tag and the fields that go with it. */
  datatype RedactionStyle =
    | OpaqueStyle(color: string)
    | BlurStyle
    | ReplaceStyle(replacementText: string)

  datatype RedactionRule = RedactionRule(
    id: string,
    regex: string,
    target: RuleTarget,
    useCaptureGroups: bool,
    selectedGroups: seq<int>,
    style: RedactionStyle)
  {
    function Mode(): RedactionMode {
      match style
      case OpaqueStyle(_) => Opaque
      case BlurStyle => Blur
      case ReplaceStyle(_) => Replace
    }
  }

  datatype ScreenshotSettings = ScreenshotSettings(
    headersToHide: seq<string>,
    disposition: Disposition,
    width: WidthSetting,
    highlights: seq<HighlightRule>,
    redactions: seq<RedactionRule>)

  datatype Template = Template(id: string, name: string, settings: ScreenshotSettings)

  datatype StoredData = StoredData(version: int, templates: seq<Template>, defaultTemplateId: string)

  const DefaultHeadersToHide: seq<string> := [
    "Accept", "Accept-Encoding", "Accept-Language", "Cache-Control",
    "CF-Cache-Status", "CF-RAY", "Connection", "Content-Length", "Date",
    "ETag", "Expires", "Last-Modified", "NEL", "Pragma", "Priority",
    "Report-To", "Sec-CH-UA", "Sec-CH-UA-Mobile", "Sec-CH-UA-Platform",
    "Sec-Fetch-Dest", "Sec-Fetch-Mode", "Sec-Fetch-Site", "Sec-Fetch-User",
    "Server-Timing", "Strict-Transport-Security", "Upgrade-Insecure-Requests",
    "Vary", "Via", "X-Amz-Cf-Id", "X-Amz-Cf-Pop", "X-Amz-Id-2",
    "X-Amz-Request-Id", "X-Cache", "X-Content-Type-Options",
    "X-Frame-Options", "X-Request-Id", "X-Served-By", "X-Timer",
    "X-XSS-Protection"
  ]

  const DefaultSettings: ScreenshotSettings :=
    ScreenshotSettings(DefaultHeadersToHide, Horizontal, Full, [], [])

  /** The defaults hide 39 headers and carry no rules, side by side at full width. */
  lemma DefaultSettingsShape()
    ensures |DefaultSettings.headersToHide| == 39
    ensures DefaultSettings.highlights == [] && DefaultSettings.redactions == []
    ensures DefaultSettings.disposition == Horizontal && DefaultSettings.width == Full
  {
  }

  /** Highlight modes are exactly "highlight" and "rectangle", named distinctly. */
  lemma HighlightModeNames(name: string)
    ensures (exists m :: HighlightModeName(m) == name) <==> name == "highlight" || name == "rectangle"
    ensures HighlightModeName(Highlight) != HighlightModeName(Rectangle)
  {
    if name == "highlight" {
      assert HighlightModeName(Highlight) == name;
    } else if name == "rectangle" {
      assert HighlightModeName(Rectangle) == name;
    }
  }

  /** Redaction modes are exactly "blur", "opaque" and "replace", named distinctly. */
  lemma RedactionModeNames(name: string)
    ensures (exists m :: RedactionModeName(m) == name) <==> name == "blur" || name == "opaque" || name == "replace"
    ensures forall m1, m2 :: RedactionModeName(m1) == RedactionModeName(m2) ==> m1 == m2
  {
    if name == "blur" {
      assert RedactionModeName(Blur) == name;
    } else if name == "opaque" {
      assert RedactionModeName(Opaque) == name;
    } else if name == "replace" {
      assert RedactionModeName(Replace) == name;
    }
  }
}

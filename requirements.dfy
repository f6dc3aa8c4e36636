/**
 * The requirements record a user fills in: topic, education level, duration,
 * animation style, key concepts, description and the customisation options.
 * The enumerations carry the exact strings the interface stores and prints.
 */
module Requirements {
  import opened Text

  datatype Level = Elementary | MiddleSchool | HighSchool | College | Advanced

  datatype Style = TwoDAnimated | ThreeDVisualization | MixedMedia | Minimalist | Interactive

  datatype ColorScheme = Professional | Vibrant | Pastel | Dark | Custom

  datatype Customizations = Customizations(
    colorScheme: ColorScheme,
    includeNarration: bool,
    includeSubtitles: bool,
    backgroundMusic: bool)

  /** Duration is in minutes; the form's 1..10 bounds are advisory and not enforced. */
  datatype VideoRequirements = VideoRequirements(
    topic: string,
    level: Level,
    duration: int,
    style: Style,
    concepts: seq<string>,
    description: string,
    customizations: Customizations)

  /** The string value of a level, as stored and interpolated into the script. */
  function LevelName(l: Level): string {
    match l
    case Elementary => "elementary"
    case MiddleSchool => "middle-school"
    case HighSchool => "high-school"
    case College => "college"
    case Advanced => "advanced"
  }

  /** The string value of a style, as stored and interpolated into the script. */
  function StyleName(s: Style): string {
    match s
    case TwoDAnimated => "2d-animated"
    case ThreeDVisualization => "3d-visualization"
    case MixedMedia => "mixed-media"
    case Minimalist => "minimalist"
    case Interactive => "interactive"
  }

  /** Reads a level back from its string value; the inverse of `LevelName`. */
  function ParseLevel(s: string): (r: Option<Level>)
    ensures r.Some? ==> LevelName(r.value) == s
    ensures r.None? ==> forall l: Level :: LevelName(l) != s
  {
    if s == "elementary" then Some(Elementary)
    else if s == "middle-school" then Some(MiddleSchool)
    else if s == "high-school" then Some(HighSchool)
    else if s == "college" then Some(College)
    else if s == "advanced" then Some(Advanced)
    else None
  }

  /** Reads a style back from its string value; the inverse of `StyleName`. */
  function ParseStyle(s: string): (r: Option<Style>)
    ensures r.Some? ==> StyleName(r.value) == s
    ensures r.None? ==> forall t: Style :: StyleName(t) != s
  {
    if s == "2d-animated" then Some(TwoDAnimated)
    else if s == "3d-visualization" then Some(ThreeDVisualization)
    else if s == "mixed-media" then Some(MixedMedia)
    else if s == "minimalist" then Some(Minimalist)
    else if s == "interactive" then Some(Interactive)
    else None
  }

  /** Every level's string value reads back as that level, so the names are distinct. */
  lemma LevelNameRoundTrip(l: Level)
    ensures ParseLevel(LevelName(l)) == Some(l)
  {
  }

  /** Every style's string value reads back as that style, so the names are distinct. */
  lemma StyleNameRoundTrip(s: Style)
    ensures ParseStyle(StyleName(s)) == Some(s)
  {
  }

  /** Different levels have different string values. */
  lemma LevelNamesDistinct(a: Level, b: Level)
    ensures LevelName(a) == LevelName(b) ==> a == b
  {
    LevelNameRoundTrip(a);
    LevelNameRoundTrip(b);
  }

  /** Different styles have different string values. */
  lemma StyleNamesDistinct(a: Style, b: Style)
    ensures StyleName(a) == StyleName(b) ==> a == b
  {
    StyleNameRoundTrip(a);
    StyleNameRoundTrip(b);
  }
}

/**
 * The script template generator (`generateManimScript` in
 * src/components/VideoGenerator.tsx).  The script is one template literal
 * with holes for the topic, level, duration, style, the concept list, the
 * topic without whitespace, the call lines of `construct` and the method
 * blocks; each method block is itself a template literal with holes for the
 * concept and its identifier.  The values of the holes are computed first
 * (`ScriptValuesOf`, `MethodValuesOf`) and then rendered into the template.
 */
module ScriptTemplate {
  import opened Text
  import opened Requirements
  import opened TemplateLiteral

  /** The interpolated expressions of the script template. */
  datatype ScriptSlot = Topic | LevelValue | Duration | StyleValue | ConceptList | TopicNoSpaces | Calls | Blocks

  /** The interpolated expressions of the method template. */
  datatype MethodSlot = Ident | Concept

  /** The fixed text between two holes. */
  datatype Chunk =
    | Opening | AfterTopic | AfterLevel | AfterDuration | AfterStyle | AfterConceptList
    | ClassKeyword | VideoSuffix | SceneBase | ConstructHead | IntroCall | BeforeCalls
    | BeforeConclusion | ConclusionCall | AfterCalls | AfterTitle | AfterSubtitleLevel | AfterBlocks
    | AfterSummary | Ending
    | MethodIndent | DefKeyword | DefSuffix | BeforeDocConcept | AfterDocConcept | MethodEnding

  /** A part of a template: fixed text or a hole. */
  datatype Part<S> = Fixed(chunk: Chunk) | Hole(slot: S)

  /**
   * A concept's Python identifier, in one pass over the concept: each run of
   * whitespace becomes `_` and every other character is lower-cased.
   * ConceptIdentLowerThenReplace shows this is `toLowerCase()` followed by
   * `replace(/\s+/g, '_')`.
   */
  function ConceptIdent(c: string): string
    decreases |c|, 1
  {
    if c == [] then []
    else if IsSpace(c[0]) then "_" + IdentAfterSpace(c[1..])
    else [LowerChar(c[0])] + ConceptIdent(c[1..])
  }

  /** The rest of the identifier after a whitespace character: further whitespace is skipped. */
  function IdentAfterSpace(c: string): string
    decreases |c|, 0
  {
    if c == [] then []
    else if IsSpace(c[0]) then IdentAfterSpace(c[1..])
    else [LowerChar(c[0])] + ConceptIdent(c[1..])
  }

  /** The one-pass identifier is `toLowerCase()` followed by `replace(/\s+/g, '_')`. */
  lemma {:induction false} ConceptIdentLowerThenReplace(c: string)
    ensures ConceptIdent(c) == ReplaceSpaceRuns(ToLower(c), "_")
    decreases |c|
  {
    if c != [] {
      var lc := ToLower(c);
      assert lc[0] == LowerChar(c[0]) && lc[1..] == ToLower(c[1..]);
      if IsSpace(c[0]) {
        IdentAfterSpaceLower(c[1..]);
        DropLeadingSpacesLower(c[1..]);
      } else {
        ConceptIdentLowerThenReplace(c[1..]);
      }
    }
  }

  lemma {:induction false} IdentAfterSpaceLower(c: string)
    ensures IdentAfterSpace(c) == ReplaceSpaceRuns(ToLower(DropLeadingSpaces(c)), "_")
    decreases |c|
  {
    if c != [] {
      if IsSpace(c[0]) {
        IdentAfterSpaceLower(c[1..]);
      } else {
        var lc := ToLower(c);
        assert lc[0] == LowerChar(c[0]) && lc[1..] == ToLower(c[1..]);
        ConceptIdentLowerThenReplace(c[1..]);
      }
    }
  }

  /** The concept identifier is the same string as the file-name slug of the concept. */
  lemma {:induction false} ConceptIdentIsSlug(c: string)
    ensures ConceptIdent(c) == Slug(c)
  {
    ConceptIdentLowerThenReplace(c);
    ReplaceLowerCommute(c, "_");
  }

  /** The concept identifier has no whitespace and no capitals. */
  lemma {:induction false} ConceptIdentIsClean(c: string)
    ensures NoSpace(ConceptIdent(c)) && NoUpper(ConceptIdent(c))
  {
    ConceptIdentIsSlug(c);
  }

  /** The scene class name: the topic with all whitespace removed, then `Video`. */
  function ClassName(topic: string): string {
    ReplaceSpaceRuns(topic, "") + "Video"
  }

  /** The class name keeps the topic's other characters in order, contains no whitespace and ends in `Video`. */
  lemma {:induction false} ClassNameShape(topic: string)
    ensures NoSpace(ClassName(topic))
    ensures ClassName(topic) == NonSpaceChars(topic) + "Video"
  {
    StripSpacesIsFilter(topic);
  }

  /** The call of concept `c`'s scene inside `construct`. */
  function CallLine(c: string): string {
    "self." + ConceptIdent(c) + "_scene()"
  }

  /** The separator between two call lines: a newline and the method body's indentation. */
  const CallSeparator: string := "\n        "

  function CallLines(cs: seq<string>): (r: seq<string>)
    ensures |r| == |cs| && forall i :: 0 <= i < |cs| ==> r[i] == CallLine(cs[i])
  {
    if cs == [] then [] else [CallLine(cs[0])] + CallLines(cs[1..])
  }

  /** The `def` line that opens concept `c`'s method. */
  function DefLine(c: string): string {
    "def " + ConceptIdent(c) + "_scene(self):"
  }

  /** The text of each fixed chunk, line by line as it stands in the template. */
  function ChunkText(c: Chunk): string {
    match c
    case Opening => "\"\"\"\n"
    case AfterTopic => " - Educational Video\n" + "Generated Manim script for "
    case AfterLevel => " level\n" + "Duration: "
    case AfterDuration => " minutes\n" + "Style: "
    case AfterStyle => "\n" + "\n" + "Concepts covered: "
    case AfterConceptList =>
      "\n" + "\"\"\"\n" + "\n" + "from manim import *\n" + "import numpy as np\n" + "\n"
    case ClassKeyword => "class "
    case VideoSuffix => "Video"
    case SceneBase => "(Scene):\n"
    case ConstructHead => "    def construct(self):\n" + "        # Title Scene\n" + "        "
    case IntroCall => "self.intro_scene()"
    case BeforeCalls => "\n" + "        \n" + "        # Main Content\n" + "        "
    case BeforeConclusion => "\n" + "        \n" + "        # Conclusion\n" + "        "
    case ConclusionCall => "self.conclusion_scene()"
    case AfterCalls =>
      "\n"
      + "    \n"
      + "    def intro_scene(self):\n"
      + "        \"\"\"Introduction with title and overview\"\"\"\n"
      + "        title = Text(\""
    case AfterTitle => "\", font_size=48, color=BLUE)\n" + "        subtitle = Text(\""
    case AfterSubtitleLevel =>
      " Level Educational Video\", font_size=24, color=WHITE)\n"
      + "        subtitle.next_to(title, DOWN)\n"
      + "        \n"
      + "        self.play(Write(title), run_time=2)\n"
      + "        self.play(Write(subtitle), run_time=1)\n"
      + "        self.wait(2)\n"
      + "        self.play(FadeOut(title), FadeOut(subtitle))\n"
      + "    \n"
      + "    "
    case AfterBlocks =>
      "\n"
      + "    \n"
      + "    def conclusion_scene(self):\n"
      + "        \"\"\"Conclusion and summary\"\"\"\n"
      + "        conclusion = Text(\"Thank you for watching!\", font_size=36, color=GOLD)\n"
      + "        summary = Text(\"Key concepts: "
    case AfterSummary =>
      "\", font_size=20, color=WHITE)\n"
      + "        summary.next_to(conclusion, DOWN)\n"
      + "        \n"
      + "        self.play(Write(conclusion))\n"
      + "        self.play(Write(summary))\n"
      + "        self.wait(3)\n"
      + "\n"
      + "if __name__ == \"__main__\":\n"
      + "    # To render: manim -pqh script.py "
    case Ending => "\n    pass\n"
    case MethodIndent => "\n    "
    case DefKeyword => "def "
    case DefSuffix => "_scene(self):"
    case BeforeDocConcept => "\n" + "        \"\"\""
    case AfterDocConcept => " visualization\"\"\"\n" + "        concept_title = Text(\""
    case MethodEnding =>
      "\", font_size=36, color=GREEN)\n"
      + "        concept_title.to_edge(UP)\n"
      + "        \n"
      + "        # Add your specific visualization code here\n"
      + "        example_shape = Circle(radius=2, color=YELLOW, fill_opacity=0.5)\n"
      + "        \n"
      + "        self.play(Write(concept_title))\n"
      + "        self.play(Create(example_shape))\n"
      + "        self.wait(2)\n"
      + "        self.play(FadeOut(concept_title), FadeOut(example_shape))\n"
      + "    "
  }

  /** Part `k` of the template of the method generated for one concept. */
  function MethodPart(k: nat): Part<MethodSlot>
    requires k < 9
  {
    match k
    case 0 => Fixed(MethodIndent)
    case 1 => Fixed(DefKeyword)
    case 2 => Hole(Ident)
    case 3 => Fixed(DefSuffix)
    case 4 => Fixed(BeforeDocConcept)
    case 5 => Hole(Concept)
    case 6 => Fixed(AfterDocConcept)
    case 7 => Hole(Concept)
    case _ => Fixed(MethodEnding)
  }

  /** The values of the method template's holes for one concept. */
  datatype MethodValues = MethodValues(concept: string, ident: string)

  function MethodValuesOf(c: string): MethodValues {
    MethodValues(c, ConceptIdent(c))
  }

  /** Part `k` of the method template, rendered with the values `v`. */
  function MethodText(v: MethodValues, k: nat): string {
    if k < 9 then
      match MethodPart(k)
      case Fixed(c) => ChunkText(c)
      case Hole(Ident) => v.ident
      case Hole(Concept) => v.concept
    else ""
  }

  /** The method block generated for concept `c`. */
  function ConceptBlock(c: string): string {
    Render(9, MethodText, MethodValuesOf(c))
  }

  function ConceptBlocks(cs: seq<string>): (r: seq<string>)
    ensures |r| == |cs| && forall i :: 0 <= i < |cs| ==> r[i] == ConceptBlock(cs[i])
  {
    if cs == [] then [] else [ConceptBlock(cs[0])] + ConceptBlocks(cs[1..])
  }

  /** Part `k` of the template of the whole script. */
  function ScriptPart(k: nat): Part<ScriptSlot>
    requires k < 33
  {
    match k
    case 0 => Fixed(Opening)
    case 1 => Hole(Topic)
    case 2 => Fixed(AfterTopic)
    case 3 => Hole(LevelValue)
    case 4 => Fixed(AfterLevel)
    case 5 => Hole(Duration)
    case 6 => Fixed(AfterDuration)
    case 7 => Hole(StyleValue)
    case 8 => Fixed(AfterStyle)
    case 9 => Hole(ConceptList)
    case 10 => Fixed(AfterConceptList)
    case 11 => Fixed(ClassKeyword)
    case 12 => Hole(TopicNoSpaces)
    case 13 => Fixed(VideoSuffix)
    case 14 => Fixed(SceneBase)
    case 15 => Fixed(ConstructHead)
    case 16 => Fixed(IntroCall)
    case 17 => Fixed(BeforeCalls)
    case 18 => Hole(Calls)
    case 19 => Fixed(BeforeConclusion)
    case 20 => Fixed(ConclusionCall)
    case 21 => Fixed(AfterCalls)
    case 22 => Hole(Topic)
    case 23 => Fixed(AfterTitle)
    case 24 => Hole(LevelValue)
    case 25 => Fixed(AfterSubtitleLevel)
    case 26 => Hole(Blocks)
    case 27 => Fixed(AfterBlocks)
    case 28 => Hole(ConceptList)
    case 29 => Fixed(AfterSummary)
    case 30 => Hole(TopicNoSpaces)
    case 31 => Fixed(VideoSuffix)
    case _ => Fixed(Ending)
  }

  /** The values of the script template's holes. */
  datatype ScriptValues = ScriptValues(
    topic: string, level: string, duration: string, style: string,
    conceptList: string, topicNoSpaces: string, calls: string, blocks: string)

  /** The holes' values for requirements `r`, each as the template computes it. */
  function ScriptValuesOf(r: VideoRequirements): ScriptValues {
    ScriptValues(
      r.topic, LevelName(r.level), IntToString(r.duration), StyleName(r.style),
      Join(r.concepts, ", "), ReplaceSpaceRuns(r.topic, ""),
      Join(CallLines(r.concepts), CallSeparator), Join(ConceptBlocks(r.concepts), ""))
  }

  /** The value of a hole of the script template. */
  function SlotValue(v: ScriptValues, s: ScriptSlot): string {
    match s
    case Topic => v.topic
    case LevelValue => v.level
    case Duration => v.duration
    case StyleValue => v.style
    case ConceptList => v.conceptList
    case TopicNoSpaces => v.topicNoSpaces
    case Calls => v.calls
    case Blocks => v.blocks
  }

  /** Part `k` of the script template, rendered with the values `v`. */
  function ScriptText(v: ScriptValues, k: nat): string {
    if k < 33 then
      match ScriptPart(k)
      case Fixed(c) => ChunkText(c)
      case Hole(s) => SlotValue(v, s)
    else ""
  }

  /** The script template rendered with the values `v`. */
  function Script(v: ScriptValues): string {
    Render(33, ScriptText, v)
  }

  /** `generateManimScript(requirements)`. */
  function GenerateManimScript(r: VideoRequirements): string {
    Script(ScriptValuesOf(r))
  }

  // ---------------------------------------------------------------------------
  // Where the parts of the template sit in the rendered script

  /** Where part `k` of the script template begins in `Script(v)`. */
  function PartStart(v: ScriptValues, k: nat): nat {
    PartOffset(ScriptText, v, k)
  }

  /** A fixed part renders as its chunk's text. */
  lemma {:induction false} FixedText(v: ScriptValues, k: nat, c: Chunk)
    requires k < 33 && ScriptPart(k) == Fixed(c)
    ensures ScriptText(v, k) == ChunkText(c)
  {
  }

  /** A hole renders as its slot's value. */
  lemma {:induction false} HoleText(v: ScriptValues, k: nat, s: ScriptSlot)
    requires k < 33 && ScriptPart(k) == Hole(s)
    ensures ScriptText(v, k) == SlotValue(v, s)
  {
  }

  /**
   * Every hole of the template is filled, at its offset, with the value of
   * its slot, and the next part begins right after that value.
   */
  lemma {:induction false} HoleAt(v: ScriptValues, k: nat, s: ScriptSlot)
    requires k < 33 && ScriptPart(k) == Hole(s)
    ensures OccursAt(Script(v), SlotValue(v, s), PartStart(v, k))
    ensures PartStart(v, k + 1) == PartStart(v, k) + |SlotValue(v, s)|
  {
    RenderHasPart(33, ScriptText, v, k);
    PartOffsetNext(ScriptText, v, k);
    HoleText(v, k, s);
  }

  /** Where a hole holds a joined list, element `i` of the list sits at its place in the join. */
  lemma {:induction false} ListElementAt(v: ScriptValues, k: nat, slot: ScriptSlot, xs: seq<string>, sep: string, i: nat)
    requires k < 33 && ScriptPart(k) == Hole(slot) && SlotValue(v, slot) == Join(xs, sep) && i < |xs|
    ensures OccursAt(Script(v), xs[i], PartStart(v, k) + JoinOffset(xs, sep, i))
  {
    HoleAt(v, k, slot);
    OccursJoinElement(Script(v), xs, sep, PartStart(v, k), i);
  }

  /**
   * Every fixed part of the template stands unchanged, at its offset, in
   * the script, and the next part begins right after it.
   */
  lemma {:induction false} ChunkAt(v: ScriptValues, k: nat, c: Chunk)
    requires k < 33 && ScriptPart(k) == Fixed(c)
    ensures OccursAt(Script(v), ChunkText(c), PartStart(v, k))
    ensures PartStart(v, k + 1) == PartStart(v, k) + |ChunkText(c)|
  {
    RenderHasPart(33, ScriptText, v, k);
    PartOffsetNext(ScriptText, v, k);
    FixedText(v, k, c);
  }

  /** The script opens a docstring whose first line starts with the topic. */
  lemma {:induction false} OpeningParts(v: ScriptValues)
    ensures OccursAt(Script(v), "\"\"\"\n" + v.topic, PartStart(v, 0))
  {
    RangeAt(33, ScriptText, v, 0, 2);
    RangeTwo(ScriptText, v, 0);
    FixedText(v, 0, Opening);
    HoleText(v, 1, Topic);
  }

  /** The docstring's concept list (part 9). */
  lemma {:induction false} DocstringListAt(v: ScriptValues)
    ensures OccursAt(Script(v), v.conceptList, PartStart(v, 9))
  {
    HoleAt(v, 9, ConceptList);
  }

  /** The summary's concept list (part 28). */
  lemma {:induction false} SummaryListAt(v: ScriptValues)
    ensures OccursAt(Script(v), v.conceptList, PartStart(v, 28))
  {
    HoleAt(v, 28, ConceptList);
  }

  /** Parts 11 to 14 render the class line. */
  lemma {:induction false} ClassLineText(v: ScriptValues)
    ensures RenderRange(ScriptText, v, 11, 15) == "class " + v.topicNoSpaces + "Video" + "(Scene):\n"
  {
    RangeFour(ScriptText, v, 11);
    FixedText(v, 11, ClassKeyword);
    HoleText(v, 12, TopicNoSpaces);
    FixedText(v, 13, VideoSuffix);
    FixedText(v, 14, SceneBase);
  }

  /** The class line stands at part 11, and part 15 begins after it. */
  lemma {:induction false} ClassLineAt(v: ScriptValues)
    ensures OccursAt(Script(v), "class " + v.topicNoSpaces + "Video" + "(Scene):\n", PartStart(v, 11))
    ensures PartStart(v, 15) == PartStart(v, 11) + |"class " + v.topicNoSpaces + "Video" + "(Scene):\n"|
  {
    RangeAt(33, ScriptText, v, 11, 15);
    ClassLineText(v);
  }

  /** Parts 30 to 32 render the render hint and the closing `pass`. */
  lemma {:induction false} RenderHintText(v: ScriptValues)
    ensures RenderRange(ScriptText, v, 30, 33) == v.topicNoSpaces + "Video" + "\n    pass\n"
  {
    RangeThree(ScriptText, v, 30);
    HoleText(v, 30, TopicNoSpaces);
    FixedText(v, 31, VideoSuffix);
    FixedText(v, 32, Ending);
  }

  /** The render hint stands at part 30 and ends the script. */
  lemma {:induction false} RenderHintAt(v: ScriptValues)
    ensures OccursAt(Script(v), v.topicNoSpaces + "Video" + "\n    pass\n", PartStart(v, 30))
    ensures PartStart(v, 30) + |v.topicNoSpaces + "Video" + "\n    pass\n"| == |Script(v)|
  {
    RangeAt(33, ScriptText, v, 30, 33);
    RenderHintText(v);
  }

  /** `construct` first calls `intro_scene` (part 16); the concepts' calls begin after it. */
  lemma {:induction false} IntroCallAt(v: ScriptValues)
    ensures OccursAt(Script(v), "self.intro_scene()", PartStart(v, 16))
    ensures PartStart(v, 16) + |"self.intro_scene()"| < PartStart(v, 18)
  {
    ChunkAt(v, 16, IntroCall);
    ChunkAt(v, 17, BeforeCalls);
  }

  /** The concepts' call lines (part 18). */
  lemma {:induction false} CallsAt(v: ScriptValues)
    ensures OccursAt(Script(v), v.calls, PartStart(v, 18))
    ensures PartStart(v, 19) == PartStart(v, 18) + |v.calls|
  {
    HoleAt(v, 18, Calls);
  }

  /** `construct` ends by calling `conclusion_scene` (part 20), after the concepts' calls. */
  lemma {:induction false} ConclusionCallAt(v: ScriptValues)
    ensures PartStart(v, 19) < PartStart(v, 20)
    ensures OccursAt(Script(v), "self.conclusion_scene()", PartStart(v, 20))
  {
    ChunkAt(v, 19, BeforeConclusion);
    ChunkAt(v, 20, ConclusionCall);
  }

  /** The method blocks (part 26). */
  lemma {:induction false} BlocksAt(v: ScriptValues)
    ensures OccursAt(Script(v), v.blocks, PartStart(v, 26))
  {
    HoleAt(v, 26, Blocks);
  }

  /** Parts 1 to 3 of the method template render the `def` line. */
  lemma {:induction false} DefLineText(v: MethodValues)
    ensures RenderRange(MethodText, v, 1, 4) == "def " + v.ident + "_scene(self):"
  {
    RangeThree(MethodText, v, 1);
    assert MethodText(v, 1) == "def ";
    assert MethodText(v, 2) == v.ident;
    assert MethodText(v, 3) == "_scene(self):";
  }

  /** The method template's first part is a newline and four spaces. */
  lemma {:induction false} DefLineStart(v: MethodValues)
    ensures PartOffset(MethodText, v, 1) == 5
  {
    assert RenderRange(MethodText, v, 0, 1) == MethodText(v, 0) == "\n    ";
  }

  /** The `def` line stands after the newline and indentation that open a method block. */
  lemma {:induction false} MethodOpening(v: MethodValues)
    ensures OccursAt(Render(9, MethodText, v), "def " + v.ident + "_scene(self):", 5)
  {
    RangeAt(9, MethodText, v, 1, 4);
    DefLineText(v);
    DefLineStart(v);
  }

  // ---------------------------------------------------------------------------
  // The script generated for the requirements

  /** Where part `k` of the template begins in the script generated for `r`. */
  function Offset(r: VideoRequirements, k: nat): nat {
    PartStart(ScriptValuesOf(r), k)
  }

  /** The first part begins the script, and the last part ends where the script ends. */
  lemma {:induction false} OffsetBounds(r: VideoRequirements)
    ensures Offset(r, 0) == 0 && Offset(r, 33) == |GenerateManimScript(r)|
  {
  }

  /** Later parts begin no earlier: the template's order is the script's order. */
  lemma {:induction false} OffsetMonotone(r: VideoRequirements, i: nat, j: nat)
    requires i <= j
    ensures Offset(r, i) <= Offset(r, j)
  {
    PartOffsetMonotone(ScriptText, ScriptValuesOf(r), i, j);
  }

  /** The script opens a docstring whose first line starts with the topic. */
  lemma {:induction false} ScriptOpensWithTopic(r: VideoRequirements)
    ensures OccursAt(GenerateManimScript(r), "\"\"\"\n" + r.topic, 0)
  {
    OpeningParts(ScriptValuesOf(r));
  }

  /** The docstring lists the concepts, joined by `", "`. */
  lemma {:induction false} DocstringListsConcepts(r: VideoRequirements)
    ensures OccursAt(GenerateManimScript(r), Join(r.concepts, ", "), Offset(r, 9))
  {
    DocstringListAt(ScriptValuesOf(r));
  }

  /** Concept `i` appears in the docstring's concept list. */
  lemma {:induction false} ConceptInDocstring(r: VideoRequirements, i: nat)
    requires i < |r.concepts|
    ensures OccursAt(GenerateManimScript(r), r.concepts[i], Offset(r, 9) + JoinOffset(r.concepts, ", ", i))
  {
    ListElementAt(ScriptValuesOf(r), 9, ConceptList, r.concepts, ", ", i);
  }

  /** The summary of `conclusion_scene` lists the concepts in the same way. */
  lemma {:induction false} SummaryListsConcepts(r: VideoRequirements)
    ensures OccursAt(GenerateManimScript(r), Join(r.concepts, ", "), Offset(r, 28))
  {
    SummaryListAt(ScriptValuesOf(r));
  }

  /** Concept `i` appears in the summary, at the same place in the list. */
  lemma {:induction false} ConceptInSummary(r: VideoRequirements, i: nat)
    requires i < |r.concepts|
    ensures OccursAt(GenerateManimScript(r), r.concepts[i], Offset(r, 28) + JoinOffset(r.concepts, ", ", i))
  {
    ListElementAt(ScriptValuesOf(r), 28, ConceptList, r.concepts, ", ", i);
  }

  /** The class line defines the class `ClassName(topic)`, deriving from `Scene`. */
  lemma {:induction false} ClassLineNamesClass(r: VideoRequirements)
    ensures OccursAt(GenerateManimScript(r), "class " + ClassName(r.topic) + "(Scene):\n", Offset(r, 11))
  {
    ClassLineAt(ScriptValuesOf(r));
    assert "class " + (ReplaceSpaceRuns(r.topic, "") + "Video") == "class " + ReplaceSpaceRuns(r.topic, "") + "Video";
  }

  /** The render hint at the end names the same class, and only `pass` follows it. */
  lemma {:induction false} RenderHintNamesClass(r: VideoRequirements)
    ensures OccursAt(GenerateManimScript(r), ClassName(r.topic) + "\n    pass\n", Offset(r, 30))
    ensures Offset(r, 30) + |ClassName(r.topic) + "\n    pass\n"| == |GenerateManimScript(r)|
  {
    RenderHintAt(ScriptValuesOf(r));
  }

  /** The class line comes before the render hint. */
  lemma {:induction false} ClassLineBeforeHint(r: VideoRequirements)
    ensures Offset(r, 11) + |"class " + ClassName(r.topic) + "(Scene):\n"| <= Offset(r, 30)
  {
    ClassLineAt(ScriptValuesOf(r));
    OffsetMonotone(r, 15, 30);
  }

  /** Position of concept `i`'s call line in the script. */
  function CallOffset(r: VideoRequirements, i: nat): nat
    requires i <= |r.concepts|
  {
    Offset(r, 18) + JoinOffset(CallLines(r.concepts), CallSeparator, i)
  }

  /** Between the intro and conclusion calls, `construct` holds the concepts' call lines. */
  lemma {:induction false} ConstructCalls(r: VideoRequirements)
    ensures OccursAt(GenerateManimScript(r), Join(CallLines(r.concepts), CallSeparator), Offset(r, 18))
    ensures Offset(r, 19) == Offset(r, 18) + |Join(CallLines(r.concepts), CallSeparator)|
  {
    CallsAt(ScriptValuesOf(r));
  }

  /** `construct` calls concept `i`'s scene at `CallOffset(r, i)`. */
  lemma {:induction false} CallLineAt(r: VideoRequirements, i: nat)
    requires i < |r.concepts|
    ensures OccursAt(GenerateManimScript(r), CallLine(r.concepts[i]), CallOffset(r, i))
  {
    ListElementAt(ScriptValuesOf(r), 18, Calls, CallLines(r.concepts), CallSeparator, i);
  }

  /** The call lines appear in the order of the concepts. */
  lemma {:induction false} CallLinesInOrder(r: VideoRequirements, i: nat, j: nat)
    requires i < j < |r.concepts|
    ensures CallOffset(r, i) + |CallLine(r.concepts[i])| < CallOffset(r, j)
  {
    JoinOffsetIncreasing(CallLines(r.concepts), CallSeparator, i, j);
  }

  /**
   * `construct` calls `intro_scene` first, then the concepts' scenes, then
   * `conclusion_scene`.
   */
  lemma {:induction false} ConstructCallOrder(r: VideoRequirements, i: nat)
    requires i < |r.concepts|
    ensures OccursAt(GenerateManimScript(r), "self.intro_scene()", Offset(r, 16))
    ensures Offset(r, 16) + |"self.intro_scene()"| < CallOffset(r, i)
    ensures CallOffset(r, i) + |CallLine(r.concepts[i])| < Offset(r, 20)
    ensures OccursAt(GenerateManimScript(r), "self.conclusion_scene()", Offset(r, 20))
  {
    IntroCallAt(ScriptValuesOf(r));
    ConstructCalls(r);
    ConclusionCallAt(ScriptValuesOf(r));
    JoinElementEnds(CallLines(r.concepts), CallSeparator, i);
  }

  /**
   * The call lines form exactly one line per concept: they are separated by
   * `|concepts| - 1` line breaks and no call line contains a line break.
   */
  lemma {:induction false} OneCallLinePerConcept(r: VideoRequirements)
    requires |r.concepts| > 0
    ensures CountChar(Join(CallLines(r.concepts), CallSeparator), '\n') == |r.concepts| - 1
  {
    var calls := CallLines(r.concepts);
    forall k | 0 <= k < |calls| ensures CountChar(calls[k], '\n') == 0 {
      var id := ConceptIdent(r.concepts[k]);
      ConceptIdentIsClean(r.concepts[k]);
      assert calls[k] == "self." + id + "_scene()";
      assert forall j :: 0 <= j < |id| ==> id[j] != '\n';
      CountCharAbsent(calls[k], '\n');
    }
    assert CallSeparator == "\n" + "        ";
    CountCharAppend("\n", "        ", '\n');
    CountCharAbsent("        ", '\n');
    JoinCountsSeparators(calls, CallSeparator, '\n');
  }

  /** The method called by a call line is the method its `def` line defines. */
  lemma {:induction false} CallNamesDefinedMethod(c: string)
    ensures OccursAt(CallLine(c), ConceptIdent(c) + "_scene(", 5)
    ensures OccursAt(DefLine(c), ConceptIdent(c) + "_scene(", 4)
  {
    var id := ConceptIdent(c);
    assert CallLine(c) == "self." + (id + "_scene(") + ")";
    assert DefLine(c) == "def " + (id + "_scene(") + "self):";
    OccursMiddle("self.", id + "_scene(", ")");
    OccursMiddle("def ", id + "_scene(", "self):");
  }

  /** Concept `c`'s block opens with its `def` line, after a blank line and indentation. */
  lemma {:induction false} BlockOpensWithDefLine(c: string)
    ensures OccursAt(ConceptBlock(c), DefLine(c), 5)
  {
    MethodOpening(MethodValuesOf(c));
  }

  /** Position of concept `i`'s method block in the script. */
  function BlockOffset(r: VideoRequirements, i: nat): nat
    requires i <= |r.concepts|
  {
    Offset(r, 26) + JoinOffset(ConceptBlocks(r.concepts), "", i)
  }

  /** After the intro and conclusion methods come the concepts' method blocks. */
  lemma {:induction false} BlocksFollow(r: VideoRequirements)
    ensures OccursAt(GenerateManimScript(r), Join(ConceptBlocks(r.concepts), ""), Offset(r, 26))
  {
    BlocksAt(ScriptValuesOf(r));
  }

  /** The method blocks follow each other, one per concept, in the order of the concepts. */
  lemma {:induction false} BlockAt(r: VideoRequirements, i: nat)
    requires i < |r.concepts|
    ensures OccursAt(GenerateManimScript(r), ConceptBlock(r.concepts[i]), BlockOffset(r, i))
  {
    ListElementAt(ScriptValuesOf(r), 26, Blocks, ConceptBlocks(r.concepts), "", i);
  }

  /** Concept `i`'s method is defined by its `def` line at `BlockOffset(r, i) + 5`. */
  lemma {:induction false} DefLineAt(r: VideoRequirements, i: nat)
    requires i < |r.concepts|
    ensures OccursAt(GenerateManimScript(r), DefLine(r.concepts[i]), BlockOffset(r, i) + 5)
  {
    BlockAt(r, i);
    BlockOpensWithDefLine(r.concepts[i]);
    OccursWithin(GenerateManimScript(r), ConceptBlock(r.concepts[i]), BlockOffset(r, i), DefLine(r.concepts[i]), 5);
  }

  /** The `def` lines appear in the order of the concepts. */
  lemma {:induction false} DefLinesInOrder(r: VideoRequirements, i: nat, j: nat)
    requires i < j < |r.concepts|
    ensures BlockOffset(r, i) + 5 + |DefLine(r.concepts[i])| < BlockOffset(r, j) + 5
  {
    JoinOffsetIncreasing(ConceptBlocks(r.concepts), "", i, j);
    BlockOpensWithDefLine(r.concepts[i]);
  }
}

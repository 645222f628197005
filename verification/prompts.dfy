/** `generate`: the settings a conversation collected become one text of
    prompts, a header line and three lines per scene, joined and cut into
    Telegram messages of at most 3800 characters.

    `Generate` is the handler with the scene list cut to the requested
    count; `GenerateAsWritten` keeps the source's splitter, which can return
    more scenes than durations and then fails on `durations[i]`. */
module Prompts {
  import opened Wrappers
  import opened Text
  import opened Numerals
  import opened Chunking
  import opened Templates
  import Scenes

  /** `duration_mode` with `duration_value`, which the handlers always set
      together: "var" with no value, or "fixed" with a number of seconds. */
  datatype DurationSetting = Variable | Fixed(seconds: int)

  /** `context.user_data`; `None` stands for a key that was never set. */
  datatype Session = Session(
    lang: Option<string>,
    platform: Option<string>,
    description: Option<string>,
    sceneCount: Option<int>,
    duration: Option<DurationSetting>)

  const NoSession := Session(None, None, None, None, None)

  /** The defaults `generate` reads with `user.get(key, default)`. */
  const DefaultPlatform := "default"
  const DefaultSceneCount := 5
  const DefaultDescription := "An idea"
  const DefaultDuration := Fixed(5)

  /** The range of `random.randint(4, 15)`, both ends included. */
  const DiceLow := 4
  const DiceHigh := 15

  /** `CHUNK_SIZE`: the longest message the handler sends. */
  const ChunkSize := 3800

  /** The separator of `"\\n".join(out_lines)`: a backslash and the letter
      n, two characters, as the source's literal reads. */
  const LineBreak := "\\n"

  const Separator := "---"

  /** The exceptions the handler can raise. */
  datatype Exception = ZeroDivisionError | IndexError

  function PlatformOf(u: Session): string { u.platform.GetOr(DefaultPlatform) }

  function SceneCountOf(u: Session): int { u.sceneCount.GetOr(DefaultSceneCount) }

  function DescriptionOf(u: Session): string { u.description.GetOr(DefaultDescription) }

  function DurationOf(u: Session): DurationSetting { u.duration.GetOr(DefaultDuration) }

  function LangOf(u: Session): string { u.lang.GetOr(DefaultLang) }

  /** `len(range(n))`: the number of durations drawn, zero for a negative
      count. */
  function Slots(u: Session): nat {
    if SceneCountOf(u) < 0 then 0 else SceneCountOf(u)
  }

  /** A source of draws, the `i`-th call of `random.randint(4, 15)` being
      `roll(i)`, that stays within the range `randint` promises. */
  ghost predicate Dice(roll: nat -> int) {
    forall i: nat :: DiceLow <= roll(i) <= DiceHigh
  }

  /** `[dur_val] * n` for a fixed duration, the first `n` draws otherwise. */
  function Durations(setting: DurationSetting, n: nat, roll: nat -> int): (r: seq<int>)
    ensures |r| == n
    ensures setting.Fixed? ==> forall i :: 0 <= i < n ==> r[i] == setting.seconds
    ensures setting.Variable? ==> forall i :: 0 <= i < n ==> r[i] == roll(i)
    ensures setting.Variable? && Dice(roll) ==> forall i :: 0 <= i < n ==> DiceLow <= r[i] <= DiceHigh
  {
    match setting
    case Fixed(s) => seq(n, _ => s)
    case Variable => seq(n, i requires 0 <= i => roll(i))
  }

  function Header(platform: string): string {
    "=== Generated prompts for " + platform + " ==="
  }

  /** `f"Scene {scene_idx}/{n} — {duration}s"`. */
  function SceneHeader(k: nat, n: int, seconds: int): string {
    "Scene " + NatToString(k) + "/" + IntToString(n) + " \U{2014} " + IntToString(seconds) + "s"
  }

  /** The `details` text of scene `k` (1-based). */
  function DetailsText(k: nat): string {
    "Scene " + NatToString(k) + " derived from user idea. Add camera moves, close-ups as needed."
  }

  /** The keyword arguments of `template.format` for scene `k` (1-based). */
  function SceneFields(brief: string, style: string, seconds: int, k: nat): Fields {
    Fields(brief, style, IntToString(seconds), DetailsText(k))
  }

  /** The three lines the loop appends for scene `i` (0-based). */
  function Block(t: Template, lang: string, n: int, scenes: seq<string>, durations: seq<int>, i: nat): seq<string>
    requires i < |scenes| <= |durations|
  {
    [SceneHeader(i + 1, n, durations[i]),
     Format(t, SceneFields(scenes[i], StyleOf(lang, i), durations[i], i + 1)),
     Separator]
  }

  /** The blocks of all scenes, in order. */
  function Blocks(t: Template, lang: string, n: int, scenes: seq<string>, durations: seq<int>): seq<seq<string>>
    requires |scenes| <= |durations|
  {
    seq(|scenes|, i requires 0 <= i < |scenes| => Block(t, lang, n, scenes, durations, i))
  }

  /** Concatenating pieces of three lines each puts line `m` of piece `i`
      at offset `3 * i + m`. */
  lemma {:induction false} FlattenTriples(xss: seq<seq<string>>)
    requires forall i :: 0 <= i < |xss| ==> |xss[i]| == 3
    ensures |Flatten(xss)| == 3 * |xss|
    ensures forall i, m :: 0 <= i < |xss| && 0 <= m < 3 ==> Flatten(xss)[3 * i + m] == xss[i][m]
  {
    if |xss| > 0 {
      var rest := xss[1..];
      FlattenTriples(rest);
      assert Flatten(xss) == xss[0] + Flatten(rest);
      forall i, m | 0 <= i < |xss| && 0 <= m < 3
        ensures Flatten(xss)[3 * i + m] == xss[i][m]
      {
        if i > 0 {
          assert Flatten(rest)[3 * (i - 1) + m] == rest[i - 1][m];
        }
      }
    }
  }

  /** With a header line in front, line `m` of piece `i` sits at
      `3 * i + 1 + m`. */
  lemma HeaderAndTriples(header: string, xss: seq<seq<string>>, i: nat, m: nat)
    requires forall j :: 0 <= j < |xss| ==> |xss[j]| == 3
    requires i < |xss| && m < 3
    ensures |[header] + Flatten(xss)| == 1 + 3 * |xss|
    ensures ([header] + Flatten(xss))[3 * i + 1 + m] == xss[i][m]
  {
    FlattenTriples(xss);
  }

  /** `out_lines`: the header, then each scene's block. */
  function OutputLines(platform: string, t: Template, lang: string, n: int, scenes: seq<string>, durations: seq<int>): seq<string>
    requires |scenes| <= |durations|
  {
    [Header(platform)] + Flatten(Blocks(t, lang, n, scenes, durations))
  }

  /** Line `3 * i + 1 + m` of the output is line `m` of scene `i`'s block. */
  lemma OutputLinesAt(platform: string, t: Template, lang: string, n: int, scenes: seq<string>, durations: seq<int>, i: nat, m: nat)
    requires |scenes| <= |durations| && i < |scenes| && m < 3
    ensures |OutputLines(platform, t, lang, n, scenes, durations)| == 1 + 3 * |scenes|
    ensures OutputLines(platform, t, lang, n, scenes, durations)[3 * i + 1 + m] == Block(t, lang, n, scenes, durations, i)[m]
  {
    var blocks := Blocks(t, lang, n, scenes, durations);
    assert blocks[i] == Block(t, lang, n, scenes, durations, i);
    HeaderAndTriples(Header(platform), blocks, i, m);
  }

  /** One header line and three lines per scene. */
  lemma OutputLinesLength(platform: string, t: Template, lang: string, n: int, scenes: seq<string>, durations: seq<int>)
    requires |scenes| <= |durations|
    ensures |OutputLines(platform, t, lang, n, scenes, durations)| == 1 + 3 * |scenes|
  {
    FlattenTriples(Blocks(t, lang, n, scenes, durations));
  }

  /** The lines for a session, given the scene list and the draws. */
  function PromptLines(u: Session, scenes: seq<string>, roll: nat -> int): seq<string>
    requires |scenes| <= Slots(u)
  {
    OutputLines(PlatformOf(u), TemplateFor(PlatformOf(u)), LangOf(u), SceneCountOf(u), scenes,
                Durations(DurationOf(u), Slots(u), roll))
  }

  /** The messages sent: `full[i:i+CHUNK_SIZE]` for each offset `i`. */
  function Messages(lines: seq<string>): seq<string> {
    Chunk(Join(LineBreak, lines), ChunkSize)
  }

  /** The scenes of the corrected handler: none for a negative count (the
      source's `scenes[:n]` of an empty list), the splitter's first `n`
      otherwise. */
  function ScenesFor(u: Session): (r: seq<string>)
    requires SceneCountOf(u) != 0
    ensures |r| == Slots(u)
    ensures SceneCountOf(u) > 0 ==> r <= Scenes.SplitIntoScenes(DescriptionOf(u), SceneCountOf(u))
  {
    var n := SceneCountOf(u);
    if n < 0 then [] else Scenes.SplitIntoScenesTruncated(DescriptionOf(u), n)
  }

  /** What the messages sent for some lines must satisfy: put together they
      give back the joined lines, there is at least one, each is non-empty
      and at most 3800 characters long, and every one but the last is
      exactly 3800 characters long. */
  predicate Delivers(messages: seq<string>, lines: seq<string>) {
    && Flatten(messages) == Join(LineBreak, lines)
    && |messages| >= 1
    && (forall k :: 0 <= k < |messages| ==> 1 <= |messages[k]| <= ChunkSize)
    && forall k :: 0 <= k < |messages| - 1 ==> |messages[k]| == ChunkSize
  }

  /** `generate`, corrected so that there is one duration per scene. It
      raises only for a scene count of zero (the splitter's
      `len(sentences) // n_scenes`); otherwise its messages deliver the
      header and the scenes' lines. */
  function Generate(u: Session, roll: nat -> int): (r: Result<seq<string>, Exception>)
    ensures r.Failure? <==> SceneCountOf(u) == 0
    ensures r.Failure? ==> r.error == ZeroDivisionError
    ensures r.Success? ==> Delivers(r.value, PromptLines(u, ScenesFor(u), roll))
  {
    if SceneCountOf(u) == 0 then Failure(ZeroDivisionError)
    else
      var lines := PromptLines(u, ScenesFor(u), roll);
      MessagesShape(lines);
      Success(Messages(lines))
  }

  /** Lines that open with a non-empty header are delivered by their
      3800-character chunks. */
  lemma MessagesShape(lines: seq<string>)
    requires |lines| >= 1 && |lines[0]| >= 1
    ensures Delivers(Messages(lines), lines)
  {
    var full := Join(LineBreak, lines);
    ChunkShape(full, ChunkSize);
    JoinStartsWith(LineBreak, lines);
  }

  /** `generate` as written: the splitter's list is used uncut, and
      `durations[i]` raises `IndexError` when it has more scenes than the
      requested count. */
  function GenerateAsWritten(u: Session, roll: nat -> int): (r: Result<seq<string>, Exception>)
    ensures r == Failure(ZeroDivisionError) <==> SceneCountOf(u) == 0
    ensures r == Failure(IndexError) <==>
              SceneCountOf(u) >= 1 && |Scenes.SplitIntoScenes(DescriptionOf(u), SceneCountOf(u))| > SceneCountOf(u)
  {
    var n := SceneCountOf(u);
    if n == 0 then Failure(ZeroDivisionError)
    else if n < 0 then Success(Messages(PromptLines(u, [], roll)))
    else
      var scenes := Scenes.SplitIntoScenes(DescriptionOf(u), n);
      if |scenes| > n then Failure(IndexError)
      else Success(Messages(PromptLines(u, scenes, roll)))
  }

  /** The lines are the header followed, scene by scene, by the scene
      heading with its number, the count and its duration, the filled
      template with the scene's style (cycling through the seven) and its
      details, and the `---` separator. */
  lemma OutputLinesShape(platform: string, t: Template, lang: string, n: int, scenes: seq<string>, durations: seq<int>)
    requires |scenes| <= |durations|
    ensures var lines := OutputLines(platform, t, lang, n, scenes, durations);
      && |lines| == 1 + 3 * |scenes|
      && lines[0] == Header(platform)
      && forall i :: 0 <= i < |scenes| ==>
           && lines[3 * i + 1] == SceneHeader(i + 1, n, durations[i])
           && lines[3 * i + 2] == Format(t, SceneFields(scenes[i], StyleOf(lang, i), durations[i], i + 1))
           && lines[3 * i + 3] == Separator
  {
    FlattenTriples(Blocks(t, lang, n, scenes, durations));
    forall i | 0 <= i < |scenes|
      ensures var lines := OutputLines(platform, t, lang, n, scenes, durations);
        && lines[3 * i + 1] == SceneHeader(i + 1, n, durations[i])
        && lines[3 * i + 2] == Format(t, SceneFields(scenes[i], StyleOf(lang, i), durations[i], i + 1))
        && lines[3 * i + 3] == Separator
    {
      OutputLinesAt(platform, t, lang, n, scenes, durations, i, 0);
      OutputLinesAt(platform, t, lang, n, scenes, durations, i, 1);
      OutputLinesAt(platform, t, lang, n, scenes, durations, i, 2);
    }
  }

  /** Each scene's prompt is what `template.format(...)` returns on the
      platform's format string: the call cannot raise, and it agrees with
      substituting the four values. */
  lemma PromptIsStrFormat(platform: string, lang: string, n: int, scenes: seq<string>, durations: seq<int>, i: nat)
    requires |scenes| <= |durations| && i < |scenes|
    ensures 3 * i + 2 < |OutputLines(platform, TemplateFor(platform), lang, n, scenes, durations)|
    ensures FormatString(Source(TemplateFor(platform)),
                         SceneFields(scenes[i], StyleOf(lang, i), durations[i], i + 1))
         == Some(OutputLines(platform, TemplateFor(platform), lang, n, scenes, durations)[3 * i + 2])
  {
    var t := TemplateFor(platform);
    OutputLinesAt(platform, t, lang, n, scenes, durations, i, 1);
    FormatStringAgrees(t, SceneFields(scenes[i], StyleOf(lang, i), durations[i], i + 1));
  }

  /** Each scene's prompt contains the scene's text, its style, its
      duration and its details, whatever the platform. */
  lemma PromptMentionsScene(platform: string, lang: string, n: int, scenes: seq<string>, durations: seq<int>, i: nat)
    requires |scenes| <= |durations| && i < |scenes|
    ensures 3 * i + 2 < |OutputLines(platform, TemplateFor(platform), lang, n, scenes, durations)|
    ensures var prompt := OutputLines(platform, TemplateFor(platform), lang, n, scenes, durations)[3 * i + 2];
      && Mentions(prompt, scenes[i])
      && Mentions(prompt, StyleOf(lang, i))
      && Mentions(prompt, IntToString(durations[i]))
      && Mentions(prompt, DetailsText(i + 1))
  {
    var t := TemplateFor(platform);
    var f := SceneFields(scenes[i], StyleOf(lang, i), durations[i], i + 1);
    OutputLinesAt(platform, t, lang, n, scenes, durations, i, 1);
    FormatMentionsAll(t, f);
  }

  /** Whenever the source's handler does not raise, it sends exactly what
      the corrected one sends. */
  lemma AsWrittenAgrees(u: Session, roll: nat -> int)
    ensures GenerateAsWritten(u, roll).Success? ==> GenerateAsWritten(u, roll) == Generate(u, roll)
  {
    var n := SceneCountOf(u);
    if n > 0 && GenerateAsWritten(u, roll).Success? {
      var scenes := Scenes.SplitIntoScenes(DescriptionOf(u), n);
      assert |scenes| == n;
      assert ScenesFor(u) == scenes;
    }
  }

  /** A 55-character description with no sentence break, asked for two
      scenes: the source's handler raises `IndexError` where the corrected
      one answers. */
  lemma AsWrittenOverflow(desc: string, roll: nat -> int)
    requires |desc| == 55
    requires forall j :: 0 <= j < |desc| ==> desc[j] != '\\'
    ensures var u := Session(None, None, Some(desc), Some(2), None);
      && GenerateAsWritten(u, roll) == Failure(IndexError)
      && Generate(u, roll).Success?
  {
    Scenes.FixedWidthOverflowExample(desc);
  }

  /** With nothing collected, `generate` uses its defaults: the "default"
      platform, five scenes of five seconds each. */
  lemma NoSessionDefaults(roll: nat -> int)
    ensures PlatformOf(NoSession) == "default"
    ensures SceneCountOf(NoSession) == 5 && |ScenesFor(NoSession)| == 5
    ensures Durations(DurationOf(NoSession), Slots(NoSession), roll) == [5, 5, 5, 5, 5]
    ensures |PromptLines(NoSession, ScenesFor(NoSession), roll)| == 16
  {
    assert Slots(NoSession) == 5;
    var d := Durations(DurationOf(NoSession), 5, roll);
    assert d == [5, 5, 5, 5, 5];
    var scenes := ScenesFor(NoSession);
    OutputLinesLength(PlatformOf(NoSession), TemplateFor(PlatformOf(NoSession)), LangOf(NoSession), 5, scenes, d);
  }
}

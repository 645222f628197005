/** The per-platform prompt templates (`PLATFORM_TEMPLATES`), the style
    lists (`STYLE_SUGGESTIONS`) and `template.format(...)`.

    A template is a sequence of literal text and placeholders. `Source`
    gives back the format string it stands for, and `FormatString` models
    `str.format` on that string, so the token view is checked against the
    strings as written rather than assumed. */
module Templates {
  import opened Wrappers
  import opened Text

  datatype Placeholder = SceneBrief | Style | Duration | Details

  datatype Token = Lit(text: string) | Hole(field: Placeholder)

  type Template = seq<Token>

  /** The keyword arguments passed to `template.format`. */
  datatype Fields = Fields(sceneBrief: string, style: string, duration: string, details: string)

  function Name(p: Placeholder): string {
    match p
    case SceneBrief => "scene_brief"
    case Style => "style"
    case Duration => "duration"
    case Details => "details"
  }

  function Value(f: Fields, p: Placeholder): string {
    match p
    case SceneBrief => f.sceneBrief
    case Style => f.style
    case Duration => f.duration
    case Details => f.details
  }

  /** Substitution: literals copied, each placeholder replaced by its
      value. */
  function Format(t: Template, f: Fields): string {
    if |t| == 0 then ""
    else
      (match t[0] case Lit(s) => s case Hole(p) => Value(f, p)) + Format(t[1..], f)
  }

  /** Formatting distributes over concatenation of templates. */
  lemma {:induction false} FormatAppend(a: Template, b: Template, f: Fields)
    ensures Format(a + b, f) == Format(a, f) + Format(b, f)
  {
    if |a| > 0 {
      assert (a + b)[0] == a[0];
      assert (a + b)[1..] == a[1..] + b;
      FormatAppend(a[1..], b, f);
    } else {
      assert a + b == b;
    }
  }

  /** How many times `p` occurs in `t`. */
  function Occurrences(t: Template, p: Placeholder): nat {
    multiset(t)[Hole(p)]
  }

  /** Every placeholder occurs exactly once. */
  predicate EachOnce(t: Template) {
    forall p: Placeholder :: Occurrences(t, p) == 1
  }

  /** A placeholder that occurs in the template shows up verbatim in the
      formatted text. */
  lemma FormatContainsValue(t: Template, f: Fields, p: Placeholder)
    requires Occurrences(t, p) >= 1
    ensures exists pre: string, post: string :: Format(t, f) == pre + Value(f, p) + post
  {
    assert Hole(p) in t;
    var i :| 0 <= i < |t| && t[i] == Hole(p);
    assert t == t[..i] + [Hole(p)] + t[i + 1..];
    FormatAppend(t[..i] + [Hole(p)], t[i + 1..], f);
    FormatAppend(t[..i], [Hole(p)], f);
    assert Format([Hole(p)], f) == Value(f, p);
    assert Format(t, f) == Format(t[..i], f) + Value(f, p) + Format(t[i + 1..], f);
  }

  /** A template with each placeholder once shows all four values in its
      formatted text. */
  lemma FormatMentionsAll(t: Template, f: Fields)
    requires EachOnce(t)
    ensures Mentions(Format(t, f), f.sceneBrief) && Mentions(Format(t, f), f.style)
    ensures Mentions(Format(t, f), f.duration) && Mentions(Format(t, f), f.details)
  {
    assert Occurrences(t, SceneBrief) == 1 && Occurrences(t, Style) == 1;
    assert Occurrences(t, Duration) == 1 && Occurrences(t, Details) == 1;
    FormatContainsValue(t, f, SceneBrief);
    FormatContainsValue(t, f, Style);
    FormatContainsValue(t, f, Duration);
    FormatContainsValue(t, f, Details);
  }

  // ---------------------------------------------------------------------
  // The format strings as written, and `str.format` on them
  // ---------------------------------------------------------------------

  /** The text one token contributes when formatted. */
  function TokenText(tok: Token, f: Fields): string {
    match tok
    case Lit(s) => s
    case Hole(p) => Value(f, p)
  }

  lemma FormatCons(t: Template, f: Fields)
    requires |t| > 0
    ensures Format(t, f) == TokenText(t[0], f) + Format(t[1..], f)
  {
  }

  /** Each placeholder written as in a format string, `{name}`. */
  const Braced := Fields("{scene_brief}", "{style}", "{duration}", "{details}")

  lemma BracedName(p: Placeholder)
    ensures Value(Braced, p) == "{" + Name(p) + "}"
  {
    match p
    case SceneBrief =>
    case Style =>
    case Duration =>
    case Details =>
  }

  /** The format string the template stands for: the template formatted
      with every placeholder standing for itself. */
  function Source(t: Template): string {
    Format(t, Braced)
  }

  predicate NoBraces(s: string) {
    forall i :: 0 <= i < |s| ==> s[i] != '{' && s[i] != '}'
  }

  lemma NoBracesAppend(a: string, b: string)
    requires NoBraces(a) && NoBraces(b)
    ensures NoBraces(a + b)
  {
  }

  /** Literal text is free of braces, so `str.format` copies it. */
  predicate PlainLiterals(t: Template) {
    forall i :: 0 <= i < |t| ==> t[i].Lit? ==> NoBraces(t[i].text)
  }

  function FieldNamed(name: string): Option<Placeholder> {
    if name == "scene_brief" then Some(SceneBrief)
    else if name == "style" then Some(Style)
    else if name == "duration" then Some(Duration)
    else if name == "details" then Some(Details)
    else None
  }

  lemma FieldNamedName(p: Placeholder)
    ensures FieldNamed(Name(p)) == Some(p)
  {
  }

  /** First index `j >= from` with `s[j] == '}'`. */
  function CloseBrace(s: string, from: nat): (r: Option<nat>)
    requires from <= |s|
    ensures r.Some? ==> from <= r.value < |s| && s[r.value] == '}'
    ensures r.Some? ==> forall i :: from <= i < r.value ==> s[i] != '}'
    ensures r.None? ==> forall i :: from <= i < |s| ==> s[i] != '}'
    decreases |s| - from
  {
    if from == |s| then None
    else if s[from] == '}' then Some(from)
    else CloseBrace(s, from + 1)
  }

  function Prepend(prefix: string, r: Option<string>): Option<string> {
    match r
    case Some(s) => Some(prefix + s)
    case None => None
  }

  /** `s.format(scene_brief=..., style=..., duration=..., details=...)`:
      `{{` and `}}` stand for one brace, `{name}` for the keyword argument
      `name`. An unknown name (`KeyError`), a lone `}` or an unclosed `{`
      (`ValueError`) raise, which is `None`. Conversions and format specs
      inside a field are not modelled and read as unknown names. */
  function FormatString(s: string, f: Fields): Option<string>
    decreases |s|
  {
    if |s| == 0 then Some("")
    else if s[0] == '{' then
      if |s| >= 2 && s[1] == '{' then Prepend("{", FormatString(s[2..], f))
      else
        match CloseBrace(s, 1)
        case None => None
        case Some(j) =>
          match FieldNamed(s[1..j])
          case None => None
          case Some(p) => Prepend(Value(f, p), FormatString(s[j + 1..], f))
    else if s[0] == '}' then
      if |s| >= 2 && s[1] == '}' then Prepend("}", FormatString(s[2..], f)) else None
    else Prepend([s[0]], FormatString(s[1..], f))
  }

  lemma {:induction false} FormatStringLiteral(lit: string, rest: string, f: Fields)
    requires NoBraces(lit)
    ensures FormatString(lit + rest, f) == Prepend(lit, FormatString(rest, f))
    decreases |lit|
  {
    if |lit| > 0 {
      assert (lit + rest)[0] == lit[0];
      assert (lit + rest)[1..] == lit[1..] + rest;
      FormatStringLiteral(lit[1..], rest, f);
      assert [lit[0]] + lit[1..] == lit;
      match FormatString(rest, f)
      case None =>
      case Some(r) =>
        assert [lit[0]] + (lit[1..] + r) == lit + r;
    } else {
      assert lit + rest == rest;
      match FormatString(rest, f)
      case None =>
      case Some(r) =>
        assert lit + r == r;
    }
  }

  lemma {:induction false} CloseBraceAt(s: string, from: nat, j: nat)
    requires from <= j < |s| && s[j] == '}'
    requires forall i :: from <= i < j ==> s[i] != '}'
    ensures CloseBrace(s, from) == Some(j)
    decreases j - from
  {
    if from < j {
      CloseBraceAt(s, from + 1, j);
    }
  }

  lemma FormatStringField(p: Placeholder, rest: string, f: Fields)
    ensures FormatString("{" + Name(p) + "}" + rest, f) == Prepend(Value(f, p), FormatString(rest, f))
  {
    var s := "{" + Name(p) + "}" + rest;
    var j := |Name(p)| + 1;
    assert NoBraces(Name(p));
    assert |Name(p)| >= 1 && s[1] != '{';
    CloseBraceAt(s, 1, j);
    assert s[1..j] == Name(p);
    assert s[j + 1..] == rest;
  }

  /** `str.format` on the string a template stands for agrees with
      substitution on the tokens. */
  lemma {:induction false} FormatStringAgrees(t: Template, f: Fields)
    requires PlainLiterals(t)
    ensures FormatString(Source(t), f) == Some(Format(t, f))
  {
    if |t| > 0 {
      FormatStringAgrees(t[1..], f);
      FormatCons(t, f);
      FormatCons(t, Braced);
      var rest := Source(t[1..]);
      assert FormatString(rest, f) == Some(Format(t[1..], f));
      match t[0]
      case Lit(s) =>
        assert NoBraces(s);
        assert Source(t) == s + rest;
        FormatStringLiteral(s, rest, f);
      case Hole(p) =>
        BracedName(p);
        assert Source(t) == Value(Braced, p) + rest;
        FormatStringField(p, rest, f);
    }
  }

  // ---------------------------------------------------------------------
  // The tables
  // ---------------------------------------------------------------------

  /** `PLATFORMS`, the names on the platform keyboard. */
  const Platforms: seq<string> :=
    ["Sora", "Deepseek", "ChatGPT", "Gemini", "Veo 3", "Veo 3.1", "Llama 3"]

  /** Every template of the table has this shape: a heading, then the four
      placeholders in the order brief, style, duration, details, each
      followed by its label text. */
  function Layout(head: string, afterBrief: string, afterStyle: string, afterDuration: string): Template {
    [Lit(head), Hole(SceneBrief), Lit(afterBrief), Hole(Style),
     Lit(afterStyle), Hole(Duration), Lit(afterDuration), Hole(Details)]
  }

  /** The literal text of one template: heading and the texts after the
      brief, style and duration. */
  type Pieces = (string, string, string, string)

  function LayoutOf(x: Pieces): Template {
    Layout(x.0, x.1, x.2, x.3)
  }

  const DefaultKey := "default"

  /** The literal text of `PLATFORM_TEMPLATES`, platform by platform. The
      `\\n` in these strings is a backslash and the letter n, exactly as in
      the source's literals, not a line break. */
  const TablePieces: map<string, Pieces> := map[
    "default" := ("", "\\n\\nStyle: ", "\\nDuration: ", "s\\nDetails: "),
    "Sora" := ("[Sora Prompt]\\n", "\\n--visual style: ", "\\n--duration: ", "s\\n--details: "),
    "Deepseek" := ("<Deepseek>\\nPROMPT: ", " | STYLE: ", " | DURATION: ", "s | DETAILS: "),
    "ChatGPT" := (ChatGptHead,
                  "\\nStyle: ", "\\nDuration: ", "s\\nExtra details: "),
    "Gemini" := ("Gemini-style prompt:\\n", "\\nVisualStyle=", "; Duration=", "s; Notes="),
    "Veo 3" := ("[Veo v3]\\n", "\\nSTYLE:", "\\nDUR:", "s\\nNOTE:"),
    "Veo 3.1" := ("[Veo v3.1]\\n", "\\n--style=", "\\n--duration=", "s\\n--notes="),
    "Llama 3" := ("Llama-structured prompt:\\n- Scene: ", "\\n- Visual style: ", "\\n- Duration: ", "s\\n- Details: ")
  ]

  /** The heading of the ChatGPT template: joined, the three parts are the
      source's literal character for character. It is written in parts so
      that the brace check on each part stays small. */
  const ChatGptHead := "You are generating a structured " + "visual prompt for an image/video " + "model.\\nScene: "

  predicate PlainPieces(x: Pieces) {
    NoBraces(x.0) && NoBraces(x.1) && NoBraces(x.2) && NoBraces(x.3)
  }

  /** No template's literal text contains a brace. */
  lemma TablePiecesPlain()
    ensures forall k :: k in TablePieces ==> PlainPieces(TablePieces[k])
  {
    forall k | k in TablePieces ensures PlainPieces(TablePieces[k]) {
      if k == "default" { DefaultPlain(); }
      else if k == "Sora" { SoraPlain(); }
      else if k == "Deepseek" { DeepseekPlain(); }
      else if k == "ChatGPT" { ChatGptPlain(); }
      else if k == "Gemini" { GeminiPlain(); }
      else if k == "Veo 3" { Veo3Plain(); }
      else if k == "Veo 3.1" { Veo31Plain(); }
      else if k == "Llama 3" { Llama3Plain(); }
    }
  }

  lemma DefaultPlain()
    ensures PlainPieces(TablePieces["default"])
  {
  }

  lemma SoraPlain()
    ensures PlainPieces(TablePieces["Sora"])
  {
  }

  lemma DeepseekPlain()
    ensures PlainPieces(TablePieces["Deepseek"])
  {
  }

  lemma ChatGptPlain()
    ensures PlainPieces(TablePieces["ChatGPT"])
  {
    NoBracesAppend("You are generating a structured ", "visual prompt for an image/video ");
    NoBracesAppend("You are generating a structured " + "visual prompt for an image/video ", "model.\\nScene: ");
  }

  lemma GeminiPlain()
    ensures PlainPieces(TablePieces["Gemini"])
  {
  }

  lemma Veo3Plain()
    ensures PlainPieces(TablePieces["Veo 3"])
  {
  }

  lemma Veo31Plain()
    ensures PlainPieces(TablePieces["Veo 3.1"])
  {
  }

  lemma Llama3Plain()
    ensures PlainPieces(TablePieces["Llama 3"])
  {
  }

  /** `PLATFORM_TEMPLATES`. */
  const Table: map<string, Template> := map k | k in TablePieces :: LayoutOf(TablePieces[k])

  lemma LayoutEachOnce(x: Pieces)
    ensures EachOnce(LayoutOf(x))
  {
    var t := LayoutOf(x);
    var m := multiset{Lit(x.0), Hole(SceneBrief), Lit(x.1), Hole(Style),
                      Lit(x.2), Hole(Duration), Lit(x.3), Hole(Details)};
    assert multiset(t) == m;
    forall p: Placeholder ensures Occurrences(t, p) == 1 {
      match p
      case SceneBrief => assert m[Hole(SceneBrief)] == 1;
      case Style => assert m[Hole(Style)] == 1;
      case Duration => assert m[Hole(Duration)] == 1;
      case Details => assert m[Hole(Details)] == 1;
    }
  }

  /** A template of the table formats to its literal pieces with the
      brief, style, duration and details in between, in that order. */
  lemma FormatLayout(x: Pieces, f: Fields)
    ensures Format(LayoutOf(x), f)
         == x.0 + f.sceneBrief + x.1 + f.style + x.2 + f.duration + x.3 + f.details
  {
    var t := LayoutOf(x);
    FormatCons(t[7..], f);
    FormatCons(t[6..], f);
    FormatCons(t[5..], f);
    FormatCons(t[4..], f);
    FormatCons(t[3..], f);
    FormatCons(t[2..], f);
    FormatCons(t[1..], f);
    FormatCons(t, f);
  }

  /** The format string of a template of the table: its literal pieces
      around `{scene_brief}`, `{style}`, `{duration}` and `{details}`. */
  lemma LayoutSource(x: Pieces)
    ensures Source(LayoutOf(x))
         == x.0 + "{scene_brief}" + x.1 + "{style}" + x.2 + "{duration}" + x.3 + "{details}"
  {
    FormatLayout(x, Braced);
  }

  /** A layout whose pieces are brace-free has brace-free literal text. */
  lemma LayoutPlain(x: Pieces)
    requires PlainPieces(x)
    ensures PlainLiterals(LayoutOf(x))
  {
    var t := LayoutOf(x);
    forall i | 0 <= i < |t| && t[i].Lit? ensures NoBraces(t[i].text) {
      assert i == 0 || i == 2 || i == 4 || i == 6;
    }
  }

  /** Each template of the table has each placeholder exactly once and
      brace-free literal text. */
  lemma AllTemplatesWellFormed()
    ensures forall k :: k in Table ==> EachOnce(Table[k]) && PlainLiterals(Table[k])
  {
    TablePiecesPlain();
    forall k | k in Table ensures EachOnce(Table[k]) && PlainLiterals(Table[k]) {
      var x := TablePieces[k];
      assert Table[k] == LayoutOf(x);
      LayoutEachOnce(x);
      LayoutPlain(x);
    }
  }

  /** `PLATFORM_TEMPLATES.get(platform, PLATFORM_TEMPLATES["default"])`: the
      platform's own template when it has one, the default otherwise; either
      way each placeholder occurs exactly once and the literal text has no
      braces, so formatting cannot raise. */
  function TemplateFor(platform: string): (t: Template)
    ensures EachOnce(t) && PlainLiterals(t)
  {
    AllTemplatesWellFormed();
    if platform in Table then Table[platform] else Table[DefaultKey]
  }

  /** Whatever the platform, the prompt is the literal text of its table
      entry (the default entry for a platform the table does not know)
      interleaved with the four values in the order brief, style, duration,
      details. */
  lemma TemplateText(platform: string, f: Fields)
    ensures var x := if platform in TablePieces then TablePieces[platform] else TablePieces[DefaultKey];
      Format(TemplateFor(platform), f) == x.0 + f.sceneBrief + x.1 + f.style + x.2 + f.duration + x.3 + f.details
  {
    var x := if platform in TablePieces then TablePieces[platform] else TablePieces[DefaultKey];
    assert TemplateFor(platform) == LayoutOf(x);
    FormatLayout(x, f);
  }

  /** Every platform on the keyboard has its own template. */
  lemma PlatformsHaveTemplates()
    ensures forall p :: p in Platforms ==> p in Table && p != DefaultKey
  {
    forall p | p in Platforms
      ensures p in Table && p != DefaultKey
    {
      assert p in TablePieces.Keys;
    }
  }

  // ---------------------------------------------------------------------
  // Styles
  // ---------------------------------------------------------------------

  const DefaultLang := "ru"

  /** `STYLE_SUGGESTIONS`. */
  const StyleTable: map<string, seq<string>> := map[
    "ru" := ["реалистично", "киношное освещение", "аниме", "арт-хаус", "ретро 80s", "киберпанк", "фэнтези"],
    "en" := ["photorealistic", "cinematic lighting", "anime", "art-house", "retro 80s", "cyberpunk", "fantasy"]
  ]

  /** `STYLE_SUGGESTIONS.get(lang, STYLE_SUGGESTIONS["ru"])`: the English list
      for "en", the Russian one for every other language; seven styles
      either way. */
  function StylesFor(lang: string): (styles: seq<string>)
    ensures |styles| == 7
    ensures lang == "en" ==> styles == StyleTable["en"]
    ensures lang != "en" ==> styles == StyleTable[DefaultLang]
  {
    if lang in StyleTable then StyleTable[lang] else StyleTable[DefaultLang]
  }

  /** `styles[i % len(styles)]`: scene `i` gets style `i mod 7`, so the
      styles repeat every seven scenes. */
  function StyleOf(lang: string, i: nat): (s: string)
    ensures s == StylesFor(lang)[i % 7]
    ensures s in StylesFor(lang)
  {
    var styles := StylesFor(lang);
    styles[i % |styles|]
  }

  lemma StyleCycle(lang: string, i: nat)
    ensures StyleOf(lang, i + 7) == StyleOf(lang, i)
  {
    assert (i + 7) % 7 == i % 7;
  }
}

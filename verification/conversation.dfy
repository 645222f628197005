/** The `ConversationHandler`: six states and the end, the handler each
    state accepts, and what every other update does.

    Dispatch follows the handler's configuration: outside a conversation
    only `/start` is heard; inside one, the current state's handler is
    tried, then the `/cancel` fallback; any other update is dropped with
    the state and `user_data` untouched. `user_data` outlives the
    conversation, so a new `/start` begins with what the last run stored.

    `Step` is the conversation with the corrected handlers: `generate`
    with the scene list cut to the requested count, and a `/cancel` that
    ends the conversation. `StepAsWritten` is the same conversation with
    the two handlers as the code has them. */
module Conversation {
  import opened Wrappers
  import opened Text
  import opened Numerals
  import opened Templates
  import opened Prompts
  import opened Keyboard
  import opened Chunking

  /** `CHOOSING_LANG` .. `CONFIRM`, and `Ended` for no conversation
      (`ConversationHandler.END`). */
  datatype State = ChoosingLang | ChoosingPlatform | InputDesc | InputScenes | InputDuration | Confirm | Ended

  /** An update: a bot command (its name, without the slash), a button
      press (its callback data), or a text message that is not a command. */
  datatype Event = Command(name: string) | Callback(data: string) | Message(text: string)

  /** What the bot sends back; the wording of each message is left out, the
      language it is written in and the values it echoes are kept. */
  datatype Reply =
    | Silent
    | LanguageMenu(keyboard: Rows)
    | PlatformMenu(lang: string, keyboard: Rows)
    | AskDescription(lang: string)
    | AskScenes(lang: string)
    | InvalidScenes(lang: string)
    | AskDuration(lang: string)
    | InvalidDuration(lang: string)
    | Confirmation(lang: string, sceneCount: Option<int>, platform: Option<string>,
                   description: Option<string>, duration: DurationSetting)
    | Output(messages: seq<string>)

  datatype Outcome = Outcome(state: State, session: Session, reply: Reply)

  const StartCommand := "start"
  const GenerateCommand := "generate"
  const CancelCommand := "cancel"

  /** The `^lang_` pattern of the language handler, and the one value that
      selects Russian. */
  const LangPrefix := "lang_"
  const RussianData := "lang_ru"

  const MinScenes := 1
  const MaxScenes := 100
  const MinSeconds := 1
  const MaxSeconds := 600
  const VarKeyword := "var"

  /** The update is dropped: same state, same data, no answer. */
  function Ignore(s: State, u: Session): Outcome {
    Outcome(s, u, Silent)
  }

  /** `start`. */
  function Start(u: Session): (o: Outcome)
    ensures o.state == ChoosingLang && o.session == u
  {
    Outcome(ChoosingLang, u, LanguageMenu(LanguageKeyboard))
  }

  /** `lang_choice`: Russian for "lang_ru" and English for any other data;
      nothing but the language changes. */
  function LangChoice(u: Session, data: string): (o: Outcome)
    ensures o.state == ChoosingPlatform
    ensures o.session.lang == Some("ru") <==> data == RussianData
    ensures o.session.lang == Some("en") <==> data != RussianData
    ensures o.session == u.(lang := o.session.lang)
  {
    var lang := if data == RussianData then "ru" else "en";
    Outcome(ChoosingPlatform, u.(lang := Some(lang)), PlatformMenu(lang, PlatformKeyboard()))
  }

  /** `platform_choice`: any button data is stored as the platform,
      verbatim, and nothing else changes. */
  function PlatformChoice(u: Session, data: string): (o: Outcome)
    ensures o.state == InputDesc
    ensures o.session.platform == Some(data)
    ensures o.session == u.(platform := o.session.platform)
  {
    Outcome(InputDesc, u.(platform := Some(data)), AskDescription(LangOf(u)))
  }

  /** `receive_description`: the message without surrounding whitespace
      becomes the description, and nothing else changes. */
  function ReceiveDescription(u: Session, text: string): (o: Outcome)
    ensures o.state == InputScenes
    ensures o.session.description == Some(Strip(text))
    ensures Trimmed(o.session.description.value)
    ensures o.session == u.(description := o.session.description)
  {
    StripShape(text);
    Outcome(InputScenes, u.(description := Some(Strip(text))), AskScenes(LangOf(u)))
  }

  /** `int(text.strip())`, accepted only within 1..100. */
  function ParseSceneCount(text: string): (r: Option<int>)
    ensures r.Some? ==> MinScenes <= r.value <= MaxScenes
    ensures r.Some? ==> ParseInt(Strip(text)) == r
    ensures ParseInt(Strip(text)).Some? && MinScenes <= ParseInt(Strip(text)).value <= MaxScenes ==> r.Some?
  {
    match ParseInt(Strip(text))
    case Some(n) => if n <= 0 || n > MaxScenes then None else Some(n)
    case None => None
  }

  /** `receive_scenes`: a valid count is stored and the duration is asked
      for; anything else is answered with an error and changes nothing. */
  function ReceiveScenes(u: Session, text: string): (o: Outcome)
    ensures ParseSceneCount(text).None? ==> o == Outcome(InputScenes, u, InvalidScenes(LangOf(u)))
    ensures ParseSceneCount(text).Some? ==>
              o.state == InputDuration && o.session == u.(sceneCount := ParseSceneCount(text))
  {
    match ParseSceneCount(text)
    case None => Outcome(InputScenes, u, InvalidScenes(LangOf(u)))
    case Some(n) => Outcome(InputDuration, u.(sceneCount := Some(n)), AskDuration(LangOf(u)))
  }

  /** `text.strip().lower()`, then "var" or `int(...)` within 1..600. */
  function ParseDuration(text: string): (r: Option<DurationSetting>)
    ensures r == Some(Variable) <==> Lower(Strip(text)) == VarKeyword
    ensures r.Some? && r.value.Fixed? ==>
              MinSeconds <= r.value.seconds <= MaxSeconds
              && ParseInt(Lower(Strip(text))) == Some(r.value.seconds)
    ensures Lower(Strip(text)) != VarKeyword && ParseInt(Lower(Strip(text))).Some?
            && MinSeconds <= ParseInt(Lower(Strip(text))).value <= MaxSeconds
            ==> r == Some(Fixed(ParseInt(Lower(Strip(text))).value))
  {
    var t := Lower(Strip(text));
    if t == VarKeyword then Some(Variable)
    else
      match ParseInt(t)
      case Some(d) => if d <= 0 || d > MaxSeconds then None else Some(Fixed(d))
      case None => None
  }

  /** `receive_duration`: a valid answer stores the duration setting and
      echoes the collected values for confirmation; anything else is
      answered with an error and changes nothing. */
  function ReceiveDuration(u: Session, text: string): (o: Outcome)
    ensures ParseDuration(text).None? ==> o == Outcome(InputDuration, u, InvalidDuration(LangOf(u)))
    ensures ParseDuration(text).Some? ==>
              && o.state == Confirm
              && o.session == u.(duration := ParseDuration(text))
              && o.reply == Confirmation(LangOf(u), u.sceneCount, u.platform, u.description, ParseDuration(text).value)
  {
    match ParseDuration(text)
    case None => Outcome(InputDuration, u, InvalidDuration(LangOf(u)))
    case Some(setting) =>
      Outcome(Confirm, u.(duration := Some(setting)),
              Confirmation(LangOf(u), u.sceneCount, u.platform, u.description, setting))
  }

  /** A `generate` handler's result as a transition from `CONFIRM`: the
      prompts are sent and the conversation ends; if the handler raised,
      the state stays where it was and nothing is sent. */
  function GenerateStep(u: Session, r: Result<seq<string>, Exception>): (o: Outcome)
    ensures o.session == u
    ensures r.Success? ==> o.state == Ended && o.reply == Output(r.value)
    ensures r.Failure? ==> o == Ignore(Confirm, u)
  {
    match r
    case Success(messages) => Outcome(Ended, u, Output(messages))
    case Failure(_) => Ignore(Confirm, u)
  }

  /** The `/cancel` fallback as intended: the conversation ends, the data
      stays. */
  function Cancel(u: Session): (o: Outcome)
    ensures o.state == Ended && o.session == u
  {
    Outcome(Ended, u, Silent)
  }

  /** The `/cancel` fallback as written: its callback is a plain lambda, so
      awaiting its result raises `TypeError` and the conversation keeps its
      state. */
  function CancelAsWritten(s: State, u: Session): (o: Outcome)
    ensures o.state == s && o.session == u
  {
    Ignore(s, u)
  }

  /** A button press inside the conversation: the language pattern
      `^lang_` while choosing the language, any data while choosing the
      platform. */
  function OnCallback(s: State, u: Session, data: string): Outcome {
    if s == ChoosingLang && StartsWith(data, LangPrefix) then LangChoice(u, data)
    else if s == ChoosingPlatform then PlatformChoice(u, data)
    else Ignore(s, u)
  }

  /** A text message inside the conversation, read by the handler of the
      state that asks for it. */
  function OnMessage(s: State, u: Session, text: string): Outcome {
    if s == InputDesc then ReceiveDescription(u, text)
    else if s == InputScenes then ReceiveScenes(u, text)
    else if s == InputDuration then ReceiveDuration(u, text)
    else Ignore(s, u)
  }

  /** A command inside the conversation, with the corrected handlers:
      `/generate` in `CONFIRM`, the `/cancel` fallback anywhere. */
  function OnCommand(s: State, u: Session, name: string, roll: nat -> int): Outcome {
    if s == Confirm && name == GenerateCommand then GenerateStep(u, Generate(u, roll))
    else if name == CancelCommand then Cancel(u)
    else Ignore(s, u)
  }

  /** The same commands with the handlers as written: `generate` can raise
      `IndexError`, and the `/cancel` fallback changes nothing. */
  function OnCommandAsWritten(s: State, u: Session, name: string, roll: nat -> int): Outcome {
    if s == Confirm && name == GenerateCommand then GenerateStep(u, GenerateAsWritten(u, roll))
    else if name == CancelCommand then CancelAsWritten(s, u)
    else Ignore(s, u)
  }

  /** One update, with the corrected handlers. Outside a conversation only
      `/start` is heard. */
  function Step(s: State, u: Session, e: Event, roll: nat -> int): Outcome {
    if s == Ended then
      if e == Command(StartCommand) then Start(u) else Ignore(s, u)
    else
      match e
      case Callback(data) => OnCallback(s, u, data)
      case Message(text) => OnMessage(s, u, text)
      case Command(name) => OnCommand(s, u, name, roll)
  }

  /** One update, with the handlers as written. It differs from `Step` only
      in the two commands. */
  function StepAsWritten(s: State, u: Session, e: Event, roll: nat -> int): Outcome {
    if s == Ended then
      if e == Command(StartCommand) then Start(u) else Ignore(s, u)
    else
      match e
      case Callback(data) => OnCallback(s, u, data)
      case Message(text) => OnMessage(s, u, text)
      case Command(name) => OnCommandAsWritten(s, u, name, roll)
  }

  /** An update together with the draws `random.randint` would make if it
      reaches `generate`. */
  datatype Input = Input(event: Event, roll: nat -> int)

  /** Updates processed in order. */
  function Run(s: State, u: Session, inputs: seq<Input>): Outcome
    decreases |inputs|
  {
    if |inputs| == 0 then Ignore(s, u)
    else
      var o := Step(s, u, inputs[0].event, inputs[0].roll);
      Run(o.state, o.session, inputs[1..])
  }

  // ---------------------------------------------------------------------
  // Validation
  // ---------------------------------------------------------------------

  /** A number written out has no whitespace and no capitals, so `strip`
      and `lower` leave it alone. */
  lemma NumeralPlain(v: int)
    ensures Strip(IntToString(v)) == IntToString(v)
    ensures Lower(IntToString(v)) == IntToString(v)
  {
    var s := IntToString(v);
    var digits := NatToString(if v < 0 then -v else v);
    forall k | 0 <= k < |s|
      ensures s[k] == '-' || IsDigit(s[k])
    {
      if v < 0 && k > 0 {
        assert s[k] == digits[k - 1];
      }
    }
    StripNoSpace(s);
    assert Lower(s) == s;
  }

  /** A count written as a number is accepted exactly when it lies in
      1..100, and then it is the stored value. */
  lemma SceneCountOfNumeral(v: int)
    ensures ParseSceneCount(IntToString(v)) == if MinScenes <= v <= MaxScenes then Some(v) else None
  {
    NumeralPlain(v);
    IntRoundTrip(v);
  }

  /** Words, zero, negative counts and counts above 100 are refused. */
  lemma SceneCountRefused()
    ensures ParseSceneCount("abc") == None
    ensures ParseSceneCount("0") == None
    ensures ParseSceneCount("101") == None
    ensures ParseSceneCount("-3") == None
  {
    SceneCountOfNumeral(0);
    SceneCountOfNumeral(101);
    SceneCountOfNumeral(-3);
    assert IntToString(0) == "0";
    assert IntToString(101) == "101";
    assert IntToString(-3) == "-3";
    StripNoSpace("abc");
    assert !AllDigits("abc") by {
      assert !IsDigit("abc"[0]);
    }
  }

  /** A duration written as a number is accepted exactly when it lies in
      1..600 seconds, as that fixed duration. */
  lemma DurationOfNumeral(v: int)
    ensures ParseDuration(IntToString(v)) == if MinSeconds <= v <= MaxSeconds then Some(Fixed(v)) else None
  {
    NumeralPlain(v);
    IntRoundTrip(v);
    var s := IntToString(v);
    assert s[0] == '-' || IsDigit(s[0]) by {
      if v >= 0 {
        assert IsDigit(NatToString(v)[0]);
      }
    }
    assert s != VarKeyword;
  }

  /** "var" is accepted in any letter case and with surrounding
      whitespace. */
  lemma VarAnyCase()
    ensures ParseDuration("var") == Some(Variable)
    ensures ParseDuration("VAR") == Some(Variable)
    ensures ParseDuration(" Var\n") == Some(Variable)
  {
    StripNoSpace("var");
    StripNoSpace("VAR");
    assert Strip(" Var\n") == "Var" by {
      assert TrimStart(" Var\n") == "Var\n";
      assert TrimEnd("Var\n") == "Var";
    }
    assert Lower("VAR") == "var";
    assert Lower("Var") == "var";
  }

  /** Zero seconds is refused. */
  lemma DurationZeroRefused()
    ensures ParseDuration("0") == None
  {
    DurationOfNumeral(0);
    assert IntToString(0) == "0";
  }

  /** More than 600 seconds is refused. */
  lemma DurationTooLongRefused()
    ensures ParseDuration("601") == None
  {
    DurationOfNumeral(601);
    Numeral601();
  }

  lemma Numeral601()
    ensures IntToString(601) == "601"
  {
    assert NatToString(60) == NatToString(6) + "0";
    assert NatToString(601) == NatToString(60) + "1";
  }

  /** A word that merely begins with "var" is neither "var" nor a number. */
  lemma DurationWordRefused()
    ensures ParseDuration("variable") == None
  {
    StripNoSpace("variable");
    assert Lower("variable") == "variable";
    assert !AllDigits("variable") by {
      assert !IsDigit("variable"[0]);
    }
  }

  // ---------------------------------------------------------------------
  // The transition table
  // ---------------------------------------------------------------------

  /** `/start` opens a conversation only when none is running; inside one
      it is dropped. */
  lemma StartOnlyOutside(s: State, u: Session, roll: nat -> int)
    ensures var o := Step(s, u, Command(StartCommand), roll);
      && o.session == u
      && (s == Ended ==> o.state == ChoosingLang && o.reply == LanguageMenu(LanguageKeyboard))
      && (s != Ended ==> o == Ignore(s, u))
  {
  }

  /** After `/cancel` no conversation is running, whatever the state was,
      and the collected data is kept. */
  lemma CancelEnds(s: State, u: Session, roll: nat -> int)
    ensures Step(s, u, Command(CancelCommand), roll).state == Ended
    ensures Step(s, u, Command(CancelCommand), roll).session == u
  {
  }

  /** The fallback as written never ends a running conversation: in every
      state but the end, where the corrected one ends it, it leaves the
      state as it was. */
  lemma CancelAsWrittenDiffers(s: State, u: Session, roll: nat -> int)
    requires s != Ended
    ensures CancelAsWritten(s, u).state == s
    ensures Step(s, u, Command(CancelCommand), roll).state == Ended
    ensures CancelAsWritten(s, u).state != Step(s, u, Command(CancelCommand), roll).state
  {
    assert Step(s, u, Command(CancelCommand), roll) == OnCommand(s, u, CancelCommand, roll);
  }

  /** `/generate` is heard only in `CONFIRM`. */
  lemma GenerateOnlyInConfirm(s: State, u: Session, roll: nat -> int)
    requires s != Confirm
    ensures Step(s, u, Command(GenerateCommand), roll) == Ignore(s, u)
  {
  }

  /** Outside a conversation every update but `/start` is dropped. */
  lemma EndedIgnoresAllButStart(u: Session, e: Event, roll: nat -> int)
    requires e != Command(StartCommand)
    ensures Step(Ended, u, e, roll) == Ignore(Ended, u)
  {
  }

  /** A refused count or duration keeps the state and all collected data. */
  lemma InvalidInputKeepsState(s: State, u: Session, text: string, roll: nat -> int)
    requires (s == InputScenes && ParseSceneCount(text).None?)
          || (s == InputDuration && ParseDuration(text).None?)
    ensures Step(s, u, Message(text), roll).state == s
    ensures Step(s, u, Message(text), roll).session == u
  {
  }

  /** Both buttons of the language keyboard pass the `^lang_` filter; the
      first selects Russian and the second English. */
  lemma LanguageButtons(u: Session, roll: nat -> int)
    ensures |LanguageKeyboard| == 1 && |LanguageKeyboard[0]| == 2
    ensures Step(ChoosingLang, u, Callback(LanguageKeyboard[0][0].callbackData), roll).session.lang == Some("ru")
    ensures Step(ChoosingLang, u, Callback(LanguageKeyboard[0][1].callbackData), roll).session.lang == Some("en")
    ensures Step(ChoosingLang, u, Callback(LanguageKeyboard[0][0].callbackData), roll).state == ChoosingPlatform
    ensures Step(ChoosingLang, u, Callback(LanguageKeyboard[0][1].callbackData), roll).state == ChoosingPlatform
  {
    assert StartsWith("lang_ru", LangPrefix);
    assert StartsWith("lang_en", LangPrefix);
  }

  /** A button of the platform keyboard stores a platform that has its own
      template. */
  lemma PlatformButtons(u: Session, k: nat, j: nat, roll: nat -> int)
    requires k < |PlatformKeyboard()| && j < |PlatformKeyboard()[k]|
    ensures var data := PlatformKeyboard()[k][j].callbackData;
      && Step(ChoosingPlatform, u, Callback(data), roll).state == InputDesc
      && Step(ChoosingPlatform, u, Callback(data), roll).session.platform == Some(data)
      && data in Table
  {
    var data := PlatformKeyboard()[k][j].callbackData;
    assert Step(ChoosingPlatform, u, Callback(data), roll) == PlatformChoice(u, data) by {
      assert Step(ChoosingPlatform, u, Callback(data), roll) == OnCallback(ChoosingPlatform, u, data);
    }
    PlatformKeyboardShape();
  }

  /** Running two batches of updates is running the second from where the
      first left off. */
  lemma {:induction false} RunAppend(s: State, u: Session, a: seq<Input>, b: seq<Input>)
    ensures Run(s, u, a + b) == Run(Run(s, u, a).state, Run(s, u, a).session, b)
    decreases |a|
  {
    if |a| > 0 {
      var o := Step(s, u, a[0].event, a[0].roll);
      assert (a + b)[0] == a[0] && (a + b)[1..] == a[1..] + b;
      RunAppend(o.state, o.session, a[1..], b);
    } else {
      assert a + b == b;
    }
  }

  /** One update taken off the front of a batch. */
  lemma RunCons(s: State, u: Session, x: Input, rest: seq<Input>)
    ensures var o := Step(s, u, x.event, x.roll);
      Run(s, u, [x] + rest) == Run(o.state, o.session, rest)
  {
    assert ([x] + rest)[1..] == rest;
  }

  /** Each answer, taken off the front of a batch of updates, moves the
      conversation one state on and stores that answer. */
  lemma StartAnswer(u: Session, rest: seq<Input>, roll: nat -> int)
    ensures Run(Ended, u, [Input(Command(StartCommand), roll)] + rest) == Run(ChoosingLang, u, rest)
  {
    RunCons(Ended, u, Input(Command(StartCommand), roll), rest);
  }

  lemma EnglishAnswer(u: Session, rest: seq<Input>, roll: nat -> int)
    ensures Run(ChoosingLang, u, [Input(Callback("lang_en"), roll)] + rest)
         == Run(ChoosingPlatform, u.(lang := Some("en")), rest)
  {
    RunCons(ChoosingLang, u, Input(Callback("lang_en"), roll), rest);
    assert StartsWith("lang_en", LangPrefix);
    assert Step(ChoosingLang, u, Callback("lang_en"), roll) == LangChoice(u, "lang_en");
  }

  lemma PlatformAnswer(u: Session, platform: string, rest: seq<Input>, roll: nat -> int)
    ensures Run(ChoosingPlatform, u, [Input(Callback(platform), roll)] + rest)
         == Run(InputDesc, u.(platform := Some(platform)), rest)
  {
    RunCons(ChoosingPlatform, u, Input(Callback(platform), roll), rest);
    assert Step(ChoosingPlatform, u, Callback(platform), roll) == PlatformChoice(u, platform);
  }

  lemma DescriptionAnswer(u: Session, text: string, rest: seq<Input>, roll: nat -> int)
    ensures Run(InputDesc, u, [Input(Message(text), roll)] + rest)
         == Run(InputScenes, u.(description := Some(Strip(text))), rest)
  {
    RunCons(InputDesc, u, Input(Message(text), roll), rest);
    assert Step(InputDesc, u, Message(text), roll) == ReceiveDescription(u, text);
  }

  lemma CountAnswer(u: Session, count: int, rest: seq<Input>, roll: nat -> int)
    requires MinScenes <= count <= MaxScenes
    ensures Run(InputScenes, u, [Input(Message(IntToString(count)), roll)] + rest)
         == Run(InputDuration, u.(sceneCount := Some(count)), rest)
  {
    RunCons(InputScenes, u, Input(Message(IntToString(count)), roll), rest);
    SceneCountOfNumeral(count);
    assert Step(InputScenes, u, Message(IntToString(count)), roll) == ReceiveScenes(u, IntToString(count));
  }

  lemma DurationAnswer(u: Session, seconds: int, rest: seq<Input>, roll: nat -> int)
    requires MinSeconds <= seconds <= MaxSeconds
    ensures Run(InputDuration, u, [Input(Message(IntToString(seconds)), roll)] + rest)
         == Run(Confirm, u.(duration := Some(Fixed(seconds))), rest)
  {
    RunCons(InputDuration, u, Input(Message(IntToString(seconds)), roll), rest);
    DurationOfNumeral(seconds);
    assert Step(InputDuration, u, Message(IntToString(seconds)), roll) == ReceiveDuration(u, IntToString(seconds));
  }

  /** Answering every question in order — `/start`, the English button, a
      platform, a description, a valid count, a valid duration — reaches
      `CONFIRM` holding exactly those answers, whatever was stored before. */
  lemma HappyPath(u: Session, platform: string, text: string, count: int, seconds: int, roll: nat -> int)
    requires MinScenes <= count <= MaxScenes && MinSeconds <= seconds <= MaxSeconds
    ensures var o := Run(Ended, u, [Input(Command(StartCommand), roll), Input(Callback("lang_en"), roll),
                                    Input(Callback(platform), roll), Input(Message(text), roll),
                                    Input(Message(IntToString(count)), roll),
                                    Input(Message(IntToString(seconds)), roll)]);
      && o.state == Confirm
      && o.session == Session(Some("en"), Some(platform), Some(Strip(text)), Some(count), Some(Fixed(seconds)))
  {
    var i6 := [Input(Message(IntToString(seconds)), roll)];
    var i5 := [Input(Message(IntToString(count)), roll)] + i6;
    var i4 := [Input(Message(text), roll)] + i5;
    var i3 := [Input(Callback(platform), roll)] + i4;
    var i2 := [Input(Callback("lang_en"), roll)] + i3;
    var i1 := [Input(Command(StartCommand), roll)] + i2;
    var u2 := u.(lang := Some("en"));
    var u3 := u2.(platform := Some(platform));
    var u4 := u3.(description := Some(Strip(text)));
    var u5 := u4.(sceneCount := Some(count));
    StartAnswer(u, i2, roll);
    EnglishAnswer(u, i3, roll);
    PlatformAnswer(u2, platform, i4, roll);
    DescriptionAnswer(u3, text, i5, roll);
    CountAnswer(u4, count, i6, roll);
    DurationAnswer(u5, seconds, [], roll);
    assert i6 == i6 + [];
    assert i1 == [Input(Command(StartCommand), roll), Input(Callback("lang_en"), roll),
                  Input(Callback(platform), roll), Input(Message(text), roll),
                  Input(Message(IntToString(count)), roll),
                  Input(Message(IntToString(seconds)), roll)];
  }

  // ---------------------------------------------------------------------
  // What the conversation keeps true
  // ---------------------------------------------------------------------

  /** Every value a handler can store: a known language, a trimmed
      description, a count in 1..100, a fixed duration in 1..600. */
  predicate ValidSession(u: Session) {
    && (u.lang.Some? ==> u.lang.value == "ru" || u.lang.value == "en")
    && (u.description.Some? ==> Trimmed(u.description.value))
    && (u.sceneCount.Some? ==> MinScenes <= u.sceneCount.value <= MaxScenes)
    && (u.duration.Some? && u.duration.value.Fixed? ==>
          MinSeconds <= u.duration.value.seconds <= MaxSeconds)
  }

  /** How far the conversation has come: the number of answers behind it. */
  function Stage(s: State): nat {
    match s
    case Ended => 0
    case ChoosingLang => 0
    case ChoosingPlatform => 1
    case InputDesc => 2
    case InputScenes => 3
    case InputDuration => 4
    case Confirm => 5
  }

  /** Each answer the state implies has been given is stored. */
  predicate Collected(s: State, u: Session) {
    && (Stage(s) >= 1 ==> u.lang.Some?)
    && (Stage(s) >= 2 ==> u.platform.Some?)
    && (Stage(s) >= 3 ==> u.description.Some?)
    && (Stage(s) >= 4 ==> u.sceneCount.Some?)
    && (Stage(s) >= 5 ==> u.duration.Some?)
  }

  predicate Consistent(s: State, u: Session) {
    ValidSession(u) && Collected(s, u)
  }

  lemma InitiallyConsistent()
    ensures Consistent(Ended, NoSession)
  {
  }

  /** Every update keeps the stored values valid and the state in line
      with what has been collected. */
  lemma StepKeepsConsistent(s: State, u: Session, e: Event, roll: nat -> int)
    requires Consistent(s, u)
    ensures Consistent(Step(s, u, e, roll).state, Step(s, u, e, roll).session)
  {
    if s != Ended {
      match e
      case Message(text) => MessageKeepsConsistent(s, u, text);
      case Callback(data) => assert Step(s, u, e, roll) == OnCallback(s, u, data);
      case Command(name) => assert Step(s, u, e, roll) == OnCommand(s, u, name, roll);
    }
  }

  /** The three text handlers store only valid answers, each in the slot
      its state asks for. */
  lemma MessageKeepsConsistent(s: State, u: Session, text: string)
    requires Consistent(s, u)
    ensures Consistent(OnMessage(s, u, text).state, OnMessage(s, u, text).session)
  {
    if s == InputDesc {
      StripShape(text);
    }
  }

  /** So does any sequence of updates. */
  lemma {:induction false} RunKeepsConsistent(s: State, u: Session, inputs: seq<Input>)
    requires Consistent(s, u)
    ensures Consistent(Run(s, u, inputs).state, Run(s, u, inputs).session)
    decreases |inputs|
  {
    if |inputs| > 0 {
      var o := Step(s, u, inputs[0].event, inputs[0].roll);
      StepKeepsConsistent(s, u, inputs[0].event, inputs[0].roll);
      RunKeepsConsistent(o.state, o.session, inputs[1..]);
    }
  }

  /** In a consistent `CONFIRM` state `/generate` always answers: it ends
      the conversation and sends the prompts for exactly the requested
      number of scenes, one header line and three lines per scene, in
      messages of at most 3800 characters. */
  lemma ConfirmGenerates(u: Session, roll: nat -> int)
    requires Consistent(Confirm, u)
    ensures var o := Step(Confirm, u, Command(GenerateCommand), roll);
      && o.state == Ended && o.session == u && o.reply.Output?
      && Delivers(o.reply.messages, PromptLines(u, ScenesFor(u), roll))
      && |PromptLines(u, ScenesFor(u), roll)| == 1 + 3 * SceneCountOf(u)
  {
    var n := u.sceneCount.value;
    assert SceneCountOf(u) == n && Slots(u) == n;
    ConfirmStep(u, roll);
    assert Step(Confirm, u, Command(GenerateCommand), roll).reply.messages == Generate(u, roll).value;
    OutputLinesLength(PlatformOf(u), TemplateFor(PlatformOf(u)), LangOf(u), n, ScenesFor(u),
                      Durations(DurationOf(u), Slots(u), roll));
  }

  /** With a non-zero scene count, `/generate` in `CONFIRM` ends the
      conversation with `generate`'s messages. */
  lemma ConfirmStep(u: Session, roll: nat -> int)
    requires SceneCountOf(u) != 0
    ensures Generate(u, roll).Success?
    ensures var o := Step(Confirm, u, Command(GenerateCommand), roll);
      o.state == Ended && o.session == u && o.reply == Output(Generate(u, roll).value)
  {
    assert Step(Confirm, u, Command(GenerateCommand), roll) == OnCommand(Confirm, u, GenerateCommand, roll);
    assert OnCommand(Confirm, u, GenerateCommand, roll) == GenerateStep(u, Generate(u, roll));
  }

  // ---------------------------------------------------------------------
  // The handlers as written
  // ---------------------------------------------------------------------

  /** Apart from `/cancel`, the transition as written and the corrected one
      differ in exactly one case: `/generate` in `CONFIRM` when the
      source's `generate` raises `IndexError`. */
  lemma StepAsWrittenAgrees(s: State, u: Session, e: Event, roll: nat -> int)
    requires e != Command(CancelCommand)
    ensures StepAsWritten(s, u, e, roll) == Step(s, u, e, roll)
        <==> !(s == Confirm && e == Command(GenerateCommand) && GenerateAsWritten(u, roll) == Failure(IndexError))
  {
    if s == Confirm && e == Command(GenerateCommand) {
      assert StepAsWritten(s, u, e, roll) == GenerateStep(u, GenerateAsWritten(u, roll));
      assert Step(s, u, e, roll) == GenerateStep(u, Generate(u, roll));
      AsWrittenAgrees(u, roll);
    }
  }

  /** A session the questions reach from a fresh start (answers "en",
      "Sora", a trimmed 55-character description without a backslash, 2
      scenes, 5 seconds): `/generate` as written raises and leaves the
      conversation in `CONFIRM` with nothing sent, where the corrected
      handler ends it. */
  lemma AsWrittenStuckInConfirm(desc: string, roll: nat -> int)
    requires |desc| == 55 && Trimmed(desc)
    requires forall j :: 0 <= j < |desc| ==> desc[j] != '\\'
    ensures var u := Session(Some("en"), Some("Sora"), Some(desc), Some(2), Some(Fixed(5)));
      && (var o := Run(Ended, NoSession, [Input(Command(StartCommand), roll), Input(Callback("lang_en"), roll),
                                          Input(Callback("Sora"), roll), Input(Message(desc), roll),
                                          Input(Message(IntToString(2)), roll),
                                          Input(Message(IntToString(5)), roll)]);
          o.state == Confirm && o.session == u)
      && Consistent(Confirm, u)
      && StepAsWritten(Confirm, u, Command(GenerateCommand), roll) == Ignore(Confirm, u)
      && Step(Confirm, u, Command(GenerateCommand), roll).state == Ended
  {
    var u := Session(Some("en"), Some("Sora"), Some(desc), Some(2), Some(Fixed(5)));
    HappyPath(NoSession, "Sora", desc, 2, 5, roll);
    StripTrimmed(desc);
    Scenes.FixedWidthOverflowExample(desc);
    assert SceneCountOf(u) == 2 && DescriptionOf(u) == desc;
    assert StepAsWritten(Confirm, u, Command(GenerateCommand), roll) == GenerateStep(u, GenerateAsWritten(u, roll));
    ConfirmStep(u, roll);
  }
}

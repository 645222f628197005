# Prompt script bot: a Dafny model of its conversation and prompt generator

`tg_prompt_script_bot.py` is a Telegram bot that turns a short idea into a
numbered list of text-to-video prompts. A conversation first asks for a
language, then a target platform, a description, a number of scenes and a
duration per scene (or `var` for random durations). `/generate` then:

- splits the description into scenes;
- fills the platform's template once per scene, cycling through seven
  style suggestions;
- sends the result in messages of at most 3800 characters.

This project models that core in Dafny and proves properties of the model.

| file | module | models |
|---|---|---|
| `wrappers.dfy` | `Wrappers` | `Option` and `Result` |
| `text.dfy` | `Text` | `str.strip()`, `str.lower()`, `sep.join`, `startswith` |
| `numerals.dfy` | `Numerals` | `str(k)` and `int(text)` |
| `chunking.dfy` | `Chunking` | the `xs[i:i+size] for i in range(0, len(xs), size)` slicing, used three times |
| `sentences.dfy` | `Sentences` | the `re.split` of `split_into_scenes` |
| `scenes.dfy` | `Scenes` | `split_into_scenes` and its three branches |
| `templates.dfy` | `Templates` | `PLATFORM_TEMPLATES`, `STYLE_SUGGESTIONS`, `str.format` on the templates |
| `keyboard.dfy` | `Keyboard` | `keyboard_from_list` and the language keyboard |
| `prompts.dfy` | `Prompts` | `generate`: defaults, durations, output lines, 3800-character messages |
| `conversation.dfy` | `Conversation` | the handlers as a state machine under the `ConversationHandler` |

How the model reads the code:

- **Literal strings.** String literals are taken exactly as written.
  - In `PLATFORM_TEMPLATES` and in `"\\n".join(out_lines)`, `\\n` is two characters: a backslash and the letter n.
  - The sentence pattern `r'(?<=[.!?])\\s+'` is a raw string. It matches a backslash followed by one or more letters `s`, after `.`, `!` or `?`. On ordinary prose it never matches, so the stripped description is a single unit.
  - The scene splitter is proved for every non-empty unit list, so its properties do not depend on this reading of the pattern.
- **Randomness.** `random.randint(4, 15)` is the parameter `roll: nat -> int`: the `i`-th draw is `roll(i)`. The ghost predicate `Prompts.Dice` says every draw lies in 4..15.
- **Conversation rules.** The handler's configuration decides what each update does:
  - `/start` is heard only when no conversation is running (re-entry is not allowed).
  - Inside a conversation, the current state's handler is tried first, then the `/cancel` fallback.
  - Any other update is dropped, with the state and `user_data` unchanged.
  - `user_data` outlives a conversation.
- **Exceptions.** A handler that raises leaves the state as it was and sends nothing.
- **Two transitions.** `Conversation.Step` is the conversation with the two findings below corrected: `generate` cuts the scene list to the requested count, and `/cancel` ends the conversation. `Conversation.StepAsWritten` runs the handlers as the code has them. The conversation properties in the table (consistency, the happy path, `/generate` in confirmation) are about the corrected step; `Conversation.StepAsWrittenAgrees` says where the two differ.

Where the project's specification and the code differ, the model follows
the code:

- **Sentence boundaries.** The specification splits at sentence punctuation followed by whitespace. The code's pattern is the literal one described above.
- **Scene count.** The specification promises exactly N scenes. The code's fixed-width branch can return more (see Findings).
- **Template fields.** The specification lists placeholders such as title, mood, camera and aspect ratio. The code's templates have four: scene brief, style, duration, details.
- **Variable durations.** The specification leaves their range open within 1..3600. The code draws from 4..15.
- **Chunking.** The specification leaves chunking to the transport. The code cuts its own 3800-character messages.
- **Extra features.** The specification's export, polishing gateway and per-scene metadata do not exist in this code.

## Model

| member | source | states |
|---|---|---|
| Text.StripShape | tg_prompt_script_bot.py:112 | `desc.strip()` yields the input with exactly its leading and trailing whitespace removed, and the result neither starts nor ends with whitespace |
| Text.StripIdempotent | tg_prompt_script_bot.py:64 | stripping the already stripped description again (as `split_into_scenes` does) changes nothing |
| Text.JoinAppend | tg_prompt_script_bot.py:193 | joining two non-empty line lists is joining each and putting one separator between them |
| Numerals.ParseInt | tg_prompt_script_bot.py:122 | `int(text)` succeeds exactly on an optional sign followed by one or more decimal digits |
| Numerals.IntRoundTrip | tg_prompt_script_bot.py:122 | reading back any printed integer gives that integer |
| Numerals.NatToStringInjective | tg_prompt_script_bot.py:78 | different numbers print differently, which keeps the detail suffixes distinct |
| Chunking.ChunkShape | tg_prompt_script_bot.py:195-196 | the slices concatenate back to the whole text; there are none exactly when it is empty; each is 1..size long and only the last may be shorter |
| Chunking.ChunkAt | tg_prompt_script_bot.py:80 | slice `k` is `xs[k*size:(k+1)*size]`, clamped at the end as a Python slice is |
| Chunking.ChunkCount | tg_prompt_script_bot.py:57 | there are `ceil(len/size)` slices |
| Sentences.OneUnitIffNoMatch | tg_prompt_script_bot.py:64 | `re.split` returns the text as its only piece exactly when the pattern matches nowhere in it |
| Sentences.UnitsHaveNoMatch | tg_prompt_script_bot.py:64 | no piece returned by `re.split` still contains a match: every match was split on |
| Sentences.SplitPieces | tg_prompt_script_bot.py:64 | the pieces of `re.split` are the text cut at every match, in order: piece `i` is `s[starts[i]..ends[i]]`, the first starts at 0 and the last ends at the end; between two pieces lies exactly one match, starting where the earlier piece ends and running over every `s` after the backslash; no match starts inside a piece |
| Sentences.BackslashSplits | tg_prompt_script_bot.py:64 | a backslash-s after a full stop is a boundary: `"A.\\sB"` splits into `"A."` and `"B"` |
| Scenes.PadTo | tg_prompt_script_bot.py:81-82 | padding keeps the scenes as a prefix, fills the rest with the filler and reaches exactly `max(n, len)` items |
| Scenes.PerSceneFacts | tg_prompt_script_bot.py:66 | with at least `n` units, `per` is `len // n`, at least one, and fewer than `n` units are left over |
| Scenes.GatherBuckets | tg_prompt_script_bot.py:69-72 | the gathering loop appends one bucket of `per` consecutive units per trip and stops after exactly the wanted count |
| Scenes.BucketsAt | tg_prompt_script_bot.py:70 | bucket `m` is the stripped space-join of units `[m*per, (m+1)*per)` |
| Scenes.SentenceBranchShape | tg_prompt_script_bot.py:65-75 | with at least `n` units the branch gives exactly `n` scenes; scene `m` is units `[m*per, (m+1)*per)` in source order; the padding loop never runs; the trailing units are dropped |
| Scenes.DetailBranchShape | tg_prompt_script_bot.py:77-78 | the short-description branch gives `n` items, each starting with the whole description, pairwise distinct |
| Scenes.FixedWidthShape | tg_prompt_script_bot.py:79-83 | the fixed-width branch gives the stripped slices `desc[k*w:(k+1)*w]` in order, `ceil(len/w)` of them, then bridging fillers up to `n`, never cut |
| Scenes.SplitWith | tg_prompt_script_bot.py:62-83 | the splitter never returns fewer than `n` scenes, and exactly `n` unless the fixed-width branch runs |
| Scenes.OverflowExactly | tg_prompt_script_bot.py:76-83 | more than `n` scenes come back exactly when there are fewer units than scenes, the description has at least 50 characters, and `n` slices of width `w` do not cover it |
| Scenes.OneScene | tg_prompt_script_bot.py:65-75 | with one scene requested, the whole unit list joined and stripped is that scene |
| Scenes.OneSceneWholeDescription | tg_prompt_script_bot.py:62-75 | with one scene requested, a description without a backslash comes back stripped as the only scene |
| Scenes.ThreeSentencesExample | tg_prompt_script_bot.py:64-78 | three plain sentences asked for as three scenes are not split at their full stops: each scene repeats the whole text with a detail suffix |
| Scenes.FixedWidthOverflowExample | tg_prompt_script_bot.py:79-83 | a 55-character description without a backslash, asked for as 2 scenes, gives 3 |
| Scenes.SplitIntoScenesTruncated | tg_prompt_script_bot.py:62-83 | the corrected splitter returns exactly `n` scenes, the first `n` of what the code as written returns |
| Templates.FormatMentionsAll | tg_prompt_script_bot.py:188 | a template with each placeholder once shows the brief, the style, the duration and the details in its formatted text |
| Templates.FormatStringAgrees | tg_prompt_script_bot.py:188 | `str.format` on a template's format string succeeds and equals substituting the four values into the template |
| Templates.LayoutSource | tg_prompt_script_bot.py:39-48 | the format string of a table template is its literal pieces around `{scene_brief}`, `{style}`, `{duration}`, `{details}`, in that order |
| Templates.AllTemplatesWellFormed | tg_prompt_script_bot.py:39-48 | every template of the table has each placeholder exactly once and brace-free literal text |
| Templates.TemplateFor | tg_prompt_script_bot.py:180 | the template picked for any platform, known or not, has each placeholder once and formats without raising |
| Templates.TemplateText | tg_prompt_script_bot.py:180 | a known platform's prompt is its own table entry with the values in place; any other platform gets the default entry's |
| Templates.PlatformsHaveTemplates | tg_prompt_script_bot.py:35-48 | each of the seven keyboard platforms has its own template, not the default |
| Templates.StylesFor | tg_prompt_script_bot.py:179 | "en" gets the English styles and every other language the Russian ones; seven either way |
| Templates.StyleOf | tg_prompt_script_bot.py:185 | scene `i` gets style number `i mod 7` from its language's list |
| Templates.StyleCycle | tg_prompt_script_bot.py:185 | the styles repeat every seven scenes |
| Keyboard.ButtonsFor | tg_prompt_script_bot.py:58 | one button per item, each labelled and tagged with its item |
| Keyboard.KeyboardShape | tg_prompt_script_bot.py:55-60 | the rows, read in order, are the items' buttons; every row is 1..`row_size` wide and only the last may be narrower |
| Keyboard.PlatformKeyboardShape | tg_prompt_script_bot.py:98 | the platform keyboard has four rows, the last holding "Llama 3" alone, and every button names a platform with its own template |
| Prompts.Durations | tg_prompt_script_bot.py:177 | `n` durations: all equal to the fixed value, or the first `n` draws, each in 4..15 for a fair die |
| Prompts.OutputLinesShape | tg_prompt_script_bot.py:182-191 | the output has the header, then per scene its heading (number, count, duration), its filled template with the cycling style, and `---`: `1 + 3*len(scenes)` lines |
| Prompts.PromptIsStrFormat | tg_prompt_script_bot.py:188 | each scene's prompt line is exactly what `template.format(...)` returns on the platform's format string |
| Prompts.PromptMentionsScene | tg_prompt_script_bot.py:186-190 | each scene's prompt contains the scene's text, its style, its duration and its details, whatever the platform |
| Prompts.MessagesShape | tg_prompt_script_bot.py:193-196 | the 3800-character messages put together give back the joined text; there is at least one, none is empty or longer than 3800, and every one but the last is exactly 3800 characters long |
| Prompts.ScenesFor | tg_prompt_script_bot.py:174 | the corrected handler uses one scene per duration, a prefix of what the splitter returns |
| Prompts.Generate | tg_prompt_script_bot.py:165-197 | the corrected `generate` raises only for a scene count of zero (`ZeroDivisionError`); otherwise its messages deliver the header and every scene's lines |
| Prompts.GenerateAsWritten | tg_prompt_script_bot.py:165-197 | `generate` as written raises `ZeroDivisionError` exactly for a zero count, and `IndexError` exactly when the splitter returns more scenes than requested |
| Prompts.AsWrittenAgrees | tg_prompt_script_bot.py:183-190 | whenever the code as written does not raise, it sends exactly what the corrected handler sends |
| Prompts.AsWrittenOverflow | tg_prompt_script_bot.py:187 | for a 55-character description and two scenes the code as written raises `IndexError`, while the corrected handler answers |
| Prompts.NoSessionDefaults | tg_prompt_script_bot.py:166-172 | with nothing stored, `generate` uses the "default" platform and five scenes of five seconds: 16 lines |
| Conversation.Start | tg_prompt_script_bot.py:85-90 | `start` moves to choosing the language and keeps the stored data |
| Conversation.LangChoice | tg_prompt_script_bot.py:92-99 | "lang_ru" selects Russian and any other data English; only the language changes; next the platform is chosen |
| Conversation.PlatformChoice | tg_prompt_script_bot.py:101-109 | any button data is stored verbatim as the platform; only the platform changes; next the description is asked for |
| Conversation.ReceiveDescription | tg_prompt_script_bot.py:111-116 | the description stored is exactly the message text stripped of surrounding whitespace; only it changes; next the scene count is asked for |
| Conversation.ParseSceneCount | tg_prompt_script_bot.py:119-124 | a count is accepted exactly when `int` reads the stripped text and the value lies in 1..100, and then it is that value |
| Conversation.ReceiveScenes | tg_prompt_script_bot.py:118-132 | a valid count is stored and the duration is asked for; anything else is refused with state and data unchanged |
| Conversation.ParseDuration | tg_prompt_script_bot.py:135-147 | "var" in any case, after stripping, selects variable durations; otherwise a number in 1..600 is a fixed duration; everything else is refused |
| Conversation.ReceiveDuration | tg_prompt_script_bot.py:134-163 | a valid duration is stored and the collected values are echoed for confirmation; anything else is refused with state and data unchanged |
| Conversation.GenerateStep | tg_prompt_script_bot.py:196-197 | turns a `generate` handler's result into the transition from confirmation: messages end the conversation and are sent; a raise keeps the state at confirmation and sends nothing. The corrected step feeds it the corrected handler, the as-written step the handler as written |
| Conversation.Cancel | tg_prompt_script_bot.py:216 | the corrected fallback ends the conversation and keeps the data |
| Conversation.CancelAsWritten | tg_prompt_script_bot.py:216 | the fallback as written leaves the state and data as they were |
| Conversation.SceneCountOfNumeral | tg_prompt_script_bot.py:121-124 | a count written as a number is accepted exactly in 1..100, as that number |
| Conversation.SceneCountRefused | tg_prompt_script_bot.py:121-127 | "abc", "0", "101" and "-3" are refused as scene counts |
| Conversation.DurationOfNumeral | tg_prompt_script_bot.py:141-146 | a duration written as a number is accepted exactly in 1..600 seconds, as that fixed duration |
| Conversation.VarAnyCase | tg_prompt_script_bot.py:135-139 | "var", "VAR" and " Var" followed by a newline all select variable durations |
| Conversation.DurationZeroRefused | tg_prompt_script_bot.py:143-149 | zero seconds is refused |
| Conversation.DurationTooLongRefused | tg_prompt_script_bot.py:143-149 | 601 seconds is refused |
| Conversation.DurationWordRefused | tg_prompt_script_bot.py:135-149 | "variable" is neither "var" nor a number, so it is refused |
| Conversation.StartOnlyOutside | tg_prompt_script_bot.py:207 | `/start` opens a conversation only when none is running; inside one it is dropped |
| Conversation.CancelEnds | tg_prompt_script_bot.py:216 | `/cancel` ends the conversation from every state and keeps the collected data |
| Conversation.CancelAsWrittenDiffers | tg_prompt_script_bot.py:216 | in every running state the fallback as written keeps the state, where the corrected one ends the conversation |
| Conversation.GenerateOnlyInConfirm | tg_prompt_script_bot.py:214 | `/generate` is dropped in every state but confirmation |
| Conversation.EndedIgnoresAllButStart | tg_prompt_script_bot.py:207 | outside a conversation every update but `/start` is dropped |
| Conversation.InvalidInputKeepsState | tg_prompt_script_bot.py:118-149 | a refused count or duration keeps the state and all the data |
| Conversation.LanguageButtons | tg_prompt_script_bot.py:86-88 | both language buttons pass the `^lang_` filter; the first selects Russian and the second English |
| Conversation.PlatformButtons | tg_prompt_script_bot.py:101-105 | pressing any platform button stores a platform that has its own template and asks for the description |
| Conversation.RunAppend | tg_prompt_script_bot.py:206-217 | two batches of updates amount to the second one run from where the first left off |
| Conversation.HappyPath | tg_prompt_script_bot.py:85-163 | answering every question in order reaches confirmation holding exactly those answers, whatever was stored before |
| Conversation.StepKeepsConsistent | tg_prompt_script_bot.py:206-217 | every update keeps the stored values valid and the state in line with what has been collected |
| Conversation.RunKeepsConsistent | tg_prompt_script_bot.py:206-217 | so does any sequence of updates from a consistent start |
| Conversation.ConfirmGenerates | tg_prompt_script_bot.py:165-197 | with the corrected handler, in a consistent confirmation state `/generate` always answers: it ends the conversation and delivers exactly the requested number of scenes, in messages of 3800 characters with a last one of at most 3800 |
| Conversation.StepAsWrittenAgrees | tg_prompt_script_bot.py:174-187 | apart from `/cancel`, the conversation with the handlers as written and the corrected one take the same step on every update, except exactly `/generate` in confirmation when the code as written raises `IndexError` |
| Conversation.AsWrittenStuckInConfirm | tg_prompt_script_bot.py:174-187 | a session reached by answering the questions from a fresh start (English, Sora, a trimmed 55-character description without a backslash, 2 scenes, 5 seconds): `/generate` as written raises and the conversation stays in confirmation with nothing sent, where the corrected handler ends it |

## Left out

- Telegram I/O is not modelled: sending, editing, `q.answer()`, `run_polling` and the token lookup in `main`. Each handler returns its outgoing message as a `Reply` value. The wording of the fixed messages is dropped; their language and the values they echo are kept.
- Logging is not modelled.
- `async` and concurrency are not modelled. Updates are processed one at a time, per user.
- Randomness is not modelled: `random.randint(4, 15)` is the parameter `roll`, and the range is the predicate `Dice`.
- Non-text messages (photos, stickers) are not modelled. They match no handler and are covered by the generic dropped-update case.
- `Numerals.ParseInt`: reads ASCII digits with an optional sign. Python's `int` also accepts underscores between digits and non-ASCII decimal digits; such input is refused here.
- `Text.Lower`: lowers ASCII letters only. Its one use that matters is the comparison with "var", and no non-ASCII character lowers to "v", "a" or "r", so that comparison gives the same verdict as Python's full `str.lower()`.
- `Templates.FormatString`: models `{name}`, `{{` and `}}`. Conversions and format specifications inside a field are not modelled; the templates use neither.
- `Keyboard.KeyboardFromList`: requires `row_size >= 1`. Python raises `ValueError` for a step of zero, and the code only ever passes 2.
- `Scenes.SplitIntoScenes`: requires `n >= 1`. The conversation only stores counts in 1..100. `Prompts.Generate` handles a stored count of zero (`ZeroDivisionError`) and negative counts (no scenes) itself, without calling the splitter.
- `Conversation.GenerateStep`: a handler that raises is treated as leaving the state as it was. The error handlers of the library are not modelled.
- `Conversation.ReceiveDuration`: the confirmation reply keeps the echoed values as fields. The f-string layout and `str(d)` are not modelled.
- `Conversation.HappyPath`: stated for the English button and a fixed duration. The Russian button and "var" take the same steps through `LangChoice` and `ParseDuration`, which are covered by their own contracts.

## Findings

| source | as written | input that shows it | evidently intended | confidence | as-written member | corrected member |
|---|---|---|---|---|---|---|
| tg_prompt_script_bot.py:79-83 | the fixed-width branch returns every slice, uncut, so `split_into_scenes` can return more than `n_scenes` items; `generate` then reads `durations[i]` past the end of its `n` durations and raises `IndexError`, so the conversation stays in confirmation with nothing sent (`Conversation.AsWrittenStuckInConfirm`) | a 55-character description with no sentence break, 2 scenes: width `max(20, 27) = 27` gives 3 slices | exactly `n_scenes` scenes, as the sentence branch's `scenes[:n_scenes]` does | high (not executed) | Prompts.AsWrittenOverflow | Prompts.Generate |
| tg_prompt_script_bot.py:216 | the `/cancel` fallback is a plain `lambda` returning `ConversationHandler.END`; the library awaits handler callbacks, so awaiting an `int` raises `TypeError` and the conversation keeps its state | `/cancel` in any state of a running conversation | `/cancel` ends the conversation | medium (not executed; depends on the library awaiting every callback, as its asynchronous versions do) | Conversation.CancelAsWrittenDiffers | Conversation.CancelEnds |

# Brand-creation bot: a Dafny model of its dialogue core

The bot leads a Telegram user from a thought to a brand profile. The steps are:

1. the main menu;
2. the user's thought;
3. a choice among three stub usernames;
4. three stages that each ask a language model for options: the brand's format, its audience, and its core value;
5. a final profile.

This project models the following, and proves properties of it:

- the model-reply parser that the stages use, and the earlier parser of the console prototype;
- every handler of the dialogue, as transitions of a chat session;
- the MarkdownV2 escaping and the keyboards of the username step;
- the line-wrapping keyboard builder;
- the six dialogue states.

Layout, one module per file:

| file | module | models |
|---|---|---|
| `wrappers.dfy` | `Wrappers` | `Option` and `Result` |
| `py.dfy` | `Py` | the Python string operations the code relies on |
| `states.dfy` | `States` | the six states |
| `markup.dfy` | `Markup` | buttons, keyboards and messages |
| `config.dfy` | `Config` | the two style tables |
| `reply.dfy` | `Reply` | what both parsers share: lines, the labelled line |
| `brand_ask_ai.dfy` | `BrandAskAi` | the bot's parser |
| `conversation_stable.dfy` | `ConversationStable` | the prototype's parser and its stage choice |
| `name_generate.dfy` | `NameGenerate` | escaping and the username and style keyboards |
| `fsm.dfy` | `Fsm` | the session and the dialogue invariant |
| `main_menu.dfy` | `MainMenu` | the menu handlers |
| `name_gen.dfy` | `NameGen` | the username handlers |
| `brand_gen.dfy` | `BrandGen` | the stage handlers, the final stage and the multiline keyboard |

## How the model is built

- **The session is imperative.** The session of one chat is the class `Fsm.Session`. Its fields are the optional state and the data dictionary. Its methods are `update_data`, `set_state` and `clear`.
- **Each handler has two forms.** Its effect is a pure function from a `Snapshot` (state and data) to a `Reaction`. A `Reaction` holds:
  - the session afterwards;
  - the messages sent, in order;
  - the prompts sent to the model, in order;
  - whether the handler completed or an exception escaped it, and which one.

  The handler itself is a method on a `Session`. Its postcondition says that the new session, together with what it sent, is that function of the old session. The lemmas are stated about the functions. They cover the dialogue invariant `Fsm.WellFormed`, what each handler stores, and when it changes nothing.
- **The model's reply is a parameter.** The language model call (`ask_ai`) is outside the model. A handler that calls it takes the reply as a `string` parameter: the stages, the choices that start a stage, and `repeat`. A reply of `None` is not modelled; it would be the empty string.
- **Both parsers are line-by-line loops.** Each is a method with a loop, proved equal to a recursive specification on the stripped lines. Each specification gets a round-trip partner: a reply rendered in the shape the prompts ask for parses back to its comment and options.

## Model

| member | source | states |
|---|---|---|
| `Reply.StrippedLines` | bot/services/brand_ask_ai.py:46-49 | the reply is split on newlines after stripping, and every line is stripped; there are exactly as many lines as pieces |
| `Reply.LabelTextAfterColon` | bot/services/brand_ask_ai.py:54-55 | for a label whose only colon is its last character, the label's text is the stripped rest after the line's first colon |
| `Reply.NextLineLabel` | bot/services/brand_ask_ai.py:54-55 | a labelled line overwrites the answer, and any other line leaves it |
| `Reply.LastLabelledWins` | bot/services/brand_ask_ai.py:54-55 | the answer is the text of the last labelled line |
| `Reply.NoLabelledLine` | bot/services/brand_ask_ai.py:37-40 | without a labelled line the answer keeps its initial empty value |
| `Reply.LabelLineStart` | bot/services/brand_ask_ai.py:54 | a labelled line is non-empty, and its lowered first character is the label's first character |
| `Reply.StrippedLinesOfJoin` | bot/services/brand_ask_ai.py:46-49 | non-empty, stripped, one-line pieces joined by newlines are read back as exactly those lines |
| `BrandAskAi.Parse` | bot/services/brand_ask_ai.py:36-72 | an empty reply gives an empty answer and no options (the early return); `IndexError` is the only exception |
| `BrandAskAi.LineOption` | bot/services/brand_ask_ai.py:58-61 | what one stripped line adds to the options: the stripped text after its first dot when the line is `d.` followed by anything and that text is non-empty, otherwise nothing; its properties are in `OptionTextAfterDot`, `EmptyOptionIsDropped` and `ReadLine` |
| `BrandAskAi.ParseFailure` | bot/services/brand_ask_ai.py:48-61 | the parser raises exactly when the reply is non-empty and some stripped line is a single digit, where `line[1]` is out of range |
| `BrandAskAi.ParseSuccess` | bot/services/brand_ask_ai.py:63-72 | for a non-empty reply the answer and the options are never empty, because the placeholders fill them in; every option is non-empty and stripped |
| `BrandAskAi.ParseAiResponse` | bot/services/brand_ask_ai.py:36-72 | the loop over the lines returns exactly the specified parse, or its exception |
| `BrandAskAi.ReadLine` | bot/services/brand_ask_ai.py:49-61 | one line either raises, is a comment line with its text, or is an option line with a non-empty option |
| `BrandAskAi.OptionTextAfterDot` | bot/services/brand_ask_ai.py:58-59 | the option of a `N.` line is the stripped text after its first dot |
| `BrandAskAi.NextLineOptions` | bot/services/brand_ask_ai.py:58-61 | each line appends its option, if it has one, at the end |
| `BrandAskAi.NextLineRaises` | bot/services/brand_ask_ai.py:58 | the lines raise exactly when an earlier line raised or this line is a lone digit |
| `BrandAskAi.OptionsAreClean` | bot/services/brand_ask_ai.py:59-61 | every collected option is non-empty and stripped |
| `BrandAskAi.OptionsConcat` | bot/services/brand_ask_ai.py:48-61 | options keep line order: the options of two blocks of lines are the first block's followed by the second's |
| `BrandAskAi.AnswerOfReply` | bot/services/brand_ask_ai.py:54-66 | the answer is the last comment line's text, or the placeholder when there is no comment line or its text is empty |
| `BrandAskAi.CommentLineIsNoOption` | bot/services/brand_ask_ai.py:54-58 | a comment line is never read as an option and never raises |
| `BrandAskAi.MultiDigitOrdinalIsNoOption` | bot/services/brand_ask_ai.py:58 | `10. x` is not an option line, since the dot must be the second character |
| `BrandAskAi.EmptyOptionIsDropped` | bot/services/brand_ask_ai.py:59-61 | `3.` is an option line whose empty option is dropped |
| `BrandAskAi.PlaceholderIsClean` | bot/services/brand_ask_ai.py:70 | the options placeholder is a non-empty stripped string |
| `BrandAskAi.CommentLabelHasOneColon` | bot/services/brand_ask_ai.py:54-55 | the comment label's only colon is its last character, so the text after the first colon is the text after the label |
| `BrandAskAi.CommentLabelLowered` | bot/services/brand_ask_ai.py:54 | lowering the capitalised label gives the label that is tested |
| `BrandAskAi.RenderedCommentLine` | bot/services/brand_ask_ai.py:54-55 | a rendered comment line is labelled and carries exactly its comment |
| `BrandAskAi.OptionLineIsClean` | bot/services/brand_ask_ai.py:49 | a rendered option line is unchanged by stripping |
| `BrandAskAi.RenderedOptionLine` | bot/services/brand_ask_ai.py:58-61 | a rendered option line `d. o` is no comment line, does not raise, and yields exactly `o` |
| `BrandAskAi.LinesOfRender` | bot/services/brand_ask_ai.py:46-49 | a rendered reply is read back as its rendered lines |
| `BrandAskAi.RenderedLineKinds` | bot/services/brand_ask_ai.py:48-61 | the first rendered line is the comment and yields no option; line `i` yields option `i - 1` |
| `BrandAskAi.ParseRenderedLines` | bot/services/brand_ask_ai.py:48-61 | on the rendered lines nothing raises, the answer is the comment and the options are the given ones |
| `BrandAskAi.ParseOfRendered` | bot/services/brand_ask_ai.py:36-72 | round trip: a reply in the requested shape parses to its comment and its options, or to the placeholder when it has no options |
| `ConversationStable.AnswerLabelHasOneColon` | conversation_stable.py:58-59 | the answer label's only colon is its last character |
| `ConversationStable.AnswerLineIsNoOption` | conversation_stable.py:58-60 | an answer line is never read as an option |
| `ConversationStable.ReadLine` | conversation_stable.py:55-61 | one line is an answer line with its text, an option line with its option, or neither |
| `ConversationStable.LineOption` | conversation_stable.py:60-61 | what one stripped line adds to the options: the stripped text after its first dot, empty or not, when the line starts with a digit and holds a dot; its properties are in `MultiDigitOrdinal`, `EmptyOptionIsKept` and `ReadLine` |
| `ConversationStable.Parse` | conversation_stable.py:47-63 | the parse of any string: the last answer line's text and the options of all lines in order; its properties are in `BlankReply`, `AnswerOfReply`, `OptionsOfOptionLines` and `ParseOfRendered` |
| `ConversationStable.ParseAiResponse` | conversation_stable.py:47-63 | the loop returns exactly the specified parse; this parser has no early return and no placeholders, and never raises |
| `ConversationStable.NextLineOptions` | conversation_stable.py:60-61 | each line appends its option, if it has one, at the end |
| `ConversationStable.BlankReply` | conversation_stable.py:53-63 | a blank reply gives an empty answer and no options, with no placeholder |
| `ConversationStable.AnswerOfReply` | conversation_stable.py:58-59 | the answer is the text of the last answer line, or empty when there is none |
| `ConversationStable.MultiDigitOrdinal` | conversation_stable.py:60-61 | `10. x` is an option line here, yielding `x` |
| `ConversationStable.EmptyOptionIsKept` | conversation_stable.py:61 | `3.` yields an empty option, which is kept |
| `ConversationStable.OptionLines` | conversation_stable.py:60 | the filter keeps only lines that start with a digit and hold a dot |
| `ConversationStable.OptionsOfOptionLines` | conversation_stable.py:54-61 | there are as many options as qualifying lines, in the same order; option `k` is the stripped text after the first dot of qualifying line `k` |
| `ConversationStable.AnswerLabelLowered` | conversation_stable.py:58 | lowering the capitalised label gives the label that is tested |
| `ConversationStable.RenderedAnswerLine` | conversation_stable.py:58-59 | a rendered answer line is labelled and carries exactly its answer |
| `ConversationStable.OptionLineIsClean` | conversation_stable.py:55-58 | a rendered option line with any ordinal is stripped and is not an answer line |
| `ConversationStable.RenderedOptionLine` | conversation_stable.py:60-61 | a rendered option line `n. o` yields exactly `o`, for an ordinal of any length |
| `ConversationStable.RenderedLineKinds` | conversation_stable.py:54-61 | the first rendered line is the answer; line `i` yields option `i - 1` |
| `ConversationStable.ParseRenderedLines` | conversation_stable.py:54-61 | on the rendered lines the answer is the given one and the options are the given ones |
| `ConversationStable.ParseOfRendered` | conversation_stable.py:47-63 | round trip: a reply in the prompt's shape parses to its answer and its options, however many |
| `ConversationStable.Stage` | conversation_stable.py:85-93 | a stage picks one of the parsed options when there are any; otherwise the previous choice stays |
| `States.Ordinal` | bot/handlers/states.py:3-9 | every state has a position in the declaration order |
| `States.SixDistinctStates` | bot/handlers/states.py:3-9 | six states, pairwise distinct, in dialogue order |
| `NameGenerate.SpecialCharsAreTheClass` | bot/handlers/keyboards/name_generate.py:9 | the character class, with `+-=` read as a range, is exactly the listed characters |
| `NameGenerate.ReservedCharsEscaped` | bot/handlers/keyboards/name_generate.py:9 | every character that the MarkdownV2 style of the Telegram Bot API reserves is in the class |
| `NameGenerate.RangeSideEffect` | bot/handlers/keyboards/name_generate.py:9 | digits, `,`, `/`, `:`, `;` and `<` are escaped; a backslash never is |
| `NameGenerate.Escape` | bot/handlers/keyboards/name_generate.py:9 | the output is the input's length plus the number of class characters |
| `NameGenerate.EscapeMd` | bot/handlers/keyboards/name_generate.py:5-9 | `None` and the empty string give the empty string; any other text is escaped |
| `NameGenerate.EscapeConcat` | bot/handlers/keyboards/name_generate.py:9 | escaping works per character: it distributes over concatenation |
| `NameGenerate.UnescapeEscape` | bot/handlers/keyboards/name_generate.py:9 | for backslash-free text, dropping the escaping backslashes restores the text |
| `NameGenerate.EscapeKeepsOthers` | bot/handlers/keyboards/name_generate.py:9 | a character outside the class stays where it is, with nothing inserted before it |
| `NameGenerate.DotsEscaped` | bot/handlers/keyboards/name_generate.py:17 | after the replacement every dot of the duration has a backslash before it |
| `NameGenerate.GenerateUsernameKb` | bot/handlers/keyboards/name_generate.py:12-35 | the text is the escaped-context message with the time prefix; the keyboard has one `@u`/`choose_username:u` row per username in order, then `repeat`, then `start` |
| `NameGenerate.UsernameTextEmbedsContext` | bot/handlers/keyboards/name_generate.py:21-23 | the message text contains the escaped context |
| `NameGenerate.InitialStylesKb` | bot/handlers/keyboards/name_generate.py:41-47 | two rows, `no_style` then `choose_style` |
| `NameGenerate.StylesKb` | bot/handlers/keyboards/name_generate.py:49-60 | six single-button rows, the last one `back_to_main_style_menu` |
| `NameGenerate.ConfigStyles` | bot/config.py:63-77 | both style tables have exactly the five style names as keys |
| `NameGenerate.StyleCallbacksAreConfigStyles` | bot/handlers/keyboards/name_generate.py:51-58 | the five style callbacks are exactly the configured styles; the back callback is none of them |
| `Fsm.Listed` | bot/handlers/brand_gen.py:110 | `data.get(key, [])`: a missing key reads as the empty list, and a stored list as itself |
| `Fsm.EmptyIsWellFormed` | bot/handlers/brand_gen.py:267 | the cleared session satisfies the dialogue invariant |
| `Fsm.Session.UpdateData` | bot/handlers/brand_gen.py:83 | one entry is merged into the data; the state is unchanged |
| `Fsm.Session.SetState` | bot/handlers/brand_gen.py:100 | the state is set; the data is unchanged |
| `Fsm.Session.Clear` | bot/handlers/brand_gen.py:267 | no state and no data |
| `MainMenu.MainMenuKeyboard` | bot/handlers/main_menu.py:16-20 | three rows: `create_brand`, `help`, and the workshop's URL |
| `MainMenu.MainMenu` | bot/handlers/main_menu.py:12-25 | `show_main_menu`: the menu text with the three-row keyboard of `MainMenuKeyboard` |
| `MainMenu.Reset` | bot/handlers/main_menu.py:30-41 | the effect of `/start` and of the `start` button: the empty session and the menu; proved in `ResetClears` |
| `MainMenu.EnterContext` | bot/handlers/main_menu.py:45-59 | the effect of `create_brand`: `waiting_for_context` with the data unchanged and the question with a `start` button; proved in `EnterContextKeeps` |
| `MainMenu.ResetClears` | bot/handlers/main_menu.py:30-41 | `/start` and the `start` button end in the empty session, whatever the session was, and send the menu |
| `MainMenu.EnterContextKeeps` | bot/handlers/main_menu.py:45-59 | `create_brand` sets `waiting_for_context`, keeps the data and the invariant, and replies with a single `start` button |
| `MainMenu.CmdStart` | bot/handlers/main_menu.py:38-41 | the session is cleared and the menu sent |
| `MainMenu.CmdStartFromCallback` | bot/handlers/main_menu.py:30-34 | the session is cleared and the menu sent |
| `MainMenu.StartBrandProcess` | bot/handlers/main_menu.py:45-59 | the question is sent and the session waits for the thought |
| `MainMenu.ShowHelp` | bot/handlers/main_menu.py:63-80 | the help text with the single `start` button; the handler takes no session, so state and data are untouched |
| `MainMenu.RepliesLeadBackToMenu` | bot/handlers/main_menu.py:48-50 | the button under the `create_brand` and `help` replies is a single `start` callback |
| `NameGen.UsernameKeyboard` | bot/handlers/name_gen.py:26-31 | one row per username, then the repeat row |
| `NameGen.ThoughtEntry` | bot/handlers/name_gen.py:11-37 | the effect of `process_user_thought`: `AttributeError` with no change when the message has no text; otherwise the stripped thought and the three usernames are stored, the keyboard sent and `waiting_for_username_choice` set; proved in `ThoughtEntryEffect` |
| `NameGen.ThoughtEntryEffect` | bot/handlers/name_gen.py:11-37 | the thought is stored stripped; the three stub usernames are stored in order and offered as `@u`/`choose_username:u` rows plus one repeat row; the session waits for the username; other entries are kept |
| `NameGen.ThoughtEntryKeepsInvariant` | bot/handlers/name_gen.py:11-37 | storing the thought keeps the dialogue invariant, also when the text is missing and `strip` raises |
| `NameGen.ProcessUserThought` | bot/handlers/name_gen.py:11-37 | the handler on the session does what the thought specification says |
| `NameGen.RepeatUsernameGeneration` | bot/handlers/name_gen.py:41-44 | repeat is the thought handler run on the text of the button's message |
| `NameGen.RepeatOverwritesThought` | bot/handlers/name_gen.py:44 | repeating from the username message replaces the thought with that message's own text |
| `NameGen.UsernameSelectionStores` | bot/handlers/name_gen.py:48-57 | the segment between the first and second colon is stored as `username`, unchecked, and the format prompt names it |
| `NameGen.UsernameButtonSelects` | bot/handlers/name_gen.py:27-28 | the button of a colon-free username `u` selects exactly `u` |
| `NameGen.UsernameSelection` | bot/handlers/name_gen.py:48-57 | the effect of `process_username_choice`: the second colon-separated field is stored as `username` and the format stage is entered; proved in `UsernameSelectionStores` |
| `NameGen.UsernameSelectionKeepsInvariant` | bot/handlers/name_gen.py:48-57 | choosing a username and entering the format stage keeps the invariant |
| `NameGen.ProcessUsernameChoice` | bot/handlers/name_gen.py:48-57 | the handler on the session stores the username and enters the format stage |
| `BrandGen.PromptEmbedsChoices` | bot/handlers/brand_gen.py:52-55 | each prompt names the username, and later stages name the format and then the audience as read with `data.get` |
| `BrandGen.Prompt` | bot/handlers/brand_gen.py:52-55 | the opening lines of each stage's prompt, built from the values `data.get` reads (`None` when missing); what they embed is proved in `PromptEmbedsChoices` |
| `BrandGen.StageKeyboard` | bot/handlers/brand_gen.py:93-96 | one row per option plus the repeat row |
| `BrandGen.StageKeyboardRows` | bot/handlers/brand_gen.py:93-96 | row `i` shows option `i` with callback `<prefix>:i`, whose index reads back as `i`; the last row is `repeat` |
| `BrandGen.BulletsListEveryOption` | bot/handlers/brand_gen.py:89-90 | every option has its own bullet line in the format message |
| `BrandGen.DetailedMessageListsOptions` | bot/handlers/brand_gen.py:86-90 | the format message contains the comment and every option's bullet line |
| `BrandGen.BuildDetailedMessage` | bot/handlers/brand_gen.py:86-90 | the loop builds the comment header followed by the bullets of all options |
| `BrandGen.StageEntryEffect` | bot/handlers/brand_gen.py:68-100 | a stage asks the model once. An empty or raising reply leaves the session as it was. `IndexError` escapes exactly when the parser raises. Any other reply stores the stage's options, sets its waiting state and sends its keyboard |
| `BrandGen.StageEntry` | bot/handlers/brand_gen.py:44-100 | the effect of the three `start_*_stage` functions on one reply: the parser's exception, the empty-answer and no-options errors with no change, or the stored options, the bullet message with its keyboard and the waiting state; proved in `StageEntryEffect` and `StageEntryKeepsOthers` |
| `BrandGen.StageEntryKeepsOthers` | bot/handlers/brand_gen.py:83-100 | a stage changes no entry but its own options, and sets no state but its own |
| `BrandGen.EmptyReplyMessage` | bot/handlers/brand_gen.py:73-81 | an empty reply gets the empty-answer error in the format stage and the no-options error in the others |
| `BrandGen.FormatNoOptionsUnreachable` | bot/handlers/brand_gen.py:78-81 | the format stage's no-options message is never sent, because the parser fills in options whenever it fills in the answer |
| `BrandGen.StageAsWrittenNeverWaits` | bot/handlers/brand_gen.py:89-96 | as written, no stage reaches its waiting state; every reply the parser accepts ends in `TypeError` |
| `BrandGen.StageAsWritten` | bot/handlers/brand_gen.py:89-96 | the stage as written: the same as `StageEntry` up to storing the options, then `TypeError` from `option['full']`, with no message and no new state |
| `BrandGen.StageAsWrittenCounterexample` | bot/handlers/brand_gen.py:89-96 | a well-formed one-option reply makes the format stage raise as written, while the corrected stage waits for the format |
| `BrandGen.StartStage` | bot/handlers/brand_gen.py:44-100 | the three stage handlers on the session do what the stage specification says |
| `BrandGen.SelectionBounds` | bot/handlers/brand_gen.py:109-118 | a non-integer index raises `ValueError` before any update. An index outside the options gets an error with no change and no prompt. Otherwise exactly `options[index]` is stored as the choice |
| `BrandGen.Selection` | bot/handlers/brand_gen.py:103-191 | the effect of `process_format_choice` and `process_audience_choice`: `ValueError` for a non-integer index, the error message for an index out of range, otherwise the chosen option is stored and the next stage entered; proved in `SelectionBounds` |
| `BrandGen.PressedButtonIsStored` | bot/handlers/brand_gen.py:93-118 | pressing the button of option `i` on the stage keyboard stores option `i` |
| `BrandGen.ProcessChoice` | bot/handlers/brand_gen.py:103-122 | the format and audience choice handlers on the session store the choice and enter the next stage |
| `BrandGen.RepetitionKeepsChoices` | bot/handlers/brand_gen.py:271-287 | `repeat` re-enters the stage of the current state, reusing the stored choices, and changes only that stage's options; any other state gets an error and no change |
| `BrandGen.Repetition` | bot/handlers/brand_gen.py:271-287 | the effect of `repeat_generation`: the stage of the current waiting state is entered again, and any other state gets the error message; proved in `RepetitionKeepsChoices` |
| `BrandGen.StageEntryKeepsInvariant` | bot/handlers/brand_gen.py:83-100 | entering a stage whose earlier choices are stored keeps the dialogue invariant |
| `BrandGen.RepetitionKeepsInvariant` | bot/handlers/brand_gen.py:271-287 | `repeat` keeps the dialogue invariant |
| `BrandGen.SelectionKeepsInvariant` | bot/handlers/brand_gen.py:103-191 | a format or audience choice keeps the dialogue invariant |
| `BrandGen.ChoiceKeepsInvariant` | bot/handlers/brand_gen.py:117-118 | storing a string choice keeps the invariant and provides what the next stage's prompt needs |
| `BrandGen.CompletionClears` | bot/handlers/brand_gen.py:248-267 | the profile is shown and the session cleared exactly when username, format and audience are stored; the profile lists those three values and the callback segment after the first colon as `value_choice`. Otherwise `KeyError` escapes with only `value_choice` added |
| `BrandGen.CompletionInValueStage` | bot/handlers/brand_gen.py:241-267 | in the value stage of a well-formed session the value button always ends the dialogue with the empty session |
| `BrandGen.Completion` | bot/handlers/brand_gen.py:241-267 | the effect of `final_stage`: `value_choice` is stored, then `KeyError` if an earlier choice is missing, else the profile and the cleared session; proved in `CompletionClears` |
| `BrandGen.CompletionStoresIndexText` | bot/handlers/brand_gen.py:248-267 | the value button of option `i` stores the text `i`, not the option: the profile shows `i` when the dialogue completes, and `i` stays in the data when `KeyError` escapes |
| `BrandGen.CompletionShowsIndexText` | bot/handlers/brand_gen.py:248-267 | once username, format and audience are stored, the value button of option `i` completes the dialogue: the session is cleared and the one message is the profile of the three stored values with `i` as the value |
| `BrandGen.CompletionKeepsInvariant` | bot/handlers/brand_gen.py:241-267 | the final stage keeps the dialogue invariant |
| `BrandGen.FinalStage` | bot/handlers/brand_gen.py:241-267 | the final handler on the session does what the completion specification says |
| `BrandGen.RepeatGeneration` | bot/handlers/brand_gen.py:271-287 | the repeat handler on the session does what the repeat specification says |
| `BrandGen.CmdStartFromCallback` | bot/handlers/brand_gen.py:290-296 | this module's `start` handler is the same reset as the main menu's |
| `BrandGen.ChunksConcat` | bot/handlers/brand_gen.py:28-29 | the chunks concatenate to the original option |
| `BrandGen.Chunks` | bot/handlers/brand_gen.py:29 | the slices `o[i:i + m]` for `i` in `range(0, len(o), m)` with a positive `m`; proved in `ChunksConcat` and `ChunksBounded` |
| `BrandGen.Wrapped` | bot/handlers/brand_gen.py:28-29 | an option's button text: unchanged when it fits; `ValueError` from `range` for a zero length; empty for a negative length; otherwise the chunks joined by newlines; proved in `WrappedLinesAreChunks` |
| `BrandGen.ChunksBounded` | bot/handlers/brand_gen.py:28-29 | every chunk is non-empty and at most `max_line_length` long; all but the last are exactly that long |
| `BrandGen.WrappedLinesAreChunks` | bot/handlers/brand_gen.py:28-29 | for a positive length and newline-free text, the lines of the wrapped text are the chunks, and they concatenate back to the text |
| `BrandGen.OptionRowsShape` | bot/handlers/brand_gen.py:26-32 | the rows fail with `ValueError` exactly when the length is zero and some option is non-empty; otherwise row `i` is option `i` wrapped, sending `choose_option:i` |
| `BrandGen.OptionRows` | bot/handlers/brand_gen.py:26-32 | the option rows in order, each the wrapped option with `choose_option:i`; the first option that cannot be wrapped stops them; proved in `OptionRowsShape` |
| `BrandGen.MultilineButtonsShape` | bot/handlers/brand_gen.py:20-40 | the keyboard has `len(options) + 1` rows, the last one `repeat` |
| `BrandGen.MultilineButtons` | bot/handlers/brand_gen.py:20-40 | `create_multiline_inline_buttons` with the option itself as the button text: the option rows and then the `repeat` row; proved in `MultilineButtonsShape` |
| `BrandGen.CreateMultilineInlineButtons` | bot/handlers/brand_gen.py:20-40 | the loop builds the specified keyboard, or stops with the first option's error |
| `BrandGen.MultilineButtonsAsWrittenFails` | bot/handlers/brand_gen.py:28-31 | as written, every non-empty option list with a positive length raises `TypeError`; with the option as the text the keyboard is built |
| `BrandGen.MultilineButtonsAsWritten` | bot/handlers/brand_gen.py:26-35 | the function as written: only `repeat` for no options; otherwise the first option's `ValueError` from wrapping, or `TypeError` from `option['short']` |

## Left out

- `ask_ai` and the OpenAI client are outside the model. Their answer is the `reply` parameter of the handlers that call the model. Each prompt sent is recorded in the reaction.
- Prompt wording: only the lines of each prompt that carry the stored choices are modelled. The reply template after them is not part of this model.
- `logging`, `query.answer()`, `parse_mode`, the `async` scheduling and aiogram's delivery of messages are not modelled. They change neither the session nor the messages' text and keyboards.
- The dispatcher's routing is not modelled. This changes three things:
  - main.py:48-58 registers its own `/start` on the dispatcher, which comes before the routers. It sends a different greeting, links `https://t.me/bot_and_kot` and does not clear the session. `MainMenu.CmdStart` models the router's handler, which real traffic does not reach.
  - The main-menu router is included first (main.py:40-42), so `BrandGen.CmdStartFromCallback` is shadowed by `MainMenu.CmdStartFromCallback`. Both are the same reset.
  - Callback handlers have no state filter, so a stale button works in any state. The choice handlers are modelled that way: they take any session.
- `process_format_choice` imports `handlers.brand_gen` (brand_gen.py:121), while every other handler import is absolute from `bot.` or package-relative. Whether that import resolves depends on `sys.path`. It is modelled as a direct call of the audience stage.
- `Fsm.Show`: the Python list notation is approximated. Items are quoted with `'` and no escaping is done. Only stored lists would reach it, and no handler stores a list under a key that a prompt or the profile shows.
- `Py.Lower` folds ASCII and Cyrillic capitals only. `Py.IsDigit` is ASCII only, while Python's `isdigit` also accepts other Unicode digits. `Py.ParseInt` accepts surrounding whitespace, an optional sign, and ASCII digits with single underscores between them. It does not accept non-ASCII digits, which Python's `int` does.
- The `waiting_for_style` state is never set by any handler, and the style keyboards have no handler in this core. They are modelled as keyboards only.
- The console prototype's `first_stage` and the other stage functions are modelled by `ConversationStable.Stage` only. That covers picking some option when there are any. Their prompts, `print` calls, global variables and random choice are not modelled; the choice is any option.
- bot/database/database.py is not part of this model: it is database I/O only. Its `save_username_to_db` takes `context` before `category` (line 99) but passes `category` before `context` to the insert (line 118). Whether that is wrong depends on the SQL file, which is not part of this model.
- chat_id.py and the environment reads of bot/config.py are not part of this model; only the two style tables are.
- `NameGenerate.GenerateUsernameKb` takes the duration already formatted, as a string, since the float formatting `f"{duration:.2f}"` is not modelled.
- Where the code and its description disagree, the code is followed. The stages treat options as records with `full` and `short` fields, but the parser returns plain strings. See the findings below.

## Findings

| source | as written | input that shows it | evidently intended | confidence | as-written member | corrected member |
|---|---|---|---|---|---|---|
| bot/handlers/brand_gen.py:89-96 | The stages index each option, a `str`, with `option['full']` and `option['short']` (also at lines 164 and 233). This raises `TypeError` after the options are stored, so no keyboard is sent and the waiting state is never set. | the reply `Комментарий: Хорошее имя` / `1. Канал` to the format prompt | show the option text itself in the bullet and on the button | not executed | `BrandGen.StageAsWrittenCounterexample` | `BrandGen.StageEntryEffect` |
| bot/handlers/brand_gen.py:31 | `create_multiline_inline_buttons` takes `option['short']` of the wrapped string. For every non-empty option list it raises `TypeError`, or `ValueError` first when `max_line_length` is 0 and the first option is non-empty. | `["Канал"]` with `max_line_length` 30 | the wrapped option as the button text | not executed | `BrandGen.MultilineButtonsAsWrittenFails` | `BrandGen.MultilineButtonsShape` |

/**
 * The three option stages of the dialogue (format, audience, value) and the
 * final profile. A stage sends a prompt built from the stored choices, parses
 * the model's reply, stores the options and waits for a button; a button
 * stores the chosen option and starts the next stage; `repeat` regenerates
 * the options of the stage the session is waiting in; the value button shows
 * the profile and clears the session.
 *
 * The model's reply is a parameter of the handlers: whatever the model
 * answers to the prompt. Options are the parser's plain strings; a button
 * shows its option as it is (the code as written indexes the strings like
 * dictionaries, see `StageAsWritten`).
 */
module BrandGen {
  import opened Wrappers
  import opened Py
  import opened States
  import opened Markup
  import opened Fsm
  import opened Reply
  import BrandAskAi
  import MainMenu

  datatype StageKind = FormatStage | AudienceStage | ValueStage

  /** Where a stage stores its options. */
  function OptionsKey(k: StageKind): string {
    match k
    case FormatStage => FormatOptionsKey
    case AudienceStage => AudienceOptionsKey
    case ValueStage => ValueOptionsKey
  }

  /** Where the choice of a stage is stored. */
  function ChoiceKey(k: StageKind): string {
    match k
    case FormatStage => FormatChoiceKey
    case AudienceStage => AudienceChoiceKey
    case ValueStage => ValueChoiceKey
  }

  /** The state a stage waits in once its options are shown. */
  function WaitingState(k: StageKind): BrandCreationState {
    match k
    case FormatStage => WaitingForFormat
    case AudienceStage => WaitingForAudience
    case ValueStage => WaitingForValue
  }

  /** The callback prefix of a stage's option buttons. */
  function CallbackPrefix(k: StageKind): string {
    match k
    case FormatStage => "choose_format"
    case AudienceStage => "choose_audience"
    case ValueStage => "choose_value"
  }

  /** The stage a choice leads to. */
  function NextStage(k: StageKind): StageKind
    requires k != ValueStage
  {
    if k == FormatStage then AudienceStage else ValueStage
  }

  const EmptyAnswerText: string := "❌ Ошибка: пустое сообщение от AI. Попробуйте снова."
  const UnknownStateText: string := "❌ Неизвестное состояние. Попробуйте снова или начните с начала."

  /** The message a stage sends when the reply has no options. */
  function NoOptionsText(k: StageKind): string {
    match k
    case FormatStage => "❌ Ошибка при генерации форматов. Попробуйте снова."
    case AudienceStage => "❌ Ошибка при генерации аудитории. Попробуйте снова."
    case ValueStage => "❌ Ошибка при генерации сути проекта. Попробуйте снова."
  }

  /** The message a choice handler sends for an index outside the options. */
  function BadChoiceText(k: StageKind): string
    requires k != ValueStage
  {
    if k == FormatStage then "❌ Ошибка: выбран некорректный формат. Попробуйте снова."
    else "❌ Ошибка: выбрана некорректная аудитория. Попробуйте снова."
  }

  /** The row under every option keyboard. */
  const RepeatRow: seq<Button> := [CallbackButton("🔄 Повторить", "repeat")]

  const FormatHead: string := "\n    Пользователь выбрал username "
  const FormatMid: string := ".\n    Проанализируй "
  const FormatTail: string := " с точки зрения смысла, ассоциаций и контекстов.\n    Предложи 3 варианта форматов бренда.\n"
  const AudienceHead: string := "\n    Пользователь выбрал имя "
  const AudienceMid: string := " и формат "
  const AudienceTail: string := ".\n    Предложи 3 варианта того, в каком направлении может развиваться проект. Кто будет этим пользоваться?\n"
  const ValueHead: string := "\n    Пользователь выбрал имя \""
  const ValueMid: string := "\".\n    Пользователь выбрал формат \""
  const ValueMid2: string := "\" и его направление \""
  const ValueTail: string := "\".\n    Предложи 3 варианта сути и ценности проекта.\n"

  /**
   * The prompt of a stage, from the stored choices (`data.get`, so a missing
   * one reads `None`). Only the lines that carry the choices are kept; the
   * reply template that follows them is not part of this model.
   */
  function Prompt(k: StageKind, data: map<string, Value>): string {
    var u := Show(Get(data, UsernameKey));
    var f := Show(Get(data, FormatChoiceKey));
    var a := Show(Get(data, AudienceChoiceKey));
    match k
    case FormatStage => FormatHead + u + (FormatMid + u + FormatTail)
    case AudienceStage => AudienceHead + u + (AudienceMid + f + AudienceTail)
    case ValueStage => ValueHead + u + (ValueMid + f + (ValueMid2 + a + ValueTail))
  }

  /** Each prompt names the choices made so far: the username, then the format, then the audience. */
  lemma PromptEmbedsChoices(k: StageKind, data: map<string, Value>)
    ensures Contains(Prompt(k, data), Show(Get(data, UsernameKey)))
    ensures k != FormatStage ==> Contains(Prompt(k, data), Show(Get(data, FormatChoiceKey)))
    ensures k == ValueStage ==> Contains(Prompt(k, data), Show(Get(data, AudienceChoiceKey)))
  {
    var u := Show(Get(data, UsernameKey));
    var f := Show(Get(data, FormatChoiceKey));
    var a := Show(Get(data, AudienceChoiceKey));
    match k
    case FormatStage =>
      ContainsMiddle(FormatHead, u, FormatMid + u + FormatTail);
    case AudienceStage =>
      ContainsMiddle(AudienceHead, u, AudienceMid + f + AudienceTail);
      ContainsMiddle(AudienceMid, f, AudienceTail);
      ContainsAfter(AudienceHead + u, AudienceMid + f + AudienceTail, f);
    case ValueStage =>
      var rest := ValueMid2 + a + ValueTail;
      ContainsMiddle(ValueHead, u, ValueMid + f + rest);
      ContainsMiddle(ValueMid, f, rest);
      ContainsAfter(ValueHead + u, ValueMid + f + rest, f);
      ContainsMiddle(ValueMid2, a, ValueTail);
      ContainsAfter(ValueMid + f, rest, a);
      ContainsAfter(ValueHead + u, ValueMid + f + rest, a);
  }

  /** The option keyboard of a stage: one row per option, then `repeat`. */
  function StageKeyboard(prefix: string, options: seq<string>): (kb: Keyboard)
    ensures |kb| == |options| + 1
  {
    seq(|options|, i requires 0 <= i < |options| => [CallbackButton(options[i], prefix + ":" + NatToString(i))])
      + [RepeatRow]
  }

  /**
   * Row `i` of a stage keyboard shows option `i`, and its callback is the
   * prefix, a colon and `i`, which reads back as `i`; the last row is `repeat`.
   */
  lemma StageKeyboardRows(prefix: string, options: seq<string>)
    requires ':' !in prefix
    ensures var kb := StageKeyboard(prefix, options);
      && kb[|options|] == RepeatRow
      && forall i :: 0 <= i < |options| ==>
        && |kb[i]| == 1 && kb[i][0].CallbackButton? && kb[i][0].text == options[i]
        && StartsWith(kb[i][0].callbackData, prefix + ":")
        && ':' in kb[i][0].callbackData && ParseInt(AfterFirst(kb[i][0].callbackData, ':')) == Some(i)
  {
    forall i | 0 <= i < |options|
      ensures var cb := prefix + ":" + NatToString(i);
        StartsWith(cb, prefix + ":") && ':' in cb && ParseInt(AfterFirst(cb, ':')) == Some(i)
    {
      CallbackIndex(prefix, i);
    }
  }

  /** `prefix:i` with a colon-free prefix: the text after the first colon is `i`. */
  lemma CallbackIndex(prefix: string, i: nat)
    requires ':' !in prefix
    ensures var cb := prefix + ":" + NatToString(i);
      StartsWith(cb, prefix + ":") && ':' in cb && AfterFirst(cb, ':') == NatToString(i)
      && ParseInt(AfterFirst(cb, ':')) == Some(i)
  {
    var digits := NatToString(i);
    var head := prefix + ":";
    assert (head + digits)[..|head|] == head;
    AfterSeparator(prefix, digits, ':');
    ParseIntOfNatToString(i);
  }

  /** One bullet line. */
  function BulletLine(option: string): string {
    "• " + option + "\n"
  }

  /** The bullet list of the format message: `• option` on a line each. */
  function Bullets(options: seq<string>): string {
    if options == [] then ""
    else Bullets(options[..|options| - 1]) + BulletLine(options[|options| - 1])
  }

  /** Every option has its own bullet line in the list. */
  lemma {:induction false} BulletsListEveryOption(options: seq<string>, i: nat)
    requires i < |options|
    ensures Contains(Bullets(options), BulletLine(options[i]))
    decreases |options|
  {
    var front := options[..|options| - 1];
    var line := BulletLine(options[|options| - 1]);
    assert Bullets(options) == Bullets(front) + line;
    if i == |options| - 1 {
      ContainsMiddle(Bullets(front), line, "");
      assert Bullets(front) + line + "" == Bullets(front) + line;
    } else {
      assert front[i] == options[i];
      BulletsListEveryOption(front, i);
      ContainsBefore(Bullets(front), line, BulletLine(options[i]));
    }
  }

  /** The HTML message of the format stage: the comment, then the options as bullets. */
  function DetailedMessage(answer: string, options: seq<string>): string {
    "<b>Комментарий:</b>\n" + answer + "\n\n" + "<b>Варианты:</b>\n" + Bullets(options)
  }

  /** The format message carries the comment and a bullet line for every option. */
  lemma DetailedMessageListsOptions(answer: string, options: seq<string>, i: nat)
    requires i < |options|
    ensures Contains(DetailedMessage(answer, options), answer)
    ensures Contains(DetailedMessage(answer, options), BulletLine(options[i]))
  {
    var tail := "\n\n" + "<b>Варианты:</b>\n" + Bullets(options);
    ContainsMiddle("<b>Комментарий:</b>\n", answer, tail);
    assert DetailedMessage(answer, options) == "<b>Комментарий:</b>\n" + answer + tail;
    BulletsListEveryOption(options, i);
    ContainsAfter("<b>Комментарий:</b>\n" + answer + "\n\n" + "<b>Варианты:</b>\n", Bullets(options), BulletLine(options[i]));
  }

  /** Builds the format stage's message line by line, as the stage does. */
  method BuildDetailedMessage(answer: string, options: seq<string>) returns (message: string)
    ensures message == DetailedMessage(answer, options)
  {
    message := "<b>Комментарий:</b>\n" + answer + "\n\n";
    message := message + "<b>Варианты:</b>\n";
    ghost var head := message;
    for i := 0 to |options|
      invariant message == head + Bullets(options[..i])
    {
      assert options[..i + 1][..i] == options[..i];
      message := message + BulletLine(options[i]);
    }
    assert options[..|options|] == options;
  }

  /** The text a stage sends with its keyboard: the bullet list for the format, the comment otherwise. */
  function StageText(k: StageKind, p: Parsed): string {
    if k == FormatStage then DetailedMessage(p.answer, p.options) else p.answer
  }

  /**
   * `start_format_stage`, `start_audience_stage` and `start_value_stage`: the
   * stage is entered with the given session and the model's reply to its prompt.
   */
  function StageEntry(k: StageKind, s: Snapshot, reply: string): Reaction {
    var prompt := Prompt(k, s.data);
    match BrandAskAi.Parse(reply)
    case Failure(e) => Reaction(s, [], [prompt], Raised(e))
    case Success(p) =>
      if k == FormatStage && p.answer == "" then
        Reaction(s, [Message(EmptyAnswerText, None)], [prompt], Completed)
      else if p.options == [] then
        Reaction(s, [Message(NoOptionsText(k), None)], [prompt], Completed)
      else
        Reaction(Snapshot(Some(WaitingState(k)), s.data[OptionsKey(k) := List(p.options)]),
                 [Message(StageText(k, p), Some(StageKeyboard(CallbackPrefix(k), p.options)))],
                 [prompt], Completed)
  }

  /**
   * A stage asks the model exactly once. An empty reply, or one the parser
   * raises on, changes nothing; any other reply stores its options under the
   * stage's key, leaves the other entries as they were and waits in the
   * stage's state, with one button per option.
   */
  lemma StageEntryEffect(k: StageKind, s: Snapshot, reply: string)
    ensures StageEntry(k, s, reply).prompts == [Prompt(k, s.data)]
    ensures reply == "" || BrandAskAi.Parse(reply).Failure? ==> StageEntry(k, s, reply).after == s
    ensures BrandAskAi.Parse(reply).Failure? <==> StageEntry(k, s, reply).outcome == Raised(IndexError)
    ensures reply != "" && BrandAskAi.Parse(reply).Success? ==>
      var r := StageEntry(k, s, reply);
      var options := BrandAskAi.Parse(reply).value.options;
      && r.outcome == Completed && options != []
      && r.after == Snapshot(Some(WaitingState(k)), s.data[OptionsKey(k) := List(options)])
      && |r.sent| == 1 && r.sent[0].keyboard == Some(StageKeyboard(CallbackPrefix(k), options))
  {
    if reply != "" && BrandAskAi.Parse(reply).Success? {
      BrandAskAi.ParseSuccess(reply);
    }
  }

  /** A stage changes no stored entry but its own options, and only sets its own waiting state. */
  lemma StageEntryKeepsOthers(k: StageKind, s: Snapshot, reply: string)
    ensures var r := StageEntry(k, s, reply);
      && (r.after.state == s.state || r.after.state == Some(WaitingState(k)))
      && forall key :: key in s.data && key != OptionsKey(k) ==> key in r.after.data && r.after.data[key] == s.data[key]
  {
    match BrandAskAi.Parse(reply)
    case Failure(_) =>
    case Success(p) =>
      if !(k == FormatStage && p.answer == "") && p.options != [] {
        var data := s.data[OptionsKey(k) := List(p.options)];
        assert StageEntry(k, s, reply).after.data == data;
      }
  }

  /** An empty reply gets the empty-answer error in the format stage and the no-options error in the others. */
  lemma EmptyReplyMessage(k: StageKind, s: Snapshot)
    ensures StageEntry(k, s, "").sent == [Message(if k == FormatStage then EmptyAnswerText else NoOptionsText(k), None)]
  {
  }

  /** The format stage never reports missing options: the parser fills them in whenever it fills in the answer. */
  lemma FormatNoOptionsUnreachable(s: Snapshot, reply: string)
    ensures Message(NoOptionsText(FormatStage), None) !in StageEntry(FormatStage, s, reply).sent
  {
    if reply != "" && BrandAskAi.Parse(reply).Success? {
      BrandAskAi.ParseSuccess(reply);
    }
  }

  /**
   * The stage as written: after storing the options, `option['full']` (and
   * `option['short']` in the keyboard) index a string with a string and
   * raise `TypeError`; no message is sent and the state is not set.
   */
  function StageAsWritten(k: StageKind, s: Snapshot, reply: string): Reaction {
    var prompt := Prompt(k, s.data);
    match BrandAskAi.Parse(reply)
    case Failure(e) => Reaction(s, [], [prompt], Raised(e))
    case Success(p) =>
      if k == FormatStage && p.answer == "" then
        Reaction(s, [Message(EmptyAnswerText, None)], [prompt], Completed)
      else if p.options == [] then
        Reaction(s, [Message(NoOptionsText(k), None)], [prompt], Completed)
      else
        Reaction(Snapshot(s.state, s.data[OptionsKey(k) := List(p.options)]), [], [prompt], Raised(TypeError))
  }

  /** As written, no stage ever reaches its waiting state: every reply either changes nothing or raises. */
  lemma StageAsWrittenNeverWaits(k: StageKind, s: Snapshot, reply: string)
    ensures StageAsWritten(k, s, reply).after.state == s.state
    ensures reply != "" && BrandAskAi.Parse(reply).Success? ==> StageAsWritten(k, s, reply).outcome == Raised(TypeError)
  {
    if reply != "" && BrandAskAi.Parse(reply).Success? {
      BrandAskAi.ParseSuccess(reply);
    }
  }

  /** A well-formed reply with one option: as written the format stage raises, corrected it waits for the format. */
  lemma StageAsWrittenCounterexample(s: Snapshot)
    ensures var reply := BrandAskAi.Render("Хорошее имя", ["Канал"]);
      && StageAsWritten(FormatStage, s, reply).outcome == Raised(TypeError)
      && StageEntry(FormatStage, s, reply).after.state == Some(WaitingForFormat)
  {
    var reply := BrandAskAi.Render("Хорошее имя", ["Канал"]);
    StripNoop("Хорошее имя");
    StripNoop("Канал");
    assert BrandAskAi.RenderArgs("Хорошее имя", ["Канал"]);
    BrandAskAi.ParseOfRendered("Хорошее имя", ["Канал"]);
  }

  /** `start_format_stage`, `start_audience_stage`, `start_value_stage` on the session. */
  method StartStage(k: StageKind, session: Session, reply: string) returns (sent: seq<Message>, prompts: seq<string>, outcome: Outcome)
    modifies session
    ensures Reaction(session.Current(), sent, prompts, outcome) == StageEntry(k, old(session.Current()), reply)
  {
    var data := session.data;
    var prompt := Prompt(k, data);
    prompts := [prompt];
    var parsed := BrandAskAi.ParseAiResponse(reply);
    if parsed.Failure? {
      return [], prompts, Raised(parsed.error);
    }
    var p := parsed.value;
    if k == FormatStage && p.answer == "" {
      return [Message(EmptyAnswerText, None)], prompts, Completed;
    }
    if p.options == [] {
      return [Message(NoOptionsText(k), None)], prompts, Completed;
    }
    session.UpdateData(OptionsKey(k), List(p.options));
    var text := p.answer;
    if k == FormatStage {
      text := BuildDetailedMessage(p.answer, p.options);
    }
    var kb := StageKeyboard(CallbackPrefix(k), p.options);
    sent := [Message(text, Some(kb))];
    session.SetState(Some(WaitingState(k)));
    outcome := Completed;
  }

  /** A callback that starts with `prefix:` has a colon. */
  lemma ColonOfPrefixed(cb: string, prefix: string)
    requires StartsWith(cb, prefix + ":")
    ensures ':' in cb
  {
    assert cb[|prefix|] == (prefix + ":")[|prefix|];
  }

  /**
   * `process_format_choice` and `process_audience_choice`: the index after the
   * first colon picks an option of `data.get(key, [])`; the choice is stored
   * and the next stage is entered with the given reply.
   */
  function Selection(k: StageKind, s: Snapshot, cb: string, reply: string): Reaction
    requires k != ValueStage && StartsWith(cb, CallbackPrefix(k) + ":")
  {
    ColonOfPrefixed(cb, CallbackPrefix(k));
    var options := Listed(s.data, OptionsKey(k));
    match ParseInt(AfterFirst(cb, ':'))
    case None => Reaction(s, [], [], Raised(ValueError))
    case Some(index) =>
      if index < 0 || index >= |options| then
        Reaction(s, [Message(BadChoiceText(k), None)], [], Completed)
      else
        StageEntry(NextStage(k), Snapshot(s.state, s.data[ChoiceKey(k) := Str(options[index])]), reply)
  }

  /**
   * A callback whose index is not an integer raises `ValueError`, and one
   * outside `[0, len(options))` gets an error message; neither changes the
   * session or asks the model. Otherwise exactly `options[index]` is stored as
   * the choice, whatever the next stage does.
   */
  lemma SelectionBounds(k: StageKind, s: Snapshot, cb: string, reply: string)
    requires k != ValueStage && StartsWith(cb, CallbackPrefix(k) + ":")
    ensures ':' in cb
    ensures var options := Listed(s.data, OptionsKey(k));
      var r := Selection(k, s, cb, reply);
      match ParseInt(AfterFirst(cb, ':'))
      case None => r == Reaction(s, [], [], Raised(ValueError))
      case Some(index) =>
        if 0 <= index < |options| then
          ChoiceKey(k) in r.after.data && r.after.data[ChoiceKey(k)] == Str(options[index])
        else r.after == s && r.prompts == [] && r.sent == [Message(BadChoiceText(k), None)]
  {
    ColonOfPrefixed(cb, CallbackPrefix(k));
    var options := Listed(s.data, OptionsKey(k));
    var index := ParseInt(AfterFirst(cb, ':'));
    if index.Some? && 0 <= index.value < |options| {
      var s' := Snapshot(s.state, s.data[ChoiceKey(k) := Str(options[index.value])]);
      assert Selection(k, s, cb, reply) == StageEntry(NextStage(k), s', reply);
      StageEntryKeepsOthers(NextStage(k), s', reply);
      assert ChoiceKey(k) in s'.data && ChoiceKey(k) != OptionsKey(NextStage(k));
    }
  }

  /** Pressing the button of option `i` of the keyboard the session is waiting on stores option `i`. */
  lemma PressedButtonIsStored(k: StageKind, s: Snapshot, i: nat, reply: string)
    requires k != ValueStage && WellFormed(s) && s.state == Some(WaitingState(k))
    requires i < |Listed(s.data, OptionsKey(k))|
    ensures var options := Listed(s.data, OptionsKey(k));
      var cb := StageKeyboard(CallbackPrefix(k), options)[i][0].callbackData;
      StartsWith(cb, CallbackPrefix(k) + ":")
      && ChoiceKey(k) in Selection(k, s, cb, reply).after.data
      && Selection(k, s, cb, reply).after.data[ChoiceKey(k)] == Str(options[i])
  {
    var options := Listed(s.data, OptionsKey(k));
    StageKeyboardRows(CallbackPrefix(k), options);
    var cb := StageKeyboard(CallbackPrefix(k), options)[i][0].callbackData;
    SelectionBounds(k, s, cb, reply);
  }

  /** `process_format_choice` and `process_audience_choice` on the session. */
  method ProcessChoice(k: StageKind, session: Session, cb: string, reply: string)
    returns (sent: seq<Message>, prompts: seq<string>, outcome: Outcome)
    requires k != ValueStage && StartsWith(cb, CallbackPrefix(k) + ":")
    modifies session
    ensures Reaction(session.Current(), sent, prompts, outcome) == Selection(k, old(session.Current()), cb, reply)
  {
    var data := session.data;
    var options := Listed(data, OptionsKey(k));
    ColonOfPrefixed(cb, CallbackPrefix(k));
    var index := ParseInt(AfterFirst(cb, ':'));
    if index.None? {
      return [], [], Raised(ValueError);
    }
    if index.value < 0 || index.value >= |options| {
      return [Message(BadChoiceText(k), None)], [], Completed;
    }
    session.UpdateData(ChoiceKey(k), Str(options[index.value]));
    sent, prompts, outcome := StartStage(NextStage(k), session, reply);
  }

  /** `repeat_generation`: the stage the session waits in is entered again; any other state gets an error. */
  function Repetition(s: Snapshot, reply: string): Reaction {
    match s.state
    case Some(WaitingForFormat) => StageEntry(FormatStage, s, reply)
    case Some(WaitingForAudience) => StageEntry(AudienceStage, s, reply)
    case Some(WaitingForValue) => StageEntry(ValueStage, s, reply)
    case _ => Reaction(s, [Message(UnknownStateText, None)], [], Completed)
  }

  /** The stage a state belongs to. */
  function StageOf(st: BrandCreationState): StageKind
    requires IsStageState(st)
  {
    if st == WaitingForFormat then FormatStage
    else if st == WaitingForAudience then AudienceStage
    else ValueStage
  }

  /**
   * `repeat` regenerates exactly the options of the current stage: every
   * other stored entry, the earlier choices among them, is kept, and the new
   * prompt names those choices. Outside the three stage states nothing changes.
   */
  lemma RepetitionKeepsChoices(s: Snapshot, reply: string)
    ensures s.state.None? || !IsStageState(s.state.value) ==>
      Repetition(s, reply) == Reaction(s, [Message(UnknownStateText, None)], [], Completed)
    ensures s.state.Some? && IsStageState(s.state.value) ==>
      var k := StageOf(s.state.value);
      var r := Repetition(s, reply);
      && r == StageEntry(k, s, reply)
      && r.prompts == [Prompt(k, s.data)]
      && forall key :: key in s.data && key != OptionsKey(k) ==> key in r.after.data && r.after.data[key] == s.data[key]
  {
    if s.state.Some? && IsStageState(s.state.value) {
      var k := StageOf(s.state.value);
      assert Repetition(s, reply) == StageEntry(k, s, reply);
      StageEntryEffect(k, s, reply);
      StageEntryKeepsOthers(k, s, reply);
    }
  }

  /** The choices a stage's prompt needs are stored. */
  predicate StagePrerequisites(k: StageKind, data: map<string, Value>) {
    && HasStr(data, UsernameKey)
    && (k != FormatStage ==> HasStr(data, FormatChoiceKey))
    && (k == ValueStage ==> HasStr(data, AudienceChoiceKey))
  }

  /** Entering a stage whose prerequisites are stored keeps the dialogue invariant. */
  lemma StageEntryKeepsInvariant(k: StageKind, s: Snapshot, reply: string)
    requires WellFormed(s) && StagePrerequisites(k, s.data)
    ensures WellFormed(StageEntry(k, s, reply).after)
  {
  }

  /** `repeat` keeps the dialogue invariant. */
  lemma RepetitionKeepsInvariant(s: Snapshot, reply: string)
    requires WellFormed(s)
    ensures WellFormed(Repetition(s, reply).after)
  {
    if s.state.Some? && IsStageState(s.state.value) {
      StageEntryKeepsInvariant(StageOf(s.state.value), s, reply);
    }
  }

  /** A choice keeps the dialogue invariant. */
  lemma SelectionKeepsInvariant(k: StageKind, s: Snapshot, cb: string, reply: string)
    requires k != ValueStage && StartsWith(cb, CallbackPrefix(k) + ":")
    requires WellFormed(s)
    ensures WellFormed(Selection(k, s, cb, reply).after)
  {
    ColonOfPrefixed(cb, CallbackPrefix(k));
    var options := Listed(s.data, OptionsKey(k));
    var index := ParseInt(AfterFirst(cb, ':'));
    if index.Some? && 0 <= index.value < |options| {
      var s' := Snapshot(s.state, s.data[ChoiceKey(k) := Str(options[index.value])]);
      assert OptionsKey(k) in s.data;
      ChoiceKeepsInvariant(k, s, Str(options[index.value]));
      StageEntryKeepsInvariant(NextStage(k), s', reply);
    }
  }

  /** Storing a string choice of a stage whose options are stored keeps the invariant and meets the next stage's prerequisites. */
  lemma ChoiceKeepsInvariant(k: StageKind, s: Snapshot, choice: Value)
    requires k != ValueStage && WellFormed(s) && OptionsKey(k) in s.data && choice.Str?
    ensures var s' := Snapshot(s.state, s.data[ChoiceKey(k) := choice]);
      WellFormed(s') && StagePrerequisites(NextStage(k), s'.data)
  {
  }

  /** The profile shown at the end. */
  function ProfileText(username: Value, format: Value, audience: Value, value: Value): string {
    "\n    📝 Профиль бренда:\n    - Username: " + Show(Some(username))
      + "\n    - Формат: " + Show(Some(format))
      + "\n    - Аудитория: " + Show(Some(audience))
      + "\n    - Суть и ценность: " + Show(Some(value)) + "\n    "
  }

  /** The keyboard under the profile: back to the menu, and a feedback link. */
  const FinalKeyboard: Keyboard :=
    [[CallbackButton("🏠 Вернуться в меню", "start")],
     [UrlButton("📝 Поделиться впечатлениями", "https://example.com/feedback-form")]]

  /**
   * `final_stage`: the callback segment after the first colon is stored as
   * `value_choice`; then `data['username']`, `data['format_choice']` and
   * `data['audience_choice']` are read, which raises `KeyError` if one is
   * missing; otherwise the profile is sent and the session cleared.
   */
  function Completion(s: Snapshot, cb: string): Reaction
    requires StartsWith(cb, "choose_value:")
  {
    ColonOfPrefixed(cb, "choose_value");
    var data := s.data[ValueChoiceKey := Str(SecondField(cb, ':'))];
    if UsernameKey !in data || FormatChoiceKey !in data || AudienceChoiceKey !in data then
      Reaction(Snapshot(s.state, data), [], [], Raised(KeyError))
    else
      var text := ProfileText(data[UsernameKey], data[FormatChoiceKey], data[AudienceChoiceKey], data[ValueChoiceKey]);
      Reaction(Empty, [Message(text, Some(FinalKeyboard))], [], Completed)
  }

  /**
   * The profile is shown and the session cleared exactly when the username,
   * format and audience are stored; otherwise `KeyError` escapes with only
   * `value_choice` added. What is stored is the raw callback segment, the
   * option's index, not the option.
   */
  lemma CompletionClears(s: Snapshot, cb: string)
    requires StartsWith(cb, "choose_value:")
    ensures ':' in cb
    ensures var r := Completion(s, cb);
      && (r.outcome == Completed <==> UsernameKey in s.data && FormatChoiceKey in s.data && AudienceChoiceKey in s.data)
      && (r.outcome == Completed ==>
            r.after == Empty && |r.sent| == 1 && r.sent[0].keyboard == Some(FinalKeyboard)
            && r.sent[0].text == ProfileText(s.data[UsernameKey], s.data[FormatChoiceKey], s.data[AudienceChoiceKey],
                                             Str(SecondField(cb, ':'))))
      && (r.outcome != Completed ==>
            r.outcome == Raised(KeyError) && r.sent == []
            && r.after == Snapshot(s.state, s.data[ValueChoiceKey := Str(SecondField(cb, ':'))]))
  {
    ColonOfPrefixed(cb, "choose_value");
  }

  /** In the value stage of a well-formed session the value button always ends the dialogue. */
  lemma CompletionInValueStage(s: Snapshot, cb: string)
    requires StartsWith(cb, "choose_value:") && WellFormed(s) && s.state == Some(WaitingForValue)
    ensures Completion(s, cb).outcome == Completed && Completion(s, cb).after == Empty
  {
    CompletionClears(s, cb);
  }

  /**
   * The value button of option `i` stores the text `i`, not option `i`: the
   * profile shows it when the dialogue completes, and it stays in the data
   * when `KeyError` escapes.
   */
  lemma CompletionStoresIndexText(s: Snapshot, options: seq<string>, i: nat)
    requires i < |options|
    ensures var cb := StageKeyboard("choose_value", options)[i][0].callbackData;
      var r := Completion(s, cb);
      StartsWith(cb, "choose_value:")
      && (r.outcome == Completed ==>
            r.sent[0].text == ProfileText(s.data[UsernameKey], s.data[FormatChoiceKey], s.data[AudienceChoiceKey],
                                          Str(NatToString(i))))
      && (r.outcome != Completed ==> r.after.data[ValueChoiceKey] == Str(NatToString(i)))
  {
    var cb := "choose_value" + ":" + NatToString(i);
    CallbackIndex("choose_value", i);
    assert cb == "choose_value" + ":" + NatToString(i);
    SecondFieldOfIndex("choose_value", i);
    CompletionClears(s, cb);
  }

  /**
   * Once the username, format and audience are stored, pressing the value
   * button of option `i` completes the dialogue with the profile of those
   * three choices and the index text `i`.
   */
  lemma CompletionShowsIndexText(s: Snapshot, options: seq<string>, i: nat)
    requires i < |options|
    requires UsernameKey in s.data && FormatChoiceKey in s.data && AudienceChoiceKey in s.data
    ensures var cb := StageKeyboard("choose_value", options)[i][0].callbackData;
      var r := Completion(s, cb);
      StartsWith(cb, "choose_value:")
      && r.outcome == Completed && r.after == Empty && |r.sent| == 1
      && r.sent[0].text == ProfileText(s.data[UsernameKey], s.data[FormatChoiceKey], s.data[AudienceChoiceKey],
                                       Str(NatToString(i)))
  {
    var cb := "choose_value" + ":" + NatToString(i);
    CallbackIndex("choose_value", i);
    SecondFieldOfIndex("choose_value", i);
    CompletionClears(s, cb);
  }

  /** The segment after the colon of `prefix:i` is `i`, up to the next colon or the end. */
  lemma SecondFieldOfIndex(prefix: string, i: nat)
    requires ':' !in prefix
    ensures ':' in prefix + ":" + NatToString(i) && SecondField(prefix + ":" + NatToString(i), ':') == NatToString(i)
  {
    var digits := NatToString(i);
    assert ':' !in digits;
    SecondFieldOfPair(prefix, digits, ':');
  }

  /** `final_stage` keeps the dialogue invariant. */
  lemma CompletionKeepsInvariant(s: Snapshot, cb: string)
    requires StartsWith(cb, "choose_value:") && WellFormed(s)
    ensures WellFormed(Completion(s, cb).after)
  {
    CompletionClears(s, cb);
  }

  /** `final_stage` on the session. */
  method FinalStage(session: Session, cb: string) returns (sent: seq<Message>, outcome: Outcome)
    requires StartsWith(cb, "choose_value:")
    modifies session
    ensures Reaction(session.Current(), sent, [], outcome) == Completion(old(session.Current()), cb)
  {
    ColonOfPrefixed(cb, "choose_value");
    var valueChoice := SecondField(cb, ':');
    session.UpdateData(ValueChoiceKey, Str(valueChoice));
    var data := session.data;
    if UsernameKey !in data || FormatChoiceKey !in data || AudienceChoiceKey !in data {
      return [], Raised(KeyError);
    }
    var text := ProfileText(data[UsernameKey], data[FormatChoiceKey], data[AudienceChoiceKey], data[ValueChoiceKey]);
    sent := [Message(text, Some(FinalKeyboard))];
    session.Clear();
    outcome := Completed;
  }

  /** `repeat_generation` on the session. */
  method RepeatGeneration(session: Session, reply: string) returns (sent: seq<Message>, prompts: seq<string>, outcome: Outcome)
    modifies session
    ensures Reaction(session.Current(), sent, prompts, outcome) == Repetition(old(session.Current()), reply)
  {
    var current := session.state;
    if current == Some(WaitingForFormat) {
      sent, prompts, outcome := StartStage(FormatStage, session, reply);
    } else if current == Some(WaitingForAudience) {
      sent, prompts, outcome := StartStage(AudienceStage, session, reply);
    } else if current == Some(WaitingForValue) {
      sent, prompts, outcome := StartStage(ValueStage, session, reply);
    } else {
      sent, prompts, outcome := [Message(UnknownStateText, None)], [], Completed;
    }
  }

  /** `cmd_start_from_callback` of this module: the same reset as the main menu's. */
  method CmdStartFromCallback(session: Session) returns (sent: seq<Message>)
    modifies session
    ensures Reaction(session.Current(), sent, [], Completed) == MainMenu.Reset(old(session.Current()))
  {
    session.Clear();
    sent := [MainMenu.MainMenu()];
  }

  /** `[o[i:i + m] for i in range(0, len(o), m)]` for a positive step. */
  function Chunks(o: string, m: nat): seq<string>
    requires m > 0
    decreases |o|
  {
    if o == "" then []
    else if |o| <= m then [o]
    else [o[..m]] + Chunks(o[m..], m)
  }

  /** The strings of a list, concatenated. */
  function Concat(parts: seq<string>): string {
    if parts == [] then "" else parts[0] + Concat(parts[1..])
  }

  /** The chunks concatenate to the original text. */
  lemma {:induction false} ChunksConcat(o: string, m: nat)
    requires m > 0
    ensures Concat(Chunks(o, m)) == o
    decreases |o|
  {
    if o != "" && |o| > m {
      var head := o[..m];
      var rest := Chunks(o[m..], m);
      var all := [head] + rest;
      assert Chunks(o, m) == all;
      assert all[0] == head && all[1..] == rest;
      assert Concat(all) == head + Concat(rest);
      ChunksConcat(o[m..], m);
      assert o == head + o[m..];
    } else if o != "" {
      assert Chunks(o, m) == [o];
      assert [o][1..] == [];
      assert Concat([o]) == o + Concat([]);
    }
  }

  /** Every chunk is non-empty and at most `m` long, and all but the last are exactly `m` long. */
  lemma {:induction false} ChunksBounded(o: string, m: nat)
    requires m > 0
    ensures forall j :: 0 <= j < |Chunks(o, m)| ==> 0 < |Chunks(o, m)[j]| <= m
    ensures forall j :: 0 <= j < |Chunks(o, m)| - 1 ==> |Chunks(o, m)[j]| == m
    decreases |o|
  {
    if o != "" && |o| > m {
      var rest := Chunks(o[m..], m);
      var all := [o[..m]] + rest;
      ChunksBounded(o[m..], m);
      assert Chunks(o, m) == all;
      forall j | 0 < j < |all| ensures all[j] == rest[j - 1] {
      }
    }
  }

  /** A chunk holds only characters of the text. */
  lemma {:induction false} ChunksFreeOf(o: string, m: nat, c: char)
    requires m > 0 && c !in o
    ensures forall j :: 0 <= j < |Chunks(o, m)| ==> c !in Chunks(o, m)[j]
    decreases |o|
  {
    if o != "" && |o| > m {
      assert c !in o[..m] by {
        forall k | 0 <= k < m ensures o[..m][k] != c {
          assert o[..m][k] == o[k];
        }
      }
      assert c !in o[m..] by {
        forall k | 0 <= k < |o| - m ensures o[m..][k] != c {
          assert o[m..][k] == o[m + k];
        }
      }
      ChunksFreeOf(o[m..], m, c);
    }
  }

  /**
   * An option's button text: longer than `m`, it is cut into chunks of `m`
   * joined by newlines. A zero step raises `ValueError` in `range`, and a
   * negative one gives no chunks at all.
   */
  function Wrapped(o: string, m: int): Result<string, PyError> {
    if |o| <= m then Success(o)
    else if m == 0 then Failure(ValueError)
    else if m < 0 then Success("")
    else Success(Join(Chunks(o, m), '\n'))
  }

  /**
   * With `m > 0` wrapping always succeeds, and for text without newlines the
   * lines of the button text are exactly the chunks, so the text comes back by
   * concatenating them.
   */
  lemma WrappedLinesAreChunks(o: string, m: int)
    requires m > 0 && '\n' !in o
    ensures Wrapped(o, m).Success?
    ensures |o| > m ==> Split(Wrapped(o, m).value, '\n') == Chunks(o, m)
    ensures Concat(Split(Wrapped(o, m).value, '\n')) == o
  {
    if |o| > m {
      ChunksFreeOf(o, m, '\n');
      SplitOfJoin(Chunks(o, m), '\n');
      ChunksConcat(o, m);
    } else {
      SplitPrefixed(o, "", '\n');
      assert o + "" == o;
      assert Split(o, '\n') == [o];
      assert Concat([o]) == o + Concat([]);
    }
  }

  /** The row of option `i`: its wrapped text, sending `choose_option:i`. */
  function OptionRow(text: string, i: nat): seq<Button> {
    [CallbackButton(text, "choose_option:" + NatToString(i))]
  }

  /** The option rows, in order; the first option that cannot be wrapped stops them. */
  function OptionRows(options: seq<string>, m: int): Result<Keyboard, PyError> {
    if options == [] then Success([])
    else
      match OptionRows(options[..|options| - 1], m)
      case Failure(e) => Failure(e)
      case Success(rows) =>
        match Wrapped(options[|options| - 1], m)
        case Failure(e) => Failure(e)
        case Success(t) => Success(rows + [OptionRow(t, |options| - 1)])
  }

  /**
   * `create_multiline_inline_buttons` with the option itself as the button
   * text: one row per option, then `repeat`.
   */
  function MultilineButtons(options: seq<string>, m: int): Result<Keyboard, PyError> {
    match OptionRows(options, m)
    case Failure(e) => Failure(e)
    case Success(rows) => Success(rows + [RepeatRow])
  }

  /**
   * The rows fail, with `ValueError`, exactly when `m` is zero and some option
   * is non-empty; otherwise row `i` shows option `i` wrapped and sends `i`.
   */
  lemma {:induction false} OptionRowsShape(options: seq<string>, m: int)
    ensures OptionRows(options, m).Failure? <==> m == 0 && exists i :: 0 <= i < |options| && options[i] != ""
    ensures OptionRows(options, m).Failure? ==> OptionRows(options, m).error == ValueError
    ensures OptionRows(options, m).Success? ==>
      && |OptionRows(options, m).value| == |options|
      && forall i :: 0 <= i < |options| ==>
        Wrapped(options[i], m).Success? && OptionRows(options, m).value[i] == OptionRow(Wrapped(options[i], m).value, i)
    decreases |options|
  {
    if options != [] {
      var front := options[..|options| - 1];
      var last := options[|options| - 1];
      OptionRowsShape(front, m);
      if m == 0 && exists i :: 0 <= i < |front| && front[i] != "" {
        var i :| 0 <= i < |front| && front[i] != "";
        assert options[i] == front[i];
      }
      if m == 0 && last != "" {
        assert options[|options| - 1] != "";
      }
      if m == 0 && exists i :: 0 <= i < |options| && options[i] != "" {
        var i :| 0 <= i < |options| && options[i] != "";
        if i < |front| {
          assert front[i] == options[i];
        }
      }
    }
  }

  /** The keyboard has `len(options) + 1` rows, the last one `repeat`. */
  lemma MultilineButtonsShape(options: seq<string>, m: int)
    ensures MultilineButtons(options, m).Failure? <==> m == 0 && exists i :: 0 <= i < |options| && options[i] != ""
    ensures MultilineButtons(options, m).Success? ==>
      && |MultilineButtons(options, m).value| == |options| + 1
      && MultilineButtons(options, m).value[|options|] == RepeatRow
      && forall i :: 0 <= i < |options| ==>
        Wrapped(options[i], m).Success? && MultilineButtons(options, m).value[i] == OptionRow(Wrapped(options[i], m).value, i)
  {
    OptionRowsShape(options, m);
    if OptionRows(options, m).Success? {
      var rows := OptionRows(options, m).value;
      assert MultilineButtons(options, m).value == rows + [RepeatRow];
      forall i | 0 <= i < |options|
        ensures MultilineButtons(options, m).value[i] == rows[i]
      {
      }
    }
  }

  /** `create_multiline_inline_buttons`, with the option itself as the button text. */
  method CreateMultilineInlineButtons(options: seq<string>, maxLineLength: int) returns (r: Result<Keyboard, PyError>)
    ensures r == MultilineButtons(options, maxLineLength)
  {
    var buttons: Keyboard := [];
    for index := 0 to |options|
      invariant OptionRows(options[..index], maxLineLength) == Success(buttons)
    {
      assert options[..index + 1][..index] == options[..index];
      var option := Wrapped(options[index], maxLineLength);
      if option.Failure? {
        OptionRowsFailurePersists(options, index + 1, maxLineLength);
        return Failure(option.error);
      }
      buttons := buttons + [OptionRow(option.value, index)];
    }
    assert options[..|options|] == options;
    buttons := buttons + [RepeatRow];
    r := Success(buttons);
  }

  /** Once a prefix of the options fails, all of them fail with the same error. */
  lemma {:induction false} OptionRowsFailurePersists(options: seq<string>, n: nat, m: int)
    requires n <= |options| && OptionRows(options[..n], m).Failure?
    ensures OptionRows(options, m) == OptionRows(options[..n], m)
    decreases |options| - n
  {
    if n == |options| {
      assert options[..n] == options;
    } else {
      var front := options[..|options| - 1];
      assert front[..n] == options[..n];
      OptionRowsFailurePersists(front, n, m);
    }
  }

  /**
   * The code as written takes `option['short']` of a string, which raises
   * `TypeError` for the first option that `range` lets through.
   */
  function MultilineButtonsAsWritten(options: seq<string>, m: int): Result<Keyboard, PyError> {
    if options == [] then Success([RepeatRow])
    else
      match Wrapped(options[0], m)
      case Failure(e) => Failure(e)
      case Success(_) => Failure(TypeError)
  }

  /** As written, every non-empty option list fails; the option itself as the text gives a keyboard. */
  lemma MultilineButtonsAsWrittenFails(options: seq<string>, m: int)
    requires options != [] && m > 0
    ensures MultilineButtonsAsWritten(options, m) == Failure(TypeError)
    ensures MultilineButtons(options, m).Success?
  {
    MultilineButtonsShape(options, m);
  }
}

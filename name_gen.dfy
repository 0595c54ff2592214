/**
 * The username step of the dialogue: the user's thought is stored, three
 * stub usernames are offered, and the chosen one is stored before the format
 * stage begins.
 */
module NameGen {
  import opened Wrappers
  import opened Py
  import opened States
  import opened Markup
  import opened Fsm
  import NameGenerate
  import BrandGen

  /** The usernames offered in place of generated ones. */
  const GeneratedUsernames: seq<string> := ["ProjectIdeaBot", "UniqueConceptBot", "BrandCreatorBot"]

  const GeneratingText: string := "🔄 Генерируем варианты username на основе вашей мысли..."
  const ChooseUsernameText: string := "Выберите один из доступных username:"

  /** The row under the usernames. */
  const RepeatUsernameRow: seq<Button> := [CallbackButton("🔄 Повторить генерацию", "repeat_username_generation")]

  /** One `@u` row per username, then the repeat row. */
  function UsernameKeyboard(usernames: seq<string>): (kb: Keyboard)
    ensures |kb| == |usernames| + 1
  {
    seq(|usernames|, i requires 0 <= i < |usernames| => NameGenerate.UsernameRow(usernames[i])) + [RepeatUsernameRow]
  }

  /**
   * `process_user_thought`, with the message's text; a message without text
   * (`None`) raises `AttributeError` in `strip` before anything happens.
   */
  function ThoughtEntry(s: Snapshot, text: Option<string>): Reaction {
    match text
    case None => Reaction(s, [], [], Raised(AttributeError))
    case Some(t) =>
      var data := s.data[UserThoughtKey := Str(Strip(t))][UsernameOptionsKey := List(GeneratedUsernames)];
      Reaction(Snapshot(Some(WaitingForUsernameChoice), data),
               [Message(GeneratingText, None), Message(ChooseUsernameText, Some(UsernameKeyboard(GeneratedUsernames)))],
               [], Completed)
  }

  /**
   * A thought is stored stripped, the three usernames are stored in order and
   * offered one per row, and the session waits for the username; every other
   * entry is kept.
   */
  lemma ThoughtEntryEffect(s: Snapshot, t: string)
    ensures var r := ThoughtEntry(s, Some(t));
      && r.outcome == Completed
      && r.after.state == Some(WaitingForUsernameChoice)
      && r.after.data[UserThoughtKey] == Str(Strip(t))
      && r.after.data[UsernameOptionsKey] == List(["ProjectIdeaBot", "UniqueConceptBot", "BrandCreatorBot"])
      && r.after.data.Keys == s.data.Keys + {UserThoughtKey, UsernameOptionsKey}
      && (forall key :: key in s.data && key != UserThoughtKey && key != UsernameOptionsKey ==> r.after.data[key] == s.data[key])
      && |r.sent| == 2 && r.sent[1].keyboard.Some?
      && (var kb := r.sent[1].keyboard.value;
          && |kb| == 4 && kb[3] == RepeatUsernameRow
          && forall i :: 0 <= i < 3 ==> kb[i] == [CallbackButton("@" + GeneratedUsernames[i], "choose_username:" + GeneratedUsernames[i])])
  {
  }

  /** Storing the thought keeps the dialogue invariant. */
  lemma ThoughtEntryKeepsInvariant(s: Snapshot, text: Option<string>)
    requires WellFormed(s)
    ensures WellFormed(ThoughtEntry(s, text).after)
  {
  }

  /** `process_user_thought` on the session. */
  method ProcessUserThought(session: Session, text: Option<string>) returns (sent: seq<Message>, outcome: Outcome)
    modifies session
    ensures Reaction(session.Current(), sent, [], outcome) == ThoughtEntry(old(session.Current()), text)
  {
    if text.None? {
      return [], Raised(AttributeError);
    }
    var userThought := Strip(text.value);
    session.UpdateData(UserThoughtKey, Str(userThought));
    sent := [Message(GeneratingText, None)];
    var generatedUsernames := GeneratedUsernames;
    session.UpdateData(UsernameOptionsKey, List(generatedUsernames));
    var kb := UsernameKeyboard(generatedUsernames);
    sent := sent + [Message(ChooseUsernameText, Some(kb))];
    session.SetState(Some(WaitingForUsernameChoice));
    outcome := Completed;
  }

  /**
   * `repeat_username_generation`: the thought handler again, on the text of
   * the message the button is attached to, so `user_thought` becomes that
   * message's text.
   */
  method RepeatUsernameGeneration(session: Session, messageText: Option<string>) returns (sent: seq<Message>, outcome: Outcome)
    modifies session
    ensures Reaction(session.Current(), sent, [], outcome) == ThoughtEntry(old(session.Current()), messageText)
  {
    sent, outcome := ProcessUserThought(session, messageText);
  }

  /** Repeating from the username message overwrites the thought with that message's own text. */
  lemma RepeatOverwritesThought(s: Snapshot)
    ensures ThoughtEntry(s, Some(ChooseUsernameText)).after.data[UserThoughtKey] == Str(ChooseUsernameText)
  {
    StripNoop(ChooseUsernameText);
  }

  /**
   * `process_username_choice`: the segment between the first and the second
   * colon is stored as `username`, whether it was offered or not, and the
   * format stage is entered.
   */
  function UsernameSelection(s: Snapshot, cb: string, reply: string): Reaction
    requires StartsWith(cb, "choose_username:")
  {
    BrandGen.ColonOfPrefixed(cb, "choose_username");
    BrandGen.StageEntry(BrandGen.FormatStage, Snapshot(s.state, s.data[UsernameKey := Str(SecondField(cb, ':'))]), reply)
  }

  /**
   * The selected segment is stored as the username and is what the format
   * prompt names; the button of username `u` selects `u` itself.
   */
  lemma UsernameSelectionStores(s: Snapshot, cb: string, reply: string)
    requires StartsWith(cb, "choose_username:")
    ensures ':' in cb
    ensures var r := UsernameSelection(s, cb, reply);
      && UsernameKey in r.after.data && r.after.data[UsernameKey] == Str(SecondField(cb, ':'))
      && |r.prompts| == 1 && Contains(r.prompts[0], SecondField(cb, ':'))
  {
    BrandGen.ColonOfPrefixed(cb, "choose_username");
    var u := SecondField(cb, ':');
    var s' := Snapshot(s.state, s.data[UsernameKey := Str(u)]);
    BrandGen.StageEntryEffect(BrandGen.FormatStage, s', reply);
    BrandGen.PromptEmbedsChoices(BrandGen.FormatStage, s'.data);
    assert Show(Get(s'.data, UsernameKey)) == u;
  }

  /** The button of an offered username, free of colons, selects exactly that username. */
  lemma UsernameButtonSelects(u: string)
    requires ':' !in u
    ensures var cb := NameGenerate.UsernameRow(u)[0].callbackData;
      StartsWith(cb, "choose_username:") && ':' in cb && SecondField(cb, ':') == u
  {
    var cb := "choose_username:" + u;
    assert cb == "choose_username" + [':'] + u;
    assert cb[..|"choose_username:"|] == "choose_username:";
    SecondFieldOfPair("choose_username", u, ':');
  }

  /** The username choice keeps the dialogue invariant. */
  lemma UsernameSelectionKeepsInvariant(s: Snapshot, cb: string, reply: string)
    requires StartsWith(cb, "choose_username:") && WellFormed(s)
    ensures WellFormed(UsernameSelection(s, cb, reply).after)
  {
    BrandGen.ColonOfPrefixed(cb, "choose_username");
    var s' := Snapshot(s.state, s.data[UsernameKey := Str(SecondField(cb, ':'))]);
    assert WellFormed(s');
    BrandGen.StageEntryKeepsInvariant(BrandGen.FormatStage, s', reply);
  }

  /** `process_username_choice` on the session. */
  method ProcessUsernameChoice(session: Session, cb: string, reply: string)
    returns (sent: seq<Message>, prompts: seq<string>, outcome: Outcome)
    requires StartsWith(cb, "choose_username:")
    modifies session
    ensures Reaction(session.Current(), sent, prompts, outcome) == UsernameSelection(old(session.Current()), cb, reply)
  {
    BrandGen.ColonOfPrefixed(cb, "choose_username");
    var selectedUsername := SecondField(cb, ':');
    session.UpdateData(UsernameKey, Str(selectedUsername));
    sent, prompts, outcome := BrandGen.StartStage(BrandGen.FormatStage, session, reply);
  }
}

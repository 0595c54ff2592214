/**
 * The main menu: `/start` and the `start` button reset the session and show
 * the menu, `create_brand` asks for a thought and waits for it, `help`
 * explains the bot and touches no session at all.
 */
module MainMenu {
  import opened Wrappers
  import opened States
  import opened Markup
  import opened Fsm

  const MainMenuText: string := "Вы в главном меню. Выберите действие:"

  /** The button that leads back to the main menu. */
  const BackToMenuKeyboard: Keyboard := [[CallbackButton("🏠 Вернуться в меню", "start")]]

  /** The question `create_brand` asks. */
  const ContextQuestionText: string :=
    "О чём вы сейчас думаете? Мы превратим любую мысль в уникальный проект!\n"
      + "✍️ Просто введите текст ниже или \n"
      + "🎲 могу предложить вам идею.\n\n"
      + "⬇️⬇️⬇️ Пишите ⬇️⬇️⬇️"

  /** The explanation `help` gives. */
  const HelpText: string :=
    "🧠 Этот генератор позволяет создать уникальный проект всего за 4 простых шага!\n\n"
      + "💡 Уникальность подхода:\n"
      + "1. Генератор проверяет свободность username в Telegram.\n"
      + "2. Концепция проекта разрабатывается на основе ваших мыслей.\n"
      + "3. Вы получаете готовый концепт, который можно сразу реализовать!\n\n"
      + "🌟 Нажмите «Начать процесс», чтобы создать что-то уникальное прямо сейчас!\n"

  /** The keyboard of the main menu: start, help, and a link to the makers' channel. */
  function MainMenuKeyboard(): (k: Keyboard)
    ensures |k| == 3 && IsCallbackRow(k[0], "create_brand") && IsCallbackRow(k[1], "help")
    ensures |k[2]| == 1 && k[2][0].UrlButton? && k[2][0].url == "https://t.me/bot_and_cat"
  {
    [[CallbackButton("🆕 Начать процесс", "create_brand")],
     [CallbackButton("🎲 Что это и зачем", "help")],
     [UrlButton("🐾 Мастерская Бот и Кот", "https://t.me/bot_and_cat")]]
  }

  /** `show_main_menu`: the message it sends. */
  function MainMenu(): Message {
    Message(MainMenuText, Some(MainMenuKeyboard()))
  }

  /** `/start` and the `start` button: the session is cleared and the menu shown. */
  function Reset(s: Snapshot): Reaction {
    Reaction(Empty, [MainMenu()], [], Completed)
  }

  /** `create_brand`: the question is asked and the session waits for the thought; the data stays. */
  function EnterContext(s: Snapshot): Reaction {
    Reaction(Snapshot(Some(WaitingForContext), s.data),
             [Message(ContextQuestionText, Some(BackToMenuKeyboard))], [], Completed)
  }

  /** Resetting ends in the empty session, whatever the session was. */
  lemma ResetClears(s: Snapshot)
    ensures Reset(s).after == Empty && WellFormed(Reset(s).after)
    ensures Reset(s).sent == [MainMenu()] && Reset(s).outcome == Completed
  {
  }

  /** Entering the context question keeps the data and the dialogue invariant. */
  lemma EnterContextKeeps(s: Snapshot)
    requires WellFormed(s)
    ensures EnterContext(s).after.data == s.data && EnterContext(s).after.state == Some(WaitingForContext)
    ensures WellFormed(EnterContext(s).after)
    ensures |EnterContext(s).sent| == 1 && EnterContext(s).sent[0].keyboard == Some(BackToMenuKeyboard)
  {
  }

  /** `cmd_start`. */
  method CmdStart(session: Session) returns (sent: seq<Message>)
    modifies session
    ensures Reaction(session.Current(), sent, [], Completed) == Reset(old(session.Current()))
  {
    session.Clear();
    sent := [MainMenu()];
  }

  /** `cmd_start_from_callback` of the main menu. */
  method CmdStartFromCallback(session: Session) returns (sent: seq<Message>)
    modifies session
    ensures Reaction(session.Current(), sent, [], Completed) == Reset(old(session.Current()))
  {
    session.Clear();
    sent := [MainMenu()];
  }

  /** `start_brand_process`. */
  method StartBrandProcess(session: Session) returns (sent: seq<Message>)
    modifies session
    ensures Reaction(session.Current(), sent, [], Completed) == EnterContext(old(session.Current()))
  {
    sent := [Message(ContextQuestionText, Some(BackToMenuKeyboard))];
    session.SetState(Some(WaitingForContext));
  }

  /** `show_help`: the explanation with a single way back; it has no session to change. */
  function ShowHelp(): (m: Message)
    ensures m.keyboard == Some(BackToMenuKeyboard) && m.text == HelpText
  {
    Message(HelpText, Some(BackToMenuKeyboard))
  }

  /** Both the question and the help carry exactly one button, which leads to `start`. */
  lemma RepliesLeadBackToMenu()
    ensures |BackToMenuKeyboard| == 1 && IsCallbackRow(BackToMenuKeyboard[0], "start")
  {
  }
}

/**
 * The username keyboards and the escaping of text for Telegram's
 * MarkdownV2 parse mode. The escaping puts a backslash before every
 * character of one regular-expression class. In that class `+-=` is a
 * range from `+` to `=`, so besides the listed punctuation it also takes
 * `,`, `/`, the digits, `:`, `;` and `<`; the backslash itself is not in it.
 */
module NameGenerate {
  import opened Wrappers
  import opened Py
  import opened Markup
  import Config

  /** Membership in the class `[_*[\]()~`>#+-=|{}.!@-]`. */
  predicate IsMarkdownSpecial(c: char) {
    c in "_*[]()~`>#|{}!@" || '+' <= c <= '='
  }

  /** Every character the class matches, written out one by one. */
  const SpecialChars: string := "_*[]()~`>#|{}!@" + "+,-./0123456789:;<="

  /** The character range `+-=` spans the listed characters and no others. */
  lemma SpecialCharsAreTheClass(c: char)
    ensures IsMarkdownSpecial(c) <==> c in SpecialChars
  {
    var listed := "_*[]()~`>#|{}!@";
    var range := "+,-./0123456789:;<=";
    assert SpecialChars == listed + range;
    assert |range| == 19;
    if '+' <= c <= '=' {
      var k := c as int - '+' as int;
      assert 0 <= k < 19;
      assert range[k] == c;
    }
    if c in range {
      var k :| 0 <= k < |range| && range[k] == c;
      assert '+' <= range[k] <= '=';
    }
  }

  /** Digits and `,`, `/`, `:`, `;`, `<` are escaped; a backslash is not. */
  lemma RangeSideEffect()
    ensures forall c :: '0' <= c <= '9' ==> IsMarkdownSpecial(c)
    ensures IsMarkdownSpecial(',') && IsMarkdownSpecial('/') && IsMarkdownSpecial(':')
    ensures IsMarkdownSpecial(';') && IsMarkdownSpecial('<')
    ensures !IsMarkdownSpecial('\\')
  {
    assert '\\' !in "_*[]()~`>#|{}!@";
  }

  /** The characters the MarkdownV2 style of the Telegram Bot API reserves outside entities. */
  const MarkdownV2Reserved: string := "_*[]()~`>#+-=|{}.!"

  /** Every reserved character is in the class, so escaping covers all of them. */
  lemma ReservedCharsEscaped()
    ensures forall i :: 0 <= i < |MarkdownV2Reserved| ==> IsMarkdownSpecial(MarkdownV2Reserved[i])
  {
    forall i | 0 <= i < |MarkdownV2Reserved|
      ensures IsMarkdownSpecial(MarkdownV2Reserved[i])
    {
      var c := MarkdownV2Reserved[i];
      assert c in "_*[]()~`>#|{}!@" || '+' <= c <= '=';
    }
  }

  /** `re.sub(pattern, r'\\\1', text)`: a backslash before every class character. */
  function Escape(t: string): (r: string)
    ensures |r| == |t| + Count(t)
  {
    if t == "" then ""
    else (if IsMarkdownSpecial(t[0]) then ['\\', t[0]] else [t[0]]) + Escape(t[1..])
  }

  /** The number of class characters in `t`. */
  function Count(t: string): nat {
    if t == "" then 0 else (if IsMarkdownSpecial(t[0]) then 1 else 0) + Count(t[1..])
  }

  /** `escape_md`: `""` for `None` and for the empty string. */
  function EscapeMd(text: Option<string>): (r: string)
    ensures text == None || text == Some("") ==> r == ""
    ensures text.Some? ==> r == Escape(text.value)
  {
    if text == None || text == Some("") then "" else Escape(text.value)
  }

  /** Escaping works character by character: it distributes over concatenation. */
  lemma {:induction false} EscapeConcat(a: string, b: string)
    ensures Escape(a + b) == Escape(a) + Escape(b)
    decreases |a|
  {
    if a != "" {
      assert (a + b)[0] == a[0];
      assert (a + b)[1..] == a[1..] + b;
      EscapeConcat(a[1..], b);
    } else {
      assert a + b == b;
    }
  }

  /** Removes the backslash in front of every class character. */
  function Unescape(s: string): string
    decreases |s|
  {
    if s == "" then ""
    else if |s| >= 2 && s[0] == '\\' && IsMarkdownSpecial(s[1]) then [s[1]] + Unescape(s[2..])
    else [s[0]] + Unescape(s[1..])
  }

  /** For backslash-free text, dropping the escaping backslashes gives the text back. */
  lemma {:induction false} UnescapeEscape(t: string)
    requires '\\' !in t
    ensures Unescape(Escape(t)) == t
    decreases |t|
  {
    if t != "" {
      var head := if IsMarkdownSpecial(t[0]) then ['\\', t[0]] else [t[0]];
      assert Escape(t) == head + Escape(t[1..]);
      UnescapeEscape(t[1..]);
      if IsMarkdownSpecial(t[0]) {
        assert (head + Escape(t[1..]))[2..] == Escape(t[1..]);
      } else {
        assert (head + Escape(t[1..]))[1..] == Escape(t[1..]);
      }
      assert t == [t[0]] + t[1..];
    }
  }

  /** Every character other than a backslash is kept, and a backslash is added only before class characters. */
  lemma {:induction false} EscapeKeepsOthers(t: string, i: nat)
    requires i < |t| && !IsMarkdownSpecial(t[i])
    ensures Escape(t) == Escape(t[..i]) + [t[i]] + Escape(t[i + 1..])
  {
    assert t == t[..i] + ([t[i]] + t[i + 1..]);
    EscapeConcat(t[..i], [t[i]] + t[i + 1..]);
    assert ([t[i]] + t[i + 1..])[1..] == t[i + 1..];
  }

  /** `s.replace(c, r)` for one character and a replacement string. */
  function ReplaceChar(s: string, c: char, r: string): string {
    if s == "" then "" else (if s[0] == c then r else [s[0]]) + ReplaceChar(s[1..], c, r)
  }

  /** After `.replace('.', '\\.')` every dot has a backslash right before it. */
  lemma {:induction false} DotsEscaped(s: string)
    ensures forall i :: 0 <= i < |ReplaceChar(s, '.', "\\.")| && ReplaceChar(s, '.', "\\.")[i] == '.' ==>
      0 < i && ReplaceChar(s, '.', "\\.")[i - 1] == '\\'
    decreases |s|
  {
    if s != "" {
      DotsEscaped(s[1..]);
      var rest := ReplaceChar(s[1..], '.', "\\.");
      var head := if s[0] == '.' then "\\." else [s[0]];
      var o := head + rest;
      assert ReplaceChar(s, '.', "\\.") == o;
      forall i | 0 <= i < |o| && o[i] == '.' ensures 0 < i && o[i - 1] == '\\' {
        if i >= |head| {
          assert o[i] == rest[i - |head|];
          if i > |head| {
            assert o[i - 1] == rest[i - 1 - |head|];
          }
        }
      }
    }
  }

  /** The row of one username: `@u`, sending `choose_username:u` back. */
  function UsernameRow(username: string): seq<Button> {
    [CallbackButton("@" + username, "choose_username:" + username)]
  }

  /** The `[1.23 сек]` prefix of the message, its brackets and dots escaped. */
  function TimePrefix(durationText: string): string {
    "\\[" + ReplaceChar(durationText, '.', "\\.") + " сек\\] "
  }

  /** The message text of the username keyboard. */
  function UsernameText(context: string, durationText: string): string {
    "🎭 " + TimePrefix(durationText) + "Выберите одно из уникальных имён на тему *" + EscapeMd(Some(context)) + "*\n\n"
  }

  /**
   * `generate_username_kb`: one row per username, in order, then `repeat`,
   * then `start`. `durationText` is the duration already formatted with two
   * decimals; the style does not reach the text.
   */
  method GenerateUsernameKb(usernames: seq<string>, context: string, style: Option<string>, durationText: string)
    returns (text: string, keyboard: Keyboard)
    ensures text == UsernameText(context, durationText)
    ensures |keyboard| == |usernames| + 2
    ensures forall i :: 0 <= i < |usernames| ==> keyboard[i] == UsernameRow(usernames[i])
    ensures keyboard[|usernames|] == [CallbackButton("🔄 Еще 3 варианта", "repeat")]
    ensures keyboard[|usernames| + 1] == [CallbackButton("🔙 В меню", "start")]
  {
    var styleText := if style.Some? && style.value != "" then "в стиле *" + EscapeMd(style) + "*" else "";
    var durationEscaped := ReplaceChar(durationText, '.', "\\.");
    var timePrefix := "\\[" + durationEscaped + " сек\\] ";
    text := "🎭 " + timePrefix + "Выберите одно из уникальных имён на тему *" + EscapeMd(Some(context)) + "*\n\n";
    var buttons := seq(|usernames|, i requires 0 <= i < |usernames| => UsernameRow(usernames[i]));
    buttons := buttons + [[CallbackButton("🔄 Еще 3 варианта", "repeat")]];
    buttons := buttons + [[CallbackButton("🔙 В меню", "start")]];
    keyboard := buttons;
  }

  /** The text embeds the escaped context. */
  lemma UsernameTextEmbedsContext(context: string, durationText: string)
    ensures Contains(UsernameText(context, durationText), EscapeMd(Some(context)))
  {
    var front := "🎭 " + TimePrefix(durationText) + "Выберите одно из уникальных имён на тему *";
    ContainsMiddle(front, EscapeMd(Some(context)), "*\n\n");
  }

  /** `initial_styles_kb`: start at once, or pick a style first. */
  function InitialStylesKb(): (k: Keyboard)
    ensures |k| == 2 && IsCallbackRow(k[0], "no_style") && IsCallbackRow(k[1], "choose_style")
  {
    [[CallbackButton("🎲 Приступить", "no_style")],
     [CallbackButton("🎭 Выбрать стиль", "choose_style")]]
  }

  /** `styles_kb`: the five styles, then the way back. */
  function StylesKb(): (k: Keyboard)
    ensures |k| == 6 && forall i :: 0 <= i < 6 ==> |k[i]| == 1 && k[i][0].CallbackButton?
    ensures IsCallbackRow(k[5], "back_to_main_style_menu")
  {
    [[CallbackButton("🔥 Эпичный", "epic")],
     [CallbackButton("🎩 Строгий", "strict")],
     [CallbackButton("🎨 Фанковый", "funky")],
     [CallbackButton("⚪ Минималистичный", "minimal")],
     [CallbackButton("🤡 Кринжовый", "cringe")],
     [CallbackButton("🔙 Назад", "back_to_main_style_menu")]]
  }

  /** The five style names of the configuration. */
  const StyleNames: set<string> := {"epic", "strict", "funky", "minimal", "cringe"}

  /** Both style tables of the configuration have exactly the five style names as keys. */
  lemma ConfigStyles()
    ensures Config.StyleDescriptions.Keys == StyleNames
    ensures Config.StyleTranslations.Keys == StyleNames
  {
  }

  /** The five style callbacks are exactly the styles the configuration describes and translates; the sixth is none. */
  lemma StyleCallbacksAreConfigStyles()
    ensures (set i: int | 0 <= i < 5 :: StylesKb()[i][0].callbackData) == Config.StyleDescriptions.Keys
    ensures StylesKb()[5][0].callbackData !in Config.StyleTranslations
  {
    var k: Keyboard := StylesKb();
    var s := set i: int | 0 <= i < 5 :: k[i][0].callbackData;
    assert k[0][0].callbackData == "epic";
    assert k[1][0].callbackData == "strict";
    assert k[2][0].callbackData == "funky";
    assert k[3][0].callbackData == "minimal";
    assert k[4][0].callbackData == "cringe";
    assert s == StyleNames;
    ConfigStyles();
  }
}

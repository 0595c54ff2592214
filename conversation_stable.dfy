/**
 * The earlier reply parser of the four-stage conversation script. The
 * comment comes from the last line whose lowercase form starts with
 * `ответ ai:`; every line that starts with a digit and holds a `.` anywhere
 * gives an option, the stripped text after its first `.`, which may be
 * empty. Nothing is substituted, and no line makes the parser raise.
 */
module ConversationStable {
  import opened Wrappers
  import opened Py
  import opened Reply

  const AnswerLabel: string := "ответ ai" + ":"

  /** `line[0].isdigit() and '.' in line`, on a non-empty line. */
  predicate IsOptionLine(line: string) {
    line != "" && IsDigit(line[0]) && '.' in line
  }

  /** What one stripped line adds to `options`: the text after its first `.`, empty or not. */
  function LineOption(line: string): Option<string> {
    if IsOptionLine(line) then Some(Strip(AfterFirst(line, '.'))) else None
  }

  /** The options of all lines, in line order. */
  function Options(lines: seq<string>): seq<string> {
    if lines == [] then []
    else Appended(Options(lines[..|lines| - 1]), LineOption(lines[|lines| - 1]))
  }

  /** What `parse_ai_response` returns; it is defined on every string. */
  function Parse(response: string): Parsed {
    var lines := StrippedLines(response);
    Parsed(LastLabelled(AnswerLabel, lines), Options(lines))
  }

  /** The answer label's only colon is its last character. */
  lemma AnswerLabelHasOneColon()
    ensures IsColonLabel(AnswerLabel)
  {
    assert AnswerLabel[..|AnswerLabel| - 1] == "ответ ai";
  }

  /** An answer line starts with a letter, so the `elif` never takes it as an option. */
  lemma AnswerLineIsNoOption(line: string)
    requires IsLabelLine(AnswerLabel, line)
    ensures !IsOptionLine(line) && LineOption(line) == None
  {
    LabelLineStart(AnswerLabel, line);
  }

  /**
   * The body of the loop on one stripped line: the answer it sets and the
   * option it appends.
   */
  method ReadLine(line: string) returns (answer: Option<string>, option: Option<string>)
    ensures answer == if IsLabelLine(AnswerLabel, line) then Some(LabelText(AnswerLabel, line)) else None
    ensures option == LineOption(line)
  {
    answer, option := None, None;
    if line == "" {
      return;
    }
    if IsLabelLine(AnswerLabel, line) {
      AnswerLineIsNoOption(line);
      AnswerLabelHasOneColon();
      LabelTextAfterColon(AnswerLabel, line);
      answer := Some(Strip(AfterFirst(line, ':')));
    } else if IsDigit(line[0]) && '.' in line {
      option := Some(Strip(AfterFirst(line, '.')));
    }
  }

  /** `parse_ai_response`: the script's loop over the reply lines. */
  method ParseAiResponse(response: string) returns (r: Parsed)
    ensures r == Parse(response)
  {
    var lines := Lines(response);
    ghost var stripped := StrippedLines(response);
    var answer := "";
    var options: seq<string> := [];
    for i := 0 to |lines|
      invariant answer == LastLabelled(AnswerLabel, stripped[..i])
      invariant options == Options(stripped[..i])
    {
      var line := Strip(lines[i]);
      assert line == stripped[i];
      NextLineLabel(AnswerLabel, stripped, i);
      NextLineOptions(stripped, i);
      var a, o := ReadLine(line);
      if a.Some? {
        answer := a.value;
      }
      if o.Some? {
        options := options + [o.value];
      }
    }
    assert stripped[..|lines|] == stripped;
    return Parsed(answer, options);
  }

  /**
   * One more line appends its option, if any. This and `OptionsAfterHeader`
   * have the shape of the lemmas of the same names in `BrandAskAi`, restated
   * for this parser's own line reader.
   */
  lemma NextLineOptions(lines: seq<string>, i: nat)
    requires i < |lines|
    ensures Options(lines[..i + 1]) == Appended(Options(lines[..i]), LineOption(lines[i]))
  {
    var p := lines[..i + 1];
    assert p[..i] == lines[..i];
    assert p[i] == lines[i];
  }

  /** An empty or whitespace-only reply parses to an empty answer and no options. */
  lemma BlankReply(response: string)
    requires Strip(response) == ""
    ensures Parse(response) == Parsed("", [])
  {
    var pieces := Split(Strip(response), '\n');
    JoinOfSplit(Strip(response), '\n');
    assert pieces == [""];
    StripNoop("");
    var lines := StrippedLines(response);
    assert lines == [""];
    assert lines[..0] == [];
    assert !IsLabelLine(AnswerLabel, "") && LineOption("") == None;
    assert LastLabelled(AnswerLabel, lines) == "";
    assert Options(lines) == [];
  }

  /** `answer` is the stripped text after the first `:` of the last answer line, or "". */
  lemma AnswerOfReply(response: string)
    ensures var lines := StrippedLines(response);
      (forall i :: 0 <= i < |lines| ==> !IsLabelLine(AnswerLabel, lines[i])) ==> Parse(response).answer == ""
    ensures var lines := StrippedLines(response);
      forall i :: 0 <= i < |lines| && IsLabelLine(AnswerLabel, lines[i]) && (forall j :: i < j < |lines| ==> !IsLabelLine(AnswerLabel, lines[j]))
        ==> Parse(response).answer == LabelText(AnswerLabel, lines[i])
  {
    var lines := StrippedLines(response);
    if forall i :: 0 <= i < |lines| ==> !IsLabelLine(AnswerLabel, lines[i]) {
      NoLabelledLine(AnswerLabel, lines);
    }
    forall i | 0 <= i < |lines| && IsLabelLine(AnswerLabel, lines[i]) && (forall j :: i < j < |lines| ==> !IsLabelLine(AnswerLabel, lines[j]))
      ensures Parse(response).answer == LabelText(AnswerLabel, lines[i])
    {
      LastLabelledWins(AnswerLabel, lines, i);
    }
  }

  /** Multi-digit ordinals are accepted: `10. x` yields `x`. */
  lemma MultiDigitOrdinal()
    ensures LineOption("10. x") == Some("x")
  {
    var line := "10. x";
    assert line[0] != '.' && line[1] != '.' && line[2] == '.';
    assert IndexOf(line, '.') == 2;
    assert AfterFirst(line, '.') == " x";
    StripLeadingSpace("x");
    StripNoop("x");
  }

  /** An empty remainder is kept: `3.` yields an empty option. */
  lemma EmptyOptionIsKept()
    ensures LineOption("3.") == Some("")
  {
    assert IndexOf("3.", '.') == 1;
    assert AfterFirst("3.", '.') == "";
    StripNoop("");
  }

  /** The lines that qualify as option lines, in order. */
  function OptionLines(lines: seq<string>): (q: seq<string>)
    ensures forall i :: 0 <= i < |q| ==> IsOptionLine(q[i])
  {
    if lines == [] then []
    else
      var init := OptionLines(lines[..|lines| - 1]);
      if IsOptionLine(lines[|lines| - 1]) then init + [lines[|lines| - 1]] else init
  }

  /**
   * Options keep source order and there is one per qualifying line: the k-th
   * option is the text of the k-th option line.
   */
  lemma {:induction false} OptionsOfOptionLines(lines: seq<string>)
    ensures |Options(lines)| == |OptionLines(lines)|
    ensures forall k :: 0 <= k < |Options(lines)| ==>
      Options(lines)[k] == Strip(AfterFirst(OptionLines(lines)[k], '.'))
    decreases |lines|
  {
    if lines != [] {
      OptionsOfOptionLines(lines[..|lines| - 1]);
    }
  }

  /** The answer line of a reply in the requested shape. */
  function AnswerLine(answer: string): string {
    "Ответ AI: " + answer
  }

  /** The option line with ordinal `n`, which may have several digits. */
  function OptionLine(n: nat, option: string): string {
    NatToString(n) + ". " + option
  }

  /** The lines of a reply in the requested shape: the answer, then `1. ...`, `2. ...` and on. */
  function RenderedLines(answer: string, options: seq<string>): (ls: seq<string>)
    ensures |ls| == |options| + 1
  {
    [AnswerLine(answer)] + seq(|options|, i requires 0 <= i < |options| => OptionLine(i + 1, options[i]))
  }

  /** A reply in the requested shape. */
  function Render(answer: string, options: seq<string>): string {
    Join(RenderedLines(answer, options), '\n')
  }

  lemma AnswerLabelLowered()
    ensures Lower("Ответ AI:") == AnswerLabel
  {
    var s := "Ответ AI:";
    assert Lower(s)[0] == 'о';
  }

  /** The rendered answer line is a well-formed answer line with the rendered answer. */
  lemma RenderedAnswerLine(answer: string)
    requires IsReplyText(answer)
    ensures var line := AnswerLine(answer);
      IsReplyText(line) && IsLabelLine(AnswerLabel, line) && LabelText(AnswerLabel, line) == answer
  {
    var line := AnswerLine(answer);
    StripNoop(line);
    AnswerLabelLowered();
    assert Lower(line)[..|AnswerLabel|] == Lower("Ответ AI:");
    assert line[|AnswerLabel|..] == " " + answer;
    StripLeadingSpace(answer);
  }

  /** A rendered option line is well-formed and no answer line. */
  lemma OptionLineIsClean(n: nat, option: string)
    requires IsReplyText(option)
    ensures var line := OptionLine(n, option);
      IsReplyText(line) && !IsLabelLine(AnswerLabel, line)
  {
    var line := OptionLine(n, option);
    assert line[0] == NatToString(n)[0];
    StripNoop(line);
    if IsLabelLine(AnswerLabel, line) {
      AnswerLineIsNoOption(line);
    }
  }

  /** A rendered option line yields exactly its option. */
  lemma RenderedOptionLine(n: nat, option: string)
    requires IsReplyText(option)
    ensures LineOption(OptionLine(n, option)) == Some(option)
  {
    var line := OptionLine(n, option);
    var digits := NatToString(n);
    assert line[0] == digits[0];
    assert '.' !in digits;
    assert line == digits + (". " + option);
    IndexOfAfter(digits, ". " + option, '.');
    assert AfterFirst(line, '.') == " " + option;
    StripLeadingSpace(option);
  }

  /** A reply in the requested shape has well-formed lines. */
  predicate RenderArgs(answer: string, options: seq<string>) {
    IsReplyText(answer) && forall i :: 0 <= i < |options| ==> IsReplyText(options[i])
  }

  /** A first line without options followed by lines that yield one option each. */
  lemma {:induction false} OptionsAfterHeader(ls: seq<string>, outs: seq<string>)
    requires |ls| == |outs| + 1 && LineOption(ls[0]) == None
    requires forall i {:trigger LineOption(ls[i])} :: 0 < i < |ls| ==> LineOption(ls[i]) == Some(outs[i - 1])
    ensures Options(ls) == outs
    decreases |outs|
  {
    var init := ls[..|ls| - 1];
    if outs == [] {
      assert init == [];
    } else {
      var prev := outs[..|outs| - 1];
      forall i | 0 < i < |init| ensures LineOption(init[i]) == Some(prev[i - 1]) {
        assert init[i] == ls[i];
      }
      OptionsAfterHeader(init, prev);
      assert LineOption(ls[|ls| - 1]) == Some(outs[|outs| - 1]);
      assert outs == prev + [outs[|outs| - 1]];
    }
  }

  /** Only the first rendered line is an answer line; each other one yields its option. */
  lemma RenderedLineKinds(answer: string, options: seq<string>)
    requires RenderArgs(answer, options)
    ensures var ls := RenderedLines(answer, options);
      IsReplyText(ls[0]) && IsLabelLine(AnswerLabel, ls[0]) && LabelText(AnswerLabel, ls[0]) == answer
      && LineOption(ls[0]) == None
      && forall i :: 0 < i < |ls| ==>
        IsReplyText(ls[i]) && !IsLabelLine(AnswerLabel, ls[i]) && LineOption(ls[i]) == Some(options[i - 1])
  {
    var ls := RenderedLines(answer, options);
    RenderedAnswerLine(answer);
    AnswerLineIsNoOption(ls[0]);
    forall i | 0 < i < |ls|
      ensures IsReplyText(ls[i]) && !IsLabelLine(AnswerLabel, ls[i]) && LineOption(ls[i]) == Some(options[i - 1])
    {
      RenderedLineAt(answer, options, i);
    }
  }

  lemma RenderedLineAt(answer: string, options: seq<string>, i: nat)
    requires RenderArgs(answer, options) && 0 < i <= |options|
    ensures var line := RenderedLines(answer, options)[i];
      IsReplyText(line) && !IsLabelLine(AnswerLabel, line) && LineOption(line) == Some(options[i - 1])
  {
    assert RenderedLines(answer, options)[i] == OptionLine(i, options[i - 1]);
    OptionLineIsClean(i, options[i - 1]);
    RenderedOptionLine(i, options[i - 1]);
  }

  /** The rendered lines carry the answer and the options. */
  lemma ParseRenderedLines(answer: string, options: seq<string>)
    requires RenderArgs(answer, options)
    ensures var ls := RenderedLines(answer, options);
      (forall i :: 0 <= i < |ls| ==> IsReplyText(ls[i]))
      && LastLabelled(AnswerLabel, ls) == answer && Options(ls) == options
  {
    var ls := RenderedLines(answer, options);
    RenderedLineKinds(answer, options);
    LastLabelledWins(AnswerLabel, ls, 0);
    OptionsAfterHeader(ls, options);
  }

  /** Round trip: a reply rendered from an answer and any number of options parses back to them. */
  lemma ParseOfRendered(answer: string, options: seq<string>)
    requires RenderArgs(answer, options)
    ensures Parse(Render(answer, options)) == Parsed(answer, options)
  {
    ParseRenderedLines(answer, options);
    StrippedLinesOfJoin(RenderedLines(answer, options));
  }

  /**
   * One stage of the script: the reply is parsed and, when there are options,
   * one of them becomes the stage's choice (`random.choice`); otherwise the
   * choice keeps the value it had.
   */
  method Stage(reply: string, previous: Option<string>) returns (parsed: Parsed, choice: Option<string>)
    ensures parsed == Parse(reply)
    ensures parsed.options != [] ==> choice.Some? && choice.value in parsed.options
    ensures parsed.options == [] ==> choice == previous
  {
    parsed := ParseAiResponse(reply);
    if parsed.options != [] {
      assert parsed.options[0] in parsed.options;
      var picked :| picked in parsed.options;
      choice := Some(picked);
    } else {
      choice := previous;
    }
  }
}

/**
 * The reply parser the handlers use (`parse_ai_response` of the AI service).
 * It reads a raw LLM reply line by line: a line whose lowercase form starts
 * with `комментарий:` gives the comment (`answer`), a line `N.` with N one
 * digit gives an option, and fixed placeholder texts stand in for a missing
 * comment or an empty option list. A stripped line that is a single digit
 * makes `line[1]` raise `IndexError`.
 *
 * The specification is written over the stripped reply lines, from the last
 * line backwards; the method is the forward loop of the source proved equal
 * to it.
 */
module BrandAskAi {
  import opened Wrappers
  import opened Py
  import opened Reply

  const CommentLabel: string := "комментарий" + ":"
  const AnswerPlaceholder: string := "Комментарий не найден. Проверьте ответ AI."
  const OptionsPlaceholder: string := "Ошибка" + " в генерации вариантов. Попробуйте снова."

  /** `line[0].isdigit() and line[1] == '.'`, on a line with two characters or more. */
  predicate IsOptionLine(line: string) {
    |line| >= 2 && IsDigit(line[0]) && line[1] == '.'
  }

  /** A stripped line on which `line[1]` raises: a single digit. */
  predicate RaisesIndexError(line: string) {
    |line| == 1 && IsDigit(line[0])
  }

  /** The option an option line carries: the stripped text after `N.`. */
  function OptionText(line: string): string
    requires IsOptionLine(line)
  {
    Strip(line[2..])
  }

  /** The ordinal's dot is the first one: `line.split('.', 1)[1].strip()` is the option text. */
  lemma OptionTextAfterDot(line: string)
    requires IsOptionLine(line)
    ensures '.' in line && Strip(AfterFirst(line, '.')) == OptionText(line)
  {
    assert line[0] != '.';
  }

  /**
   * What one stripped line adds to `options`: nothing, or its non-empty option
   * text. The source tests for a comment line first; a comment line never
   * starts with a digit (`CommentLineIsNoOption`), so that test is left out here.
   */
  function LineOption(line: string): Option<string> {
    if IsOptionLine(line) && OptionText(line) != "" then Some(OptionText(line)) else None
  }

  /** The options of all lines, in line order. */
  function Options(lines: seq<string>): seq<string> {
    if lines == [] then []
    else Appended(Options(lines[..|lines| - 1]), LineOption(lines[|lines| - 1]))
  }

  /** Some line makes the parser raise. */
  predicate Raises(lines: seq<string>) {
    exists i :: 0 <= i < |lines| && RaisesIndexError(lines[i])
  }

  /** What `parse_ai_response` returns, or the exception it raises. */
  function Parse(response: string): (r: Result<Parsed, PyError>)
    ensures response == "" ==> r == Success(Parsed("", []))
    ensures r.Failure? ==> r.error == IndexError
  {
    if response == "" then Success(Parsed("", []))
    else
      var lines := StrippedLines(response);
      if Raises(lines) then Failure(IndexError)
      else
        var answer := LastLabelled(CommentLabel, lines);
        var options := Options(lines);
        Success(Parsed(if answer == "" then AnswerPlaceholder else answer,
                       if options == [] then [OptionsPlaceholder] else options))
  }

  /** The parser raises exactly when the reply is non-empty and some stripped line is a single digit. */
  lemma ParseFailure(response: string)
    ensures Parse(response).Failure? <==>
      response != "" && exists i :: 0 <= i < |Lines(response)| && |Strip(Lines(response)[i])| == 1 && IsDigit(Strip(Lines(response)[i])[0])
  {
    var lines := StrippedLines(response);
    if response != "" && exists i :: 0 <= i < |Lines(response)| && |Strip(Lines(response)[i])| == 1 && IsDigit(Strip(Lines(response)[i])[0]) {
      var i :| 0 <= i < |Lines(response)| && |Strip(Lines(response)[i])| == 1 && IsDigit(Strip(Lines(response)[i])[0]);
      assert RaisesIndexError(lines[i]);
    }
  }

  /**
   * A non-empty reply that parses (a whitespace-only one too) has a non-empty
   * answer and at least one option, and every option is non-empty and stripped.
   */
  lemma ParseSuccess(response: string)
    requires Parse(response).Success?
    ensures response != "" ==> Parse(response).value.answer != "" && Parse(response).value.options != []
    ensures forall i :: 0 <= i < |Parse(response).value.options| ==>
      Parse(response).value.options[i] != "" && Strip(Parse(response).value.options[i]) == Parse(response).value.options[i]
  {
    if response != "" {
      OptionsAreClean(StrippedLines(response));
      PlaceholderIsClean();
    }
  }

  lemma PlaceholderIsClean()
    ensures OptionsPlaceholder != "" && Strip(OptionsPlaceholder) == OptionsPlaceholder
  {
    assert OptionsPlaceholder[0] == 'О';
    assert OptionsPlaceholder[|OptionsPlaceholder| - 1] == '.';
    StripNoop(OptionsPlaceholder);
  }

  /** The comment label's only colon is its last character. */
  lemma CommentLabelHasOneColon()
    ensures IsColonLabel(CommentLabel)
  {
    assert CommentLabel[..|CommentLabel| - 1] == "комментарий";
  }

  /**
   * The body of the loop of `parse_ai_response` on one stripped line: the
   * comment it sets, the option it appends and whether `line[1]` raises.
   */
  method ReadLine(line: string) returns (comment: Option<string>, option: Option<string>, raises: bool)
    ensures raises == RaisesIndexError(line)
    ensures comment == if IsLabelLine(CommentLabel, line) then Some(LabelText(CommentLabel, line)) else None
    ensures !raises ==> option == LineOption(line)
  {
    comment, option, raises := None, None, false;
    if line == "" {
      return;
    }
    if IsLabelLine(CommentLabel, line) {
      CommentLineIsNoOption(line);
      CommentLabelHasOneColon();
      LabelTextAfterColon(CommentLabel, line);
      comment := Some(Strip(AfterFirst(line, ':')));
    } else if IsDigit(line[0]) {
      if |line| < 2 {
        raises := true;
        return;
      }
      if line[1] == '.' {
        OptionTextAfterDot(line);
        var text := Strip(AfterFirst(line, '.'));
        if text != "" {
          option := Some(text);
        }
      }
    }
  }

  /** `parse_ai_response`: the source's loop over the reply lines. */
  method ParseAiResponse(response: string) returns (r: Result<Parsed, PyError>)
    ensures r == Parse(response)
  {
    if response == "" {
      return Success(Parsed("", []));
    }
    var lines := Lines(response);
    ghost var stripped := StrippedLines(response);
    var answer := "";
    var options: seq<string> := [];
    for i := 0 to |lines|
      invariant answer == LastLabelled(CommentLabel, stripped[..i])
      invariant options == Options(stripped[..i])
      invariant !Raises(stripped[..i])
    {
      var line := Strip(lines[i]);
      assert line == stripped[i];
      NextLineLabel(CommentLabel, stripped, i);
      NextLineOptions(stripped, i);
      NextLineRaises(stripped, i);
      var comment, option, raises := ReadLine(line);
      if raises {
        return Failure(IndexError);
      }
      if comment.Some? {
        answer := comment.value;
      }
      if option.Some? {
        options := options + [option.value];
      }
    }
    assert stripped[..|lines|] == stripped;
    if answer == "" {
      answer := AnswerPlaceholder;
    }
    if options == [] {
      options := [OptionsPlaceholder];
    }
    return Success(Parsed(answer, options));
  }

  /** One more line appends its option, if any. */
  lemma NextLineOptions(lines: seq<string>, i: nat)
    requires i < |lines|
    ensures Options(lines[..i + 1]) == Appended(Options(lines[..i]), LineOption(lines[i]))
  {
    var p := lines[..i + 1];
    assert p[..i] == lines[..i];
    assert p[i] == lines[i];
  }

  /** One more line raises when it, or an earlier one, is a single digit. */
  lemma NextLineRaises(lines: seq<string>, i: nat)
    requires i < |lines|
    ensures Raises(lines[..i + 1]) <==> Raises(lines[..i]) || RaisesIndexError(lines[i])
  {
    var p := lines[..i + 1];
    if Raises(p) {
      var j :| 0 <= j < |p| && RaisesIndexError(p[j]);
      if j < i {
        assert lines[..i][j] == p[j];
      }
    }
    if Raises(lines[..i]) {
      var j :| 0 <= j < i && RaisesIndexError(lines[..i][j]);
      assert p[j] == lines[..i][j];
    }
    if RaisesIndexError(lines[i]) {
      assert p[i] == lines[i];
    }
  }

  /** Every option the lines yield is non-empty and stripped. */
  lemma {:induction false} OptionsAreClean(lines: seq<string>)
    ensures forall i :: 0 <= i < |Options(lines)| ==> Options(lines)[i] != "" && Strip(Options(lines)[i]) == Options(lines)[i]
    decreases |lines|
  {
    if lines != [] {
      OptionsAreClean(lines[..|lines| - 1]);
      var line := lines[|lines| - 1];
      if IsOptionLine(line) && OptionText(line) != "" {
        StripNoop(OptionText(line));
      }
    }
  }

  /** The options of two blocks of lines are the options of each, in order. */
  lemma {:induction false} OptionsConcat(a: seq<string>, b: seq<string>)
    ensures Options(a + b) == Options(a) + Options(b)
    decreases |b|
  {
    if b == [] {
      assert a + b == a;
    } else {
      assert (a + b)[..|a + b| - 1] == a + b[..|b| - 1];
      assert (a + b)[|a + b| - 1] == b[|b| - 1];
      OptionsConcat(a, b[..|b| - 1]);
      var o := LineOption(b[|b| - 1]);
      if o.Some? {
        assert Options(a) + Options(b[..|b| - 1]) + [o.value] == Options(a) + (Options(b[..|b| - 1]) + [o.value]);
      }
    }
  }

  /**
   * `answer` is the stripped text after the first `:` of the last comment line,
   * and the placeholder when that text is empty or there is no comment line.
   */
  lemma AnswerOfReply(response: string)
    requires Parse(response).Success? && response != ""
    ensures var lines := StrippedLines(response);
      (forall i :: 0 <= i < |lines| ==> !IsLabelLine(CommentLabel, lines[i])) ==> Parse(response).value.answer == AnswerPlaceholder
    ensures var lines := StrippedLines(response);
      forall i :: 0 <= i < |lines| && IsLabelLine(CommentLabel, lines[i]) && (forall j :: i < j < |lines| ==> !IsLabelLine(CommentLabel, lines[j]))
        ==> Parse(response).value.answer
            == if LabelText(CommentLabel, lines[i]) == "" then AnswerPlaceholder else LabelText(CommentLabel, lines[i])
  {
    var lines := StrippedLines(response);
    if forall i :: 0 <= i < |lines| ==> !IsLabelLine(CommentLabel, lines[i]) {
      NoLabelledLine(CommentLabel, lines);
    }
    forall i | 0 <= i < |lines| && IsLabelLine(CommentLabel, lines[i]) && (forall j :: i < j < |lines| ==> !IsLabelLine(CommentLabel, lines[j]))
      ensures Parse(response).value.answer
              == if LabelText(CommentLabel, lines[i]) == "" then AnswerPlaceholder else LabelText(CommentLabel, lines[i])
    {
      LastLabelledWins(CommentLabel, lines, i);
    }
  }

  /** A comment line starts with a letter, so it is never an option line and never raises. */
  lemma CommentLineIsNoOption(line: string)
    requires IsLabelLine(CommentLabel, line)
    ensures !IsOptionLine(line) && !RaisesIndexError(line) && LineOption(line) == None
  {
    LabelLineStart(CommentLabel, line);
  }

  /** `10. x` is no option: only single-digit ordinals are. */
  lemma MultiDigitOrdinalIsNoOption()
    ensures LineOption("10. x") == None
  {
    assert !IsOptionLine("10. x");
  }

  /** An empty remainder, as in `3.`, is dropped. */
  lemma EmptyOptionIsDropped()
    ensures IsOptionLine("3.") && LineOption("3.") == None
  {
    assert "3."[2..] == "";
  }

  /** The comment line of a reply in the requested shape. */
  function CommentLine(comment: string): string {
    "Комментарий: " + comment
  }

  /** The `d`-th option line of a reply in the requested shape. */
  function OptionLine(d: nat, option: string): string
    requires 1 <= d <= 9
  {
    [DigitChar(d)] + ". " + option
  }

  /** The lines of a reply in the shape the stage prompts ask for. */
  function RenderedLines(comment: string, options: seq<string>): (ls: seq<string>)
    requires |options| <= 9
    ensures |ls| == |options| + 1
  {
    [CommentLine(comment)]
      + seq(|options|, i requires 0 <= i < |options| => OptionLine(i + 1, options[i]))
  }

  /** A reply in the shape the stage prompts ask for: the comment line, then `1. ...` to `9. ...`. */
  function Render(comment: string, options: seq<string>): string
    requires |options| <= 9
  {
    Join(RenderedLines(comment, options), '\n')
  }

  lemma CommentLabelLowered()
    ensures Lower("Комментарий:") == CommentLabel
  {
    var s := "Комментарий:";
    assert Lower(s)[0] == 'к';
  }

  /** The rendered comment line is a well-formed comment line with the rendered comment. */
  lemma RenderedCommentLine(comment: string)
    requires IsReplyText(comment)
    ensures var line := CommentLine(comment);
      IsReplyText(line) && IsLabelLine(CommentLabel, line) && LabelText(CommentLabel, line) == comment
  {
    var line := CommentLine(comment);
    StripNoop(line);
    CommentLabelLowered();
    assert Lower(line)[..|CommentLabel|] == Lower("Комментарий:");
    assert line[|CommentLabel|..] == " " + comment;
    StripLeadingSpace(comment);
  }

  /** A rendered option line is well-formed. */
  lemma OptionLineIsClean(d: nat, option: string)
    requires 1 <= d <= 9 && IsReplyText(option)
    ensures IsReplyText(OptionLine(d, option))
  {
    var line := OptionLine(d, option);
    StripNoop(line);
  }

  /** A rendered option line yields exactly its option. */
  lemma RenderedOptionLine(d: nat, option: string)
    requires 1 <= d <= 9 && IsReplyText(option)
    ensures var line := OptionLine(d, option);
      !IsLabelLine(CommentLabel, line) && !RaisesIndexError(line) && LineOption(line) == Some(option)
  {
    var line := OptionLine(d, option);
    if IsLabelLine(CommentLabel, line) {
      CommentLineIsNoOption(line);
    }
    assert IsOptionLine(line);
    assert line[2..] == " " + option;
    StripLeadingSpace(option);
  }

  /** A reply in the requested shape has well-formed lines. */
  predicate RenderArgs(comment: string, options: seq<string>) {
    IsReplyText(comment) && |options| <= 9 && forall i :: 0 <= i < |options| ==> IsReplyText(options[i])
  }

  /** The rendered reply is read back as its lines. */
  lemma LinesOfRender(comment: string, options: seq<string>)
    requires RenderArgs(comment, options)
    ensures Render(comment, options) != "" && StrippedLines(Render(comment, options)) == RenderedLines(comment, options)
  {
    var ls := RenderedLines(comment, options);
    RenderedCommentLine(comment);
    forall i | 0 < i < |ls| ensures IsReplyText(ls[i]) {
      OptionLineIsClean(i, options[i - 1]);
    }
    StrippedLinesOfJoin(ls);
  }

  /** No rendered line is a single digit, and only the first is a comment line. */
  lemma RenderedLineKinds(comment: string, options: seq<string>)
    requires RenderArgs(comment, options)
    ensures var ls := RenderedLines(comment, options);
      IsLabelLine(CommentLabel, ls[0]) && LabelText(CommentLabel, ls[0]) == comment
      && !RaisesIndexError(ls[0]) && LineOption(ls[0]) == None
      && forall i :: 0 < i < |ls| ==>
        !IsLabelLine(CommentLabel, ls[i]) && !RaisesIndexError(ls[i]) && LineOption(ls[i]) == Some(options[i - 1])
  {
    var ls := RenderedLines(comment, options);
    RenderedCommentLine(comment);
    CommentLineIsNoOption(ls[0]);
    forall i | 0 < i < |ls|
      ensures !IsLabelLine(CommentLabel, ls[i]) && !RaisesIndexError(ls[i]) && LineOption(ls[i]) == Some(options[i - 1])
    {
      RenderedOptionLine(i, options[i - 1]);
    }
  }

  /** A first line without options followed by lines that yield one option each. */
  lemma {:induction false} OptionsAfterHeader(ls: seq<string>, outs: seq<string>)
    requires |ls| == |outs| + 1 && LineOption(ls[0]) == None
    requires forall i {:trigger LineOption(ls[i])} :: 0 < i < |ls| ==> LineOption(ls[i]) == Some(outs[i - 1])
    ensures Options(ls) == outs
    decreases |outs|
  {
    var init := ls[..|ls| - 1];
    if outs == [] {
      assert init == [];
    } else {
      var prev := outs[..|outs| - 1];
      forall i | 0 < i < |init| ensures LineOption(init[i]) == Some(prev[i - 1]) {
        assert init[i] == ls[i];
      }
      OptionsAfterHeader(init, prev);
      assert LineOption(ls[|ls| - 1]) == Some(outs[|outs| - 1]);
      assert outs == prev + [outs[|outs| - 1]];
    }
  }

  /** The rendered lines carry the comment and the options and raise nothing. */
  lemma ParseRenderedLines(comment: string, options: seq<string>)
    requires RenderArgs(comment, options)
    ensures var ls := RenderedLines(comment, options);
      !Raises(ls) && LastLabelled(CommentLabel, ls) == comment && Options(ls) == options
  {
    var ls := RenderedLines(comment, options);
    RenderedLineKinds(comment, options);
    LastLabelledWins(CommentLabel, ls, 0);
    OptionsAfterHeader(ls, options);
  }

  /**
   * Round trip: a reply rendered from a comment and up to nine options parses
   * back to that comment and those options (the placeholder when there are none).
   */
  lemma ParseOfRendered(comment: string, options: seq<string>)
    requires RenderArgs(comment, options)
    ensures Parse(Render(comment, options))
      == Success(Parsed(comment, if options == [] then [OptionsPlaceholder] else options))
  {
    LinesOfRender(comment, options);
    ParseRenderedLines(comment, options);
  }
}

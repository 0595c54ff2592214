/**
 * What the two reply parsers share: the lines of an LLM reply, the search for
 * the last line that starts with a label such as `комментарий:`, and the
 * shape of the parsed result (`answer` and `options`).
 */
module Reply {
  import opened Wrappers
  import opened Py

  /** The `parsed_data` dictionary: `answer` and `options`. */
  datatype Parsed = Parsed(answer: string, options: seq<string>)

  /** `response.strip().split('\n')`. */
  function Lines(response: string): seq<string> {
    Split(Strip(response), '\n')
  }

  /** Each line of the reply, stripped: the `line.strip()` at the top of the loop. */
  function StrippedLines(response: string): (ls: seq<string>)
    ensures |ls| == |Lines(response)|
  {
    var lines := Lines(response);
    seq(|lines|, i requires 0 <= i < |lines| => Strip(lines[i]))
  }

  /** A label whose only `:` is its last character. */
  predicate IsColonLabel(key: string) {
    key != "" && key[|key| - 1] == ':' && ':' !in key[..|key| - 1]
  }

  /** `line.lower().startswith(key)`. */
  predicate IsLabelLine(key: string, line: string) {
    StartsWith(Lower(line), key)
  }

  /** The text a labelled line carries: the stripped rest after the label. */
  function LabelText(key: string, line: string): string
    requires IsLabelLine(key, line)
  {
    Strip(line[|key|..])
  }

  /** The label's colon is the line's first: `line.split(":", 1)[1].strip()` is the labelled text. */
  lemma LabelTextAfterColon(key: string, line: string)
    requires IsColonLabel(key) && IsLabelLine(key, line)
    ensures ':' in line && Strip(AfterFirst(line, ':')) == LabelText(key, line)
  {
    LabelColon(line, key);
  }

  /** The text of the last labelled line, or "" when there is none. */
  function LastLabelled(key: string, lines: seq<string>): string {
    if lines == [] then ""
    else
      var line := lines[|lines| - 1];
      if IsLabelLine(key, line) then LabelText(key, line) else LastLabelled(key, lines[..|lines| - 1])
  }

  /** What one more line does to the labelled text: a labelled line overwrites it. */
  lemma NextLineLabel(key: string, lines: seq<string>, i: nat)
    requires i < |lines|
    ensures LastLabelled(key, lines[..i + 1])
      == if IsLabelLine(key, lines[i]) then LabelText(key, lines[i]) else LastLabelled(key, lines[..i])
  {
    var p := lines[..i + 1];
    assert p[..i] == lines[..i];
    assert p[i] == lines[i];
  }

  /** The labelled text is the one of the last labelled line. */
  lemma {:induction false} LastLabelledWins(key: string, lines: seq<string>, i: nat)
    requires i < |lines| && IsLabelLine(key, lines[i])
    requires forall j :: i < j < |lines| ==> !IsLabelLine(key, lines[j])
    ensures LastLabelled(key, lines) == LabelText(key, lines[i])
    decreases |lines|
  {
    if i < |lines| - 1 {
      LastLabelledWins(key, lines[..|lines| - 1], i);
    }
  }

  /** Without a labelled line the labelled text is empty. */
  lemma {:induction false} NoLabelledLine(key: string, lines: seq<string>)
    requires forall j :: 0 <= j < |lines| ==> !IsLabelLine(key, lines[j])
    ensures LastLabelled(key, lines) == ""
    decreases |lines|
  {
    if lines != [] {
      NoLabelledLine(key, lines[..|lines| - 1]);
    }
  }

  /** A labelled line starts with what the label's first character lowercases from. */
  lemma LabelLineStart(key: string, line: string)
    requires key != "" && IsLabelLine(key, line)
    ensures line != "" && LowerChar(line[0]) == key[0]
  {
    assert Lower(line)[0] == key[0];
  }

  /** `options` after one more line: one more entry when the line yields one. */
  function Appended(options: seq<string>, o: Option<string>): seq<string> {
    if o.Some? then options + [o.value] else options
  }

  /** A well-formed piece of reply text: non-empty, stripped, on one line. */
  predicate IsReplyText(s: string) {
    s != "" && Strip(s) == s && '\n' !in s
  }

  /** Joined lines end with the last character of the last line. */
  lemma {:induction false} JoinLast(ls: seq<string>, c: char)
    requires |ls| >= 1 && ls[|ls| - 1] != ""
    ensures var j := Join(ls, c); j != "" && j[|j| - 1] == ls[|ls| - 1][|ls[|ls| - 1]| - 1]
    decreases |ls|
  {
    if |ls| > 1 {
      JoinLast(ls[1..], c);
    }
  }

  /** Well-formed lines joined with line breaks are read back as exactly those lines. */
  lemma StrippedLinesOfJoin(ls: seq<string>)
    requires |ls| >= 1 && forall i :: 0 <= i < |ls| ==> IsReplyText(ls[i])
    ensures Join(ls, '\n') != "" && StrippedLines(Join(ls, '\n')) == ls
  {
    var response := Join(ls, '\n');
    JoinLast(ls, '\n');
    assert response[0] == ls[0][0];
    StripNoop(response);
    SplitOfJoin(ls, '\n');
    assert Lines(response) == ls;
  }
}

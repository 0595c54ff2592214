/**
 * The Python built-ins the bot's handlers rely on, on `str` values:
 * `strip`, `split`, `lower`, `startswith`, `isdigit`, `int()` and the
 * f-string rendering of a non-negative `int`.
 *
 * Assumptions (also listed in README): `isdigit` is ASCII only, `lower`
 * maps Latin and Cyrillic capitals only, `int()` accepts ASCII digits only.
 * `strip` removes exactly the characters for which `str.isspace()` holds.
 */
module Py {
  import opened Wrappers

  /** The exceptions a handler can raise; aiogram logs them and drops the update. */
  datatype PyError = IndexError | ValueError | KeyError | AttributeError | TypeError

  /** `str.isspace()` for one character: the characters `str.strip()` removes. */
  predicate IsSpace(c: char) {
    || ('\U{09}' <= c <= '\U{0D}')
    || ('\U{1C}' <= c <= '\U{20}')
    || c == '\U{85}' || c == '\U{A0}' || c == '\U{1680}'
    || ('\U{2000}' <= c <= '\U{200A}')
    || c == '\U{2028}' || c == '\U{2029}' || c == '\U{202F}' || c == '\U{205F}' || c == '\U{3000}'
  }

  /** `str.isdigit()` for one character, restricted to ASCII digits. */
  predicate IsDigit(c: char) {
    '0' <= c <= '9'
  }

  /** `str.lstrip()`. */
  function LStrip(s: string): (r: string)
    ensures r != "" ==> !IsSpace(r[0])
  {
    if s != "" && IsSpace(s[0]) then LStrip(s[1..]) else s
  }

  /** `str.rstrip()`. */
  function RStrip(s: string): (r: string)
    ensures |r| <= |s| && r == s[..|r|]
    ensures r != "" ==> !IsSpace(r[|r| - 1])
  {
    if s != "" && IsSpace(s[|s| - 1]) then RStrip(s[..|s| - 1]) else s
  }

  /** `str.strip()` without arguments. */
  function Strip(s: string): (r: string)
    ensures r == "" || (!IsSpace(r[0]) && !IsSpace(r[|r| - 1]))
  {
    RStrip(LStrip(s))
  }

  /** Only spaces are removed: `strip` is empty exactly on all-space strings. */
  lemma StripEmpty(s: string)
    ensures Strip(s) == "" <==> forall i :: 0 <= i < |s| ==> IsSpace(s[i])
  {
    LStripAllSpace(s);
    RStripAllSpace(LStrip(s));
    LStripSuffix(s);
  }

  lemma {:induction false} LStripSuffix(s: string)
    ensures |LStrip(s)| <= |s| && LStrip(s) == s[|s| - |LStrip(s)|..]
    decreases |s|
  {
    if s != "" && IsSpace(s[0]) {
      LStripSuffix(s[1..]);
    }
  }

  lemma {:induction false} LStripAllSpace(s: string)
    ensures LStrip(s) == "" <==> forall i :: 0 <= i < |s| ==> IsSpace(s[i])
    decreases |s|
  {
    if s != "" && IsSpace(s[0]) {
      LStripAllSpace(s[1..]);
      assert forall i :: 1 <= i < |s| ==> s[i] == s[1..][i - 1];
    }
  }

  lemma {:induction false} RStripAllSpace(s: string)
    ensures RStrip(s) == "" <==> forall i :: 0 <= i < |s| ==> IsSpace(s[i])
    decreases |s|
  {
    if s != "" && IsSpace(s[|s| - 1]) {
      RStripAllSpace(s[..|s| - 1]);
    }
  }

  /** A string that starts and ends with a non-space is its own strip. */
  lemma StripNoop(s: string)
    requires s == "" || (!IsSpace(s[0]) && !IsSpace(s[|s| - 1]))
    ensures Strip(s) == s
  {
  }

  /** A leading space is removed by `strip`. */
  lemma StripLeadingSpace(t: string)
    ensures Strip(" " + t) == Strip(t)
  {
    assert (" " + t)[1..] == t;
  }

  /** `s.split(c)`: the pieces between the occurrences of `c`; never empty. */
  function Split(s: string, c: char): (r: seq<string>)
    ensures |r| >= 1
    ensures forall i :: 0 <= i < |r| ==> c !in r[i]
    ensures |r| == 1 <==> c !in s
    decreases |s|
  {
    if s == "" then [""]
    else
      var rest := Split(s[1..], c);
      assert s == [s[0]] + s[1..];
      if s[0] == c then
        [""] + rest
      else
        [[s[0]] + rest[0]] + rest[1..]
  }

  /** Joining the pieces of a split gives the string back. */
  lemma {:induction false} JoinOfSplit(s: string, c: char)
    ensures Join(Split(s, c), c) == s
    decreases |s|
  {
    if s != "" {
      var tail := s[1..];
      var rest := Split(tail, c);
      JoinOfSplit(tail, c);
      assert s == [s[0]] + tail;
      if s[0] == c {
        var r := [""] + rest;
        assert Split(s, c) == r;
        assert r[1..] == rest;
        assert Join(r, c) == "" + [c] + Join(rest, c);
      } else {
        var r := [[s[0]] + rest[0]] + rest[1..];
        assert Split(s, c) == r;
        if |rest| == 1 {
          assert Join(r, c) == [s[0]] + rest[0];
        } else {
          assert r[1..] == rest[1..];
          assert Join(r, c) == [s[0]] + rest[0] + [c] + Join(rest[1..], c);
          assert Join(rest, c) == rest[0] + [c] + Join(rest[1..], c);
        }
      }
    }
  }

  /** `c.join(ls)` for a one-character separator. */
  function Join(ls: seq<string>, c: char): string
    requires |ls| >= 1
  {
    if |ls| == 1 then ls[0] else ls[0] + [c] + Join(ls[1..], c)
  }

  /** Splitting a prefix free of the separator only extends the first piece. */
  lemma {:induction false} SplitPrefixed(a: string, t: string, c: char)
    requires c !in a
    ensures Split(a + t, c) == [a + Split(t, c)[0]] + Split(t, c)[1..]
    decreases |a|
  {
    if a != "" {
      var st := Split(t, c);
      var rest := Split(a[1..] + t, c);
      assert (a + t)[0] == a[0];
      assert (a + t)[1..] == a[1..] + t;
      SplitPrefixed(a[1..], t, c);
      assert Split(a + t, c) == [[a[0]] + rest[0]] + rest[1..];
      assert [a[0]] + (a[1..] + st[0]) == a + st[0];
    } else {
      var st := Split(t, c);
      assert a + t == t;
      assert a + st[0] == st[0];
      assert st == [st[0]] + st[1..];
    }
  }

  /** Splitting joined pieces that do not contain the separator gives them back. */
  lemma {:induction false} SplitOfJoin(ls: seq<string>, c: char)
    requires |ls| >= 1
    requires forall i :: 0 <= i < |ls| ==> c !in ls[i]
    ensures Split(Join(ls, c), c) == ls
    decreases |ls|
  {
    if |ls| == 1 {
      SplitPrefixed(ls[0], "", c);
      assert ls[0] + "" == ls[0];
    } else {
      var tail := Join(ls[1..], c);
      SplitOfJoin(ls[1..], c);
      SplitAtSeparator(tail, c);
      assert Join(ls, c) == ls[0] + ([c] + tail);
      SplitPrefixed(ls[0], [c] + tail, c);
      var st := Split([c] + tail, c);
      assert st[0] == "" && st[1..] == ls[1..];
      assert ls[0] + "" == ls[0];
      assert ls == [ls[0]] + ls[1..];
    }
  }

  /** A leading separator gives an empty first piece. */
  lemma SplitAtSeparator(t: string, c: char)
    ensures Split([c] + t, c) == [""] + Split(t, c)
  {
    assert ([c] + t)[1..] == t;
  }

  /** `str.lower()` on one character: Latin and Cyrillic capitals, others unchanged. */
  function LowerChar(c: char): char {
    if 'A' <= c <= 'Z' then (c as int + 32) as char
    else if '\U{0410}' <= c <= '\U{042F}' then (c as int + 32) as char
    else if '\U{0400}' <= c <= '\U{040F}' then (c as int + 80) as char
    else c
  }

  /** `str.lower()`, character by character. */
  function Lower(s: string): (r: string)
    ensures |r| == |s|
    ensures forall i {:trigger r[i]} :: 0 <= i < |s| ==> r[i] == LowerChar(s[i])
  {
    seq(|s|, i requires 0 <= i < |s| => LowerChar(s[i]))
  }

  /**
   * In a line whose lowercase form starts with a label that ends in its only
   * `:`, the first `:` is the label's.
   */
  lemma LabelColon(line: string, prefix: string)
    requires StartsWith(Lower(line), prefix) && prefix != ""
    requires prefix[|prefix| - 1] == ':' && ':' !in prefix[..|prefix| - 1]
    ensures ':' in line && IndexOf(line, ':') == |prefix| - 1
  {
    var k := |prefix| - 1;
    assert Lower(line)[k] == ':';
    assert line[k] == ':';
    forall j | 0 <= j < k ensures line[j] != ':' {
      assert Lower(line)[j] == prefix[..k][j];
    }
    IndexOfAtMost(line, ':', k);
  }

  /** `s.startswith(p)`. */
  predicate StartsWith(s: string, p: string) {
    |p| <= |s| && s[..|p|] == p
  }

  /** The index of the first occurrence of `c` in `s`. */
  function IndexOf(s: string, c: char): (i: nat)
    requires c in s
    ensures i < |s| && s[i] == c && c !in s[..i]
  {
    if s[0] == c then 0 else 1 + IndexOf(s[1..], c)
  }

  /** The first occurrence of `c` is at or before any occurrence. */
  lemma {:induction false} IndexOfAtMost(s: string, c: char, k: nat)
    requires k < |s| && s[k] == c
    ensures c in s && IndexOf(s, c) <= k
    decreases k
  {
    if s[0] != c {
      IndexOfAtMost(s[1..], c, k - 1);
    }
  }

  /** The first occurrence of `c` in `a + b`, when `a` has none, lies in `b`. */
  lemma {:induction false} IndexOfAfter(a: string, b: string, c: char)
    requires c !in a && c in b
    ensures c in a + b && IndexOf(a + b, c) == |a| + IndexOf(b, c)
    decreases |a|
  {
    if a != "" {
      assert (a + b)[1..] == a[1..] + b;
      IndexOfAfter(a[1..], b, c);
    } else {
      assert a + b == b;
    }
  }

  /** `s.split(c, 1)[1]`: everything after the first `c`. */
  function AfterFirst(s: string, c: char): string
    requires c in s
  {
    s[IndexOf(s, c) + 1..]
  }

  /** After the first separator of `a`, the separator, `b`, when `a` has none, comes `b`. */
  lemma AfterSeparator(a: string, b: string, c: char)
    requires c !in a
    ensures c in a + [c] + b && AfterFirst(a + [c] + b, c) == b
  {
    assert a + [c] + b == a + ([c] + b);
    IndexOfAfter(a, [c] + b, c);
    assert (a + [c] + b)[|a| + 1..] == b;
  }

  /** The second piece of `a`, `c`, `b`, when neither part holds `c`, is `b`. */
  lemma SecondFieldOfPair(a: string, b: string, c: char)
    requires c !in a && c !in b
    ensures c in a + [c] + b && SecondField(a + [c] + b, c) == b
  {
    assert a + [c] + b == a + ([c] + b);
    SplitPrefixed(a, [c] + b, c);
    SplitAtSeparator(b, c);
    JoinOfSplit(b, c);
    assert Split(b, c) == [b];
    assert Split([c] + b, c) == ["", b];
    assert (a + [c] + b)[|a|] == c;
  }

  /** `s.split(c)[1]`: the piece between the first and the second `c`. */
  function SecondField(s: string, c: char): (r: string)
    requires c in s
    ensures c !in r
  {
    Split(s, c)[1]
  }

  /** `t in s` for strings. */
  predicate Contains(s: string, t: string) {
    exists i :: 0 <= i <= |s| - |t| && OccursAt(s, t, i)
  }

  /** `t` occurs in `s` at index `i`. */
  predicate OccursAt(s: string, t: string, i: nat)
    requires i + |t| <= |s|
  {
    s[i..i + |t|] == t
  }

  /** A middle part is contained in the whole. */
  lemma ContainsMiddle(a: string, b: string, c: string)
    ensures Contains(a + b + c, b)
  {
    assert OccursAt(a + b + c, b, |a|);
  }

  /** Text contained in a suffix is contained in the whole. */
  lemma ContainsAfter(x: string, s: string, t: string)
    requires Contains(s, t)
    ensures Contains(x + s, t)
  {
    var i :| 0 <= i <= |s| - |t| && OccursAt(s, t, i);
    assert (x + s)[|x| + i..|x| + i + |t|] == s[i..i + |t|];
    assert OccursAt(x + s, t, |x| + i);
  }

  /** Text contained in a prefix is contained in the whole. */
  lemma ContainsBefore(s: string, y: string, t: string)
    requires Contains(s, t)
    ensures Contains(s + y, t)
  {
    var i :| 0 <= i <= |s| - |t| && OccursAt(s, t, i);
    assert (s + y)[i..i + |t|] == s[i..i + |t|];
    assert OccursAt(s + y, t, i);
  }

  /** The digit character for `d`. */
  function DigitChar(d: nat): (c: char)
    requires d < 10
    ensures IsDigit(c)
  {
    ('0' as int + d) as char
  }

  /** `f"{n}"` for a non-negative `int`. */
  function NatToString(n: nat): (r: string)
    ensures r != "" && forall i :: 0 <= i < |r| ==> IsDigit(r[i])
  {
    if n < 10 then [DigitChar(n)] else NatToString(n / 10) + [DigitChar(n % 10)]
  }

  /** The value of a run of digits and underscores, underscores ignored. */
  function Decimal(s: string): nat {
    if s == "" then 0
    else
      var d := s[|s| - 1];
      if IsDigit(d) then Decimal(s[..|s| - 1]) * 10 + (d as int - '0' as int)
      else Decimal(s[..|s| - 1])
  }

  /** What `int()` accepts after the sign: digits, with single underscores between digits. */
  predicate IsDigitGroup(s: string) {
    && s != ""
    && IsDigit(s[0])
    && forall i :: 0 <= i < |s| ==> IsDigit(s[i]) || (s[i] == '_' && i + 1 < |s| && IsDigit(s[i + 1]))
  }

  /** `int(s)` for a `str`: `None` exactly where Python raises `ValueError`. */
  function ParseInt(s: string): Option<int> {
    var t := Strip(s);
    if t == "" then None
    else
      var body := if t[0] == '-' || t[0] == '+' then t[1..] else t;
      if !IsDigitGroup(body) then None
      else if t[0] == '-' then Some(-(Decimal(body) as int))
      else Some(Decimal(body))
  }

  lemma {:induction false} DecimalOfNatToString(n: nat)
    ensures Decimal(NatToString(n)) == n
  {
    if n >= 10 {
      var s := NatToString(n);
      assert s[..|s| - 1] == NatToString(n / 10);
      DecimalOfNatToString(n / 10);
    }
  }

  /** `int(f"{n}") == n`: the callback index written by a keyboard parses back. */
  lemma ParseIntOfNatToString(n: nat)
    ensures ParseInt(NatToString(n)) == Some(n)
  {
    var s := NatToString(n);
    StripNoop(s);
    DecimalOfNatToString(n);
  }
}

/**
 * The format-string rewriting that PrintfMethodCall::codeGen performs
 * before interning the text (codegen.cpp:192-201), exactly as written:
 * strip the enclosing quotes, then walk the text and, at each backslash
 * followed by `n`, call std::string::replace(i, i + 1, "\13\15").
 */
module FormatString {

  /** The bytes "\13\15" inserts: octal 13 is vertical tab (11), octal 15 carriage return (13). */
  const VerticalTab: char := 11 as char
  const CarriageReturn: char := 13 as char
  const Inserted: seq<char> := [VerticalTab, CarriageReturn]

  function Min(a: nat, b: nat): nat
  {
    if a <= b then a else b
  }

  /**
   * std::string::replace(pos, count, str): removes min(count, size - pos)
   * characters from pos and puts str in their place.
   */
  function Replace(s: seq<char>, pos: nat, count: nat, str: seq<char>): (r: seq<char>)
    requires pos <= |s|
    ensures |r| == |s| - Min(count, |s| - pos) + |str|
    ensures r[..pos] == s[..pos] && r[pos..pos + |str|] == str
    ensures r[pos + |str|..] == s[pos + Min(count, |s| - pos)..]
  {
    s[..pos] + str + s[pos + Min(count, |s| - pos)..]
  }

  /** The loop's test: a backslash at i followed by `n`. */
  predicate EscapeAt(s: seq<char>, i: nat)
  {
    i + 1 < |s| && s[i] == '\\' && s[i + 1] == 'n'
  }

  /** No backslash-n pair anywhere in s. */
  predicate Plain(s: seq<char>)
  {
    forall j :: 0 <= j < |s| ==> !EscapeAt(s, j)
  }

  /**
   * What the loop leaves when it reaches index i with text fmt. Only a
   * rewrite at i == 0 lengthens the text, which bounds the iterations.
   */
  function ScanFrom(fmt: seq<char>, i: nat): seq<char>
    requires 1 <= |fmt| && i <= |fmt|
    decreases |fmt| - i + (if i == 0 then 1 else 0)
  {
    if i < |fmt| - 1 then
      ScanFrom(if EscapeAt(fmt, i) then Replace(fmt, i, i + 1, Inserted) else fmt, i + 1)
    else
      fmt
  }

  /**
   * The text the source interns for a format token. A token shorter than
   * three characters leaves an empty body, on which the loop's unsigned
   * bound wraps around and reads past the string: the source has no
   * defined behaviour there, so such tokens are excluded.
   */
  function Processed(format: string): string
    requires 3 <= |format|
  {
    ScanFrom(format[1..|format| - 1], 0)
  }

  /** The rewriting loop of PrintfMethodCall::codeGen, on a local copy of the text. */
  method ProcessFormat(format: string) returns (fmt: string)
    requires 3 <= |format|
    ensures fmt == Processed(format)
    ensures 1 <= |fmt| <= |format| - 1
    ensures !EscapeAt(format[1..|format| - 1], 0) ==> |fmt| <= |format| - 2
  {
    fmt := format[1..|format| - 1];
    ScanLength(fmt, 0);
    var i := 0;
    while i < |fmt| - 1
      invariant 1 <= |fmt| && i <= |fmt|
      invariant ScanFrom(fmt, i) == Processed(format)
      decreases |fmt| - i + (if i == 0 then 1 else 0)
    {
      if fmt[i] == '\\' && fmt[i + 1] == 'n' {
        fmt := Replace(fmt, i, i + 1, Inserted);
      }
      i := i + 1;
    }
  }

  /**
   * Only a rewrite at index 0 adds a character, so the text grows only when
   * it starts with a backslash-n; the result is never empty.
   */
  lemma {:induction false} ScanLength(fmt: seq<char>, i: nat)
    requires 1 <= |fmt| && i <= |fmt|
    ensures 1 <= |ScanFrom(fmt, i)| <= |fmt| + (if i == 0 && EscapeAt(fmt, 0) then 1 else 0)
    decreases |fmt| - i + (if i == 0 then 1 else 0)
  {
    if i < |fmt| - 1 {
      var next := if EscapeAt(fmt, i) then Replace(fmt, i, i + 1, Inserted) else fmt;
      ScanLength(next, i + 1);
    }
  }

  /** Positions without an escape are passed over unchanged. */
  lemma {:induction false} SkipPlain(fmt: seq<char>, i: nat, k: nat)
    requires 1 <= |fmt| && i <= k <= |fmt| - 1
    requires forall j :: i <= j < k ==> !EscapeAt(fmt, j)
    ensures ScanFrom(fmt, i) == ScanFrom(fmt, k)
    decreases k - i
  {
    if i < k {
      SkipPlain(fmt, i + 1, k);
    }
  }

  /** Text without a backslash-n pair comes out exactly as it went in. */
  lemma PlainTextUnchanged(fmt: seq<char>)
    requires 1 <= |fmt|
    requires Plain(fmt)
    ensures ScanFrom(fmt, 0) == fmt
  {
    SkipPlain(fmt, 0, |fmt| - 1);
  }

  /**
   * A single backslash-n at the end of a non-empty text becomes vertical
   * tab and carriage return: two characters, no newline.
   */
  lemma TrailingEscape(p: seq<char>)
    requires 1 <= |p|
    requires forall j :: 0 <= j < |p| ==> !EscapeAt(p + ['\\', 'n'], j)
    ensures ScanFrom(p + ['\\', 'n'], 0) == p + Inserted
  {
    var s := p + ['\\', 'n'];
    SkipPlain(s, 0, |p|);
    assert EscapeAt(s, |p|);
    assert Replace(s, |p|, |p| + 1, Inserted) == p + Inserted;
  }

  /**
   * The newline translation the loop's own comment, "replace \n", names:
   * each backslash-n becomes one newline.
   */
  function NormalizeNewlines(s: seq<char>): (r: seq<char>)
    ensures |r| <= |s|
  {
    if |s| < 2 then s
    else if s[0] == '\\' && s[1] == 'n' then ['\n'] + NormalizeNewlines(s[2..])
    else [s[0]] + NormalizeNewlines(s[1..])
  }

  lemma {:induction false} NormalizePlain(s: seq<char>)
    requires Plain(s)
    ensures NormalizeNewlines(s) == s
  {
    if |s| >= 2 {
      assert !EscapeAt(s, 0);
      forall j | 0 <= j < |s[1..]|
        ensures !EscapeAt(s[1..], j)
      {
        assert !EscapeAt(s, j + 1);
      }
      NormalizePlain(s[1..]);
    }
  }

  /** Where the text holds no backslash-n the code and that newline translation agree. */
  lemma AgreeOnPlainText(format: string)
    requires 3 <= |format|
    requires Plain(format[1..|format| - 1])
    ensures Processed(format) == NormalizeNewlines(format[1..|format| - 1]) == format[1..|format| - 1]
  {
    PlainTextUnchanged(format[1..|format| - 1]);
    NormalizePlain(format[1..|format| - 1]);
  }

  /**
   * "Hello\n" as written: the code interns seven characters ending in
   * vertical tab and carriage return (an 8-byte global), where the newline
   * translation gives six characters ending in a newline (a 7-byte global).
   */
  lemma HelloNewline()
    ensures Processed("\"Hello\\n\"") == "Hello" + Inserted
    ensures |Processed("\"Hello\\n\"")| + 1 == 8
    ensures NormalizeNewlines("Hello\\n") == "Hello\n"
    ensures |NormalizeNewlines("Hello\\n")| + 1 == 7
  {
    var token := "\"Hello\\n\"";
    assert token[1..|token| - 1] == "Hello" + ['\\', 'n'];
    TrailingEscape("Hello");
  }

  /** At index 0 only the backslash is replaced: the `n` stays in the text. */
  lemma LeadingEscapeKeepsN()
    ensures Processed("\"\\nab\"") == Inserted + "nab"
  {
    var s := "\\nab";
    assert "\"\\nab\""[1..5] == s;
    var t := Replace(s, 0, 1, Inserted);
    assert t == Inserted + "nab";
    assert ScanFrom(s, 0) == ScanFrom(t, 1);
    PlainTail(t);
  }

  /** At index 2 three characters are replaced: the character after `n` is lost. */
  lemma LaterEscapeSwallows()
    ensures Processed("\"ab\\ncd\"") == "ab" + Inserted + "d"
  {
    var s := "ab\\ncd";
    assert "\"ab\\ncd\""[1..7] == s;
    SkipPlain(s, 0, 2);
    var t := Replace(s, 2, 3, Inserted);
    assert t == "ab" + Inserted + "d";
    assert ScanFrom(s, 2) == ScanFrom(t, 3);
  }

  lemma PlainTail(t: seq<char>)
    requires t == Inserted + "nab"
    ensures ScanFrom(t, 1) == t
  {
    SkipPlain(t, 1, |t| - 1);
  }
}

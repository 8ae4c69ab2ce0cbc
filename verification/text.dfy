/**
 * The Python string operations the SDK relies on: `sep.join`, `str.find`,
 * `in` on strings, `str()` of an integer and `str.format` with one
 * positional argument; with the inverses (`Split`, `ParseDecimal`) that
 * state what their results mean.
 */
module Text {
  import opened Wrappers

  // ---------------------------------------------------------------------
  // Joining and splitting
  // ---------------------------------------------------------------------

  /** Python's `sep.join(parts)` for a one-character separator. */
  function Join(parts: seq<string>, sep: char): (s: string)
  {
    if |parts| == 0 then ""
    else if |parts| == 1 then parts[0]
    else parts[0] + [sep] + Join(parts[1..], sep)
  }

  /** Joining two pieces, spelled out. */
  lemma JoinTwo(a: string, b: string, sep: char)
    ensures Join([a, b], sep) == a + [sep] + b
  {
    JoinCons(a, [b], sep);
  }

  /** Joining three pieces, spelled out. */
  lemma JoinThree(a: string, b: string, c: string, sep: char)
    ensures Join([a, b, c], sep) == a + [sep] + b + [sep] + c
  {
    JoinCons(a, [b, c], sep);
    JoinTwo(b, c, sep);
    assert a + [sep] + (b + [sep] + c) == a + [sep] + b + [sep] + c;
  }

  /** Joining four pieces, spelled out. */
  lemma JoinFour(a: string, b: string, c: string, d: string, sep: char)
    ensures Join([a, b, c, d], sep) == a + [sep] + b + [sep] + c + [sep] + d
  {
    JoinCons(a, [b, c, d], sep);
    JoinThree(b, c, d, sep);
    assert a + [sep] + (b + [sep] + c + [sep] + d) == a + [sep] + b + [sep] + c + [sep] + d;
  }

  /** Joining five pieces, spelled out. */
  lemma JoinFive(a: string, b: string, c: string, d: string, e: string, sep: char)
    ensures Join([a, b, c, d, e], sep) == a + [sep] + b + [sep] + c + [sep] + d + [sep] + e
  {
    JoinCons(a, [b, c, d, e], sep);
    JoinFour(b, c, d, e, sep);
    assert a + [sep] + (b + [sep] + c + [sep] + d + [sep] + e) == a + [sep] + b + [sep] + c + [sep] + d + [sep] + e;
  }

  lemma JoinCons(a: string, rest: seq<string>, sep: char)
    requires |rest| >= 1
    ensures Join([a] + rest, sep) == a + [sep] + Join(rest, sep)
  {
    assert ([a] + rest)[1..] == rest;
  }

  /** Python's `s.split(sep)` for a one-character separator: never empty. */
  function Split(s: string, sep: char): (parts: seq<string>)
    ensures |parts| >= 1
  {
    if s == [] then [""]
    else
      var rest := Split(s[1..], sep);
      if s[0] == sep then [""] + rest else [[s[0]] + rest[0]] + rest[1..]
  }

  /** A separator-free string splits into itself. */
  lemma {:induction false} SplitNoSeparator(p: string, sep: char)
    requires sep !in p
    ensures Split(p, sep) == [p]
  {
    if p != [] {
      SplitNoSeparator(p[1..], sep);
      assert [p[0]] + p[1..] == p;
    }
  }

  /** Splitting at a separator splits each side independently. */
  lemma {:induction false} SplitConcat(a: string, sep: char, b: string)
    ensures Split(a + [sep] + b, sep) == Split(a, sep) + Split(b, sep)
  {
    var s := a + [sep] + b;
    if a == [] {
      assert s[1..] == b;
    } else {
      assert s[1..] == a[1..] + [sep] + b;
      SplitConcat(a[1..], sep, b);
    }
  }

  /** Splitting `p + sep + x` yields `p` followed by the pieces of `x`. */
  lemma {:induction false} SplitAfterPiece(p: string, sep: char, x: string)
    requires sep !in p
    ensures Split(p + [sep] + x, sep) == [p] + Split(x, sep)
  {
    var s := p + [sep] + x;
    if p == [] {
      assert s[1..] == x;
    } else {
      assert s[1..] == p[1..] + [sep] + x;
      SplitAfterPiece(p[1..], sep, x);
      assert [p[0]] + p[1..] == p;
    }
  }

  /** `Split` undoes `Join` when no piece contains the separator. */
  lemma {:induction false} SplitJoin(parts: seq<string>, sep: char)
    requires |parts| >= 1
    requires forall i :: 0 <= i < |parts| ==> sep !in parts[i]
    ensures Split(Join(parts, sep), sep) == parts
  {
    if |parts| == 1 {
      SplitNoSeparator(parts[0], sep);
    } else {
      SplitJoin(parts[1..], sep);
      SplitAfterPiece(parts[0], sep, Join(parts[1..], sep));
      assert [parts[0]] + parts[1..] == parts;
    }
  }

  // ---------------------------------------------------------------------
  // Searching
  // ---------------------------------------------------------------------

  /** `pat` occurs in `s` starting at index `k`. */
  predicate OccursAt(s: string, pat: string, k: int)
  {
    0 <= k && k + |pat| <= |s| && s[k..k + |pat|] == pat
  }

  /** `s.find(pat, from)`: the first occurrence at or after `from`, or -1. */
  function FindFrom(s: string, pat: string, from: nat): (i: int)
    ensures i == -1 || (from <= i && OccursAt(s, pat, i))
    ensures i == -1 ==> forall k :: from <= k ==> !OccursAt(s, pat, k)
    ensures i != -1 ==> forall k :: from <= k < i ==> !OccursAt(s, pat, k)
    decreases |s| - from
  {
    if from + |pat| > |s| then -1
    else if s[from..from + |pat|] == pat then from
    else FindFrom(s, pat, from + 1)
  }

  /** Python's `s.find(pat)`: the lowest index where `pat` occurs, or -1. */
  function Find(s: string, pat: string): (i: int)
    ensures i == -1 <==> forall k :: !OccursAt(s, pat, k)
    ensures i != -1 ==> OccursAt(s, pat, i) && forall k :: 0 <= k < i ==> !OccursAt(s, pat, k)
  {
    FindFrom(s, pat, 0)
  }

  /** Python's `pat in s` on strings. */
  predicate Contains(s: string, pat: string)
  {
    Find(s, pat) != -1
  }

  // ---------------------------------------------------------------------
  // Decimal numerals
  // ---------------------------------------------------------------------

  function DigitChar(d: nat): (c: char)
    requires d < 10
  {
    (('0' as int) + d) as char
  }

  predicate IsDigit(c: char)
  {
    '0' <= c <= '9'
  }

  /** Python's `str(n)` for a natural number. */
  function NatToString(n: nat): (s: string)
    ensures |s| >= 1
    ensures forall i :: 0 <= i < |s| ==> IsDigit(s[i])
  {
    if n < 10 then [DigitChar(n)] else NatToString(n / 10) + [DigitChar(n % 10)]
  }

  /** Python's `str(i)` for an integer. */
  function IntToString(i: int): (s: string)
  {
    if i < 0 then "-" + NatToString(-i) else NatToString(i)
  }

  /** Reads a non-empty string of decimal digits; None for anything else. */
  function ParseDecimal(s: string): (r: Option<nat>)
  {
    if s == [] || !IsDigit(s[|s| - 1]) then None
    else if |s| == 1 then Some((s[0] as int) - ('0' as int))
    else match ParseDecimal(s[..|s| - 1])
      case None => None
      case Some(prefix) => Some(prefix * 10 + ((s[|s| - 1] as int) - ('0' as int)))
  }

  /** `str(n)` reads back as `n`. */
  lemma {:induction false} ParseNatToString(n: nat)
    ensures ParseDecimal(NatToString(n)) == Some(n)
  {
    var s := NatToString(n);
    if n >= 10 {
      ParseNatToString(n / 10);
      assert s[..|s| - 1] == NatToString(n / 10);
    }
  }

  // ---------------------------------------------------------------------
  // str.format with one positional argument
  // ---------------------------------------------------------------------

  /** Why `str.format` raised. */
  datatype FormatError =
    | KeyError        // a replacement field names a keyword argument that was not passed
    | IndexError      // a second `{}` asks for a positional argument that was not passed
    | ValueError      // a lone `{` or `}`

  /** Prepends `p` to a successful result and passes an error through. */
  function Prepend(p: string, r: Result<string, FormatError>): (q: Result<string, FormatError>)
  {
    match r
    case Success(s) => Success(p + s)
    case Failure(e) => Failure(e)
  }

  /**
   * `template.format(arg)` read left to right: `{{` and `}}` stand for a
   * brace, `{}` for `arg` (once), and any other replacement field names a
   * keyword argument, which is missing. `used` says whether `arg` has
   * already been taken.
   */
  function FormatFrom(template: string, arg: string, used: bool): (r: Result<string, FormatError>)
    decreases |template|
  {
    if template == [] then Success("")
    else if template[0] == '{' then
      if |template| == 1 then Failure(ValueError)
      else if template[1] == '{' then Prepend("{", FormatFrom(template[2..], arg, used))
      else if template[1] == '}' then
        if used then Failure(IndexError) else Prepend(arg, FormatFrom(template[2..], arg, true))
      else Failure(KeyError)
    else if template[0] == '}' then
      if |template| >= 2 && template[1] == '}' then Prepend("}", FormatFrom(template[2..], arg, used))
      else Failure(ValueError)
    else Prepend([template[0]], FormatFrom(template[1..], arg, used))
  }

  /** Python's `template.format(arg)`. */
  function Format(template: string, arg: string): (r: Result<string, FormatError>)
  {
    FormatFrom(template, arg, false)
  }

  /** The text holds no brace, so `str.format` copies it unchanged. */
  predicate BraceFree(s: string)
  {
    '{' !in s && '}' !in s
  }

  /** Brace-free pieces make brace-free text. */
  lemma BraceFreeConcat(a: string, b: string)
    requires BraceFree(a) && BraceFree(b)
    ensures BraceFree(a + b)
  {
    assert forall ch :: ch in a + b ==> ch in a || ch in b;
  }

  /** Doubles every brace, as a template must to show a literal brace. */
  function Escape(s: string): (e: string)
  {
    if s == [] then ""
    else if s[0] == '{' then "{{" + Escape(s[1..])
    else if s[0] == '}' then "}}" + Escape(s[1..])
    else [s[0]] + Escape(s[1..])
  }

  lemma PrependEmpty(r: Result<string, FormatError>)
    ensures Prepend("", r) == r
  {
    if r.Success? {
      assert "" + r.value == r.value;
    }
  }

  lemma PrependPrepend(p: string, q: string, r: Result<string, FormatError>)
    ensures Prepend(p, Prepend(q, r)) == Prepend(p + q, r)
  {
    if r.Success? {
      assert p + (q + r.value) == (p + q) + r.value;
    }
  }

  /** A character other than a brace is copied. */
  lemma FormatPlainChar(c: char, tail: string, arg: string, used: bool)
    requires c != '{' && c != '}'
    ensures FormatFrom([c] + tail, arg, used) == Prepend([c], FormatFrom(tail, arg, used))
  {
    assert ([c] + tail)[1..] == tail;
  }

  /** A doubled brace stands for one brace. */
  lemma FormatDoubledBrace(c: char, tail: string, arg: string, used: bool)
    requires c == '{' || c == '}'
    ensures FormatFrom([c, c] + tail, arg, used) == Prepend([c], FormatFrom(tail, arg, used))
  {
    assert ([c, c] + tail)[2..] == tail;
  }

  /** Brace-free text at the head of a template is copied to the output. */
  lemma {:induction false} FormatBraceFree(a: string, rest: string, arg: string, used: bool)
    requires BraceFree(a)
    ensures FormatFrom(a + rest, arg, used) == Prepend(a, FormatFrom(rest, arg, used))
  {
    if a == [] {
      assert a + rest == rest;
      PrependEmpty(FormatFrom(rest, arg, used));
    } else {
      assert a + rest == [a[0]] + (a[1..] + rest);
      FormatPlainChar(a[0], a[1..] + rest, arg, used);
      FormatBraceFree(a[1..], rest, arg, used);
      PrependPrepend([a[0]], a[1..], FormatFrom(rest, arg, used));
      assert [a[0]] + a[1..] == a;
    }
  }

  /** The first character of escaped text comes out as itself. */
  lemma FormatEscapedStep(a: string, rest: string, arg: string, used: bool)
    requires a != []
    ensures FormatFrom(Escape(a) + rest, arg, used) == Prepend([a[0]], FormatFrom(Escape(a[1..]) + rest, arg, used))
  {
    var tail := Escape(a[1..]) + rest;
    if a[0] == '{' || a[0] == '}' {
      assert Escape(a) + rest == [a[0], a[0]] + tail;
      FormatDoubledBrace(a[0], tail, arg, used);
    } else {
      assert Escape(a) + rest == [a[0]] + tail;
      FormatPlainChar(a[0], tail, arg, used);
    }
  }

  /** Escaped text at the head of a template comes out as the text itself. */
  lemma {:induction false} FormatEscaped(a: string, rest: string, arg: string, used: bool)
    ensures FormatFrom(Escape(a) + rest, arg, used) == Prepend(a, FormatFrom(rest, arg, used))
  {
    if a == [] {
      assert Escape(a) + rest == rest;
      PrependEmpty(FormatFrom(rest, arg, used));
    } else {
      FormatEscapedStep(a, rest, arg, used);
      FormatEscaped(a[1..], rest, arg, used);
      PrependPrepend([a[0]], a[1..], FormatFrom(rest, arg, used));
      assert [a[0]] + a[1..] == a;
    }
  }

  /**
   * A template made of brace-free text, one `{}` and escaped text renders
   * as the text with the argument in place of `{}`.
   */
  lemma FormatOneField(head: string, tail: string, arg: string)
    requires BraceFree(head)
    ensures Format(head + "{}" + Escape(tail), arg) == Success(head + arg + tail)
  {
    var field := "{}" + (Escape(tail) + "");
    assert head + "{}" + Escape(tail) == head + field;
    FormatBraceFree(head, field, arg, false);
    assert field[2..] == Escape(tail) + "";
    FormatEscaped(tail, "", arg, true);
    assert head + (arg + (tail + "")) == head + arg + tail;
  }

  /**
   * A template made of brace-free text, one `{}`, more brace-free text and
   * then a `{` that opens a named field fails with `KeyError`, whatever
   * follows.
   */
  lemma FormatNamedFieldFails(head: string, mid: string, c: char, tail: string, arg: string)
    requires BraceFree(head) && BraceFree(mid) && c != '{' && c != '}'
    ensures Format(head + "{}" + mid + ([ '{', c ] + tail), arg) == Failure(KeyError)
  {
    var rest := mid + (['{', c] + tail);
    assert head + "{}" + mid + (['{', c] + tail) == head + ("{}" + rest);
    FormatBraceFree(head, "{}" + rest, arg, false);
    assert ("{}" + rest)[2..] == rest;
    FormatBraceFree(mid, ['{', c] + tail, arg, true);
  }
}

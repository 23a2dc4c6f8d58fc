/**
 * The two JavaScript string built-ins the USSD menu walker is built on:
 * `text.split("*")`, which cuts the dialled text into menu segments, and
 * `Number.parseInt(segment)`, which reads the numbers typed at a prompt.
 */
module JsText {
  import opened Wrappers

  /** The separator a USSD gateway puts between successive menu choices. */
  const Star: char := '*'

  predicate IsDigit(c: char) { '0' <= c <= '9' }

  predicate AllDigits(s: string) { forall i :: 0 <= i < |s| ==> IsDigit(s[i]) }

  function DigitValue(c: char): (v: nat)
    requires IsDigit(c)
    ensures v <= 9
  {
    c as int - '0' as int
  }

  function DigitChar(v: nat): (c: char)
    requires v <= 9
    ensures IsDigit(c) && DigitValue(c) == v
  {
    ('0' as int + v) as char
  }

  // ---------------------------------------------------------------------------
  // String.prototype.split with a one-character separator
  // ---------------------------------------------------------------------------

  /** The inverse of `Split`: the segments glued back together with `*` between them. */
  function Join(segments: seq<string>): string
    requires |segments| >= 1
  {
    if |segments| == 1 then segments[0] else segments[0] + [Star] + Join(segments[1..])
  }

  /** Joining a sequence with a first piece in front. */
  lemma JoinCons(x: string, rest: seq<string>)
    ensures Join([x] + rest) == if rest == [] then x else x + [Star] + Join(rest)
  {
    var l := [x] + rest;
    assert l[0] == x;
    assert l[1..] == rest;
  }

  lemma JoinExtendFirst(c: char, segments: seq<string>)
    requires |segments| >= 1
    ensures Join([[c] + segments[0]] + segments[1..]) == [c] + Join(segments)
  {
    var head, rest := segments[0], segments[1..];
    assert segments == [head] + rest;
    JoinCons([c] + head, rest);
    JoinCons(head, rest);
    if rest != [] {
      Regroup([c], head, [Star], Join(rest));
    } else {
      assert [c] + head == [c] + Join(segments);
    }
  }

  /** Solver hint: the empty string is a left unit of concatenation. */
  lemma EmptyFront(a: string)
    ensures "" + a == a
  {
  }

  /** Solver hint: concatenation of three strings is associative. */
  lemma Regroup3(a: string, b: string, c: string)
    ensures a + b + c == a + (b + c)
  {
  }

  /** Solver hint: regrouping four concatenated strings. */
  lemma Regroup(a: string, b: string, c: string, d: string)
    ensures a + b + c + d == a + (b + c + d)
  {
  }

  lemma JoinEmptyFirst(segments: seq<string>)
    requires |segments| >= 1
    ensures Join([""] + segments) == [Star] + Join(segments)
  {
    JoinCons("", segments);
    EmptyFront([Star] + Join(segments));
  }

  /**
   * `s.split("*")`: the maximal star-free pieces of `s`, in order. There is
   * always at least one piece ("" splits into [""]), and a leading, trailing
   * or doubled star gives an empty piece.
   */
  function Split(s: string): (r: seq<string>)
    ensures |r| >= 1
    ensures forall i :: 0 <= i < |r| ==> Star !in r[i]
    ensures Join(r) == s
  {
    if s == [] then [""]
    else
      var rest := Split(s[1..]);
      if s[0] == Star then
        JoinEmptyFirst(rest);
        [""] + rest
      else
        JoinExtendFirst(s[0], rest);
        assert s == [s[0]] + s[1..];
        [[s[0]] + rest[0]] + rest[1..]
  }

  /** Splitting a star-free prefix glued to the rest extends the rest's first piece. */
  lemma {:induction false} SplitPrefix(a: string, b: string)
    requires Star !in a
    ensures Split(a + b) == [a + Split(b)[0]] + Split(b)[1..]
  {
    if a != [] {
      assert (a + b)[1..] == a[1..] + b;
      SplitPrefix(a[1..], b);
      assert [a[0]] + (a[1..] + Split(b)[0]) == a + Split(b)[0];
    } else {
      assert a + b == b;
      assert a + Split(b)[0] == Split(b)[0];
      assert Split(b) == [Split(b)[0]] + Split(b)[1..];
    }
  }

  /** Splitting undoes joining star-free pieces. */
  lemma {:induction false} SplitJoin(segments: seq<string>)
    requires |segments| >= 1
    requires forall i :: 0 <= i < |segments| ==> Star !in segments[i]
    ensures Split(Join(segments)) == segments
  {
    if |segments| == 1 {
      SplitPrefix(segments[0], "");
      assert segments[0] + "" == segments[0];
    } else {
      var tail := segments[1..];
      SplitJoin(tail);
      var b := [Star] + Join(tail);
      assert Join(segments) == segments[0] + b;
      SplitPrefix(segments[0], b);
      assert Split(b) == [""] + tail;
      assert segments[0] + "" == segments[0];
      assert segments == [segments[0]] + tail;
    }
  }

  // ---------------------------------------------------------------------------
  // Number.parseInt without a radix
  // ---------------------------------------------------------------------------

  /** The characters that parseInt skips at the front: white space and line terminators. */
  predicate IsJsSpace(c: char) {
    || c == '\t' || c == '\n' || c == '\U{B}' || c == '\U{C}' || c == '\r' || c == ' '
    || c == '\U{A0}' || c == '\U{1680}' || ('\U{2000}' <= c <= '\U{200A}')
    || c == '\U{2028}' || c == '\U{2029}' || c == '\U{202F}' || c == '\U{205F}'
    || c == '\U{3000}' || c == '\U{FEFF}'
  }

  /** `s` without its leading white space. */
  function TrimStart(s: string): (r: string)
    ensures |r| <= |s| && r == s[|s| - |r|..]
    ensures forall i :: 0 <= i < |s| - |r| ==> IsJsSpace(s[i])
    ensures r == [] || !IsJsSpace(r[0])
  {
    if s != [] && IsJsSpace(s[0]) then TrimStart(s[1..]) else s
  }

  /** The longest prefix of `s` made of decimal digits. */
  function LeadingDigits(s: string): (r: string)
    ensures |r| <= |s| && r == s[..|r|]
    ensures AllDigits(r)
    ensures |r| == |s| || !IsDigit(s[|r|])
  {
    if s != [] && IsDigit(s[0]) then [s[0]] + LeadingDigits(s[1..]) else []
  }

  /** The number a string of decimal digits denotes, most significant digit first. */
  function DigitsValue(ds: string): nat
    requires AllDigits(ds)
  {
    if ds == [] then 0 else 10 * DigitsValue(ds[..|ds| - 1]) + DigitValue(ds[|ds| - 1])
  }

  /**
   * `Number.parseInt(s)`, with None standing for NaN: skip leading white
   * space, take one optional sign, then the longest run of decimal digits;
   * no digit at all is NaN, and anything after the digits is ignored.
   */
  function ParseInt(s: string): Option<int> {
    ParseSigned(TrimStart(s))
  }

  /** parseInt once the leading white space is gone. */
  function ParseSigned(t: string): Option<int> {
    var ds := LeadingDigits(Unsigned(t));
    var magnitude: int := DigitsValue(ds);
    if ds == [] then None else Some(if Negative(t) then -magnitude else magnitude)
  }

  /** The text starts with a minus sign. */
  predicate Negative(t: string) {
    t != [] && t[0] == '-'
  }

  /** The text after one leading sign, if there is one. */
  function Unsigned(t: string): string {
    if t != [] && (t[0] == '-' || t[0] == '+') then t[1..] else t
  }

  /** A sign (or none) glued to a numeral is taken off again, and only '-' reads as negative. */
  lemma SignThenDigits(sign: string, u: string)
    requires sign == "" || sign == "+" || sign == "-"
    requires u != [] && IsDigit(u[0])
    ensures Unsigned(sign + u) == u
    ensures Negative(sign + u) <==> sign == "-"
    ensures !IsJsSpace((sign + u)[0])
  {
    if sign == "" {
      assert sign + u == u;
    } else {
      var t := sign + u;
      assert t[0] == sign[0];
      assert t[1..] == u;
    }
  }

  /** The shortest decimal numeral for `n`: an independent rendering to read back. */
  function Decimal(n: nat): (s: string)
    ensures s != [] && AllDigits(s)
  {
    if n < 10 then [DigitChar(n)] else Decimal(n / 10) + [DigitChar(n % 10)]
  }

  lemma {:induction false} DecimalValue(n: nat)
    ensures DigitsValue(Decimal(n)) == n
  {
    if n >= 10 {
      DecimalValue(n / 10);
      var s := Decimal(n);
      assert s[..|s| - 1] == Decimal(n / 10);
    }
  }

  lemma {:induction false} TrimSpaces(ws: string, t: string)
    requires forall i :: 0 <= i < |ws| ==> IsJsSpace(ws[i])
    requires t == [] || !IsJsSpace(t[0])
    ensures TrimStart(ws + t) == t
  {
    if ws != [] {
      assert (ws + t)[1..] == ws[1..] + t;
      TrimSpaces(ws[1..], t);
    } else {
      assert ws + t == t;
    }
  }

  lemma {:induction false} DigitsThenRest(ds: string, rest: string)
    requires AllDigits(ds)
    requires rest == [] || !IsDigit(rest[0])
    ensures LeadingDigits(ds + rest) == ds
  {
    if ds != [] {
      assert (ds + rest)[1..] == ds[1..] + rest;
      DigitsThenRest(ds[1..], rest);
      assert ds == [ds[0]] + ds[1..];
    } else {
      assert ds + rest == rest;
    }
  }

  /** After the white space: one optional sign, then the digits up to the first non-digit. */
  lemma ParseSignedDigits(sign: string, ds: string, rest: string, v: nat)
    requires sign == "" || sign == "+" || sign == "-"
    requires ds != [] && AllDigits(ds) && DigitsValue(ds) == v
    requires rest == [] || !IsDigit(rest[0])
    ensures ParseSigned(sign + (ds + rest)) == Some(if sign == "-" then -(v as int) else v)
  {
    DigitsThenRest(ds, rest);
    var u := ds + rest;
    assert u[0] == ds[0];
    SignThenDigits(sign, u);
    ParseSignedFrom(sign + u, u, ds);
  }

  /** ParseSigned once the text after the sign and its leading digits are known. */
  lemma ParseSignedFrom(t: string, u: string, ds: string)
    requires Unsigned(t) == u && LeadingDigits(u) == ds && ds != []
    ensures ParseSigned(t) == Some(if Negative(t) then -(DigitsValue(ds) as int) else DigitsValue(ds))
  {
  }

  /**
   * parseInt reads back any numeral: after leading white space and one
   * optional sign, the digits of `n` are read as `n` (negated after '-'),
   * and whatever follows the digits is ignored.
   */
  lemma ParseIntReadsNumeral(ws: string, sign: string, n: nat, rest: string)
    requires forall i :: 0 <= i < |ws| ==> IsJsSpace(ws[i])
    requires sign == "" || sign == "+" || sign == "-"
    requires rest == [] || !IsDigit(rest[0])
    ensures ParseInt(ws + sign + Decimal(n) + rest) == Some(if sign == "-" then -(n as int) else n)
  {
    var ds := Decimal(n);
    var u := ds + rest;
    Regroup(ws, sign, ds, rest);
    Regroup3(sign, ds, rest);
    assert u[0] == ds[0];
    SignThenDigits(sign, u);
    TrimSpaces(ws, sign + u);
    DecimalValue(n);
    ParseSignedDigits(sign, ds, rest, n);
  }

  /**
   * parseInt is NaN when no digit follows the leading white space and the
   * optional sign (`KSh1500`, `x5`, `+-5`, `- 5`). This is the other half of
   * ParseIntReadsNumeral and ParseSignedDigits: after the white space and a
   * sign comes either a digit or something else.
   */
  lemma ParseIntWithoutLeadingDigit(ws: string, sign: string, rest: string)
    requires forall i :: 0 <= i < |ws| ==> IsJsSpace(ws[i])
    requires sign == "" || sign == "+" || sign == "-"
    requires rest == [] || !IsDigit(rest[0])
    requires sign == "" && rest != [] ==> !IsJsSpace(rest[0]) && rest[0] != '+' && rest[0] != '-'
    ensures ParseInt(ws + sign + rest).None?
  {
    Regroup3(ws, sign, rest);
    TrimSpaces(ws, sign + rest);
    assert Unsigned(sign + rest) == rest;
  }

  /** A string without any digit parses to NaN. */
  lemma ParseIntWithoutDigits(s: string)
    requires forall i :: 0 <= i < |s| ==> !IsDigit(s[i])
    ensures ParseInt(s).None?
  {
  }
}

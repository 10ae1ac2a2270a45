/**
 * Python's `%` string-formatting operator, `text % tuple(args)`, for format
 * strings whose only conversion specifiers are `%s` (insert the next
 * argument's str() text) and `%%` (a literal percent sign), together with
 * str() of an integer, which the backend's error messages rely on.
 */
module PyFormat {
  import opened Wrappers

  /** The two TypeErrors Python raises when the argument count is wrong. */
  datatype FormatError =
    | NotEnoughArguments   // "not enough arguments for format string"
    | NotAllConverted      // "not all arguments converted during string formatting"

  /** Every '%' in `q` opens a `%s` or a `%%` specifier. */
  predicate WellFormed(q: string)
  {
    if q == [] then true
    else if q[0] == '%' then |q| >= 2 && (q[1] == 's' || q[1] == '%') && WellFormed(q[2..])
    else WellFormed(q[1..])
  }

  /** Number of `%s` specifiers in `q`. */
  function Slots(q: string): nat
    requires WellFormed(q)
  {
    if q == [] then 0
    else if q[0] == '%' then (if q[1] == 's' then 1 else 0) + Slots(q[2..])
    else Slots(q[1..])
  }

  /** Number of `%%` specifiers in `q`. */
  function Escapes(q: string): nat
    requires WellFormed(q)
  {
    if q == [] then 0
    else if q[0] == '%' then (if q[1] == '%' then 1 else 0) + Escapes(q[2..])
    else Escapes(q[1..])
  }

  /** Total length of the argument texts. */
  function TotalLength(args: seq<string>): nat
  {
    if args == [] then 0 else |args[0]| + TotalLength(args[1..])
  }

  /**
   * `q % tuple(args)`: scanning left to right, `%s` takes the next argument,
   * `%%` gives '%', any other character is copied. Running out of arguments
   * at a `%s` raises NotEnoughArguments; arguments left over at the end
   * raise NotAllConverted.
   */
  function Format(q: string, args: seq<string>): (r: Result<string, FormatError>)
    requires WellFormed(q)
    ensures r.Ok? <==> Slots(q) == |args|
    ensures r == Err(NotEnoughArguments) <==> Slots(q) > |args|
    ensures r == Err(NotAllConverted) <==> Slots(q) < |args|
  {
    if q == [] then
      if args == [] then Ok([]) else Err(NotAllConverted)
    else if q[0] != '%' then
      Prefixed([q[0]], Format(q[1..], args))
    else if q[1] == '%' then
      Prefixed("%", Format(q[2..], args))
    else if args == [] then
      Err(NotEnoughArguments)
    else
      Prefixed(args[0], Format(q[2..], args[1..]))
  }

  /** Each `%s` is replaced by its argument and each `%%` shrinks to one character. */
  lemma {:induction false} FormatLength(q: string, args: seq<string>)
    requires WellFormed(q) && Slots(q) == |args|
    ensures |Format(q, args).value| == |q| - 2 * Slots(q) - Escapes(q) + TotalLength(args)
  {
    if q == [] {
    } else if q[0] != '%' {
      FormatLength(q[1..], args);
    } else if q[1] == '%' {
      FormatLength(q[2..], args);
    } else {
      FormatLength(q[2..], args[1..]);
    }
  }

  lemma {:induction false} WellFormedAppend(a: string, b: string)
    requires WellFormed(a) && WellFormed(b)
    ensures WellFormed(a + b)
    ensures Slots(a + b) == Slots(a) + Slots(b)
    ensures Escapes(a + b) == Escapes(a) + Escapes(b)
  {
    if a == [] {
      assert a + b == b;
    } else if a[0] != '%' {
      assert (a + b)[1..] == a[1..] + b;
      WellFormedAppend(a[1..], b);
    } else {
      assert (a + b)[2..] == a[2..] + b;
      WellFormedAppend(a[2..], b);
    }
  }

  /**
   * Formatting is compositional: a format string split where the first part
   * consumes exactly its own arguments formats as the two halves joined.
   */
  lemma {:induction false} FormatAppend(a: string, b: string, x: seq<string>, y: seq<string>)
    requires WellFormed(a) && WellFormed(b) && Slots(a) == |x|
    ensures WellFormed(a + b)
    ensures Format(a + b, x + y) == Prefixed(Format(a, x).value, Format(b, y))
  {
    WellFormedAppend(a, b);
    if a == [] {
      assert a + b == b && x + y == y;
      match Format(b, y)
      case Ok(t) => assert [] + t == t;
      case Err(_) =>
    } else if a[0] != '%' {
      assert (a + b)[0] == a[0] && (a + b)[1..] == a[1..] + b;
      FormatAppend(a[1..], b, x, y);
      PrefixedAssoc([a[0]], Format(a[1..], x).value, Format(b, y));
    } else if a[1] == '%' {
      assert (a + b)[..2] == a[..2] && (a + b)[2..] == a[2..] + b;
      FormatAppend(a[2..], b, x, y);
      PrefixedAssoc("%", Format(a[2..], x).value, Format(b, y));
    } else {
      assert (a + b)[..2] == a[..2] && (a + b)[2..] == a[2..] + b;
      assert (x + y)[0] == x[0] && (x + y)[1..] == x[1..] + y;
      FormatAppend(a[2..], b, x[1..], y);
      PrefixedAssoc(x[0], Format(a[2..], x[1..]).value, Format(b, y));
    }
  }

  lemma PrefixedAssoc(s: string, t: string, r: Result<string, FormatError>)
    ensures Prefixed(s, Prefixed(t, r)) == Prefixed(s + t, r)
  {
    match r
    case Ok(u) => assert s + (t + u) == (s + t) + u;
    case Err(_) =>
  }

  /** The three kinds of piece a format string is built from. */
  lemma FormatPieces(c: char, v: string)
    requires c != '%'
    ensures WellFormed([c]) && Format([c], []) == Ok([c])
    ensures WellFormed("%s") && Format("%s", [v]) == Ok(v)
    ensures WellFormed("%%") && Format("%%", []) == Ok("%")
  {
    assert [c][1..] == [] && [c] + [] == [c];
    assert "%s"[2..] == [] && "%%"[2..] == [];
    assert v + [] == v && "%" + [] == "%";
  }

  /** Text without a '%' formats to itself and holds no placeholder. */
  lemma {:induction false} PlainText(s: string)
    requires '%' !in s
    ensures WellFormed(s) && Slots(s) == 0 && Escapes(s) == 0
    ensures Format(s, []) == Ok(s)
  {
    if s != [] {
      assert s[0] in s && forall c :: c in s[1..] ==> c in s;
      PlainText(s[1..]);
      assert [s[0]] + s[1..] == s;
    }
  }

  /** Doubles every '%': the text a caller writes to get `s` through formatting. */
  function Escape(s: string): string
  {
    if s == [] then []
    else (if s[0] == '%' then "%%" else [s[0]]) + Escape(s[1..])
  }

  /** Formatting an escaped text with no arguments gives the text back. */
  lemma {:induction false} EscapeRoundTrip(s: string)
    ensures WellFormed(Escape(s)) && Slots(Escape(s)) == 0
    ensures Format(Escape(s), []) == Ok(s)
  {
    if s != [] {
      EscapeRoundTrip(s[1..]);
      var head := if s[0] == '%' then "%%" else [s[0]];
      FormatPieces(if s[0] == '%' then 'x' else s[0], "");
      FormatAppend(head, Escape(s[1..]), [], []);
      assert [s[0]] + s[1..] == s;
    }
  }

  // ---- str() of an integer -------------------------------------------------

  function DigitChar(d: nat): char
    requires d < 10
  {
    "0123456789"[d]
  }

  function DigitValue(c: char): nat
  {
    if '0' <= c <= '9' then (c as int - '0' as int) as nat else 0
  }

  /** Decimal digits of `n`, most significant first. */
  function Decimal(n: nat): (r: string)
    ensures |r| >= 1 && '0' <= r[0] <= '9'
  {
    if n < 10 then [DigitChar(n)] else Decimal(n / 10) + [DigitChar(n % 10)]
  }

  /** Value of a string of decimal digits. */
  function ParseDecimal(s: string): nat
  {
    if s == [] then 0 else 10 * ParseDecimal(s[..|s| - 1]) + DigitValue(s[|s| - 1])
  }

  lemma {:induction false} DecimalRoundTrip(n: nat)
    ensures ParseDecimal(Decimal(n)) == n
  {
    var r := Decimal(n);
    if n < 10 {
      assert r[..|r| - 1] == [];
    } else {
      DecimalRoundTrip(n / 10);
      assert r[..|r| - 1] == Decimal(n / 10);
    }
  }

  /** str(i) for a Python int. */
  function IntStr(i: int): (r: string)
    ensures |r| >= 1 && (r[0] == '-' <==> i < 0)
  {
    if i < 0 then "-" + Decimal(-i) else Decimal(i)
  }

  /** int() of a decimal string with an optional leading minus sign. */
  function ParseInt(s: string): int
  {
    if |s| > 0 && s[0] == '-' then 0 - ParseDecimal(s[1..]) as int else ParseDecimal(s)
  }

  /** str() of an integer reads back as the same integer. */
  lemma IntStrRoundTrip(i: int)
    ensures ParseInt(IntStr(i)) == i
  {
    if i < 0 {
      var d := Decimal(-i);
      assert IntStr(i) == "-" + d;
      assert ("-" + d)[1..] == d;
      DecimalRoundTrip(-i);
    } else {
      DecimalRoundTrip(i);
    }
  }
}

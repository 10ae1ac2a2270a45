/**
 * FirebirdCursorWrapper: the cursor Django talks to. It turns Django's
 * "format" placeholders (`%s`) into Firebird's "qmark" placeholders (`?`)
 * before handing a statement to the fdb driver, and turns the driver's
 * exceptions into Django's IntegrityError / DatabaseError.
 *
 * The driver cursor is a parameter: a function from the statement text and
 * its parameters to what the driver does (returns a value or raises).
 * Parameters are modelled by their str() text; the encoding step
 * (smart_str) is the identity.
 */
module CursorWrapper {
  import opened Wrappers
  import opened PyFormat

  /** An exception argument as the driver stores it in `e.args`. */
  datatype Value = Int(i: int) | Text(s: string)

  /** str() of an exception argument. */
  function Str(v: Value): string
  {
    match v
    case Int(i) => IntStr(i)
    case Text(s) => s
  }

  /**
   * The driver's exception classes the wrapper catches: fdb's IntegrityError,
   * and every other subclass of fdb's DatabaseError.
   */
  datatype DriverErrorKind = DriverIntegrityError | DriverDatabaseError

  /** A driver exception; fdb puts the message in args[0] and the SQL code in args[1]. */
  datatype DriverError = DriverError(kind: DriverErrorKind, args: seq<Value>)

  datatype DriverResult<R> = Returned(value: R) | Failed(error: DriverError)

  /** Django's exception classes the wrapper raises. */
  datatype DjangoErrorKind = IntegrityError | DatabaseError

  /** The two constructor arguments of the Django exception. */
  datatype ErrorArgs = ErrorArgs(original: Value, message: string)

  /** What escapes from execute/executemany. */
  datatype Exception =
    | Django(kind: DjangoErrorKind, info: ErrorArgs)
    | TypeError(cause: FormatError)   // a `%` formatting with the wrong argument count
    | IndexError                      // e.args[1] or param_list[0] does not exist

  datatype Outcome<R> = Completed(value: R) | Raised(exc: Exception)

  /** SQL codes the driver reports as DatabaseError that are really integrity violations. */
  const CodesForIntegrityError: seq<int> := [-803, -625]

  /** `tuple("?" * n)`: n one-character strings "?". */
  function Qmarks(n: nat): (r: seq<string>)
    ensures |r| == n && TotalLength(r) == n
    ensures forall i :: 0 <= i < n ==> r[i] == "?"
  {
    if n == 0 then [] else ["?"] + Qmarks(n - 1)
  }

  /**
   * convert_query: with no parameters the text goes to the driver as it is;
   * otherwise it is %-formatted with one "?" per parameter.
   */
  function ConvertQuery(query: string, n: nat): (r: Result<string, FormatError>)
    requires n > 0 ==> WellFormed(query)
    ensures n == 0 ==> r == Ok(query)
    ensures n > 0 ==> (r.Ok? <==> Slots(query) == n)
    ensures n > 0 ==> (r == Err(NotEnoughArguments) <==> Slots(query) > n)
    ensures n > 0 ==> (r == Err(NotAllConverted) <==> Slots(query) < n)
  {
    if n == 0 then Ok(query) else Format(query, Qmarks(n))
  }

  /**
   * A successful conversion rewrites each `%s` to '?' and each `%%` to '%'
   * and copies everything else: one character shorter per specifier.
   */
  lemma ConvertQueryLength(query: string, n: nat)
    requires n > 0 && WellFormed(query) && Slots(query) == n
    ensures |ConvertQuery(query, n).value| == |query| - Slots(query) - Escapes(query)
  {
    FormatLength(query, Qmarks(n));
  }

  lemma {:induction false} QmarksAppend(n: nat, m: nat)
    ensures Qmarks(n + m) == Qmarks(n) + Qmarks(m)
  {
    if n > 0 {
      QmarksAppend(n - 1, m);
      assert Qmarks(n + m) == ["?"] + Qmarks(n - 1 + m);
    }
  }

  /**
   * Conversion works piece by piece: converting a statement whose two parts
   * hold n and m placeholders gives the two parts converted and joined.
   */
  lemma ConvertQueryAppend(a: string, b: string, n: nat, m: nat)
    requires WellFormed(a) && WellFormed(b) && Slots(a) == n && Slots(b) == m && n > 0 && m > 0
    ensures WellFormed(a + b)
    ensures ConvertQuery(a + b, n + m) == Prefixed(ConvertQuery(a, n).value, ConvertQuery(b, m))
  {
    QmarksAppend(n, m);
    FormatAppend(a, b, Qmarks(n), Qmarks(m));
  }

  /**
   * The qmark form of a format-style statement: `%s` becomes '?', `%%`
   * becomes '%', every other character is kept, in order.
   */
  function QmarkStyle(q: string): string
    requires WellFormed(q)
  {
    if q == [] then []
    else if q[0] != '%' then [q[0]] + QmarkStyle(q[1..])
    else if q[1] == '%' then "%" + QmarkStyle(q[2..])
    else "?" + QmarkStyle(q[2..])
  }

  lemma {:induction false} FormatWithQmarks(q: string, args: seq<string>)
    requires WellFormed(q) && Slots(q) == |args|
    requires forall i :: 0 <= i < |args| ==> args[i] == "?"
    ensures Format(q, args) == Ok(QmarkStyle(q))
  {
    if q == [] {
    } else if q[0] != '%' {
      FormatWithQmarks(q[1..], args);
    } else if q[1] == '%' {
      FormatWithQmarks(q[2..], args);
    } else {
      FormatWithQmarks(q[2..], args[1..]);
    }
  }

  /**
   * With parameters, a statement holding as many `%s` as there are
   * parameters converts to its qmark form.
   */
  lemma ConvertQueryIsQmarkStyle(q: string, n: nat)
    requires n > 0 && WellFormed(q) && Slots(q) == n
    ensures ConvertQuery(q, n) == Ok(QmarkStyle(q))
  {
    FormatWithQmarks(q, Qmarks(n));
  }

  /**
   * With no parameters the text is not %-processed, so an escaped percent
   * reaches the driver doubled; with parameters it is un-escaped.
   */
  lemma ConvertQueryEscapedPercent(s: string)
    ensures ConvertQuery(Escape(s), 0) == Ok(Escape(s))
    ensures WellFormed(Escape(s) + "%s")
    ensures ConvertQuery(Escape(s) + "%s", 1) == Ok(s + "?")
  {
    EscapeRoundTrip(s);
    FormatPieces('x', "?");
    FormatAppend(Escape(s), "%s", [], ["?"]);
    assert Qmarks(1) == ["?"] && [] + ["?"] == ["?"];
  }

  /**
   * The rule both except-clauses implement: a driver IntegrityError, or a
   * DatabaseError whose code is one of CodesForIntegrityError, becomes
   * Django's IntegrityError; any other DatabaseError stays a DatabaseError.
   */
  function Classify(kind: DriverErrorKind, code: Value): (k: DjangoErrorKind)
    ensures kind == DriverIntegrityError ==> k == IntegrityError
    ensures kind == DriverDatabaseError ==> (k == IntegrityError <==> code == Int(-803) || code == Int(-625))
  {
    if kind == DriverIntegrityError || (code.Int? && code.i in CodesForIntegrityError) then IntegrityError
    else DatabaseError
  }

  /**
   * error_info as written: `(e.args[0], '%s -- %s' % (e.args[1], q % tuple(p)))`.
   * The query is %-formatted with the parameters even when there are none.
   */
  function ErrorInfoAsWritten(e: DriverError, q: string, p: seq<string>): (r: Result<ErrorArgs, FormatError>)
    requires |e.args| >= 2 && WellFormed(q)
    ensures r.Ok? <==> Slots(q) == |p|
    ensures r.Ok? ==> r.value.original == e.args[0]
    ensures r.Ok? ==> r.value.message == Str(e.args[1]) + " -- " + Format(q, p).value
  {
    match Format(q, p)
    case Ok(body) => Ok(ErrorArgs(e.args[0], Str(e.args[1]) + " -- " + body))
    case Err(fe) => Err(fe)
  }

  /**
   * When execute is called without parameters, error_info as written formats
   * the untouched query with an empty tuple: a query whose text holds a `%s`
   * turns the driver's error into a TypeError.
   */
  lemma ErrorInfoAsWrittenFailsWithoutParams(e: DriverError, q: string)
    requires |e.args| >= 2 && WellFormed(q) && Slots(q) > 0
    ensures ErrorInfoAsWritten(e, q, []) == Err(NotEnoughArguments)
  {
  }

  /**
   * error_info with the query formatted only when there are parameters, the
   * same choice convert_query makes: the message is the SQL code, " -- ",
   * and the statement as Django wrote it with its parameters interpolated.
   */
  function ErrorInfo(e: DriverError, q: string, p: seq<string>): (r: Result<ErrorArgs, FormatError>)
    requires |e.args| >= 2 && (p != [] ==> WellFormed(q))
    ensures r.Ok? <==> p == [] || Slots(q) == |p|
    ensures r.Ok? ==> r.value.original == e.args[0]
    ensures p == [] ==> r == Ok(ErrorArgs(e.args[0], Str(e.args[1]) + " -- " + q))
    ensures p != [] && r.Ok? ==> r.value == ErrorArgs(e.args[0], Str(e.args[1]) + " -- " + Format(q, p).value)
  {
    if p == [] then Ok(ErrorArgs(e.args[0], Str(e.args[1]) + " -- " + q))
    else ErrorInfoAsWritten(e, q, p)
  }

  /** The exception an except-clause re-raises for driver error `e`. */
  function Reraise(e: DriverError, query: string, p: seq<string>): (x: Exception)
    requires p != [] ==> WellFormed(query)
    ensures |e.args| < 2 ==> x == IndexError
    ensures |e.args| >= 2 && (p == [] || Slots(query) == |p|) ==>
      x.Django? && x.kind == Classify(e.kind, e.args[1]) && x.info.original == e.args[0]
    ensures |e.args| >= 2 && p != [] && Slots(query) != |p| ==> x.TypeError?
  {
    if |e.args| < 2 then IndexError
    else
      match ErrorInfo(e, query, p)
      case Ok(info) => Django(Classify(e.kind, e.args[1]), info)
      case Err(fe) => TypeError(fe)
  }

  /** `params` with None read as the empty list. */
  function ParamsOrEmpty(params: Option<seq<string>>): seq<string>
  {
    match params
    case None => []
    case Some(p) => p
  }

  /** execute(query, params=None) */
  function Execute<R>(query: string, params: Option<seq<string>>,
                      driver: (string, seq<string>) -> DriverResult<R>): (r: Outcome<R>)
    requires ParamsOrEmpty(params) != [] ==> WellFormed(query)
    ensures (r.Raised? && r.exc.TypeError?) <==>
      ParamsOrEmpty(params) != [] && Slots(query) != |ParamsOrEmpty(params)|
    ensures r.Completed? ==>
      (ConvertQuery(query, |ParamsOrEmpty(params)|).Ok? &&
       driver(ConvertQuery(query, |ParamsOrEmpty(params)|).value, ParamsOrEmpty(params)) == Returned(r.value))
  {
    var p := ParamsOrEmpty(params);
    match ConvertQuery(query, |p|)
    case Err(fe) => Raised(TypeError(fe))
    case Ok(q) =>
      match driver(q, p)
      case Returned(v) => Completed(v)
      case Failed(e) => Raised(Reraise(e, query, p))
  }

  /** executemany(query, param_list): the conversion is sized by the first parameter set. */
  function ExecuteMany<R>(query: string, paramList: seq<seq<string>>,
                          driver: (string, seq<seq<string>>) -> DriverResult<R>): (r: Outcome<R>)
    requires paramList != [] && paramList[0] != [] ==> WellFormed(query)
    ensures paramList == [] ==> r == Raised(IndexError)
  {
    if paramList == [] then Raised(IndexError)
    else
      match ConvertQuery(query, |paramList[0]|)
      case Err(fe) => Raised(TypeError(fe))
      case Ok(q) =>
        match driver(q, paramList)
        case Returned(v) => Completed(v)
        case Failed(e) => Raised(Reraise(e, query, paramList[0]))
  }

  /** Leaving params out is the same as passing an empty list. */
  lemma ExecuteWithoutParams<R>(query: string, driver: (string, seq<string>) -> DriverResult<R>)
    ensures Execute(query, None, driver) == Execute(query, Some([]), driver)
    ensures driver(query, []).Returned? ==> Execute(query, None, driver) == Completed(driver(query, []).value)
  {
  }

  /**
   * What execute does, case by case: a placeholder-count mismatch raises
   * TypeError before the driver is called; otherwise the driver receives the
   * converted statement; a driver error whose args hold a code always comes
   * out as a Django exception, classified by Classify, carrying the original
   * message and "<code> -- <statement with parameters>".
   */
  lemma ExecuteOutcome<R>(query: string, p: seq<string>, driver: (string, seq<string>) -> DriverResult<R>)
    requires p != [] ==> WellFormed(query)
    ensures p != [] && Slots(query) != |p| ==>
      (Execute(query, Some(p), driver).Raised? && Execute(query, Some(p), driver).exc.TypeError?)
    ensures p == [] || Slots(query) == |p| ==>
      var q := ConvertQuery(query, |p|).value;
      var out := Execute(query, Some(p), driver);
      (driver(q, p).Returned? ==> out == Completed(driver(q, p).value)) &&
      (driver(q, p).Failed? && |driver(q, p).error.args| < 2 ==> out == Raised(IndexError)) &&
      (driver(q, p).Failed? && |driver(q, p).error.args| >= 2 ==>
        var e := driver(q, p).error;
        out == Raised(Django(Classify(e.kind, e.args[1]),
                             ErrorArgs(e.args[0], Str(e.args[1]) + " -- " +
                                       (if p == [] then query else Format(query, p).value)))))
  {
  }

  /**
   * executemany maps errors exactly as execute does with the first parameter
   * set, when the driver reacts to both calls alike.
   */
  lemma ExecuteManyAgreesWithExecute<R>(query: string, paramList: seq<seq<string>>,
                                        one: (string, seq<string>) -> DriverResult<R>,
                                        many: (string, seq<seq<string>>) -> DriverResult<R>)
    requires paramList != [] && (paramList[0] != [] ==> WellFormed(query))
    requires forall q :: one(q, paramList[0]) == many(q, paramList)
    ensures ExecuteMany(query, paramList, many) == Execute(query, Some(paramList[0]), one)
  {
  }
}

# django-firebird backend core, in Dafny

A model of the logic in `firebird/base.py` of the Django database backend
for Firebird:

- **FirebirdCursorWrapper** (`cursor_wrapper.dfy`, module `CursorWrapper`).
  Django writes statements with "format" placeholders (`%s`). Firebird
  expects "qmark" placeholders (`?`). `convert_query` rewrites one into the
  other with Python's `%` operator, sized by the number of parameters, and
  skips the rewrite when there are none. `execute` and `executemany` pass the
  converted statement to the fdb driver. A driver exception becomes Django's
  `IntegrityError` when it is an fdb `IntegrityError`, or an fdb
  `DatabaseError` whose SQL code is -803 or -625. Every other `DatabaseError`
  becomes Django's `DatabaseError`. The Django exception's arguments come
  from `error_info`.
- **Python's `%` operator** (`pyformat.dfy`, module `PyFormat`). This
  covers format strings whose only specifiers are `%s` and `%%`, and `str()`
  of an integer. It is modelled exactly, including the two `TypeError`s
  raised when the argument count is wrong.
- **DatabaseWrapper** (`backend.dfy`, module `Backend`). This covers the
  lookup-operator table and `_cursor`. `_cursor` builds the connect keywords
  from the `DATABASES` settings (NAME, HOST, PORT, USER, PASSWORD, OPTIONS),
  records the charset and the Python encoding, and hands out a cursor. It is
  a class whose `Cursor` method updates the connection fields in place.
- `wrappers.dfy` holds the `Result`/`Option` values that stand for "return
  or raise".

The driver is a function parameter. It maps a statement and its parameters
to a returned value or a raised driver exception. Parameters are modelled by
their `str()` text. `smart_str` is the identity. fdb's `charset_map` is a map
given to the `DatabaseWrapper` constructor. The open connection is
represented by the keyword arguments it was opened with.

## Model

| member | source | states |
|---|---|---|
| `PyFormat.Format` | firebird/base.py:182 | `q % tuple(args)` succeeds exactly when the number of `%s` equals the number of arguments. It raises "not enough arguments" exactly when there are more `%s`, and "not all arguments converted" exactly when there are fewer. |
| `PyFormat.FormatAppend` | firebird/base.py:182 | Formatting is compositional. A format string split where the first part uses exactly its own arguments formats to the two parts' results joined. |
| `PyFormat.FormatPieces` | firebird/base.py:182 | `%s` becomes its argument, `%%` becomes `%`, and any other character is copied. With FormatAppend this fixes the output of any format string. |
| `PyFormat.FormatLength` | firebird/base.py:182 | The output is the input's length, minus two per `%s` and one per `%%`, plus the arguments' lengths. |
| `PyFormat.PlainText` | firebird/base.py:182 | Text without `%` has no placeholder and formats to itself. |
| `PyFormat.EscapeRoundTrip` | firebird/base.py:137-140 | Doubling every `%` in a text gives a format string with no placeholder that formats back to the text. This is the escape the class comment asks callers to use. |
| `PyFormat.IntStrRoundTrip` | firebird/base.py:185 | `str()` of the SQL code in the error message is a decimal rendering that reads back as the same integer. |
| `CursorWrapper.Qmarks` | firebird/base.py:182 | `tuple("?" * n)` is n strings, each `"?"`. |
| `CursorWrapper.ConvertQuery` | firebird/base.py:176-182 | With zero parameters the query is returned untouched, so `%s` and `%%` survive. With n > 0 it succeeds iff the query has exactly n `%s`. Too many `%s` gives NotEnoughArguments and too few gives NotAllConverted. |
| `CursorWrapper.ConvertQueryLength` | firebird/base.py:182 | A successful conversion with parameters is one character shorter per `%s` and per `%%`. Each becomes a single `?` or `%`, and every other character is kept. |
| `CursorWrapper.ConvertQueryAppend` | firebird/base.py:182 | For n > 0 and m > 0, converting two parts with n and m placeholders together equals converting each part and joining the results. With n == 0 a part is not formatted at all, so the split does not hold there. |
| `CursorWrapper.ConvertQueryIsQmarkStyle` | firebird/base.py:182 | For n > 0 and a query with exactly n `%s`, the conversion is the query's qmark form: each `%s` becomes `?`, each `%%` becomes `%`, and every other character is copied in order. |
| `CursorWrapper.ConvertQueryEscapedPercent` | firebird/base.py:137-140 | An escaped literal `%` reaches the driver still doubled when there are no parameters. With parameters it reaches the driver as a single `%`. |
| `CursorWrapper.Classify` | firebird/base.py:142-161 | A driver IntegrityError always becomes IntegrityError. A driver DatabaseError becomes IntegrityError iff its code is -803 or -625, and DatabaseError otherwise. |
| `CursorWrapper.ErrorInfoAsWritten` | firebird/base.py:184-185 | The call succeeds iff the query's `%s` count equals the number of parameters, including when there are none. The first element is then the original `args[0]`, and the second is `str(args[1])`, ` -- `, and the query formatted with the parameters. |
| `CursorWrapper.ErrorInfoAsWrittenFailsWithoutParams` | firebird/base.py:148-161 | For a parameterless `execute` of a query containing `%s`, the as-written `error_info` raises TypeError (NotEnoughArguments) inside the except clause. So the driver error never becomes a Django exception. |
| `CursorWrapper.ErrorInfo` | firebird/base.py:184-185 | Corrected `error_info`. With no parameters it always succeeds with `(args[0], "<args[1]> -- <query>")`, the query left as it is. With parameters it succeeds iff the `%s` count matches, and then gives `(args[0], "<args[1]> -- <query with parameters interpolated>")`. |
| `CursorWrapper.Reraise` | firebird/base.py:154-161 | The exception an except-clause raises. A driver error without a code gives IndexError. With a code, and a query whose `%s` count fits the parameters, it is the Django exception chosen by Classify, carrying the original `args[0]`. |
| `CursorWrapper.Execute` | firebird/base.py:148-161 | `execute` raises TypeError exactly when there are parameters and their count differs from the query's `%s` count. When it returns a value, that value is what the driver returned for the converted query and the parameters. The full case analysis is `ExecuteOutcome`. |
| `CursorWrapper.ExecuteWithoutParams` | firebird/base.py:148-153 | `params=None` behaves exactly like `[]`, and the driver then receives the query unprocessed. |
| `CursorWrapper.ExecuteOutcome` | firebird/base.py:148-161 | A placeholder-count mismatch raises TypeError before the driver is called. Otherwise the driver's return value is returned. A driver error without a code raises IndexError. A driver error with a code always surfaces as the Django exception chosen by the classification rule, with arguments `(args[0], "<code> -- <query with params>")`. |
| `CursorWrapper.ExecuteMany` | firebird/base.py:163-165 | An empty parameter list raises IndexError at `param_list[0]`. |
| `CursorWrapper.ExecuteManyAgreesWithExecute` | firebird/base.py:163-174 | `executemany` converts by the first parameter set's size and maps errors exactly as `execute` does with that set, whenever the driver reacts alike. |
| `Backend.Operators` | firebird/base.py:52-67 | The table covers exactly the fourteen lookups exact, iexact, contains, icontains, gt, gte, lt, lte, startswith, endswith, istartswith, iendswith, regex and iregex. The templates' shape is stated by `OperatorsTakeOneParameter` and `CaseInsensitiveOperators`. |
| `Backend.OperatorsTakeOneParameter` | firebird/base.py:52-67 | Every lookup template holds exactly one `%s` and no other specifier, so it converts with one parameter. |
| `Backend.CaseInsensitiveOperators` | firebird/base.py:52-67 | `iexact`, `icontains`, `istartswith` and `iendswith` are their case-sensitive templates with the placeholder wrapped as `UPPER(%s)`. `iregex` is the same template as `regex`. |
| `Backend.AssembleConnParamsAsWritten` | firebird/base.py:94-114 | As written: an empty NAME raises ImproperlyConfigured. With a PORT the keywords are complete. Without a PORT the lookup of `conn_params['NAME']` always raises KeyError. |
| `Backend.AssembleConnParams` | firebird/base.py:94-114 | Corrected assembly. It fails iff NAME is empty, and then with ImproperlyConfigured. Otherwise the keywords are charset (`UTF8` by default), dsn (`HOST/PORT:NAME`, or `HOST:NAME` without a port), user and password only when non-empty, and every OPTIONS entry overriding the defaults. |
| `Backend.EncodingFor` | firebird/base.py:115-116 | `charset_map.get(charset, 'utf_8')`: the map's codec for the charset, or `utf_8` when the charset is not in the map. |
| `Backend.ConnParamsUnique` | firebird/base.py:100-114 | The description of the connect keywords determines them completely. |
| `Backend.CharsetDefault` | firebird/base.py:100-115 | The connection charset is OPTIONS' `charset` when given, else `UTF8`. |
| `Backend.DatabaseWrapper.constructor` | firebird/base.py:69-74 | A new wrapper has no connection, no charset and no encoding. |
| `Backend.DatabaseWrapper.Cursor` | firebird/base.py:91-120 | An open connection is reused and nothing changes. Otherwise an empty NAME raises ImproperlyConfigured with nothing changed. Otherwise the connection is opened with the keywords built from the settings, and the charset and `charset_map` encoding are recorded. The returned cursor carries the connection and its encoding. |

## Findings

| source | as written | input that shows it | evidently intended | confidence | as-written member | corrected member |
|---|---|---|---|---|---|---|
| firebird/base.py:107-108 | The no-port DSN reads `conn_params['NAME']`, a key that dictionary never holds | NAME=`/db/test.fdb`, PORT empty: KeyError `'NAME'` instead of a connection | `settings_dict['NAME']`, giving dsn `HOST:NAME` | high, not executed | `Backend.AssembleConnParamsAsWritten` | `Backend.AssembleConnParams` |
| firebird/base.py:185 | `error_info` formats the query with `%` even when `execute` had no parameters and skipped formatting | `execute("SELECT '%s' FROM RDB$DATABASE")` and the driver raises DatabaseError: TypeError "not enough arguments" instead of Django's DatabaseError | Leave the query untouched when there are no parameters, as `convert_query` does, so that every driver error surfaces as a Django exception (`CursorWrapper.ExecuteOutcome`) | medium, not executed | `CursorWrapper.ErrorInfoAsWrittenFailsWithoutParams` | `CursorWrapper.ErrorInfo` |

`CursorWrapper.Execute`, `CursorWrapper.ExecuteMany` and
`Backend.DatabaseWrapper.Cursor` use the corrected members.

## Left out

- Format specifiers other than `%s` and `%%` (`%d`, `%r`, flags, widths, a stray `%`) are not modelled. Each function that formats requires the text to use only those two (`PyFormat.WellFormed`), and only where the source formats it.
- ErrorInfoAsWritten: requires the query to be `WellFormed` even with no parameters. For a stray `%` (for example `LIKE 'a%'`), Python raises ValueError there; the model does not cover that case.
- Driver exceptions that are not fdb `DatabaseError` subclasses propagate unchanged from `execute`. The model's driver raises only `IntegrityError` or another `DatabaseError`.
- Tracebacks and exception chaining from `six.reraise` are not modelled.
- `smart_str` encoding is the identity, and fdb's `charset_map` is an opaque map argument. Both are foreign library calls.
- `Database.connect`, the driver cursor's `execute`/`executemany`, `server_version`/`db_info` and the `connection_created` signal are left out. They are I/O against the fdb driver. The connection stands as the keywords it was opened with.
- `__getattr__` and `__iter__` are left out. They only forward to the driver cursor.
- `DatabaseFeatures` and `DatabaseValidation` are left out. They are static flags and an empty class.
- `__init__`'s `features`, `ops`, `client`, `creation`, `introspection` and `validation` fields are left out. They are collaborators from modules that are not part of this model.
- Settings and OPTIONS values are strings. A PORT is "given" when non-empty (Python truthiness), and parameters are their `str()` text.
- Sequence names, EXTRACT and truncation SQL, and foreign-key index suppression (exercised by tests/test_main/test_base/tests.py:30-107) are left out. They live in `operations`, `creation`, `introspection` and the schema editor, which are not part of this model.

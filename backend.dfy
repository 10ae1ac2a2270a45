/**
 * DatabaseWrapper: the lookup-operator table and the part of `_cursor` that
 * turns Django's DATABASES settings into the keyword arguments of the fdb
 * driver's connect call. The connect call itself, the connection_created
 * signal and the driver's charset table are outside the model: the open
 * connection is represented by the parameters it was opened with, and the
 * charset table is handed to the constructor.
 */
module Backend {
  import opened Wrappers
  import opened PyFormat
  import opened CursorWrapper

  // ---- lookup operators ------------------------------------------------------

  /** SQL template for each Django field lookup; `%s` is the right-hand side. */
  function Operators(): (m: map<string, string>)
    ensures m.Keys == {"exact", "iexact", "contains", "icontains", "gt", "gte", "lt", "lte",
                       "startswith", "endswith", "istartswith", "iendswith", "regex", "iregex"}
  {
    map[
    "exact" := "= %s",
    "iexact" := "= UPPER(%s)",
    "contains" := "LIKE %s ESCAPE'\\'",
    "icontains" := "LIKE UPPER(%s) ESCAPE'\\'",
    "gt" := "> %s",
    "gte" := ">= %s",
    "lt" := "< %s",
    "lte" := "<= %s",
    "startswith" := "LIKE %s ESCAPE'\\'",
    "endswith" := "LIKE %s ESCAPE'\\'",
    "istartswith" := "LIKE UPPER(%s) ESCAPE'\\'",
    "iendswith" := "LIKE UPPER(%s) ESCAPE'\\'",
    "regex" := "SIMILAR TO %s",
    "iregex" := "SIMILAR TO %s"
    ]
  }

  /** A template made of plain text around one placeholder takes exactly one parameter. */
  lemma OneSlot(pre: string, post: string)
    requires '%' !in pre && '%' !in post
    ensures WellFormed(pre + "%s" + post) && Slots(pre + "%s" + post) == 1
    ensures Escapes(pre + "%s" + post) == 0
    ensures ConvertQuery(pre + "%s" + post, 1) == Ok(pre + "?" + post)
  {
    PlainText(pre);
    PlainText(post);
    FormatPieces('x', "?");
    FormatAppend(pre, "%s", [], ["?"]);
    WellFormedAppend(pre, "%s");
    FormatAppend(pre + "%s", post, ["?"], []);
    WellFormedAppend(pre + "%s", post);
    assert "%s"[2..] == [];
    assert Qmarks(1) == ["?"] == [] + ["?"] == ["?"] + [];
  }

  /** Every lookup template holds exactly one placeholder, so it converts with one parameter. */
  lemma OperatorsTakeOneParameter()
    ensures forall k :: k in Operators() ==>
      WellFormed(Operators()[k]) && Slots(Operators()[k]) == 1 && Escapes(Operators()[k]) == 0 &&
      ConvertQuery(Operators()[k], 1).Ok?
  {
    var like, upper, escape := "LIKE ", "LIKE UPPER(", ") ESCAPE'\\'";
    assert '%' !in like && '%' !in upper && '%' !in escape && '%' !in " ESCAPE'\\'";
    forall k | k in Operators()
      ensures WellFormed(Operators()[k]) && Slots(Operators()[k]) == 1 && Escapes(Operators()[k]) == 0
      ensures ConvertQuery(Operators()[k], 1).Ok?
    {
      if k == "exact" {
        assert Operators()[k] == "= " + "%s" + "";
        OneSlot("= ", "");
      } else if k == "iexact" {
        assert Operators()[k] == "= UPPER(" + "%s" + ")";
        OneSlot("= UPPER(", ")");
      } else if k in {"contains", "startswith", "endswith"} {
        assert Operators()[k] == like + "%s" + " ESCAPE'\\'";
        OneSlot(like, " ESCAPE'\\'");
      } else if k in {"icontains", "istartswith", "iendswith"} {
        assert Operators()[k] == upper + "%s" + escape;
        OneSlot(upper, escape);
      } else if k == "gt" {
        assert Operators()[k] == "> " + "%s" + "";
        OneSlot("> ", "");
      } else if k == "gte" {
        assert Operators()[k] == ">= " + "%s" + "";
        OneSlot(">= ", "");
      } else if k == "lt" {
        assert Operators()[k] == "< " + "%s" + "";
        OneSlot("< ", "");
      } else if k == "lte" {
        assert Operators()[k] == "<= " + "%s" + "";
        OneSlot("<= ", "");
      } else {
        assert k in {"regex", "iregex"};
        assert Operators()[k] == "SIMILAR TO " + "%s" + "";
        OneSlot("SIMILAR TO ", "");
      }
    }
  }

  /**
   * `ci` is the case-insensitive form of `cs`: the same template with its
   * placeholder wrapped as UPPER(%s).
   */
  predicate UpperCaseVariant(ci: string, cs: string)
  {
    exists i :: 0 <= i <= |cs| - 2 && cs[i..i + 2] == "%s" &&
      ci == cs[..i] + "UPPER(%s)" + cs[i + 2..]
  }

  /**
   * The case-insensitive lookups upper-case the parameter; iregex is the
   * same template as regex (case sensitivity is left to the collation).
   */
  lemma CaseInsensitiveOperators()
    ensures UpperCaseVariant(Operators()["iexact"], Operators()["exact"])
    ensures UpperCaseVariant(Operators()["icontains"], Operators()["contains"])
    ensures UpperCaseVariant(Operators()["istartswith"], Operators()["startswith"])
    ensures UpperCaseVariant(Operators()["iendswith"], Operators()["endswith"])
    ensures Operators()["iregex"] == Operators()["regex"]
  {
    var exact, like := Operators()["exact"], Operators()["contains"];
    assert exact[2..4] == "%s" && Operators()["iexact"] == exact[..2] + "UPPER(%s)" + exact[4..];
    assert like[5..7] == "%s" && Operators()["icontains"] == like[..5] + "UPPER(%s)" + like[7..];
  }

  // ---- connection parameters -------------------------------------------------

  /** The keys of settings.DATABASES entry the backend reads. */
  datatype Settings = Settings(
    name: string, host: string, port: string, user: string, password: string,
    options: map<string, string>)

  datatype ConfigError =
    | ImproperlyConfigured     // NAME is empty
    | MissingKey(key: string)  // a dictionary lookup of an absent key (KeyError)

  /** The database path the driver is given: HOST/PORT:NAME, or HOST:NAME without a port. */
  function Dsn(s: Settings): string
  {
    if s.port != "" then s.host + "/" + s.port + ":" + s.name else s.host + ":" + s.name
  }

  /**
   * `m` is the keyword set `_cursor` passes to connect for settings `s`:
   * charset and dsn always, user and password when set, and every OPTIONS
   * entry, which wins over the defaults.
   */
  predicate ConnParamsFor(s: Settings, m: map<string, string>)
  {
    && m.Keys == {"charset", "dsn"} + (if s.user != "" then {"user"} else {})
                 + (if s.password != "" then {"password"} else {}) + s.options.Keys
    && (forall k :: k in s.options ==> k in m && m[k] == s.options[k])
    && ("charset" !in s.options ==> m["charset"] == "UTF8")
    && ("dsn" !in s.options ==> m["dsn"] == Dsn(s))
    && ("user" !in s.options && s.user != "" ==> m["user"] == s.user)
    && ("password" !in s.options && s.password != "" ==> m["password"] == s.password)
  }

  /** ConnParamsFor pins the parameters down completely. */
  lemma ConnParamsUnique(s: Settings, m1: map<string, string>, m2: map<string, string>)
    requires ConnParamsFor(s, m1) && ConnParamsFor(s, m2)
    ensures m1 == m2
  {
    forall k | k in m1.Keys ensures m1[k] == m2[k] {
      if k in s.options {
      } else if k == "charset" {
      } else if k == "dsn" {
      } else if k == "user" {
      } else {
        assert k == "password";
      }
    }
  }

  /** `d[key]` on a Python dict: the value, or a KeyError. */
  function Lookup(d: map<string, string>, key: string): Result<string, ConfigError>
  {
    if key in d then Ok(d[key]) else Err(MissingKey(key))
  }

  /**
   * The settings part of `_cursor`, step by step as written. Without a PORT
   * it reads conn_params['NAME'], a key that dictionary never holds, so the
   * no-port configuration always fails with a KeyError.
   */
  method AssembleConnParamsAsWritten(s: Settings) returns (r: Result<map<string, string>, ConfigError>)
    ensures s.name == "" ==> r == Err(ImproperlyConfigured)
    ensures s.name != "" && s.port == "" ==> r == Err(MissingKey("NAME"))
    ensures s.name != "" && s.port != "" ==> r.Ok? && ConnParamsFor(s, r.value)
  {
    if s.name == "" {
      return Err(ImproperlyConfigured);
    }
    var params: map<string, string> := map["charset" := "UTF8"];
    if s.port != "" {
      params := params["dsn" := s.host + "/" + s.port + ":" + s.name];
    } else {
      match Lookup(params, "NAME")
      case Err(e) => return Err(e);
      case Ok(name) => params := params["dsn" := s.host + ":" + name];
    }
    if s.user != "" {
      params := params["user" := s.user];
    }
    if s.password != "" {
      params := params["password" := s.password];
    }
    params := params + s.options;
    return Ok(params);
  }

  /** The same steps with the no-port branch reading settings NAME, as intended. */
  method AssembleConnParams(s: Settings) returns (r: Result<map<string, string>, ConfigError>)
    ensures r.Err? <==> s.name == ""
    ensures r.Err? ==> r.error == ImproperlyConfigured
    ensures r.Ok? ==> ConnParamsFor(s, r.value)
  {
    if s.name == "" {
      return Err(ImproperlyConfigured);
    }
    var params: map<string, string> := map["charset" := "UTF8"];
    if s.port != "" {
      params := params["dsn" := s.host + "/" + s.port + ":" + s.name];
    } else {
      params := params["dsn" := s.host + ":" + s.name];
    }
    if s.user != "" {
      params := params["user" := s.user];
    }
    if s.password != "" {
      params := params["password" := s.password];
    }
    params := params + s.options;
    return Ok(params);
  }

  /** `charset_map.get(charset, 'utf_8')`: the Python codec for a Firebird charset. */
  function EncodingFor(charsetMap: map<string, string>, charset: string): (enc: string)
    ensures charset in charsetMap ==> enc == charsetMap[charset]
    ensures charset !in charsetMap ==> enc == "utf_8"
  {
    if charset in charsetMap then charsetMap[charset] else "utf_8"
  }

  /** What `_cursor` returns: a FirebirdCursorWrapper over the connection, with its encoding. */
  datatype FirebirdCursor = FirebirdCursor(connection: map<string, string>, encoding: string)

  class DatabaseWrapper {
    const settings: Settings
    const charsetMap: map<string, string>
    /** The open connection, as the parameters it was opened with. */
    var connection: Option<map<string, string>>
    var dbCharset: Option<string>
    var encoding: Option<string>

    /** An open connection was made from these settings, and charset and encoding were read from it. */
    ghost predicate Valid()
      reads this
    {
      connection.Some? ==>
        && ConnParamsFor(settings, connection.value)
        && dbCharset == Some(connection.value["charset"])
        && encoding == Some(EncodingFor(charsetMap, connection.value["charset"]))
    }

    constructor(settings: Settings, charsetMap: map<string, string>)
      ensures Valid()
      ensures this.settings == settings && this.charsetMap == charsetMap
      ensures connection == None && dbCharset == None && encoding == None
    {
      this.settings := settings;
      this.charsetMap := charsetMap;
      connection := None;
      dbCharset := None;
      encoding := None;
    }

    /**
     * `_cursor`: reuse the open connection, or open one from the settings
     * (refusing an empty NAME), then hand out a cursor with the encoding.
     */
    method Cursor() returns (r: Result<FirebirdCursor, ConfigError>)
      requires Valid()
      modifies this
      ensures Valid()
      ensures old(connection).Some? ==>
        connection == old(connection) && dbCharset == old(dbCharset) && encoding == old(encoding)
      ensures old(connection).None? && settings.name == "" ==>
        r == Err(ImproperlyConfigured) &&
        connection == old(connection) && dbCharset == old(dbCharset) && encoding == old(encoding)
      ensures old(connection).None? && settings.name != "" ==>
        connection.Some? && ConnParamsFor(settings, connection.value) &&
        dbCharset == Some(connection.value["charset"])
      ensures r.Ok? ==> connection.Some? && r.value == FirebirdCursor(connection.value, encoding.value)
      ensures r.Err? ==> r == Err(ImproperlyConfigured) && old(connection).None? && settings.name == ""
    {
      if connection.None? {
        var params := AssembleConnParams(settings);
        if params.Err? {
          return Err(params.error);
        }
        var m := params.value;
        dbCharset := Some(m["charset"]);
        encoding := Some(EncodingFor(charsetMap, m["charset"]));
        connection := Some(m);
      }
      return Ok(FirebirdCursor(connection.value, encoding.value));
    }
  }

  /**
   * The charset the connection uses is 'UTF8' unless OPTIONS names one:
   * OPTIONS are applied after the defaults.
   */
  lemma CharsetDefault(s: Settings, m: map<string, string>)
    requires ConnParamsFor(s, m)
    ensures "charset" in m
    ensures m["charset"] == if "charset" in s.options then s.options["charset"] else "UTF8"
  {
  }
}

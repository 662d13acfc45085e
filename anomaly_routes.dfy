/** The logic of the anomaly endpoints (server/routes/anomalies.js): the
    query filter and the page arithmetic of `GET /`, the lookups of
    `GET /:id` and `DELETE /:id`, the required fields of `POST /` and the
    partial update of `PUT /:id`. A handler's reply is its status code and
    the value it sends as JSON. */
module AnomalyRoutes {
  import opened Values
  import opened MemoryStore
  import opened Models
  import VesselIngest

  /** `res.status(status).json(body)`. */
  datatype Response = Response(status: nat, body: Value)

  function Message(text: string): Value
  {
    Obj(map["message" := Str(text)])
  }

  /** The `catch` of every handler: 500 with the message and the error's text. */
  function ServerError(text: string, e: Error): Response
  {
    Response(500, Obj(map["message" := Str(text), "error" := Str(e.what)]))
  }

  const NOT_FOUND := Response(404, Message("Anomaly not found"))

  // ---------------------------------------------------------------------
  // parseInt

  /** The value of one digit in base 10 or 16. */
  function DigitValue(c: char, radix: nat): Option<nat>
  {
    if '0' <= c <= '9' then Some(c as int - 48)
    else if radix == 16 && 'a' <= c <= 'f' then Some(c as int - 87)
    else if radix == 16 && 'A' <= c <= 'F' then Some(c as int - 55)
    else None
  }

  predicate AllDigits(s: string, radix: nat)
  {
    forall i :: 0 <= i < |s| ==> DigitValue(s[i], radix).Some?
  }

  /** How many digits the text starts with. */
  function DigitRun(s: string, radix: nat): (n: nat)
    ensures n <= |s| && AllDigits(s[..n], radix)
    ensures n < |s| ==> DigitValue(s[n], radix).None?
  {
    if s != [] && DigitValue(s[0], radix).Some? then
      var n := 1 + DigitRun(s[1..], radix);
      assert forall i :: 1 <= i < n ==> s[..n][i] == s[1..][..n - 1][i - 1];
      n
    else 0
  }

  /** The number a run of digits denotes. */
  function RunValue(digits: string, radix: nat): nat
    requires AllDigits(digits, radix)
  {
    if digits == [] then 0
    else RunValue(digits[..|digits| - 1], radix) * radix + DigitValue(digits[|digits| - 1], radix).value
  }

  /** The base `parseInt` reads unsigned text in: 16 after a `0x` prefix. */
  function Radix(u: string): nat
  {
    if |u| >= 2 && u[0] == '0' && (u[1] == 'x' || u[1] == 'X') then 16 else 10
  }

  /** The text after the base prefix. */
  function Digits(u: string): string
  {
    if Radix(u) == 16 then u[2..] else u
  }

  /** The longest run of digits after the prefix, `None` (NaN) if empty. */
  function ParseUnsigned(u: string): Option<nat>
  {
    var n := DigitRun(Digits(u), Radix(u));
    if n == 0 then None else Some(RunValue(Digits(u)[..n], Radix(u)))
  }

  /** `parseInt(s)`: leading white space, an optional sign, a `0x` prefix for
      base 16, then the longest run of digits; no digit at all is NaN
      (`None`). */
  function ParseInt(s: string): Option<int>
  {
    var t := TrimStart(s);
    if t != [] && t[0] == '-' then
      (match ParseUnsigned(t[1..]) case None => None case Some(n) => Some(-(n as int)))
    else if t != [] && t[0] == '+' then ParseUnsigned(t[1..])
    else ParseUnsigned(t)
  }

  lemma {:induction false} RunValueDecimal(s: string)
    requires forall i :: 0 <= i < |s| ==> '0' <= s[i] <= '9'
    ensures AllDigits(s, 10) && RunValue(s, 10) == DecimalValue(s)
    decreases |s|
  {
    if s != [] {
      RunValueDecimal(s[..|s| - 1]);
    }
  }

  /** The run of digits ends at the first position that is not one. */
  lemma {:induction false} DigitRunPrefix(s: string, k: nat, radix: nat)
    requires k <= |s| && AllDigits(s[..k], radix)
    requires k == |s| || DigitValue(s[k], radix).None?
    ensures DigitRun(s, radix) == k
    decreases k
  {
    if k > 0 {
      assert s[..k][0] == s[0];
      var t := s[1..];
      assert t[..k - 1] == s[..k][1..];
      DigitRunPrefix(t, k - 1, radix);
    }
  }

  /** Unsigned decimal text followed by anything that does not continue it. */
  lemma {:induction false} ParseUnsignedDecimal(n: nat, rest: string)
    requires rest == [] || !('0' <= rest[0] <= '9')
    requires !(n == 0 && rest != [] && (rest[0] == 'x' || rest[0] == 'X'))
    ensures ParseUnsigned(Decimal(n) + rest) == Some(n)
  {
    var d := Decimal(n);
    DecimalDigits(n);
    RunValueDecimal(d);
    DecimalRoundTrip(n);
    var s := d + rest;
    assert s[..|d|] == d;
    assert Radix(s) == 10 by {
      if |d| >= 2 {
        assert s[1] == d[1];
      } else if n > 0 {
        assert s[0] == d[0];
      } else {
        assert d == "0";
      }
    }
    DigitRunPrefix(s, |d|, 10);
  }

  /** The text of a page number reads back as that number, whatever follows
      it, unless what follows continues it: another digit, or the `x` that
      turns a leading `0` into a hexadecimal prefix. */
  lemma {:induction false} ParseIntDecimal(n: nat, rest: string)
    requires rest == [] || !('0' <= rest[0] <= '9')
    requires !(n == 0 && rest != [] && (rest[0] == 'x' || rest[0] == 'X'))
    ensures ParseInt(Decimal(n) + rest) == Some(n)
  {
    var s := Decimal(n) + rest;
    assert '0' <= s[0] <= '9' by {
      DecimalDigits(n);
      assert s[0] == Decimal(n)[0];
    }
    ParseUnsignedDecimal(n, rest);
    ParseIntUnsigned(s);
  }

  /** Text that starts with a digit is read without a sign. */
  lemma ParseIntUnsigned(s: string)
    requires s != [] && '0' <= s[0] <= '9'
    ensures ParseInt(s) == if ParseUnsigned(s).None? then None else Some(ParseUnsigned(s).value)
  {
    assert TrimStart(s) == s by {
      assert !JsSpace(s[0]);
    }
  }

  /** and with a minus sign in front, as its negation. */
  lemma {:induction false} ParseIntNegative(n: nat, rest: string)
    requires rest == [] || !('0' <= rest[0] <= '9')
    requires !(n == 0 && rest != [] && (rest[0] == 'x' || rest[0] == 'X'))
    ensures ParseInt("-" + Decimal(n) + rest) == Some(-(n as int))
  {
    var s := Decimal(n) + rest;
    var neg := "-" + Decimal(n) + rest;
    assert neg[0] == '-' && neg[1..] == s;
    assert TrimStart(neg) == neg;
    assert ParseUnsigned(s) == Some(n) by {
      ParseUnsignedDecimal(n, rest);
    }
  }

  /** A `0x` prefix reads the digits in base 16. */
  lemma {:induction false} ParseIntHexadecimal(x: char, h: string, rest: string)
    requires x == 'x' || x == 'X'
    requires AllDigits(h, 16)
    requires rest == [] || DigitValue(rest[0], 16).None?
    ensures ParseInt(['0', x] + h + rest) == if h == [] then None else Some(RunValue(h, 16))
  {
    var s := ['0', x] + h + rest;
    assert s[0] == '0' && !JsSpace(s[0]);
    assert TrimStart(s) == s;
    ParseUnsignedHexadecimal(x, h, rest);
  }

  lemma {:induction false} ParseUnsignedHexadecimal(x: char, h: string, rest: string)
    requires x == 'x' || x == 'X'
    requires AllDigits(h, 16)
    requires rest == [] || DigitValue(rest[0], 16).None?
    ensures ParseUnsigned(['0', x] + h + rest) == if h == [] then None else Some(RunValue(h, 16))
  {
    var s := ['0', x] + h + rest;
    assert Radix(s) == 16 by {
      assert s[0] == '0' && s[1] == x;
    }
    var u := Digits(s);
    assert u == h + rest;
    assert u[..|h|] == h;
    DigitRunPrefix(u, |h|, 16);
  }

  /** Text with no digit up front is NaN. */
  lemma ParseIntNaN(s: string)
    requires s == [] || !('0' <= s[0] <= '9' || s[0] == '-' || s[0] == '+' || JsSpace(s[0]))
    ensures ParseInt(s) == None
  {
    if s != [] {
      assert TrimStart(s) == s by {
        assert !JsSpace(s[0]);
      }
      assert Radix(s) == 10 && Digits(s) == s;
      assert DigitRun(s, 10) == 0;
    }
  }

  // ---------------------------------------------------------------------
  // GET /

  /** `parseInt(v)` on a query parameter, after the destructuring default
      for an absent one. Express hands strings, arrays and objects; the text
      of the last two is not modelled. */
  function QueryInt(v: Value, default: int): Result<Option<int>>
  {
    match v
    case Undefined => Ok(Some(default))
    case Str(s) => Ok(ParseInt(s))
    case _ => Err(Unmodelled("parseInt of a query array or object"))
  }

  /** `(parseInt(page) - 1) * parseInt(limit)`; NaN in, NaN out. */
  function Skip(page: Option<int>, limit: Option<int>): Option<int>
  {
    if page.Some? && limit.Some? then Some((page.value - 1) * limit.value) else None
  }

  /** Consecutive pages start `limit` items apart, and the first page at 0. */
  lemma SkipSteps(page: int, limit: int)
    ensures Skip(Some(1), Some(limit)) == Some(0)
    ensures Skip(Some(page + 1), Some(limit)).value == Skip(Some(page), Some(limit)).value + limit
  {
  }

  /** The defaults, page 1 and 20 per page, skip nothing. */
  lemma DefaultsSkipNothing(query: Doc)
    requires Get(query, "page") == Undefined && Get(query, "limit") == Undefined
    ensures QueryInt(Get(query, "page"), 1) == Ok(Some(1)) && QueryInt(Get(query, "limit"), 20) == Ok(Some(20))
    ensures Skip(Some(1), Some(20)) == Some(0)
  {
  }

  /** A NaN `skip` or `limit` is falsy, so the store ignores it, like 0. */
  function OrZero(n: Option<int>): int
  {
    if n.Some? then n.value else 0
  }

  const NEWEST_FIRST := SortSpec("timestamp", Num(-1.0))

  /** `{ sort: { timestamp: -1 }, skip, limit }`. */
  function ListOptions(skip: Option<int>, limit: Option<int>): FindOptions
  {
    FindOptions(Some(NEWEST_FIRST), OrZero(skip), OrZero(limit))
  }

  /** `new Date(text)`: its epoch milliseconds, or `None` for an Invalid
      Date. Parsing date text is a parameter of this model. */
  type DateParser = Value -> Option<int>

  /** An Invalid Date bound: an object whose value is NaN, so no comparison
      with it holds. */
  const INVALID_DATE := Obj(map[])

  function NewDate(ms: Option<int>): Value
  {
    if ms.Some? then Date(ms.value) else INVALID_DATE
  }

  /** `f[key] = v` when the handler's test for it passes. */
  function With(f: Filter, key: string, test: bool, v: Value): Filter
  {
    if test then f[key := v] else f
  }

  /** `filters.timestamp`: `$gte` for a start date, `$lte` for an end date. */
  function DateBounds(startDate: Value, endDate: Value, toDate: DateParser): map<string, Value>
  {
    With(With(map[], "$gte", Truthy(startDate), NewDate(toDate(startDate))),
      "$lte", Truthy(endDate), NewDate(toDate(endDate)))
  }

  /** The entries `GET /` sets from its type, mmsi, confirmed and resolved
      parameters. */
  function FlagFilter(query: Doc): Filter
  {
    var kind, mmsi := Get(query, "type"), Get(query, "mmsi");
    var confirmed, resolved := Get(query, "confirmed"), Get(query, "resolved");
    var f1 := With(map[], "anomalyType", Truthy(kind), kind);
    var f2 := With(f1, "mmsi", Truthy(mmsi), mmsi);
    var f3 := With(f2, "confirmed", confirmed != Undefined, Bool(confirmed == Str("true")));
    With(f3, "resolved", resolved != Undefined, Bool(resolved == Str("true")))
  }

  /** The filter `GET /` builds from its query. */
  function QueryFilter(query: Doc, toDate: DateParser): Filter
  {
    var startDate, endDate := Get(query, "startDate"), Get(query, "endDate");
    With(FlagFilter(query), "timestamp", Truthy(startDate) || Truthy(endDate), Obj(DateBounds(startDate, endDate, toDate)))
  }

  /** Which entries the filter has and what each holds: type and mmsi only
      when truthy, the two flags whenever they are supplied (true only for
      the text 'true'), and a timestamp range only with a date, carrying
      only the bounds that were given. */
  lemma QueryFilterEntries(query: Doc, toDate: DateParser)
    ensures var f, kind, mmsi := QueryFilter(query, toDate), Get(query, "type"), Get(query, "mmsi");
      && ("anomalyType" in f <==> Truthy(kind)) && ("anomalyType" in f ==> f["anomalyType"] == kind)
      && ("mmsi" in f <==> Truthy(mmsi)) && ("mmsi" in f ==> f["mmsi"] == mmsi)
    ensures var f, c, r := QueryFilter(query, toDate), Get(query, "confirmed"), Get(query, "resolved");
      && ("confirmed" in f <==> c != Undefined) && ("confirmed" in f ==> f["confirmed"] == Bool(c == Str("true")))
      && ("resolved" in f <==> r != Undefined) && ("resolved" in f ==> f["resolved"] == Bool(r == Str("true")))
    ensures var f, s, e := QueryFilter(query, toDate), Get(query, "startDate"), Get(query, "endDate");
      && ("timestamp" in f <==> Truthy(s) || Truthy(e))
      && ("timestamp" in f ==> (f["timestamp"].Obj?
           && ("$gte" in f["timestamp"].fields <==> Truthy(s))
           && ("$lte" in f["timestamp"].fields <==> Truthy(e))
           && ("$gte" in f["timestamp"].fields ==> f["timestamp"].fields["$gte"] == NewDate(toDate(s)))
           && ("$lte" in f["timestamp"].fields ==> f["timestamp"].fields["$lte"] == NewDate(toDate(e)))))
    ensures QueryFilter(query, toDate).Keys <= {"anomalyType", "mmsi", "confirmed", "resolved", "timestamp"}
  {
    var s, e := Get(query, "startDate"), Get(query, "endDate");
    var f := FlagFilter(query);
    assert f.Keys <= {"anomalyType", "mmsi", "confirmed", "resolved"} by {
      FlagFilterEntries(query);
    }
    FlagFilterEntries(query);
    var bounds := DateBounds(s, e, toDate);
    assert ("$gte" in bounds <==> Truthy(s)) && ("$lte" in bounds <==> Truthy(e));
  }

  /** The four plain entries, each present exactly when its parameter is
      supplied (type and mmsi: when truthy). */
  lemma FlagFilterEntries(query: Doc)
    ensures var f, kind, mmsi := FlagFilter(query), Get(query, "type"), Get(query, "mmsi");
      && ("anomalyType" in f <==> Truthy(kind)) && ("anomalyType" in f ==> f["anomalyType"] == kind)
      && ("mmsi" in f <==> Truthy(mmsi)) && ("mmsi" in f ==> f["mmsi"] == mmsi)
    ensures var f, c, r := FlagFilter(query), Get(query, "confirmed"), Get(query, "resolved");
      && ("confirmed" in f <==> c != Undefined) && ("confirmed" in f ==> f["confirmed"] == Bool(c == Str("true")))
      && ("resolved" in f <==> r != Undefined) && ("resolved" in f ==> f["resolved"] == Bool(r == Str("true")))
    ensures FlagFilter(query).Keys <= {"anomalyType", "mmsi", "confirmed", "resolved"}
  {
  }

  /** For string (or absent) `type` and `mmsi`, an anomaly passes the filter
      exactly when it agrees with every supplied criterion. */
  lemma QueryFilterMatches(query: Doc, toDate: DateParser, a: Doc)
    requires !IsObject(Get(query, "type")) && !IsObject(Get(query, "mmsi"))
    ensures var kind, mmsi, c, r := Get(query, "type"), Get(query, "mmsi"), Get(query, "confirmed"), Get(query, "resolved");
      var s, e, at := Get(query, "startDate"), Get(query, "endDate"), Get(a, "timestamp");
      Matches(a, QueryFilter(query, toDate)) <==>
        && (Truthy(kind) ==> Get(a, "anomalyType") == kind)
        && (Truthy(mmsi) ==> Get(a, "mmsi") == mmsi)
        && (c != Undefined ==> Get(a, "confirmed") == Bool(c == Str("true")))
        && (r != Undefined ==> Get(a, "resolved") == Bool(r == Str("true")))
        && (Truthy(s) ==> Compare(at, NewDate(toDate(s))) in {Greater, Same})
        && (Truthy(e) ==> Compare(at, NewDate(toDate(e))) in {Less, Same})
  {
    var s, e := Get(query, "startDate"), Get(query, "endDate");
    var f := FlagFilter(query);
    assert "timestamp" !in f by {
      assert f.Keys <= {"anomalyType", "mmsi", "confirmed", "resolved"};
    }
    FlagFilterMatches(query, a);
    MatchesWith(a, f, "timestamp", Truthy(s) || Truthy(e), Obj(DateBounds(s, e, toDate)));
    TimestampMatches(Get(a, "timestamp"), s, e, toDate);
  }

  /** The four plain entries accept an anomaly exactly when it agrees with
      each of them. */
  lemma FlagFilterMatches(query: Doc, a: Doc)
    requires !IsObject(Get(query, "type")) && !IsObject(Get(query, "mmsi"))
    ensures var kind, mmsi, c, r := Get(query, "type"), Get(query, "mmsi"), Get(query, "confirmed"), Get(query, "resolved");
      Matches(a, FlagFilter(query)) <==>
        && (Truthy(kind) ==> Get(a, "anomalyType") == kind)
        && (Truthy(mmsi) ==> Get(a, "mmsi") == mmsi)
        && (c != Undefined ==> Get(a, "confirmed") == Bool(c == Str("true")))
        && (r != Undefined ==> Get(a, "resolved") == Bool(r == Str("true")))
  {
    var kind, mmsi := Get(query, "type"), Get(query, "mmsi");
    var c, r := Get(query, "confirmed"), Get(query, "resolved");
    var f1 := With(map[], "anomalyType", Truthy(kind), kind);
    var f2 := With(f1, "mmsi", Truthy(mmsi), mmsi);
    var f3 := With(f2, "confirmed", c != Undefined, Bool(c == Str("true")));
    assert Matches(a, f1) <==> (Truthy(kind) ==> Get(a, "anomalyType") == kind) by {
      MatchesWith(a, map[], "anomalyType", Truthy(kind), kind);
    }
    assert Matches(a, f2) <==> Matches(a, f1) && (Truthy(mmsi) ==> Get(a, "mmsi") == mmsi) by {
      MatchesWith(a, f1, "mmsi", Truthy(mmsi), mmsi);
    }
    assert Matches(a, f3) <==> Matches(a, f2) && (c != Undefined ==> Get(a, "confirmed") == Bool(c == Str("true"))) by {
      MatchesWith(a, f2, "confirmed", c != Undefined, Bool(c == Str("true")));
    }
    MatchesWith(a, f3, "resolved", r != Undefined, Bool(r == Str("true")));
  }

  /** The timestamp entry accepts a time exactly when it meets each given bound. */
  lemma TimestampMatches(at: Value, s: Value, e: Value, toDate: DateParser)
    ensures FieldMatches(at, Obj(DateBounds(s, e, toDate))) <==>
      && (Truthy(s) ==> Compare(at, NewDate(toDate(s))) in {Greater, Same})
      && (Truthy(e) ==> Compare(at, NewDate(toDate(e))) in {Less, Same})
  {
    var bounds := DateBounds(s, e, toDate);
    assert Get(bounds, "$gt") == Undefined && Get(bounds, "$lt") == Undefined;
    assert Get(bounds, "$gte") == (if Truthy(s) then NewDate(toDate(s)) else Undefined);
    assert Get(bounds, "$lte") == (if Truthy(e) then NewDate(toDate(e)) else Undefined);
  }

  /** One more entry adds its own test to a filter and keeps the others. */
  lemma MatchesWith(a: Doc, f: Filter, key: string, test: bool, v: Value)
    requires key !in f
    ensures Matches(a, With(f, key, test, v)) <==> Matches(a, f) && (test ==> FieldMatches(Get(a, key), v))
  {
    if test {
      var g := With(f, key, test, v);
      assert forall k :: k in g <==> k in f || k == key;
    }
  }

  /** A start or end date that does not parse lets no anomaly through. */
  lemma InvalidDateMatchesNothing(query: Doc, toDate: DateParser, a: Doc)
    requires var s := Get(query, "startDate"); Truthy(s) && toDate(s).None?
    ensures !Matches(a, QueryFilter(query, toDate))
  {
    QueryFilterEntries(query, toDate);
    assert "timestamp" in QueryFilter(query, toDate);
  }

  /** The `filters` object, built entry by entry as the handler does. */
  method BuildFilters(query: Doc, toDate: DateParser) returns (filters: Filter)
    ensures filters == QueryFilter(query, toDate)
  {
    var kind, mmsi := Get(query, "type"), Get(query, "mmsi");
    var confirmed, resolved := Get(query, "confirmed"), Get(query, "resolved");
    var startDate, endDate := Get(query, "startDate"), Get(query, "endDate");
    filters := map[];
    if Truthy(kind) {
      filters := filters["anomalyType" := kind];
    }
    if Truthy(mmsi) {
      filters := filters["mmsi" := mmsi];
    }
    if confirmed != Undefined {
      filters := filters["confirmed" := Bool(confirmed == Str("true"))];
    }
    if resolved != Undefined {
      filters := filters["resolved" := Bool(resolved == Str("true"))];
    }
    assert filters == FlagFilter(query);
    if Truthy(startDate) || Truthy(endDate) {
      var bounds: map<string, Value> := map[];
      if Truthy(startDate) {
        bounds := bounds["$gte" := NewDate(toDate(startDate))];
      }
      if Truthy(endDate) {
        bounds := bounds["$lte" := NewDate(toDate(endDate))];
      }
      assert bounds == DateBounds(startDate, endDate, toDate);
      filters := filters["timestamp" := Obj(bounds)];
    }
  }

  /** `Math.ceil(total / limit)` as JSON: NaN and the infinities of a NaN or
      zero limit are sent as null. */
  function TotalPages(total: nat, limit: Option<int>): Value
  {
    if limit.None? || limit.value == 0 then Null
    else if limit.value > 0 then Num(((total + limit.value - 1) / limit.value) as real)
    else Num((-(total / -limit.value)) as real)
  }

  /** For a positive limit, `totalPages` is the fewest pages that hold every
      match: the last page is not empty and none is missing. */
  lemma TotalPagesCover(total: nat, limit: nat)
    requires limit > 0
    ensures TotalPages(total, Some(limit)).Num?
    ensures var pages := TotalPages(total, Some(limit)).n;
      && pages == pages.Floor as real && 0.0 <= pages
      && (pages - 1.0) * (limit as real) < total as real <= pages * (limit as real)
  {
    var q := (total + limit - 1) / limit;
    var m := (total + limit - 1) % limit;
    assert total + limit - 1 == q * limit + m;
    assert q * limit >= total;
    assert (q - 1) * limit < total;
    assert (q as real) * (limit as real) == (q * limit) as real;
    assert ((q - 1) as real) * (limit as real) == ((q - 1) * limit) as real;
  }

  /** An array of records as a JSON value. */
  function Objects(docs: seq<Doc>): (r: seq<Value>)
    ensures |r| == |docs| && forall i :: 0 <= i < |docs| ==> r[i] == Obj(docs[i])
  {
    seq(|docs|, i requires 0 <= i < |docs| => Obj(docs[i]))
  }

  /** `currentPage` as JSON: a NaN page is sent as null. */
  function IntJson(n: Option<int>): Value
  {
    if n.Some? then Num(n.value as real) else Null
  }

  /** The reply to `GET /` once the query is read: the requested page of
      the matches, newest first, with the page count and the number of
      matches. */
  function Page(items: seq<Doc>, filters: Filter, page: Option<int>, limit: Option<int>): Response
  {
    Reply(FindIn(items, filters, ListOptions(Skip(page, limit), limit)), |Filtered(items, filters)|, page, limit)
  }

  /** The JSON body of that reply. */
  function Reply(anomalies: seq<Doc>, total: nat, page: Option<int>, limit: Option<int>): Response
  {
    Response(200, Obj(map[
      "anomalies" := Arr(Objects(anomalies)),
      "totalPages" := TotalPages(total, limit),
      "currentPage" := IntJson(page),
      "total" := Num(total as real)]))
  }

  /** `GET /` on the anomalies collection. */
  function Listing(items: seq<Doc>, query: Doc, toDate: DateParser): Result<Response>
  {
    var page :- QueryInt(Get(query, "page"), 1);
    var limit :- QueryInt(Get(query, "limit"), 20);
    Ok(Page(items, QueryFilter(query, toDate), page, limit))
  }

  /** The matches, newest first (adjacent entries never out of order). */
  function Newest(items: seq<Doc>, filters: Filter): (r: seq<Doc>)
    ensures multiset(r) == multiset(Filtered(items, filters))
    ensures LocallySorted(NEWEST_FIRST, r)
  {
    SortByLocallySorted(NEWEST_FIRST, Filtered(items, filters));
    SortBy(NEWEST_FIRST, Filtered(items, filters))
  }

  /** Page `p` of `l`, which skips `(p - 1) * l` matches, holds the matches
      from that position of the newest-first order, at most `l` of them,
      and reports the total. */
  lemma PageWindow(items: seq<Doc>, filters: Filter, p: int, l: nat, skip: nat)
    requires l > 0 && Skip(Some(p), Some(l)) == Some(skip)
    ensures var sorted := Newest(items, filters);
      var from := if skip < |sorted| then skip else |sorted|;
      var to := if skip + l < |sorted| then skip + l else |sorted|;
      Page(items, filters, Some(p), Some(l)) == Reply(sorted[from..to], |sorted|, Some(p), Some(l))
  {
    var sorted := Newest(items, filters);
    var from := if skip < |sorted| then skip else |sorted|;
    var to := if skip + l < |sorted| then skip + l else |sorted|;
    assert FindIn(items, filters, ListOptions(Skip(Some(p), Some(l)), Some(l))) == sorted[from..to] by {
      assert ListOptions(Skip(Some(p), Some(l)), Some(l)) == FindOptions(Some(NEWEST_FIRST), skip, l);
      FindInPage(items, filters, NEWEST_FIRST, skip, l);
    }
    assert |sorted| == |Filtered(items, filters)| by {
      assert |sorted| == |multiset(sorted)|;
    }
  }

  lemma PageOfPosition(k: nat, l: nat)
    requires l > 0
    ensures Skip(Some(k / l + 1), Some(l)) == Some(k - k % l)
    ensures 0 <= k % l < l && k - k % l >= 0
  {
    var q, m := k / l, k % l;
    assert k == q * l + m && 0 <= m < l;
    assert (q + 1 - 1) * l == q * l;
  }

  /** Every match is on exactly the page its position says: match `k` of
      the newest-first order is entry `k % l` of page `k / l + 1`. */
  lemma PagesPartition(items: seq<Doc>, filters: Filter, l: nat, k: nat)
    requires l > 0 && k < |Newest(items, filters)|
    ensures var page := FindIn(items, filters, ListOptions(Skip(Some(k / l + 1), Some(l)), Some(l)));
      k % l < |page| && page[k % l] == Newest(items, filters)[k]
  {
    var skip, m := k - k % l, k % l;
    assert ListOptions(Skip(Some(k / l + 1), Some(l)), Some(l)) == FindOptions(Some(NEWEST_FIRST), skip, l)
      && m < l && skip + m == k by {
      PageOfPosition(k, l);
    }
    PageEntry(items, filters, l, skip, m);
  }

  /** Entry `m` of the page that skips `skip` matches is match `skip + m`. */
  lemma PageEntry(items: seq<Doc>, filters: Filter, l: nat, skip: nat, m: nat)
    requires m < l && skip + m < |Newest(items, filters)|
    ensures var page := FindIn(items, filters, FindOptions(Some(NEWEST_FIRST), skip, l));
      m < |page| && page[m] == Newest(items, filters)[skip + m]
  {
    FindInEntry(items, filters, NEWEST_FIRST, skip, l, m);
  }


  /** Without `page` and `limit` the reply is the newest 20 matches. */
  lemma ListingDefaults(items: seq<Doc>, query: Doc, toDate: DateParser)
    requires Get(query, "page") == Undefined && Get(query, "limit") == Undefined
    ensures var sorted := Newest(items, QueryFilter(query, toDate));
      Listing(items, query, toDate).Ok? &&
      Listing(items, query, toDate).value.body.fields["anomalies"] ==
        Arr(Objects(sorted[..if 20 < |sorted| then 20 else |sorted|]))
  {
    PageWindow(items, QueryFilter(query, toDate), 1, 20, 0);
  }

  /** `GET /`: the handler reads the store and changes nothing. */
  method ListAnomalies(store: Store, query: Doc, toDate: DateParser) returns (r: Result<Response>)
    ensures r == Listing(store.Items(ANOMALIES), query, toDate)
  {
    var page :- QueryInt(Get(query, "page"), 1);
    var limit :- QueryInt(Get(query, "limit"), 20);
    var skip := Skip(page, limit);
    var filters := BuildFilters(query, toDate);
    var anomalies := store.Find(ANOMALIES, filters, ListOptions(skip, limit));
    if ANOMALIES !in store.collections {
      assert anomalies == [] == FindIn([], filters, ListOptions(skip, limit));
    }
    var total := store.CountDocuments(ANOMALIES, filters);
    return Ok(Response(200, Obj(map[
      "anomalies" := Arr(Objects(anomalies)),
      "totalPages" := TotalPages(total, limit),
      "currentPage" := IntJson(page),
      "total" := Num(total as real)])));
  }

  // ---------------------------------------------------------------------
  // GET /:id and DELETE /:id

  /** `GET /:id`: the first anomaly with that id, or 404. */
  method GetAnomaly(store: Store, id: string) returns (r: Response)
    ensures IdIndex(store.Items(ANOMALIES), Str(id)).None? ==> r == NOT_FOUND
    ensures IdIndex(store.Items(ANOMALIES), Str(id)).Some? ==>
      r == Response(200, Obj(store.Items(ANOMALIES)[IdIndex(store.Items(ANOMALIES), Str(id)).value]))
  {
    var anomaly := FindById(store, ANOMALIES, Str(id));
    if anomaly.None? {
      return NOT_FOUND;
    }
    return Response(200, Obj(anomaly.value));
  }

  /** `DELETE /:id`: 404 when no anomaly has the id; otherwise every anomaly
      with it is removed. */
  method DeleteAnomaly(store: Store, id: string) returns (r: Response)
    modifies store
    ensures store.idCounter == old(store.idCounter)
    ensures IdIndex(old(store.Items(ANOMALIES)), Str(id)).None? ==>
      r == NOT_FOUND && store.collections == old(store.collections)
    ensures IdIndex(old(store.Items(ANOMALIES)), Str(id)).Some? ==>
      && r == Response(200, Message("Anomaly deleted successfully"))
      && store.collections == old(store.collections)[ANOMALIES := WithoutId(old(store.Items(ANOMALIES)), Str(id))]
  {
    var anomaly := FindById(store, ANOMALIES, Str(id));
    if anomaly.None? {
      return NOT_FOUND;
    }
    KeyFilterFirst(store.Items(ANOMALIES), Str(id));
    var _ := DeleteFirstMatch(store, ANOMALIES, KeyFilter("_id", Str(id)));
    return Response(200, Message("Anomaly deleted successfully"));
  }

  // ---------------------------------------------------------------------
  // POST /

  /** `{ mmsi, vesselName, anomalyType, location, details }` from the body;
      absent ones are own properties holding `undefined`. */
  function Posted(body: Doc): Doc
  {
    map["mmsi" := Get(body, "mmsi"), "vesselName" := Get(body, "vesselName"),
        "anomalyType" := Get(body, "anomalyType"), "location" := Get(body, "location"),
        "details" := Get(body, "details")]
  }

  /** A posted anomaly carries the five posted fields and nothing else of
      the body, starts unconfirmed and unresolved at `now`, and takes the
      id `now` prints as. */
  lemma {:induction false} PostedAnomaly(body: Doc, now: nat)
    ensures Posted(body).Keys == {"mmsi", "vesselName", "anomalyType", "location", "details"}
    ensures var a := AnomalyDefaults(Posted(body), now);
      && a.Keys == Posted(body).Keys + {"timestamp", "confirmed", "resolved", "_id"}
      && (forall k :: k in Posted(body) ==> a[k] == Get(body, k))
      && a["timestamp"] == Date(now) && a["confirmed"] == Bool(false) && a["resolved"] == Bool(false)
      && a["_id"] == Str(Decimal(now))
  {
    var p := Posted(body);
    assert p.Keys == {"mmsi", "vesselName", "anomalyType", "location", "details"} by {}
    assert forall k :: k in p ==> p[k] == Get(body, k) by {}
    AnomalyDefaultsFresh(p, now);
  }


  /** `POST /`: 400 without a truthy mmsi and type; otherwise 201 with the
      new anomaly, whose `save` only updates a stored record of that id. */
  method CreateAnomaly(store: Store, body: Doc, now: nat) returns (r: Response)
    modifies store
    ensures store.idCounter == old(store.idCounter)
    ensures !Truthy(Get(body, "mmsi")) || !Truthy(Get(body, "anomalyType")) ==>
      r == Response(400, Message("MMSI and anomaly type are required")) && store.collections == old(store.collections)
    ensures Truthy(Get(body, "mmsi")) && Truthy(Get(body, "anomalyType")) ==>
      var a := AnomalyDefaults(Posted(body), now);
      r == Response(201, Obj(a)) &&
      store.collections == UpdatedTable(old(store.collections), ANOMALIES, Str(Decimal(now)), a, now)
  {
    if !Truthy(Get(body, "mmsi")) || !Truthy(Get(body, "anomalyType")) {
      return Response(400, Message("MMSI and anomaly type are required"));
    }
    var anomaly := new Anomaly(Posted(body), now);
    PostedAnomaly(body, now);
    anomaly.Save(store, now);
    return Response(201, Obj(anomaly.doc));
  }

  /** So a posted anomaly is not stored at all unless an anomaly with the
      same id, one made in the same millisecond, already is; that one then
      takes the posted fields. */
  lemma {:induction false} PostStoresNothingNew(table: map<string, seq<Doc>>, body: Doc, now: nat)
    requires IdIndex(if ANOMALIES in table then table[ANOMALIES] else [], Str(Decimal(now))).None?
    ensures UpdatedTable(table, ANOMALIES, Str(Decimal(now)), AnomalyDefaults(Posted(body), now), now) == table
  {
  }

  // ---------------------------------------------------------------------
  // PUT /:id

  /** The fetched anomaly after the handler's assignments: `confirmed` and
      `resolved` when not `undefined`, `feedback` when truthy. */
  function Patched(a: Doc, body: Doc): Doc
  {
    var confirmed, resolved, feedback := Get(body, "confirmed"), Get(body, "resolved"), Get(body, "feedback");
    var a1 := if confirmed != Undefined then a["confirmed" := confirmed] else a;
    var a2 := if resolved != Undefined then a1["resolved" := resolved] else a1;
    if Truthy(feedback) then a2["feedback" := feedback] else a2
  }

  /** Each of the three fields takes the body's value exactly when the
      handler's test passes, and every other field is kept. */
  lemma PatchedFields(a: Doc, body: Doc)
    ensures var p, c := Patched(a, body), Get(body, "confirmed");
      Get(p, "confirmed") == (if c != Undefined then c else Get(a, "confirmed"))
    ensures var p, r := Patched(a, body), Get(body, "resolved");
      Get(p, "resolved") == (if r != Undefined then r else Get(a, "resolved"))
    ensures var p, f := Patched(a, body), Get(body, "feedback");
      Get(p, "feedback") == (if Truthy(f) then f else Get(a, "feedback"))
    ensures forall k :: k != "confirmed" && k != "resolved" && k != "feedback" ==> Get(Patched(a, body), k) == Get(a, k)
  {
  }

  /** A body without any of the three fields changes nothing. */
  lemma EmptyPatchKeepsAnomaly(a: Doc, body: Doc)
    requires Get(body, "confirmed") == Undefined && Get(body, "resolved") == Undefined && !Truthy(Get(body, "feedback"))
    ensures Patched(a, body) == a
  {
  }

  /** The collection after `PUT /:id` and the reply. */
  datatype Put = Put(items: seq<Doc>, response: Response)

  /** `PUT /:id`. `findById` hands back the stored object itself, so the
      assignments land in the store. As written, the handler then calls
      `anomaly.save()`, which a plain stored object does not have: the
      TypeError is answered with 500 although the update has already been
      made. `Corrected` answers with the updated anomaly. */
  function Updated(items: seq<Doc>, id: string, body: Doc, variant: VesselIngest.Variant): Put
  {
    match IdIndex(items, Str(id))
    case None => Put(items, NOT_FOUND)
    case Some(i) =>
      var patched := Patched(items[i], body);
      Put(items[i := patched],
          if variant == VesselIngest.AsWritten then ServerError("Error updating anomaly", TypeError("anomaly.save is not a function"))
          else Response(200, Obj(patched)))
  }

  /** Both variants change the store alike: 404 and no change for an unknown
      id, otherwise only the first anomaly with the id is patched. */
  lemma {:induction false} UpdatedStore(items: seq<Doc>, id: string, body: Doc, variant: VesselIngest.Variant)
    ensures IdIndex(items, Str(id)).None? ==> Updated(items, id, body, variant) == Put(items, NOT_FOUND)
    ensures IdIndex(items, Str(id)).Some? ==>
      var i, u := IdIndex(items, Str(id)).value, Updated(items, id, body, variant);
      && |u.items| == |items| && u.items[i] == Patched(items[i], body)
      && (forall j :: 0 <= j < |items| && j != i ==> u.items[j] == items[j])
      && (variant == VesselIngest.Corrected ==> u.response == Response(200, Obj(u.items[i])))
      && (variant == VesselIngest.AsWritten ==> u.response.status == 500)
    ensures Updated(items, id, body, VesselIngest.AsWritten).items == Updated(items, id, body, VesselIngest.Corrected).items
  {
  }

  /** Confirming the one stored anomaly as written: the client is told the
      update failed, yet the anomaly is now confirmed. */
  lemma PutAsWrittenCounterexample()
    ensures var u := Updated([map["_id" := Str("1"), "confirmed" := Bool(false)]], "1",
                             map["confirmed" := Bool(true)], VesselIngest.AsWritten);
      u.response.status == 500 && Get(u.items[0], "confirmed") == Bool(true)
  {
  }

  /** `PUT /:id` with the failing `save` dropped; the assignments to the
      stored object are the update. */
  method UpdateAnomaly(store: Store, id: string, body: Doc) returns (r: Response)
    modifies store
    ensures store.idCounter == old(store.idCounter)
    ensures var u := Updated(old(store.Items(ANOMALIES)), id, body, VesselIngest.Corrected);
      r == u.response &&
      store.collections == (if ANOMALIES in old(store.collections) then old(store.collections)[ANOMALIES := u.items]
                            else old(store.collections))
  {
    var anomaly := FindById(store, ANOMALIES, Str(id));
    if anomaly.None? {
      return NOT_FOUND;
    }
    var i := IdIndex(store.collections[ANOMALIES], Str(id)).value;
    var patched := anomaly.value;
    if Get(body, "confirmed") != Undefined {
      patched := patched["confirmed" := Get(body, "confirmed")];
    }
    if Get(body, "resolved") != Undefined {
      patched := patched["resolved" := Get(body, "resolved")];
    }
    if Truthy(Get(body, "feedback")) {
      patched := patched["feedback" := Get(body, "feedback")];
    }
    store.collections := store.collections[ANOMALIES := store.collections[ANOMALIES][i := patched]];
    return Response(200, Obj(patched));
  }
}

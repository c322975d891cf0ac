/**
 * The parts of the WHATWG Fetch Standard that the lead route relies on: the
 * "ok status" range and the browser's CORS-preflight check (section 3.2 of
 * the Fetch Standard, "CORS protocol", and section 4.8, "CORS-preflight
 * fetch"), which decides whether a cross-origin request may follow a
 * preflight response.
 */
module Http {
  import Text

  /** An ok status is any status in the range 200 to 299: `response.ok`. */
  predicate IsOk(status: int)
  {
    200 <= status <= 299
  }

  /** HTTP tab or space, the white space stripped around list elements. */
  predicate IsHttpTabOrSpace(c: char)
  {
    c == ' ' || c == '\t'
  }

  /** Removes leading and trailing HTTP tab or space. */
  function Strip(s: string): (r: string)
    ensures |r| <= |s|
    ensures r != [] ==> !IsHttpTabOrSpace(r[0]) && !IsHttpTabOrSpace(r[|r| - 1])
  {
    if s == [] then s
    else if IsHttpTabOrSpace(s[0]) then Strip(s[1..])
    else if IsHttpTabOrSpace(s[|s| - 1]) then Strip(s[..|s| - 1])
    else s
  }

  /** The elements of a comma-separated header value, each stripped. */
  function HeaderValues(v: string): (r: seq<string>)
    ensures |r| >= 1
  {
    StripAll(Text.Split(v, ","))
  }

  /** Strips every element of a list. */
  function StripAll(parts: seq<string>): (r: seq<string>)
    ensures |r| == |parts|
  {
    if parts == [] then [] else [Strip(parts[0])] + StripAll(parts[1..])
  }

  /** ASCII lower-casing of one character. */
  function LowerChar(c: char): char
  {
    if 'A' <= c <= 'Z' then (c as int + 32) as char else c
  }

  /** Byte-case-insensitive equality, how header names compare. */
  predicate SameIgnoringCase(a: string, b: string)
  {
    |a| == |b| && forall i | 0 <= i < |a| :: LowerChar(a[i]) == LowerChar(b[i])
  }

  /** The response headers of the CORS protocol used here:
      `Access-Control-Allow-Origin`, `Access-Control-Allow-Methods` and
      `Access-Control-Allow-Headers` and `Access-Control-Allow-Credentials`. */
  datatype CorsHeader = AllowOrigin | AllowMethods | AllowHeaders | AllowCredentials

  /** The methods that never need to be listed by a preflight response. */
  predicate IsSafelistedMethod(m: string)
  {
    m == "GET" || m == "HEAD" || m == "POST"
  }

  /** What the browser asks in a preflight: the requesting origin, the method
      of the actual request, the names of its CORS-unsafe request headers and
      whether credentials are included. */
  datatype PreflightQuery = PreflightQuery(origin: string, verb: string, unsafeHeaders: seq<string>, credentials: bool)

  /** The CORS check: a request without credentials passes when the allowed
      origin is `*` or its own origin; one with credentials needs its own
      origin and `Access-Control-Allow-Credentials: true`. */
  predicate CorsCheck(headers: map<CorsHeader, string>, q: PreflightQuery)
  {
    && AllowOrigin in headers
    && var allowed := headers[AllowOrigin];
       if !q.credentials then allowed == "*" || allowed == q.origin
       else allowed == q.origin && AllowCredentials in headers && headers[AllowCredentials] == "true"
  }

  /** The methods a preflight response allows (an absent header allows none). */
  function AllowedMethods(headers: map<CorsHeader, string>): seq<string>
  {
    if AllowMethods in headers then HeaderValues(headers[AllowMethods]) else []
  }

  /** The header names a preflight response allows (an absent header allows
      none). */
  function AllowedHeaders(headers: map<CorsHeader, string>): seq<string>
  {
    if AllowHeaders in headers then HeaderValues(headers[AllowHeaders]) else []
  }

  /** `name` matches some listed header name, ignoring case. */
  predicate ListedIgnoringCase(name: string, names: seq<string>)
  {
    exists j | 0 <= j < |names| :: SameIgnoringCase(name, names[j])
  }

  /** The whole preflight check: ok status, the CORS check, the method and
      every unsafe request header admitted (a `*` wildcard counts only
      without credentials). */
  predicate PreflightPasses(status: int, headers: map<CorsHeader, string>, q: PreflightQuery)
  {
    var methods := AllowedMethods(headers);
    var names := AllowedHeaders(headers);
    && IsOk(status)
    && CorsCheck(headers, q)
    && (q.verb in methods || IsSafelistedMethod(q.verb) || ("*" in methods && !q.credentials))
    && (forall i | 0 <= i < |q.unsafeHeaders| ::
          ListedIgnoringCase(q.unsafeHeaders[i], names) || ("*" in names && !q.credentials))
  }
}

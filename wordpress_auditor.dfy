/** The audit itself (src/lib/wordpress-auditor.ts): URL normalisation, the
    header classifier, the score, and the probes. Every probe reaches the
    site through `fetch`, the relay seen from outside: the response it
    delivers for a URL, or `None` when the relay throws. */
module Auditor {
  import opened Wrappers
  import opened Seqs
  import opened Text
  import opened Http
  import opened AuditTypes

  // ---------------------------------------------------------------------
  // Catalogues

  datatype HeaderToCheck = HeaderToCheck(name: string, critical: bool)

  /** `SECURITY_HEADERS_TO_CHECK`, in the order the report lists them. */
  const SecurityHeadersToCheck: seq<HeaderToCheck> := [
    HeaderToCheck("Content-Security-Policy", true),
    HeaderToCheck("X-Frame-Options", true),
    HeaderToCheck("X-Content-Type-Options", true),
    HeaderToCheck("Strict-Transport-Security", true),
    HeaderToCheck("X-XSS-Protection", false),
    HeaderToCheck("Referrer-Policy", false),
    HeaderToCheck("Permissions-Policy", false),
    HeaderToCheck("X-Permitted-Cross-Domain-Policies", false),
    HeaderToCheck("Cross-Origin-Embedder-Policy", false),
    HeaderToCheck("Cross-Origin-Opener-Policy", false),
    HeaderToCheck("Cross-Origin-Resource-Policy", false)
  ]

  datatype WpEndpoint = WpEndpoint(path: string, name: string, risk: Risk, description: string)

  /** `WP_ENDPOINTS`, in the order the report lists them. */
  const WpEndpoints: seq<WpEndpoint> := [
    WpEndpoint("/xmlrpc.php", "XML-RPC", RiskCritical, "XML-RPC puede usarse para ataques de fuerza bruta y DDoS amplificado"),
    WpEndpoint("/wp-login.php", "WP Login", RiskMedium, "Página de login expuesta públicamente"),
    WpEndpoint("/wp-admin/", "WP Admin", RiskMedium, "Panel de administración accesible"),
    WpEndpoint("/wp-json/", "REST API", RiskInfo, "API REST de WordPress activa"),
    WpEndpoint("/wp-content/debug.log", "Debug Log", RiskCritical, "Archivo de debug expuesto con información sensible"),
    WpEndpoint("/wp-config.php.bak", "Config Backup", RiskCritical, "Backup de configuración con credenciales"),
    WpEndpoint("/wp-config.php~", "Config Temp", RiskCritical, "Archivo temporal de configuración"),
    WpEndpoint("/.git/", "Git Exposed", RiskCritical, "Repositorio Git expuesto"),
    WpEndpoint("/readme.html", "Readme", RiskLow, "Archivo readme revela versión de WordPress"),
    WpEndpoint("/license.txt", "License", RiskLow, "Archivo de licencia de WordPress"),
    WpEndpoint("/wp-includes/", "WP Includes", RiskInfo, "Directorio de includes accesible"),
    WpEndpoint("/wp-content/uploads/", "Uploads Dir", RiskLow, "Directorio de uploads listable")
  ]

  // ---------------------------------------------------------------------
  // normalizeUrl

  /** `s.replace(/\/+$/, '')`: `s` without its run of trailing slashes. */
  function StripTrailingSlashes(s: string): (r: string)
    ensures r <= s
    ensures r == [] || r[|r| - 1] != '/'
    ensures forall i :: |r| <= i < |s| ==> s[i] == '/'
  {
    if s != [] && s[|s| - 1] == '/' then StripTrailingSlashes(s[..|s| - 1]) else s
  }

  predicate HasScheme(s: string) {
    "http://" <= s || "https://" <= s
  }

  /** `normalizeUrl`: trim, default the scheme to https, drop trailing slashes. */
  function NormalizeUrl(url: string): (r: string)
    ensures r == [] || r[|r| - 1] != '/'
  {
    var trimmed := Trim(url);
    var withScheme := if HasScheme(trimmed) then trimmed else "https://" + trimmed;
    StripTrailingSlashes(withScheme)
  }

  /** The result is the trimmed input, with "https://" in front exactly when
      it had neither scheme, less nothing but trailing slashes. */
  lemma NormalizeUrlShape(url: string)
    ensures var t := Trim(url);
      var full := if HasScheme(t) then t else "https://" + t;
      NormalizeUrl(url) <= full
      && forall i :: |NormalizeUrl(url)| <= i < |full| ==> full[i] == '/'
  {
  }

  /** An input that already names a scheme keeps it; any other input gets
      https, so the result always starts with a scheme. */
  lemma NormalizeUrlScheme(url: string)
    requires Trim(url) != [] && Trim(url)[|Trim(url)| - 1] != '/'
    ensures HasScheme(Trim(url)) ==> NormalizeUrl(url) == Trim(url)
    ensures !HasScheme(Trim(url)) ==> NormalizeUrl(url) == "https://" + Trim(url)
  {
  }

  /** The scheme itself is never stripped: a bare host gains "https://" and
      loses only slashes after the host. */
  lemma {:induction false} StripKeepsNonSlashPrefix(a: string, b: string)
    requires a != [] && a[|a| - 1] != '/'
    requires forall i :: 0 <= i < |b| ==> b[i] == '/'
    ensures StripTrailingSlashes(a + b) == a
    decreases |b|
  {
    if b == [] {
      assert a + b == a;
    } else {
      assert (a + b)[..|a + b| - 1] == a + b[..|b| - 1];
      StripKeepsNonSlashPrefix(a, b[..|b| - 1]);
    }
  }

  // ---------------------------------------------------------------------
  // getHeaderStatus and getHeaderDescription

  /** One year in seconds: the HSTS max-age from which the policy is secure. */
  const OneYear: nat := 31536000

  /** `parseInt(lowerValue.match(/max-age=(\d+)/)?.[1] || '0')`: the digits
      after the leftmost "max-age=" that is followed by a digit, or 0. */
  function MaxAge(lowerValue: string): nat {
    match Capture(lowerValue, "max-age=", IsDigit)
    case None => 0
    case Some(ds) => DecimalValue(ds)
  }

  /** `getHeaderStatus`: the verdict on one header's value. A missing or
      empty value is vulnerable whatever the header; the comparison of the
      name ignores case. */
  function HeaderStatusOf(name: string, value: Option<string>): (s: HeaderStatus)
    ensures !Present(value) ==> s == Vulnerable
    ensures s != Info
  {
    if !Present(value) then Vulnerable
    else
      var lower := ToLower(value.value);
      var key := ToLower(name);
      if key == "content-security-policy" then
        (if Contains(lower, "unsafe-inline") || Contains(lower, "unsafe-eval") then Warning else Secure)
      else if key == "x-frame-options" then
        (if lower == "deny" || lower == "sameorigin" then Secure else Warning)
      else if key == "strict-transport-security" then
        (var maxAge := MaxAge(lower);
         if maxAge >= OneYear then Secure else if maxAge > 0 then Warning else Vulnerable)
      else if key == "x-content-type-options" then
        (if lower == "nosniff" then Secure else Warning)
      else Secure
  }

  /** Header names are compared without regard to case. */
  lemma HeaderStatusIgnoresNameCase(a: string, b: string, value: Option<string>)
    requires ToLower(a) == ToLower(b)
    ensures HeaderStatusOf(a, value) == HeaderStatusOf(b, value)
  {
  }

  /** X-Frame-Options is secure exactly for DENY and SAMEORIGIN (section 2.1
      of RFC 7034), in any case; every other value, ALLOW-FROM included, is
      a warning. */
  lemma FrameOptionsVerdict(name: string, value: Option<string>)
    requires ToLower(name) == "x-frame-options" && Present(value)
    ensures HeaderStatusOf(name, value) == Secure <==> ToLower(value.value) in {"deny", "sameorigin"}
    ensures HeaderStatusOf(name, value) != Secure ==> HeaderStatusOf(name, value) == Warning
  {
  }

  /** X-Content-Type-Options is secure exactly for "nosniff", in any case. */
  lemma ContentTypeOptionsVerdict(name: string, value: Option<string>)
    requires ToLower(name) == "x-content-type-options" && Present(value)
    ensures HeaderStatusOf(name, value) == (if ToLower(value.value) == "nosniff" then Secure else Warning)
  {
  }

  /** A Content-Security-Policy is a warning exactly when it allows inline
      or eval'd script, and secure otherwise. */
  lemma CspVerdict(name: string, value: Option<string>)
    requires ToLower(name) == "content-security-policy" && Present(value)
    ensures HeaderStatusOf(name, value) == Warning
            <==> Contains(ToLower(value.value), "unsafe-inline") || Contains(ToLower(value.value), "unsafe-eval")
    ensures HeaderStatusOf(name, value) in {Warning, Secure}
  {
  }

  /** Strict-Transport-Security is banded by max-age: a year or more is
      secure, a positive shorter age a warning, and zero (or no readable
      age) vulnerable. */
  lemma HstsVerdict(name: string, value: Option<string>)
    requires ToLower(name) == "strict-transport-security" && Present(value)
    ensures var age := MaxAge(ToLower(value.value));
      (HeaderStatusOf(name, value) == Secure <==> age >= OneYear)
      && (HeaderStatusOf(name, value) == Warning <==> 0 < age < OneYear)
      && (HeaderStatusOf(name, value) == Vulnerable <==> age == 0)
  {
  }

  /** Any other header is secure as soon as it has a value. */
  lemma OtherHeaderVerdict(name: string, value: Option<string>)
    requires ToLower(name) !in {"content-security-policy", "x-frame-options", "strict-transport-security", "x-content-type-options"}
    ensures HeaderStatusOf(name, value) == (if Present(value) then Secure else Vulnerable)
  {
  }

  /** The max-age read from a directive written as plain digits. */
  lemma MaxAgeOfDigits(ds: string)
    requires ds != [] && forall i :: 0 <= i < |ds| ==> IsDigit(ds[i])
    ensures MaxAge("max-age=" + ds) == DecimalValue(ds)
  {
    var s := "max-age=" + ds;
    assert s[0..8] == "max-age=";
    assert MatchesAt(s, "max-age=", IsDigit, 0);
    assert s[8..] == ds;
    RunAll(ds, IsDigit);
  }

  lemma {:induction false} RunAll(s: string, accept: char -> bool)
    requires forall i :: 0 <= i < |s| ==> accept(s[i])
    ensures Run(s, accept) == s
  {
    if s != [] {
      RunAll(s[1..], accept);
    }
  }

  lemma LowerDirective(ds: string)
    requires forall i :: 0 <= i < |ds| ==> IsDigit(ds[i])
    ensures ToLower("max-age=" + ds) == "max-age=" + ds
  {
    var s := "max-age=" + ds;
    forall i | 0 <= i < |s|
      ensures LowerChar(s[i]) == s[i]
    {
      if i >= 8 {
        assert s[i] == ds[i - 8];
      }
    }
  }

  /** `max-age=<n>` is secure from one year on, a warning below it and
      vulnerable at zero; in particular 31536000 is secure and 31535999 a
      warning. */
  lemma HstsBoundary(name: string, n: nat)
    requires ToLower(name) == "strict-transport-security"
    ensures HeaderStatusOf(name, Some("max-age=" + NatToString(n)))
            == (if n >= OneYear then Secure else if n > 0 then Warning else Vulnerable)
  {
    LowerDirective(NatToString(n));
    MaxAgeOfDigits(NatToString(n));
  }

  lemma QuotedDirectiveNoMatchAt(ds: string, i: int)
    requires forall k :: 0 <= k < |ds| ==> IsDigit(ds[k])
    ensures !MatchesAt("max-age=" + ("\"" + ds + "\""), "max-age=", IsDigit, i)
  {
    var key := "max-age=";
    var rest := "\"" + ds + "\"";
    var s := key + rest;
    if i == 0 {
      assert s[8] == rest[0] == '"';
    } else if OccursAt(s, key, i) {
      assert s[i] == s[i..i + 8][0] == 'm';
    }
  }

  /** A quoted directive value: "max-age=" followed by a double quote. */
  lemma QuotedDirectiveHasNoMaxAge(ds: string)
    requires forall i :: 0 <= i < |ds| ==> IsDigit(ds[i])
    ensures MaxAge("max-age=" + ("\"" + ds + "\"")) == 0
  {
    var s := "max-age=" + ("\"" + ds + "\"");
    forall i | 0 <= i < |s|
      ensures !MatchesAt(s, "max-age=", IsDigit, i)
    {
      QuotedDirectiveNoMatchAt(ds, i);
    }
    assert Capture(s, "max-age=", IsDigit).None?;
  }

  /** Section 6.1.1 of RFC 6797 lets max-age be a quoted string; the
      classifier reads no digits after "max-age=" then, so a quoted policy of
      any length counts as no max-age at all: vulnerable. */
  lemma QuotedMaxAgeIsVulnerable(name: string, n: nat)
    requires ToLower(name) == "strict-transport-security"
    ensures HeaderStatusOf(name, Some("max-age=" + ("\"" + NatToString(n) + "\""))) == Vulnerable
  {
    var ds := NatToString(n);
    var rest := "\"" + ds + "\"";
    var s := "max-age=" + rest;
    forall i | 0 <= i < |s|
      ensures LowerChar(s[i]) == s[i]
    {
      if i >= 8 {
        assert s[i] == rest[i - 8];
        if 9 <= i < |s| - 1 {
          assert rest[i - 8] == ds[i - 9];
        }
      }
    }
    assert ToLower(s) == s;
    QuotedDirectiveHasNoMaxAge(ds);
  }

  /** `getHeaderDescription`: the explanation shown beside a header. */
  function HeaderDescription(name: string, value: Option<string>): string {
    if !Present(value) then "Cabecera " + name + " no configurada. Esto puede exponer el sitio a ataques."
    else
      var key := ToLower(name);
      if key == "content-security-policy" then "Define qué recursos pueden cargarse en la página."
      else if key == "x-frame-options" then "Protege contra ataques de clickjacking."
      else if key == "strict-transport-security" then "Fuerza conexiones HTTPS."
      else if key == "x-content-type-options" then "Previene MIME-sniffing."
      else if key == "x-xss-protection" then "Filtro XSS del navegador (legacy)."
      else if key == "referrer-policy" then "Controla información de referrer enviada."
      else if key == "permissions-policy" then "Controla qué APIs del navegador pueden usarse."
      else "Cabecera de seguridad: " + value.value
  }

  /** A missing header's description names the header; a present header's
      description depends on its name only up to case, and for a header
      outside the seven explained ones it quotes the value. */
  lemma HeaderDescriptionMentions(name: string, value: Option<string>)
    ensures !Present(value) ==> Contains(HeaderDescription(name, value), name)
    ensures Present(value) && ToLower(name) !in {"content-security-policy", "x-frame-options", "strict-transport-security",
      "x-content-type-options", "x-xss-protection", "referrer-policy", "permissions-policy"}
      ==> Contains(HeaderDescription(name, value), value.value)
  {
    if !Present(value) {
      var prefix := "Cabecera ";
      assert (prefix + name)[|prefix|..|prefix| + |name|] == name;
      assert OccursAt(prefix + name, name, |prefix|);
      ContainsLeft(prefix + name, " no configurada. Esto puede exponer el sitio a ataques.", name);
    } else if ToLower(name) !in {"content-security-policy", "x-frame-options", "strict-transport-security",
      "x-content-type-options", "x-xss-protection", "referrer-policy", "permissions-policy"} {
      var prefix := "Cabecera de seguridad: ";
      assert (prefix + value.value)[|prefix|..|prefix| + |value.value|] == value.value;
      assert OccursAt(prefix + value.value, value.value, |prefix|);
    }
  }

  // ---------------------------------------------------------------------
  // checkSecurityHeaders

  /** The report line for one header of the list. */
  function CheckedHeader(hs: Headers, name: string): SecurityHeader {
    var value := HeaderGet(hs, name);
    SecurityHeader(name, value, HeaderStatusOf(name, value), HeaderDescription(name, value), None)
  }

  /** The report line for a `Server` header: naming Apache or nginx is a
      warning, any other product only information. */
  function ServerLine(value: string): SecurityHeader {
    var lower := ToLower(value);
    SecurityHeader("Server", Some(value),
      if Contains(lower, "apache") || Contains(lower, "nginx") then Warning else Info,
      "Revela información del servidor web.", None)
  }

  function PoweredByLine(value: string): SecurityHeader {
    SecurityHeader("X-Powered-By", Some(value), Warning, "Revela tecnología del backend (debería eliminarse).", None)
  }

  /** One line per header of the list, in list order. */
  function ListedHeaders(hs: Headers): seq<SecurityHeader> {
    seq(|SecurityHeadersToCheck|, i requires 0 <= i < |SecurityHeadersToCheck| => CheckedHeader(hs, SecurityHeadersToCheck[i].name))
  }

  /** What `checkSecurityHeaders` reports given the outcome of its fetch. */
  function HeadersReport(response: Option<Response>): seq<SecurityHeader> {
    match response
    case None => []
    case Some(resp) =>
      var server := HeaderGet(resp.headers, "Server");
      var poweredBy := HeaderGet(resp.headers, "X-Powered-By");
      ListedHeaders(resp.headers)
      + (if Present(server) then [ServerLine(server.value)] else [])
      + (if Present(poweredBy) then [PoweredByLine(poweredBy.value)] else [])
  }

  /** The loop of `checkSecurityHeaders` over the list of headers. */
  method CheckListedHeaders(hs: Headers) returns (headers: seq<SecurityHeader>)
    ensures headers == ListedHeaders(hs)
  {
    headers := [];
    ghost var listed := ListedHeaders(hs);
    for i := 0 to |SecurityHeadersToCheck|
      invariant headers == listed[..i]
    {
      var name := SecurityHeadersToCheck[i].name;
      var value := HeaderGet(hs, name);
      headers := headers + [SecurityHeader(name, value, HeaderStatusOf(name, value), HeaderDescription(name, value), None)];
      assert listed[..i + 1] == listed[..i] + [listed[i]];
    }
    assert listed[..|SecurityHeadersToCheck|] == listed;
  }

  /** `checkSecurityHeaders`: one line per listed header, in list order,
      then the disclosure headers when present; nothing when the fetch fails. */
  method CheckSecurityHeaders(baseUrl: string, fetch: string -> Option<Response>) returns (headers: seq<SecurityHeader>)
    ensures headers == HeadersReport(fetch(baseUrl))
  {
    headers := [];
    var response := fetch(baseUrl);
    if response.None? {
      return;
    }
    var resp := response.value;
    headers := CheckListedHeaders(resp.headers);
    var serverHeader := HeaderGet(resp.headers, "Server");
    if Present(serverHeader) {
      headers := headers + [ServerLine(serverHeader.value)];
    }
    var poweredBy := HeaderGet(resp.headers, "X-Powered-By");
    if Present(poweredBy) {
      headers := headers + [PoweredByLine(poweredBy.value)];
    }
  }

  /** The report is empty iff the fetch failed; otherwise it lists the
      eleven headers in order, each with the value the response carries and
      its verdict, and then at most the two disclosure lines. */
  lemma HeadersReportShape(response: Option<Response>)
    ensures var rep := HeadersReport(response);
      (response.None? <==> rep == [])
      && (response.Some? ==>
            11 <= |rep| <= 13
            && forall i :: 0 <= i < 11 ==>
                 rep[i].name == SecurityHeadersToCheck[i].name
                 && rep[i].value == HeaderGet(response.value.headers, rep[i].name)
                 && rep[i].status == HeaderStatusOf(rep[i].name, rep[i].value))
  {
  }

  /** The Server line follows the list exactly when the response carries a
      non-empty Server header, and the X-Powered-By line comes last exactly
      when it carries a non-empty X-Powered-By header, always as a warning. */
  lemma DisclosureLines(resp: Response)
    ensures var rep := HeadersReport(Some(resp));
      var server := HeaderGet(resp.headers, "Server");
      var poweredBy := HeaderGet(resp.headers, "X-Powered-By");
      (|rep| > 11 && rep[11].name == "Server" <==> Present(server))
      && (Present(server) ==>
            (rep[11].value == server
             && (rep[11].status == Warning <==> Contains(ToLower(server.value), "apache") || Contains(ToLower(server.value), "nginx"))
             && (rep[11].status != Warning ==> rep[11].status == Info)))
      && (rep[|rep| - 1].name == "X-Powered-By" <==> Present(poweredBy))
      && (Present(poweredBy) ==> rep[|rep| - 1] == PoweredByLine(poweredBy.value) && rep[|rep| - 1].status == Warning)
  {
    var rep := HeadersReport(Some(resp));
    assert rep[10].name == "Cross-Origin-Resource-Policy";
  }

  // ---------------------------------------------------------------------
  // checkEndpoints

  /** The report line for one catalogue endpoint, given its probe. */
  function EndpointLine(baseUrl: string, ep: WpEndpoint, fetch: string -> Option<Response>): EndpointCheck {
    var fullUrl := baseUrl + ep.path;
    var result := Probe(fetch(fullUrl));
    EndpointCheck(ep.name, fullUrl, if result.exists_ then Accessible else Blocked, Some(result.statusCode),
      ep.description, ep.risk, None)
  }

  /** `checkEndpoints`: one probe per catalogue endpoint, results in
      catalogue order. */
  function CheckEndpoints(baseUrl: string, fetch: string -> Option<Response>): (r: seq<EndpointCheck>)
    ensures |r| == |WpEndpoints|
    ensures forall i :: 0 <= i < |r| ==>
      r[i].name == WpEndpoints[i].name && r[i].risk == WpEndpoints[i].risk
      && r[i].url == baseUrl + WpEndpoints[i].path
      && r[i].status in {Accessible, Blocked}
      && (r[i].status == Accessible <==> Probe(fetch(r[i].url)).exists_)
  {
    seq(|WpEndpoints|, i requires 0 <= i < |WpEndpoints| => EndpointLine(baseUrl, WpEndpoints[i], fetch))
  }

  /** An endpoint is reported accessible exactly when the relay delivered a
      2xx, 401 or 403 answer for it, and then with that status. */
  lemma EndpointAccessibleIff(baseUrl: string, fetch: string -> Option<Response>, i: nat)
    requires i < |WpEndpoints|
    ensures var e := CheckEndpoints(baseUrl, fetch)[i];
      var r := fetch(baseUrl + WpEndpoints[i].path);
      (e.status == Accessible <==> r.Some? && SignalsExistence(r.value.status))
      && e.statusCode == Some(if r.Some? then r.value.status else 0)
  {
  }

  // ---------------------------------------------------------------------
  // checkUserEnumeration

  const RestApiPath := "/wp-json/wp/v2/users"
  const RestRoutePath := "/?rest_route=/wp/v2/users"
  const RestApiMethod := "REST API (/wp-json/wp/v2/users)"
  const RestRouteMethod := "REST Route (/?rest_route=/wp/v2/users)"
  const AuthorMethod := "Author Parameter (?author=N)"
  const MaxAuthor: nat := 5

  /** What `response.json()` followed by the `map` to `{id, name, slug}`
      makes of a body: no non-empty array (the body is not JSON, not an
      array, or an empty array); a non-empty array holding an element the
      `map` cannot read (such as `null`), so that it throws; or the users. */
  datatype UsersBody = NoUsers | MapThrows | Users(users: seq<User>)

  /** What one REST form yields: only a 2xx answer is read, and an empty
      array counts as no users. */
  function RestAttempt(response: Option<Response>, json: string -> UsersBody): (r: UsersBody)
    ensures r.Users? ==> r.users != []
    ensures !r.NoUsers? ==> response.Some? && IsOk(response.value.status)
  {
    if response.Some? && IsOk(response.value.status) then
      match json(response.value.body)
      case Users(users) => if users != [] then Users(users) else NoUsers
      case other => other
    else NoUsers
  }

  /** The record after a REST form set `found` and `method` but its `map`
      threw before `users` was assigned. */
  function Claimed(acc: UserEnumeration, methodUsed: string): UserEnumeration {
    acc.(found := true, methodUsed := methodUsed)
  }

  function AuthorUrl(baseUrl: string, i: nat): string {
    baseUrl + "/?author=" + NatToString(i)
  }

  predicate NotSlash(c: char) {
    c != '/' && c != '"'
  }

  /** `html.match(/author\/([^\/\"]+)/)?.[1]`. */
  function AuthorSlug(html: string): Option<string> {
    Capture(html, "author/", NotSlash)
  }

  /** What the page `?author=i` shows: `None` when its fetch failed,
      otherwise the author slug it names, if any. */
  function AuthorPage(baseUrl: string, fetch: string -> Option<Response>, i: nat): Option<Option<string>> {
    match fetch(AuthorUrl(baseUrl, i))
    case None => None
    case Some(resp) => Some(AuthorSlug(resp.body))
  }

  function AuthorPages(baseUrl: string, fetch: string -> Option<Response>): nat -> Option<Option<string>> {
    (i: nat) => AuthorPage(baseUrl, fetch, i)
  }

  /** The author scan from `?author=i` on, with the findings so far in `acc`:
      each page naming an author adds one user with id `i`; a failed fetch
      ends the scan and keeps what was found. */
  function AuthorScan(page: nat -> Option<Option<string>>, i: nat, acc: UserEnumeration): UserEnumeration
    decreases MaxAuthor + 1 - i
  {
    if i > MaxAuthor then acc
    else
      match page(i)
      case None => acc
      case Some(None) => AuthorScan(page, i + 1, acc)
      case Some(Some(slug)) =>
        AuthorScan(page, i + 1, acc.(found := true, methodUsed := AuthorMethod, users := acc.users + [User(i, slug, slug)]))
  }

  const NothingFound := UserEnumeration(false, [], "", None)

  /** The record after one REST form: unchanged when it yields nothing,
      claimed when its `map` throws, and replaced by its users otherwise. */
  function AfterRest(acc: UserEnumeration, body: UsersBody, methodUsed: string): UserEnumeration {
    match body
    case NoUsers => acc
    case MapThrows => Claimed(acc, methodUsed)
    case Users(users) => Claimed(acc, methodUsed).(users := users)
  }

  /** What `checkUserEnumeration` reports: the first REST form that yields
      users wins; otherwise the author scan, starting from whatever a REST
      form whose `map` threw left behind. */
  function UserEnumerationOf(baseUrl: string, fetch: string -> Option<Response>, json: string -> UsersBody): UserEnumeration {
    var api := RestAttempt(fetch(baseUrl + RestApiPath), json);
    var afterApi := AfterRest(NothingFound, api, RestApiMethod);
    if api.Users? then afterApi
    else
      var route := RestAttempt(fetch(baseUrl + RestRoutePath), json);
      var afterRoute := AfterRest(afterApi, route, RestRouteMethod);
      if route.Users? then afterRoute
      else AuthorScan(AuthorPages(baseUrl, fetch), 1, afterRoute)
  }

  /** `checkUserEnumeration`. */
  method CheckUserEnumeration(baseUrl: string, fetch: string -> Option<Response>, json: string -> UsersBody)
    returns (result: UserEnumeration)
    ensures result == UserEnumerationOf(baseUrl, fetch, json)
  {
    result := NothingFound;
    var body := RestAttempt(fetch(baseUrl + RestApiPath), json);
    if !body.NoUsers? {
      result := result.(found := true, methodUsed := RestApiMethod);
      if body.Users? {
        result := result.(users := body.users);
        return;
      }
    }
    body := RestAttempt(fetch(baseUrl + RestRoutePath), json);
    if !body.NoUsers? {
      result := result.(found := true, methodUsed := RestRouteMethod);
      if body.Users? {
        result := result.(users := body.users);
        return;
      }
    }
    ghost var page := AuthorPages(baseUrl, fetch);
    ghost var goal := AuthorScan(page, 1, result);
    var i := 1;
    while i <= MaxAuthor
      invariant 1 <= i <= MaxAuthor + 1
      invariant AuthorScan(page, i, result) == goal
    {
      var response := fetch(AuthorUrl(baseUrl, i));
      if response.None? {
        assert page(i).None?;
        return;
      }
      var authorMatch := AuthorSlug(response.value.body);
      assert page(i) == Some(authorMatch);
      if authorMatch.Some? {
        result := result.(found := true, methodUsed := AuthorMethod,
                          users := result.users + [User(i, authorMatch.value, authorMatch.value)]);
      }
      i := i + 1;
    }
  }

  /** Ids strictly increase along the list and stay within `lo..hi`. */
  predicate IdsIncreasingWithin(users: seq<User>, lo: int, hi: int) {
    (forall k :: 0 <= k < |users| ==> lo <= users[k].id <= hi)
    && forall k, l :: 0 <= k < l < |users| ==> users[k].id < users[l].id
  }

  /** Adding a user with the next id keeps the ids increasing. */
  lemma AppendNextId(users: seq<User>, i: int, slug: string)
    requires IdsIncreasingWithin(users, 1, i - 1) && 1 <= i
    ensures IdsIncreasingWithin(users + [User(i, slug, slug)], 1, i)
  {
    var us := users + [User(i, slug, slug)];
    forall k, l | 0 <= k < l < |us|
      ensures us[k].id < us[l].id
    {
      if l < |users| {
        assert us[k] == users[k] && us[l] == users[l];
      } else {
        assert us[k] == users[k];
      }
    }
  }

  /** The author scan only appends: the users found before a step are kept,
      every new user has an id in `i..5`, ids keep increasing, and there is
      one user at most per id. */
  lemma {:induction false} AuthorScanAppends(page: nat -> Option<Option<string>>, i: nat, acc: UserEnumeration)
    requires 1 <= i <= MaxAuthor + 1
    requires IdsIncreasingWithin(acc.users, 1, i - 1)
    ensures var r := AuthorScan(page, i, acc);
      acc.users <= r.users
      && IdsIncreasingWithin(r.users, 1, MaxAuthor)
      && |r.users| <= |acc.users| + (MaxAuthor + 1 - i)
    decreases MaxAuthor + 1 - i
  {
    if i <= MaxAuthor {
      match page(i)
      case None =>
      case Some(None) =>
        AuthorScanAppends(page, i + 1, acc);
      case Some(Some(slug)) =>
        var users := acc.users + [User(i, slug, slug)];
        AppendNextId(acc.users, i, slug);
        AuthorScanAppends(page, i + 1, acc.(found := true, methodUsed := AuthorMethod, users := users));
    }
  }

  /** The scan leaves the record as it was unless it finds an author, and
      once it has found one it reports "found" under the author method. */
  lemma {:induction false} AuthorScanMethod(page: nat -> Option<Option<string>>, i: nat, acc: UserEnumeration)
    ensures var r := AuthorScan(page, i, acc);
      |r.users| >= |acc.users|
      && (|r.users| == |acc.users| ==> r == acc)
      && (|r.users| > |acc.users| ==> r.found && r.methodUsed == AuthorMethod)
    decreases MaxAuthor + 1 - i
  {
    if i <= MaxAuthor {
      match page(i)
      case None =>
      case Some(None) =>
        AuthorScanMethod(page, i + 1, acc);
      case Some(Some(slug)) =>
        AuthorScanMethod(page, i + 1, acc.(found := true, methodUsed := AuthorMethod, users := acc.users + [User(i, slug, slug)]));
    }
  }

  /** A page that fails to load ends the scan: the users found on the pages
      before it are exactly the ones reported. */
  lemma {:induction false} AuthorScanStopsAtFailure(page: nat -> Option<Option<string>>, i: nat, acc: UserEnumeration, j: nat)
    requires i <= j <= MaxAuthor && page(j).None?
    ensures forall u :: u in AuthorScan(page, i, acc).users ==> u in acc.users || u.id < j
    decreases j - i
  {
    if i < j {
      match page(i)
      case None =>
      case Some(None) =>
        AuthorScanStopsAtFailure(page, i + 1, acc, j);
      case Some(Some(slug)) =>
        AuthorScanStopsAtFailure(page, i + 1, acc.(found := true, methodUsed := AuthorMethod, users := acc.users + [User(i, slug, slug)]), j);
    }
  }

  /** The shape of the report: the method is one of the three or empty,
      and empty exactly when nothing was found; listed users imply "found";
      the author method lists between one and five users with strictly
      increasing ids. "Found" with no users is possible, but only under a
      REST method whose `map` threw. */
  lemma UserEnumerationShape(baseUrl: string, fetch: string -> Option<Response>, json: string -> UsersBody)
    ensures var r := UserEnumerationOf(baseUrl, fetch, json);
      r.methodUsed in {RestApiMethod, RestRouteMethod, AuthorMethod, ""}
      && (r.methodUsed == "" <==> !r.found)
      && (r.users != [] ==> r.found)
      && (r.found && r.users == [] ==> r.methodUsed in {RestApiMethod, RestRouteMethod})
      && (r.methodUsed == AuthorMethod ==>
            r.users != [] && |r.users| <= MaxAuthor && IdsIncreasingWithin(r.users, 1, MaxAuthor))
  {
    var api := RestAttempt(fetch(baseUrl + RestApiPath), json);
    var route := RestAttempt(fetch(baseUrl + RestRoutePath), json);
    if !api.Users? && !route.Users? {
      var start := AfterRest(AfterRest(NothingFound, api, RestApiMethod), route, RestRouteMethod);
      var page := AuthorPages(baseUrl, fetch);
      AuthorScanAppends(page, 1, start);
      AuthorScanMethod(page, 1, start);
    }
  }

  /** Priority among the methods: the REST API form, when it yields users,
      is reported as is; the rest_route form is consulted only when the
      first did not, and the author scan only when neither did. A REST
      method is reported only if that form answered with a non-empty array;
      when nothing lists a user, the report is whatever a throwing `map`
      claimed (the later form winning), or nothing. */
  lemma EnumerationPriority(baseUrl: string, fetch: string -> Option<Response>, json: string -> UsersBody)
    ensures var r := UserEnumerationOf(baseUrl, fetch, json);
      var api := RestAttempt(fetch(baseUrl + RestApiPath), json);
      var route := RestAttempt(fetch(baseUrl + RestRoutePath), json);
      (api.Users? ==> r.methodUsed == RestApiMethod && r.users == api.users)
      && (!api.Users? && route.Users? ==> r.methodUsed == RestRouteMethod && r.users == route.users)
      && (r.methodUsed == RestApiMethod ==> !api.NoUsers? && (api.Users? || route.NoUsers?))
      && (r.methodUsed == RestRouteMethod ==> !api.Users? && !route.NoUsers?)
      && (r.users == [] ==>
            r == (if route.MapThrows? then UserEnumeration(true, [], RestRouteMethod, None)
                  else if api.MapThrows? then UserEnumeration(true, [], RestApiMethod, None)
                  else NothingFound))
  {
    var api := RestAttempt(fetch(baseUrl + RestApiPath), json);
    var route := RestAttempt(fetch(baseUrl + RestRoutePath), json);
    if !api.Users? && !route.Users? {
      var start := AfterRest(AfterRest(NothingFound, api, RestApiMethod), route, RestRouteMethod);
      AuthorScanMethod(AuthorPages(baseUrl, fetch), 1, start);
    }
  }

  // ---------------------------------------------------------------------
  // getWordPressInfo

  predicate VersionChar(c: char) {
    IsDigit(c) || c == '.'
  }

  /** What `getWordPressInfo` reports. `generatorTag` stands for the
      generator meta-tag regular expression: `None` when the page has no
      such tag, `Some(g)` with its optional version group otherwise. */
  function WordPressInfoOf(baseUrl: string, fetch: string -> Option<Response>,
                           generatorTag: string -> Option<Option<string>>): (info: WordPressInfo)
    ensures info.readme <==> Probe(fetch(baseUrl + "/readme.html")).exists_
    ensures fetch(baseUrl).None? ==> info.version.None? && info.theme.None? && !info.generator
    ensures info.generator ==> info.version.Some? && info.version.value != []
    ensures !info.generator && info.version.Some? ==>
      info.version.value != [] && forall k :: 0 <= k < |info.version.value| ==> VersionChar(info.version.value[k])
    ensures info.theme.Some? ==> info.theme.value != [] && forall k :: 0 <= k < |info.theme.value| ==> NotSlash(info.theme.value[k])
  {
    var readme := Probe(fetch(baseUrl + "/readme.html")).exists_;
    match fetch(baseUrl)
    case None => WordPressInfo(None, None, false, readme)
    case Some(resp) =>
      var html := resp.body;
      var tag := generatorTag(html);
      var version :=
        if tag.Some? then Some(if tag.value.Some? && tag.value.value != "" then tag.value.value else "Unknown")
        else Capture(html, "ver=", VersionChar);
      WordPressInfo(version, Capture(html, "wp-content/themes/", NotSlash), tag.Some?, readme)
  }

  /** Which version and theme are reported once the home page loads: a
      generator tag decides the version (its number, or "Unknown" when it
      carries none) and the `ver=` query is then ignored; without a tag the
      version is the leftmost `ver=` number, if any. The theme is the
      leftmost `wp-content/themes/` segment. */
  lemma VersionPrecedence(baseUrl: string, fetch: string -> Option<Response>,
                          generatorTag: string -> Option<Option<string>>)
    requires fetch(baseUrl).Some?
    ensures var html := fetch(baseUrl).value.body;
      var tag := generatorTag(html);
      var info := WordPressInfoOf(baseUrl, fetch, generatorTag);
      (info.generator <==> tag.Some?)
      && (tag.Some? && tag.value.Some? && tag.value.value != "" ==> info.version == tag.value)
      && (tag.Some? && (tag.value.None? || tag.value.value == "") ==> info.version == Some("Unknown"))
      && (tag.None? ==> info.version == Capture(html, "ver=", VersionChar))
      && info.theme == Capture(html, "wp-content/themes/", NotSlash)
  {
  }

  // ---------------------------------------------------------------------
  // calculateOverallScore

  /** The four names the score treats as critical, compared exactly. */
  predicate IsCriticalName(name: string) {
    name == "Content-Security-Policy" || name == "X-Frame-Options"
    || name == "Strict-Transport-Security" || name == "X-Content-Type-Options"
  }

  /** Points a header line costs: 10 for a vulnerable critical header, 5
      for any other vulnerable one, 3 for a warning. */
  function HeaderDeduction(h: SecurityHeader): int {
    if h.status == Vulnerable then (if IsCriticalName(h.name) then 10 else 5)
    else if h.status == Warning then 3
    else 0
  }

  /** Points an endpoint line costs: by risk, and only when accessible. */
  function EndpointDeduction(e: EndpointCheck): int {
    if e.status != Accessible then 0
    else
      match e.risk
      case RiskCritical => 15
      case RiskHigh => 10
      case RiskMedium => 5
      case RiskLow => 2
      case RiskInfo => 0
  }

  function Deductions(r: AuditResult): int {
    SumOf(r.securityHeaders, HeaderDeduction) + SumOf(r.endpoints, EndpointDeduction)
    + (if r.userEnumeration.found then 15 else 0) + (if r.wordpressInfo.generator then 5 else 0)
  }

  /** `Math.max(0, Math.min(100, x))`. */
  function Clamp(x: int): (c: int)
    ensures 0 <= c <= 100
    ensures 0 <= x <= 100 ==> c == x
  {
    if x > 100 then 100 else if x < 0 then 0 else x
  }

  function OverallScore(r: AuditResult): int {
    Clamp(100 - Deductions(r))
  }

  /** `calculateOverallScore`: start from 100, take off each finding's
      points, clamp to 0..100. */
  method CalculateOverallScore(result: AuditResult) returns (score: int)
    ensures score == OverallScore(result)
    ensures 0 <= score <= 100
  {
    score := 100;
    var headers := result.securityHeaders;
    for i := 0 to |headers|
      invariant score == 100 - SumOf(headers[..i], HeaderDeduction)
    {
      var header := headers[i];
      if header.status == Vulnerable {
        score := score - if IsCriticalName(header.name) then 10 else 5;
      } else if header.status == Warning {
        score := score - 3;
      }
      assert headers[..i + 1][..i] == headers[..i];
    }
    assert headers[..|headers|] == headers;
    var endpoints := result.endpoints;
    ghost var afterHeaders := score;
    for i := 0 to |endpoints|
      invariant score == afterHeaders - SumOf(endpoints[..i], EndpointDeduction)
    {
      var endpoint := endpoints[i];
      if endpoint.status == Accessible {
        match endpoint.risk {
          case RiskCritical => score := score - 15;
          case RiskHigh => score := score - 10;
          case RiskMedium => score := score - 5;
          case RiskLow => score := score - 2;
          case RiskInfo =>
        }
      }
      assert endpoints[..i + 1][..i] == endpoints[..i];
    }
    assert endpoints[..|endpoints|] == endpoints;
    if result.userEnumeration.found {
      score := score - 15;
    }
    if result.wordpressInfo.generator {
      score := score - 5;
    }
    score := if score < 100 then score else 100;
    score := if score > 0 then score else 0;
  }

  lemma {:induction false} SumOfNonNegative<T>(s: seq<T>, f: T -> int)
    requires forall x :: x in s ==> f(x) >= 0
    ensures SumOf(s, f) >= 0
  {
    if s != [] {
      SumOfNonNegative(s[..|s| - 1], f);
    }
  }

  /** Every finding only costs points, so the clamp at 100 never acts: the
      score is 100 less the deductions, or 0 once they reach 100. */
  lemma ScoreIsHundredLessDeductions(r: AuditResult)
    ensures Deductions(r) >= 0
    ensures OverallScore(r) == if Deductions(r) >= 100 then 0 else 100 - Deductions(r)
  {
    SumOfNonNegative(r.securityHeaders, HeaderDeduction);
    SumOfNonNegative(r.endpoints, EndpointDeduction);
  }

  /** The score depends on which lines were reported, not on their order. */
  lemma ScoreIgnoresOrder(r: AuditResult, r': AuditResult)
    requires multiset(r.securityHeaders) == multiset(r'.securityHeaders)
    requires multiset(r.endpoints) == multiset(r'.endpoints)
    requires r.userEnumeration.found == r'.userEnumeration.found
    requires r.wordpressInfo.generator == r'.wordpressInfo.generator
    ensures OverallScore(r) == OverallScore(r')
  {
    SumOfPermutation(r.securityHeaders, r'.securityHeaders, HeaderDeduction);
    SumOfPermutation(r.endpoints, r'.endpoints, EndpointDeduction);
  }

  /** One more reported header never raises the score. */
  lemma ExtraHeaderNeverHelps(r: AuditResult, h: SecurityHeader)
    ensures OverallScore(r.(securityHeaders := r.securityHeaders + [h])) <= OverallScore(r)
  {
    SumOfAppend(r.securityHeaders, [h], HeaderDeduction);
    assert [h][..0] == [];
  }

  // ---------------------------------------------------------------------
  // auditWordPress

  const ConnectionError := "No se pudo conectar con el sitio web"

  /** The site looks like WordPress when its home page mentions one of the
      platform's directories or its name. */
  predicate LooksLikeWordPress(html: string) {
    Contains(html, "wp-content") || Contains(html, "wp-includes") || Contains(html, "WordPress")
  }

  /** The outcome of `auditWordPress`: an error when the first fetch of the
      normalised URL fails, otherwise the report of the four probes scored
      by `calculateOverallScore`. `now` is the creation time and `json`,
      `generatorTag` the two parsers the probes use. */
  function AuditOf(url: string, now: int, fetch: string -> Option<Response>,
                   json: string -> UsersBody, generatorTag: string -> Option<Option<string>>)
    : Result<AuditResult, string>
  {
    var baseUrl := NormalizeUrl(url);
    match fetch(baseUrl)
    case None => Err(ConnectionError)
    case Some(resp) =>
      var a := AuditResult(baseUrl, now, LooksLikeWordPress(resp.body), HeadersReport(fetch(baseUrl)),
        CheckEndpoints(baseUrl, fetch), UserEnumerationOf(baseUrl, fetch, json),
        WordPressInfoOf(baseUrl, fetch, generatorTag), 0, None);
      Ok(a.(overallScore := OverallScore(a)))
  }

  /** `auditWordPress`. */
  method AuditWordPress(url: string, now: int, fetch: string -> Option<Response>,
                        json: string -> UsersBody, generatorTag: string -> Option<Option<string>>)
    returns (r: Result<AuditResult, string>)
    ensures r == AuditOf(url, now, fetch, json, generatorTag)
  {
    var baseUrl := NormalizeUrl(url);
    var response := fetch(baseUrl);
    if response.None? {
      return Err(ConnectionError);
    }
    var html := response.value.body;
    var isWordPress := LooksLikeWordPress(html);
    var securityHeaders := CheckSecurityHeaders(baseUrl, fetch);
    var endpoints := CheckEndpoints(baseUrl, fetch);
    var userEnumeration := CheckUserEnumeration(baseUrl, fetch, json);
    var wordpressInfo := WordPressInfoOf(baseUrl, fetch, generatorTag);
    var result := AuditResult(baseUrl, now, isWordPress, securityHeaders, endpoints, userEnumeration, wordpressInfo, 0, None);
    var score := CalculateOverallScore(result);
    result := result.(overallScore := score);
    return Ok(result);
  }

  /** The audit fails only when the first fetch of the normalised URL
      fails, and then with the connection message. */
  lemma AuditFailsOnlyOnConnection(url: string, now: int, fetch: string -> Option<Response>,
                                   json: string -> UsersBody, generatorTag: string -> Option<Option<string>>)
    ensures var r := AuditOf(url, now, fetch, json, generatorTag);
      (r.Err? <==> fetch(NormalizeUrl(url)).None?)
      && (r.Err? ==> r.error == ConnectionError)
  {
  }

  /** Once connected, every probe absorbs its own failures: the report
      carries each probe's findings for the normalised URL and no CVSS
      summary. */
  lemma AuditReport(url: string, now: int, fetch: string -> Option<Response>,
                    json: string -> UsersBody, generatorTag: string -> Option<Option<string>>)
    requires fetch(NormalizeUrl(url)).Some?
    ensures var r := AuditOf(url, now, fetch, json, generatorTag);
      var baseUrl := NormalizeUrl(url);
      r.Ok?
      && r.value.url == baseUrl && r.value.timestamp == now
      && r.value.isWordPress == LooksLikeWordPress(fetch(baseUrl).value.body)
      && r.value.securityHeaders == HeadersReport(fetch(baseUrl))
      && r.value.endpoints == CheckEndpoints(baseUrl, fetch)
      && r.value.userEnumeration == UserEnumerationOf(baseUrl, fetch, json)
      && r.value.wordpressInfo == WordPressInfoOf(baseUrl, fetch, generatorTag)
      && r.value.cvssOverall.None?
  {
  }

  /** The score stored in a report is the score of that very report, and
      lies between 0 and 100. */
  lemma AuditScore(url: string, now: int, fetch: string -> Option<Response>,
                   json: string -> UsersBody, generatorTag: string -> Option<Option<string>>)
    ensures var r := AuditOf(url, now, fetch, json, generatorTag);
      r.Ok? ==> r.value.overallScore == OverallScore(r.value) && 0 <= r.value.overallScore <= 100
  {
    var baseUrl := NormalizeUrl(url);
    if fetch(baseUrl).Some? {
      var a := AuditResult(baseUrl, now, LooksLikeWordPress(fetch(baseUrl).value.body), HeadersReport(fetch(baseUrl)),
        CheckEndpoints(baseUrl, fetch), UserEnumerationOf(baseUrl, fetch, json),
        WordPressInfoOf(baseUrl, fetch, generatorTag), 0, None);
      StoredScoreIsOwn(a);
    }
  }

  /** Storing a report's score in it does not change that score. */
  lemma StoredScoreIsOwn(a: AuditResult)
    ensures var b := a.(overallScore := OverallScore(a));
      b.overallScore == OverallScore(b) && 0 <= b.overallScore <= 100
  {
    var b := a.(overallScore := OverallScore(a));
    assert Deductions(b) == Deductions(a);
  }
}

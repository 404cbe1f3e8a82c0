/** The reference catalogue (standard classification of every finding),
    WAF fingerprinting from response headers, and the aggregate CVSS score
    of an audit (src/lib/security-references.ts). */
module SecurityReferences {
  import opened Wrappers
  import opened Text
  import opened Seqs
  import opened Http
  import opened AuditTypes

  /** `cvss(score, vector)`: a catalogue score whose severity is always the
      band of its score. */
  function Cvss(score: real, vector: string): (c: CvssScore)
    ensures c.score == score && c.vector == VectorString(vector)
    ensures c.severity == CvssSeverity(score)
  {
    CvssScore(score, CvssSeverity(score), VectorString(vector))
  }

  function Ref(owasp: OwaspCategory, cwe: CweId, cvss: CvssScore): SecurityReference {
    SecurityReference(Some(owasp), Some(cwe), Some(cvss))
  }

  /** `HEADER_REFERENCES`, keyed by header name. */
  const HeaderReferences: map<string, SecurityReference> :=
    map[
      "Content-Security-Policy" := Ref(A05SecurityMisconfiguration, Cwe693, Cvss(4.3, "CVSS:3.1/AV:N/AC:L/PR:N/UI:R/S:U/C:N/I:L/A:N")),
      "X-Frame-Options" := Ref(A05SecurityMisconfiguration, Cwe693, Cvss(4.3, "CVSS:3.1/AV:N/AC:L/PR:N/UI:R/S:U/C:N/I:L/A:N")),
      "X-Content-Type-Options" := Ref(A05SecurityMisconfiguration, Cwe693, Cvss(3.1, "CVSS:3.1/AV:N/AC:L/PR:N/UI:R/S:U/C:L/I:N/A:N")),
      "Strict-Transport-Security" := Ref(A02CryptographicFailures, Cwe319, Cvss(5.3, "CVSS:3.1/AV:N/AC:L/PR:N/UI:N/S:U/C:L/I:N/A:N")),
      "X-XSS-Protection" := Ref(A03Injection, Cwe693, Cvss(2.1, "CVSS:3.1/AV:N/AC:L/PR:N/UI:R/S:U/C:N/I:L/A:N")),
      "Referrer-Policy" := Ref(A05SecurityMisconfiguration, Cwe200, Cvss(3.1, "CVSS:3.1/AV:N/AC:L/PR:N/UI:R/S:U/C:L/I:N/A:N")),
      "Permissions-Policy" := Ref(A05SecurityMisconfiguration, Cwe693, Cvss(2.1, "CVSS:3.1/AV:N/AC:L/PR:N/UI:R/S:U/C:N/I:L/A:N")),
      "Cross-Origin-Embedder-Policy" := Ref(A05SecurityMisconfiguration, Cwe942, Cvss(3.1, "CVSS:3.1/AV:N/AC:L/PR:N/UI:R/S:U/C:L/I:N/A:N")),
      "Cross-Origin-Opener-Policy" := Ref(A05SecurityMisconfiguration, Cwe942, Cvss(3.1, "CVSS:3.1/AV:N/AC:L/PR:N/UI:R/S:U/C:L/I:N/A:N")),
      "Server" := Ref(A05SecurityMisconfiguration, Cwe200, Cvss(2.0, "CVSS:3.1/AV:N/AC:L/PR:N/UI:N/S:U/C:L/I:N/A:N")),
      "X-Powered-By" := Ref(A05SecurityMisconfiguration, Cwe200, Cvss(2.0, "CVSS:3.1/AV:N/AC:L/PR:N/UI:N/S:U/C:L/I:N/A:N"))
    ]

  /** `EndpointDefinition`: a sensitive path with its risk tier and reference. */
  datatype EndpointDefinition = EndpointDefinition(
    path: string, name: string, risk: Risk, description: string, reference: SecurityReference)

  /** `WP_ENDPOINTS` of the catalogue (19 paths). */
  const CatalogueEndpoints: seq<EndpointDefinition> := [
      EndpointDefinition("/xmlrpc.php", "XML-RPC", RiskCritical,
        "Puede usarse para ataques de fuerza bruta y DDoS",
        Ref(A01BrokenAccessControl, Cwe749, Cvss(7.5, "CVSS:3.1/AV:N/AC:L/PR:N/UI:N/S:U/C:N/I:N/A:H"))),
      EndpointDefinition("/wp-login.php", "WP Login", RiskMedium,
        "Página de login expuesta",
        Ref(A07AuthFailures, Cwe522, Cvss(5.3, "CVSS:3.1/AV:N/AC:L/PR:N/UI:N/S:U/C:L/I:N/A:N"))),
      EndpointDefinition("/wp-admin/", "WP Admin", RiskMedium,
        "Panel de administración accesible",
        Ref(A01BrokenAccessControl, Cwe284, Cvss(5.3, "CVSS:3.1/AV:N/AC:L/PR:N/UI:N/S:U/C:L/I:N/A:N"))),
      EndpointDefinition("/wp-json/", "REST API", RiskInfo,
        "API REST activa",
        Ref(A01BrokenAccessControl, Cwe284, Cvss(0.0, "CVSS:3.1/AV:N/AC:L/PR:N/UI:N/S:U/C:N/I:N/A:N"))),
      EndpointDefinition("/wp-content/debug.log", "Debug Log", RiskCritical,
        "Archivo de debug con info sensible",
        Ref(A09LoggingFailures, Cwe532, Cvss(7.5, "CVSS:3.1/AV:N/AC:L/PR:N/UI:N/S:U/C:H/I:N/A:N"))),
      EndpointDefinition("/wp-config.php.bak", "Config Backup", RiskCritical,
        "Backup con credenciales",
        Ref(A05SecurityMisconfiguration, Cwe200, Cvss(9.8, "CVSS:3.1/AV:N/AC:L/PR:N/UI:N/S:U/C:H/I:H/A:H"))),
      EndpointDefinition("/.git/", "Git Exposed", RiskCritical,
        "Repositorio Git expuesto",
        Ref(A05SecurityMisconfiguration, Cwe527, Cvss(7.5, "CVSS:3.1/AV:N/AC:L/PR:N/UI:N/S:U/C:H/I:N/A:N"))),
      EndpointDefinition("/readme.html", "Readme", RiskLow,
        "Revela versión de WordPress",
        Ref(A05SecurityMisconfiguration, Cwe200, Cvss(2.0, "CVSS:3.1/AV:N/AC:L/PR:N/UI:N/S:U/C:L/I:N/A:N"))),
      EndpointDefinition("/wp-includes/", "WP Includes", RiskInfo,
        "Directorio includes accesible",
        Ref(A05SecurityMisconfiguration, Cwe200, Cvss(0.0, "CVSS:3.1/AV:N/AC:L/PR:N/UI:N/S:U/C:N/I:N/A:N"))),
      EndpointDefinition("/wp-content/uploads/", "Uploads", RiskLow,
        "Directorio uploads listable",
        Ref(A01BrokenAccessControl, Cwe200, Cvss(3.1, "CVSS:3.1/AV:N/AC:L/PR:N/UI:N/S:U/C:L/I:N/A:N"))),
      EndpointDefinition("/wp-cron.php", "WP Cron", RiskMedium,
        "Cron de WordPress expuesto, puede causar DoS",
        Ref(A05SecurityMisconfiguration, Cwe749, Cvss(5.3, "CVSS:3.1/AV:N/AC:L/PR:N/UI:N/S:U/C:N/I:N/A:L"))),
      EndpointDefinition("/wp-admin/install.php", "Install Script", RiskCritical,
        "Script de instalación accesible",
        Ref(A05SecurityMisconfiguration, Cwe749, Cvss(9.8, "CVSS:3.1/AV:N/AC:L/PR:N/UI:N/S:U/C:H/I:H/A:H"))),
      EndpointDefinition("/backup.sql", "SQL Backup", RiskCritical,
        "Backup de base de datos expuesto",
        Ref(A05SecurityMisconfiguration, Cwe200, Cvss(9.8, "CVSS:3.1/AV:N/AC:L/PR:N/UI:N/S:U/C:H/I:H/A:H"))),
      EndpointDefinition("/database.sql", "DB Backup", RiskCritical,
        "Backup de base de datos expuesto",
        Ref(A05SecurityMisconfiguration, Cwe200, Cvss(9.8, "CVSS:3.1/AV:N/AC:L/PR:N/UI:N/S:U/C:H/I:H/A:H"))),
      EndpointDefinition("/.env", "Env File", RiskCritical,
        "Archivo de entorno con secretos",
        Ref(A05SecurityMisconfiguration, Cwe200, Cvss(9.8, "CVSS:3.1/AV:N/AC:L/PR:N/UI:N/S:U/C:H/I:H/A:H"))),
      EndpointDefinition("/wp-config.php~", "Config Temp", RiskCritical,
        "Archivo temporal de config",
        Ref(A05SecurityMisconfiguration, Cwe200, Cvss(9.8, "CVSS:3.1/AV:N/AC:L/PR:N/UI:N/S:U/C:H/I:H/A:H"))),
      EndpointDefinition("/.htaccess", "htaccess", RiskHigh,
        "Configuración de servidor expuesta",
        Ref(A05SecurityMisconfiguration, Cwe200, Cvss(5.3, "CVSS:3.1/AV:N/AC:L/PR:N/UI:N/S:U/C:L/I:N/A:N"))),
      EndpointDefinition("/phpinfo.php", "PHP Info", RiskHigh,
        "Información de PHP expuesta",
        Ref(A05SecurityMisconfiguration, Cwe200, Cvss(5.3, "CVSS:3.1/AV:N/AC:L/PR:N/UI:N/S:U/C:L/I:N/A:N"))),
      EndpointDefinition("/wp-content/plugins/", "Plugins Dir", RiskLow,
        "Listado de plugins visible",
        Ref(A06VulnerableComponents, Cwe200, Cvss(3.1, "CVSS:3.1/AV:N/AC:L/PR:N/UI:N/S:U/C:L/I:N/A:N")))
    ]

  const UserEnumerationReference: SecurityReference :=
    Ref(A01BrokenAccessControl, Cwe200, Cvss(5.3, "CVSS:3.1/AV:N/AC:L/PR:N/UI:N/S:U/C:L/I:N/A:N"))

  const VersionDisclosureReference: SecurityReference :=
    Ref(A05SecurityMisconfiguration, Cwe200, Cvss(2.0, "CVSS:3.1/AV:N/AC:L/PR:N/UI:N/S:U/C:L/I:N/A:N"))

  /** A reference whose CVSS score, if it has one, is banded by that score. */
  predicate SeverityAgrees(r: SecurityReference) {
    r.cvss.Some? ==> r.cvss.value.severity == CvssSeverity(r.cvss.value.score)
  }

  /** A reference whose CVSS score, if it has one, lies in 0..10. */
  predicate ScoreInRange(r: SecurityReference) {
    r.cvss.Some? ==> 0.0 <= r.cvss.value.score <= 10.0
  }

  /** Every catalogue entry carries a score in 0..10 whose severity agrees with it. */
  lemma CatalogueIsConsistent()
    ensures forall n :: n in HeaderReferences ==>
      HeaderReferences[n].cvss.Some? && SeverityAgrees(HeaderReferences[n]) && ScoreInRange(HeaderReferences[n])
    ensures forall i :: 0 <= i < |CatalogueEndpoints| ==>
      CatalogueEndpoints[i].reference.cvss.Some?
      && SeverityAgrees(CatalogueEndpoints[i].reference) && ScoreInRange(CatalogueEndpoints[i].reference)
    ensures UserEnumerationReference.cvss == Some(Cvss(5.3, "CVSS:3.1/AV:N/AC:L/PR:N/UI:N/S:U/C:L/I:N/A:N"))
    ensures VersionDisclosureReference.cvss == Some(Cvss(2.0, "CVSS:3.1/AV:N/AC:L/PR:N/UI:N/S:U/C:L/I:N/A:N"))
  {
  }

  // ---------------------------------------------------------------------
  // WAF fingerprinting

  datatype WafPattern = WafPattern(name: string, patterns: seq<string>)

  /** `WAF_PATTERNS`, in declaration order. */
  const WafPatterns: seq<WafPattern> := [
    WafPattern("Cloudflare", ["cloudflare", "cf-ray", "__cfduid"]),
    WafPattern("Sucuri", ["sucuri", "x-sucuri"]),
    WafPattern("Wordfence", ["wordfence", "wfwaf"]),
    WafPattern("ModSecurity", ["mod_security", "modsecurity"]),
    WafPattern("Imperva", ["imperva", "incapsula"]),
    WafPattern("AWS WAF", ["awswaf", "x-amz-cf"]),
    WafPattern("Akamai", ["akamai", "akamai-"]),
    WafPattern("F5 BIG-IP", ["bigip", "f5-"])
  ]

  /** One header as `detectWaf` renders it: "name:value", both lower-cased. */
  function HeaderEntry(h: (string, string)): string {
    ToLower(h.0) + ":" + ToLower(h.1)
  }

  /** The rendered headers joined by single spaces. */
  function HeaderString(hs: Headers): string {
    Join(seq(|hs|, i requires 0 <= i < |hs| => HeaderEntry(hs[i])), " ")
  }

  /** Some pattern of `waf` occurs in `s`. */
  predicate WafMatches(s: string, waf: WafPattern) {
    exists q :: 0 <= q < |waf.patterns| && Contains(s, ToLower(waf.patterns[q]))
  }

  /** `detectWaf`: the name of the first catalogue entry one of whose
      patterns occurs in the rendered header string, or `null`. */
  method DetectWaf(headers: Headers) returns (r: Option<string>)
    ensures r.None? <==> forall w :: 0 <= w < |WafPatterns| ==> !WafMatches(HeaderString(headers), WafPatterns[w])
    ensures r.Some? ==> exists w :: (0 <= w < |WafPatterns| && r.value == WafPatterns[w].name
      && WafMatches(HeaderString(headers), WafPatterns[w])
      && forall v :: 0 <= v < w ==> !WafMatches(HeaderString(headers), WafPatterns[v]))
  {
    var headerEntries: seq<string> := [];
    for k := 0 to |headers|
      invariant headerEntries == seq(k, i requires 0 <= i < k => HeaderEntry(headers[i]))
    {
      headerEntries := headerEntries + [HeaderEntry(headers[k])];
    }
    var headerStr := Join(headerEntries, " ");
    assert headerStr == HeaderString(headers);
    for w := 0 to |WafPatterns|
      invariant forall v :: 0 <= v < w ==> !WafMatches(headerStr, WafPatterns[v])
    {
      var waf := WafPatterns[w];
      for q := 0 to |waf.patterns|
        invariant forall t :: 0 <= t < q ==> !Contains(headerStr, ToLower(waf.patterns[t]))
      {
        if Contains(headerStr, ToLower(waf.patterns[q])) {
          return Some(waf.name);
        }
      }
    }
    return None;
  }

  /** The characters the patterns are written in: lower-case letters,
      digits, `_` and `-`. */
  predicate PatternChar(c: char) {
    'a' <= c <= 'z' || '0' <= c <= '9' || c == '_' || c == '-'
  }

  predicate PatternWellFormed(p: string) {
    p != [] && forall i :: 0 <= i < |p| ==> PatternChar(p[i])
  }

  lemma WafPatternsWellFormed()
    ensures forall w, q :: 0 <= w < |WafPatterns| && 0 <= q < |WafPatterns[w].patterns| ==>
      PatternWellFormed(WafPatterns[w].patterns[q])
  {
  }

  /** A pattern so written is unchanged by lower-casing and holds neither
      separator. */
  lemma WellFormedPatternIsSeparatorFree(p: string)
    requires PatternWellFormed(p)
    ensures ToLower(p) == p && ' ' !in p && ':' !in p
  {
    assert forall i :: 0 <= i < |p| ==> ToLower(p)[i] == p[i];
  }

  /** Every pattern is non-empty, already lower-case, and free of the two
      characters the header string uses as separators. */
  lemma WafPatternsAreSeparatorFree()
    ensures forall w, q :: 0 <= w < |WafPatterns| && 0 <= q < |WafPatterns[w].patterns| ==>
      var p := WafPatterns[w].patterns[q];
      p != [] && ToLower(p) == p && ' ' !in p && ':' !in p
  {
    WafPatternsWellFormed();
    forall w, q | 0 <= w < |WafPatterns| && 0 <= q < |WafPatterns[w].patterns|
      ensures var p := WafPatterns[w].patterns[q];
        p != [] && ToLower(p) == p && ' ' !in p && ':' !in p
    {
      WellFormedPatternIsSeparatorFree(WafPatterns[w].patterns[q]);
    }
  }

  /** `p` occurs in the lower-cased name or in the lower-cased value of `h`. */
  predicate InHeader(h: (string, string), p: string) {
    Contains(ToLower(h.0), p) || Contains(ToLower(h.1), p)
  }

  lemma HeaderStringCons(hs: Headers)
    requires hs != []
    ensures |hs| == 1 ==> HeaderString(hs) == HeaderEntry(hs[0])
    ensures |hs| > 1 ==> HeaderString(hs) == HeaderEntry(hs[0]) + [' '] + HeaderString(hs[1..])
  {
    var entries := seq(|hs|, i requires 0 <= i < |hs| => HeaderEntry(hs[i]));
    var rest := hs[1..];
    assert entries[1..] == seq(|rest|, i requires 0 <= i < |rest| => HeaderEntry(rest[i]));
  }

  lemma {:induction false} MatchImpliesOneHeader(hs: Headers, p: string)
    requires p != [] && ' ' !in p && ':' !in p
    requires Contains(HeaderString(hs), p)
    ensures exists i :: 0 <= i < |hs| && InHeader(hs[i], p)
  {
    if hs == [] {
      assert false;
    } else {
      HeaderStringCons(hs);
      var entry := HeaderEntry(hs[0]);
      if |hs| > 1 && !Contains(entry, p) {
        SplitOccurrence(entry, ' ', HeaderString(hs[1..]), p);
        MatchImpliesOneHeader(hs[1..], p);
        var i :| 0 <= i < |hs[1..]| && InHeader(hs[1..][i], p);
        assert InHeader(hs[i + 1], p);
      } else {
        SplitOccurrence(ToLower(hs[0].0), ':', ToLower(hs[0].1), p);
        assert InHeader(hs[0], p);
      }
    }
  }

  lemma {:induction false} OneHeaderImpliesMatch(hs: Headers, p: string, i: nat)
    requires i < |hs| && InHeader(hs[i], p)
    ensures Contains(HeaderString(hs), p)
  {
    HeaderStringCons(hs);
    var entry := HeaderEntry(hs[0]);
    if i == 0 {
      var a, b := ToLower(hs[0].0), ToLower(hs[0].1);
      if Contains(a, p) {
        ContainsLeft(a, ":" + b, p);
        assert a + (":" + b) == entry;
      } else {
        ContainsRight(a + ":", b, p);
      }
      if |hs| > 1 {
        ContainsLeft(entry, [' '] + HeaderString(hs[1..]), p);
        assert entry + ([' '] + HeaderString(hs[1..])) == HeaderString(hs);
      }
    } else {
      assert hs[1..][i - 1] == hs[i];
      OneHeaderImpliesMatch(hs[1..], p, i - 1);
      ContainsRight(entry + [' '], HeaderString(hs[1..]), p);
    }
  }

  /** For a non-empty pattern without ' ' and ':', occurring in the header
      string is the same as occurring in one lower-cased header name or in
      one lower-cased header value: a match never spans two headers, nor a
      name and its value. */
  lemma MatchWithinOneHeader(hs: Headers, p: string)
    requires p != [] && ' ' !in p && ':' !in p
    ensures Contains(HeaderString(hs), p) <==> exists i :: 0 <= i < |hs| && InHeader(hs[i], p)
  {
    if Contains(HeaderString(hs), p) {
      MatchImpliesOneHeader(hs, p);
    }
    if exists i :: 0 <= i < |hs| && InHeader(hs[i], p) {
      var i :| 0 <= i < |hs| && InHeader(hs[i], p);
      OneHeaderImpliesMatch(hs, p, i);
    }
  }

  /** Hence `detectWaf` recognises an entry exactly when one of its patterns
      occurs inside a single lower-cased header name or value. */
  lemma WafMatchesSomeHeader(hs: Headers, w: nat)
    requires w < |WafPatterns|
    ensures WafMatches(HeaderString(hs), WafPatterns[w]) <==>
      exists q, i :: 0 <= q < |WafPatterns[w].patterns| && 0 <= i < |hs|
        && InHeader(hs[i], WafPatterns[w].patterns[q])
  {
    WafPatternsAreSeparatorFree();
    var pats := WafPatterns[w].patterns;
    forall q | 0 <= q < |pats|
      ensures Contains(HeaderString(hs), ToLower(pats[q])) <==>
        exists i :: 0 <= i < |hs| && InHeader(hs[i], pats[q])
    {
      MatchWithinOneHeader(hs, pats[q]);
    }
  }

  // ---------------------------------------------------------------------
  // Aggregate CVSS score

  /** A header finding that enters the aggregate: vulnerable, with a CVSS score. */
  predicate HeaderContributes(h: SecurityHeader) {
    h.status == Vulnerable && h.reference.Some? && h.reference.value.cvss.Some?
  }

  /** An endpoint finding that enters the aggregate: accessible, with a CVSS score. */
  predicate EndpointContributes(e: EndpointCheck) {
    e.status == Accessible && e.reference.Some? && e.reference.value.cvss.Some?
  }

  /** The scores the header loop collects, in list order. */
  function HeaderScores(hs: seq<SecurityHeader>): seq<real> {
    if hs == [] then []
    else
      var h := hs[|hs| - 1];
      HeaderScores(hs[..|hs| - 1]) + (if HeaderContributes(h) then [h.reference.value.cvss.value.score] else [])
  }

  /** The scores the endpoint loop collects, in list order. */
  function EndpointScores(es: seq<EndpointCheck>): seq<real> {
    if es == [] then []
    else
      var e := es[|es| - 1];
      EndpointScores(es[..|es| - 1]) + (if EndpointContributes(e) then [e.reference.value.cvss.value.score] else [])
  }

  const UserEnumerationScore: real := UserEnumerationReference.cvss.value.score
  const VersionDisclosureScore: real := VersionDisclosureReference.cvss.value.score

  /** The scores that take part in the maximum: those of the findings and,
      when users were enumerated, the user-enumeration score. */
  function MaxCandidates(hs: seq<SecurityHeader>, es: seq<EndpointCheck>, userEnumFound: bool): seq<real> {
    HeaderScores(hs) + EndpointScores(es) + (if userEnumFound then [UserEnumerationScore] else [])
  }

  /** Every collected score: the maximum's candidates and, when the version
      is disclosed, the version-disclosure score. */
  function Collected(hs: seq<SecurityHeader>, es: seq<EndpointCheck>, userEnumFound: bool, versionDisclosed: bool): seq<real> {
    MaxCandidates(hs, es, userEnumFound) + (if versionDisclosed then [VersionDisclosureScore] else [])
  }

  function Max(a: real, b: real): real {
    if a >= b then a else b
  }

  /** `Math.max` folded over `s` from the starting value `m`. */
  function MaxFrom(m: real, s: seq<real>): real {
    if s == [] then m else Max(MaxFrom(m, s[..|s| - 1]), s[|s| - 1])
  }

  lemma MaxFromSnoc(m: real, s: seq<real>, x: real)
    ensures MaxFrom(m, s + [x]) == Max(MaxFrom(m, s), x)
  {
    assert (s + [x])[..|s|] == s;
  }

  /** The fold is an upper bound of `m` and of every element, and is one of them. */
  lemma {:induction false} MaxFromBounds(m: real, s: seq<real>)
    ensures MaxFrom(m, s) >= m
    ensures forall i :: 0 <= i < |s| ==> s[i] <= MaxFrom(m, s)
    ensures MaxFrom(m, s) == m || MaxFrom(m, s) in s
  {
    if s != [] {
      MaxFromBounds(m, s[..|s| - 1]);
      assert forall i :: 0 <= i < |s| - 1 ==> s[..|s| - 1][i] == s[i];
    }
  }

  function Sum(s: seq<real>): real {
    if s == [] then 0.0 else Sum(s[..|s| - 1]) + s[|s| - 1]
  }

  function Average(s: seq<real>): real {
    if |s| > 0 then Sum(s) / (|s| as real) else 0.0
  }

  /** `Math.round(x * 10) / 10`: to the nearest tenth, halves rounded up. */
  function RoundTenth(x: real): (r: real)
    ensures x - 0.05 < r <= x + 0.05
  {
    ((x * 10.0 + 0.5).Floor as real) / 10.0
  }

  /** The weighted value before rounding: 60% of the maximum plus 40% of the mean. */
  function Weighted(hs: seq<SecurityHeader>, es: seq<EndpointCheck>, userEnumFound: bool, versionDisclosed: bool): real {
    MaxFrom(0.0, MaxCandidates(hs, es, userEnumFound)) * 0.6 + Average(Collected(hs, es, userEnumFound, versionDisclosed)) * 0.4
  }

  /** What `calculateOverallCvss` returns. */
  function OverallCvss(hs: seq<SecurityHeader>, es: seq<EndpointCheck>, userEnumFound: bool, versionDisclosed: bool): CvssScore {
    var score := RoundTenth(Weighted(hs, es, userEnumFound, versionDisclosed));
    CvssScore(score, CvssSeverity(score),
      Summary(MaxFrom(0.0, MaxCandidates(hs, es, userEnumFound)), |Collected(hs, es, userEnumFound, versionDisclosed)|))
  }

  /** The first three collection passes of `calculateOverallCvss`, which
      also keep the running maximum. */
  method CollectCandidates(headers: seq<SecurityHeader>, endpoints: seq<EndpointCheck>, userEnumFound: bool)
    returns (scores: seq<real>, maxScore: real)
    ensures scores == MaxCandidates(headers, endpoints, userEnumFound)
    ensures maxScore == MaxFrom(0.0, scores)
  {
    maxScore := 0.0;
    scores := [];

    for i := 0 to |headers|
      invariant scores == HeaderScores(headers[..i])
      invariant maxScore == MaxFrom(0.0, scores)
    {
      assert headers[..i + 1][..i] == headers[..i];
      var h := headers[i];
      if h.status == Vulnerable && h.reference.Some? && h.reference.value.cvss.Some? {
        MaxFromSnoc(0.0, scores, h.reference.value.cvss.value.score);
        scores := scores + [h.reference.value.cvss.value.score];
        maxScore := Max(maxScore, h.reference.value.cvss.value.score);
      }
    }
    assert headers[..|headers|] == headers;

    ghost var fromHeaders := scores;
    for i := 0 to |endpoints|
      invariant scores == fromHeaders + EndpointScores(endpoints[..i])
      invariant maxScore == MaxFrom(0.0, scores)
    {
      assert endpoints[..i + 1][..i] == endpoints[..i];
      var e := endpoints[i];
      if e.status == Accessible && e.reference.Some? && e.reference.value.cvss.Some? {
        MaxFromSnoc(0.0, scores, e.reference.value.cvss.value.score);
        scores := scores + [e.reference.value.cvss.value.score];
        maxScore := Max(maxScore, e.reference.value.cvss.value.score);
      }
    }
    assert endpoints[..|endpoints|] == endpoints;

    if userEnumFound {
      MaxFromSnoc(0.0, scores, UserEnumerationScore);
      scores := scores + [UserEnumerationScore];
      maxScore := Max(maxScore, UserEnumerationScore);
    }
  }

  /** `calculateOverallCvss`: four collection passes over the findings, then
      the weighted, rounded score. */
  method CalculateOverallCvss(headers: seq<SecurityHeader>, endpoints: seq<EndpointCheck>,
                              userEnumFound: bool, versionDisclosed: bool) returns (c: CvssScore)
    ensures c == OverallCvss(headers, endpoints, userEnumFound, versionDisclosed)
  {
    var scores, maxScore := CollectCandidates(headers, endpoints, userEnumFound);
    if versionDisclosed {
      scores := scores + [VersionDisclosureScore];
    }
    assert scores == Collected(headers, endpoints, userEnumFound, versionDisclosed);

    var avgScore := if |scores| > 0 then Sum(scores) / (|scores| as real) else 0.0;
    var overallScore := RoundTenth(maxScore * 0.6 + avgScore * 0.4);
    c := CvssScore(overallScore, CvssSeverity(overallScore), Summary(maxScore, |scores|));
  }

  // ---------------------------------------------------------------------
  // Properties of the aggregate

  /** Only contributing findings matter: dropping the others first changes nothing. */
  lemma {:induction false} HeaderScoresIgnoreOthers(hs: seq<SecurityHeader>)
    ensures HeaderScores(hs) == HeaderScores(Filter(hs, HeaderContributes))
  {
    if hs != [] {
      var init := hs[..|hs| - 1];
      var h := hs[|hs| - 1];
      HeaderScoresIgnoreOthers(init);
      var f := Filter(init, HeaderContributes);
      if HeaderContributes(h) {
        assert Filter(hs, HeaderContributes) == f + [h];
        assert (f + [h])[..|f|] == f;
      } else {
        assert Filter(hs, HeaderContributes) == f;
      }
    }
  }

  lemma {:induction false} EndpointScoresIgnoreOthers(es: seq<EndpointCheck>)
    ensures EndpointScores(es) == EndpointScores(Filter(es, EndpointContributes))
  {
    if es != [] {
      var init := es[..|es| - 1];
      var e := es[|es| - 1];
      EndpointScoresIgnoreOthers(init);
      var f := Filter(init, EndpointContributes);
      if EndpointContributes(e) {
        assert Filter(es, EndpointContributes) == f + [e];
        assert (f + [e])[..|f|] == f;
      } else {
        assert Filter(es, EndpointContributes) == f;
      }
    }
  }

  lemma {:induction false} HeaderScoresLength(hs: seq<SecurityHeader>)
    ensures |HeaderScores(hs)| == |Filter(hs, HeaderContributes)|
  {
    if hs != [] {
      HeaderScoresLength(hs[..|hs| - 1]);
    }
  }

  lemma {:induction false} EndpointScoresLength(es: seq<EndpointCheck>)
    ensures |EndpointScores(es)| == |Filter(es, EndpointContributes)|
  {
    if es != [] {
      EndpointScoresLength(es[..|es| - 1]);
    }
  }

  /** The "Issues" count: one per contributing finding, plus one each for
      enumerated users and a disclosed version. */
  lemma IssueCount(hs: seq<SecurityHeader>, es: seq<EndpointCheck>, userEnumFound: bool, versionDisclosed: bool)
    ensures OverallCvss(hs, es, userEnumFound, versionDisclosed).vector.issues
      == |Filter(hs, HeaderContributes)| + |Filter(es, EndpointContributes)|
         + (if userEnumFound then 1 else 0) + (if versionDisclosed then 1 else 0)
  {
    HeaderScoresLength(hs);
    EndpointScoresLength(es);
  }

  /** With nothing to report the aggregate is 0.0, band None, "Max: 0, Issues: 0". */
  lemma NothingFound(hs: seq<SecurityHeader>, es: seq<EndpointCheck>)
    requires forall i :: 0 <= i < |hs| ==> !HeaderContributes(hs[i])
    requires forall i :: 0 <= i < |es| ==> !EndpointContributes(es[i])
    ensures OverallCvss(hs, es, false, false) == CvssScore(0.0, SevNone, Summary(0.0, 0))
  {
    assert |Filter(hs, HeaderContributes)| == 0 by {
      if Filter(hs, HeaderContributes) != [] {
        var x := Filter(hs, HeaderContributes)[0];
        FilterMembership(hs, HeaderContributes, x);
      }
    }
    assert |Filter(es, EndpointContributes)| == 0 by {
      if Filter(es, EndpointContributes) != [] {
        var x := Filter(es, EndpointContributes)[0];
        FilterMembership(es, EndpointContributes, x);
      }
    }
    HeaderScoresLength(hs);
    EndpointScoresLength(es);
    assert Collected(hs, es, false, false) == [];
  }

  lemma {:induction false} SumBounds(s: seq<real>, lo: real, hi: real)
    requires forall i :: 0 <= i < |s| ==> lo <= s[i] <= hi
    ensures (|s| as real) * lo <= Sum(s) <= (|s| as real) * hi
  {
    if s != [] {
      SumBounds(s[..|s| - 1], lo, hi);
    }
  }

  /** The mean of values within [lo, hi] is within [lo, hi]. */
  lemma AverageBounds(s: seq<real>, lo: real, hi: real)
    requires s != []
    requires forall i :: 0 <= i < |s| ==> lo <= s[i] <= hi
    ensures lo <= Average(s) <= hi
  {
    SumBounds(s, lo, hi);
    var n := |s| as real;
    assert Average(s) * n == Sum(s);
  }

  /** Rounding to a tenth keeps a value inside 0..10. */
  lemma RoundTenthInRange(x: real)
    requires 0.0 <= x <= 10.0
    ensures 0.0 <= RoundTenth(x) <= 10.0
  {
    var k := (x * 10.0 + 0.5).Floor;
    assert k as real <= x * 10.0 + 0.5 < k as real + 1.0;
    assert 0 <= k <= 100;
  }

  /** When every score in play lies in 0..10, the aggregate weighs at least
      60% of the worst finding, never exceeds it unless the version score is
      larger, and stays a CVSS score in 0..10. */
  lemma OverallCvssInRange(hs: seq<SecurityHeader>, es: seq<EndpointCheck>, userEnumFound: bool, versionDisclosed: bool)
    requires forall x :: x in Collected(hs, es, userEnumFound, versionDisclosed) ==> 0.0 <= x <= 10.0
    ensures var m := MaxFrom(0.0, MaxCandidates(hs, es, userEnumFound));
      && 0.6 * m <= Weighted(hs, es, userEnumFound, versionDisclosed) <= 10.0
      && (!versionDisclosed ==> Weighted(hs, es, userEnumFound, versionDisclosed) <= m)
    ensures 0.0 <= OverallCvss(hs, es, userEnumFound, versionDisclosed).score <= 10.0
  {
    var cands := MaxCandidates(hs, es, userEnumFound);
    var all := Collected(hs, es, userEnumFound, versionDisclosed);
    var m := MaxFrom(0.0, cands);
    MaxFromBounds(0.0, cands);
    assert all == cands + (if versionDisclosed then [VersionDisclosureScore] else []);
    assert forall i :: 0 <= i < |cands| ==> cands[i] == all[i];
    assert m in cands ==> m in all;
    assert 0.0 <= m <= 10.0;
    var avg := Average(all);
    assert forall i :: 0 <= i < |all| ==> all[i] in all;
    if all != [] {
      AverageBounds(all, 0.0, 10.0);
      if !versionDisclosed {
        assert all == cands;
        AverageBounds(all, 0.0, m);
      }
    }
    assert 0.0 <= avg <= 10.0;
    RoundTenthInRange(Weighted(hs, es, userEnumFound, versionDisclosed));
  }

  /** The version-disclosure score (2.0) is counted and averaged but never
      raises the maximum; user enumeration (5.3) lifts the maximum to at
      least its score. */
  lemma FlagsInAggregate(hs: seq<SecurityHeader>, es: seq<EndpointCheck>, userEnumFound: bool)
    ensures VersionDisclosureScore == 2.0 && UserEnumerationScore == 5.3
    ensures OverallCvss(hs, es, userEnumFound, true).vector.max == OverallCvss(hs, es, userEnumFound, false).vector.max
    ensures OverallCvss(hs, es, userEnumFound, true).vector.issues == OverallCvss(hs, es, userEnumFound, false).vector.issues + 1
    ensures userEnumFound ==> OverallCvss(hs, es, userEnumFound, false).vector.max >= UserEnumerationScore
  {
    CatalogueIsConsistent();
    var m := MaxCandidates(hs, es, userEnumFound);
    if userEnumFound {
      MaxFromBounds(0.0, m);
      assert m[|m| - 1] == UserEnumerationScore;
    }
  }

  /** Two accessible endpoints scored 7.5 and nothing else: the aggregate is
      7.5, band High, "Max: 7.5, Issues: 2". */
  lemma TwoHighEndpoints(e1: EndpointCheck, e2: EndpointCheck)
    requires EndpointContributes(e1) && e1.reference.value.cvss.value.score == 7.5
    requires EndpointContributes(e2) && e2.reference.value.cvss.value.score == 7.5
    ensures OverallCvss([], [e1, e2], false, false) == CvssScore(7.5, High, Summary(7.5, 2))
  {
    assert [e1, e2][..1] == [e1];
    assert [e1][..0] == [];
    assert EndpointScores([e1]) == [7.5];
    assert EndpointScores([e1, e2]) == [7.5, 7.5];
    assert MaxCandidates([], [e1, e2], false) == [7.5, 7.5];
    var c := Collected([], [e1, e2], false, false);
    assert c == [7.5, 7.5];
    assert c[..1] == [7.5];
    assert [7.5][..0] == [];
    assert Sum([7.5]) == 7.5;
    assert Sum(c) == 15.0;
    assert MaxFrom(0.0, c) == 7.5;
    assert Weighted([], [e1, e2], false, false) == 7.5;
    assert (7.5 * 10.0 + 0.5).Floor == 75;
  }
}

/** The finding records of the audit (src/types/wordpress-audit.ts) and the
    two pure helpers declared beside them: the CVSS v3.1 qualitative
    severity banding and the colour class of each band. */
module AuditTypes {
  import opened Wrappers

  /** The Top 10 2021 categories of the OWASP project. */
  datatype OwaspCategory =
    | A01BrokenAccessControl | A02CryptographicFailures | A03Injection
    | A04InsecureDesign | A05SecurityMisconfiguration | A06VulnerableComponents
    | A07AuthFailures | A08DataIntegrityFailures | A09LoggingFailures | A10Ssrf

  /** The Common Weakness Enumeration identifiers the catalogue uses. */
  datatype CweId =
    | Cwe16 | Cwe200 | Cwe284 | Cwe311 | Cwe319 | Cwe352 | Cwe444 | Cwe522
    | Cwe523 | Cwe524 | Cwe525 | Cwe527 | Cwe532 | Cwe539 | Cwe614 | Cwe693
    | Cwe749 | Cwe829 | Cwe942

  /** The Qualitative Severity Rating Scale of section 5 of the CVSS v3.1
      Specification Document; `SevNone` is the scale's "None". */
  datatype Severity = SevNone | Low | Medium | High | Critical

  /** A catalogue entry carries its CVSS vector string; the aggregate score
      reports the maximum and the number of collected scores instead. */
  datatype Vector = VectorString(text: string) | Summary(max: real, issues: nat)

  datatype CvssScore = CvssScore(score: real, severity: Severity, vector: Vector)

  datatype SecurityReference = SecurityReference(
    owasp: Option<OwaspCategory>, cwe: Option<CweId>, cvss: Option<CvssScore>)

  datatype HeaderStatus = Secure | Warning | Vulnerable | Info

  datatype SecurityHeader = SecurityHeader(
    name: string, value: Option<string>, status: HeaderStatus,
    description: string, reference: Option<SecurityReference>)

  datatype EndpointStatus = Accessible | Blocked | Error | Checking

  datatype Risk = RiskCritical | RiskHigh | RiskMedium | RiskLow | RiskInfo

  datatype EndpointCheck = EndpointCheck(
    name: string, url: string, status: EndpointStatus, statusCode: Option<int>,
    description: string, risk: Risk, reference: Option<SecurityReference>)

  datatype User = User(id: int, name: string, slug: string)

  datatype UserEnumeration = UserEnumeration(
    found: bool, users: seq<User>, methodUsed: string, reference: Option<SecurityReference>)

  datatype WordPressInfo = WordPressInfo(
    version: Option<string>, theme: Option<string>, generator: bool, readme: bool)

  /** One audit. `timestamp` is the creation time in milliseconds since the epoch. */
  datatype AuditResult = AuditResult(
    url: string, timestamp: int, isWordPress: bool,
    securityHeaders: seq<SecurityHeader>, endpoints: seq<EndpointCheck>,
    userEnumeration: UserEnumeration, wordpressInfo: WordPressInfo,
    overallScore: int, cvssOverall: Option<CvssScore>)

  /** `getCvssSeverity`: the band of a score. Scores outside 0..10 are
      banded too: negatives as Low, anything from 9 up as Critical. */
  function CvssSeverity(score: real): (s: Severity)
    ensures s == SevNone <==> score == 0.0
    ensures s == Low <==> score != 0.0 && score < 4.0
    ensures s == Medium <==> 4.0 <= score < 7.0
    ensures s == High <==> 7.0 <= score < 9.0
    ensures s == Critical <==> score >= 9.0
  {
    if score == 0.0 then SevNone
    else if score < 4.0 then Low
    else if score < 7.0 then Medium
    else if score < 9.0 then High
    else Critical
  }

  /** Position of a band on the scale, SevNone lowest. */
  function Rank(s: Severity): nat {
    match s
    case SevNone => 0
    case Low => 1
    case Medium => 2
    case High => 3
    case Critical => 4
  }

  /** On non-negative scores the banding is monotone. */
  lemma CvssSeverityMonotone(s: real, t: real)
    requires 0.0 <= s <= t
    ensures Rank(CvssSeverity(s)) <= Rank(CvssSeverity(t))
  {
  }

  /** The colour family of a band. */
  function Hue(s: Severity): string {
    match s
    case Critical => "red"
    case High => "orange"
    case Medium => "yellow"
    case Low => "blue"
    case SevNone => "green"
  }

  /** `getCvssColor`: the text and background classes of a band, e.g.
      "text-red-600 bg-red-100 dark:bg-red-900/30" for Critical; SevNone takes
      the default (green) branch. */
  function CvssColor(s: Severity): (c: string)
    ensures c != ""
  {
    var h := Hue(s);
    "text-" + h + "-600 bg-" + h + "-100 dark:bg-" + h + "-900/30"
  }

  /** A score of no severity falls through to the default classes. */
  lemma NoSeverityIsGreen()
    ensures CvssColor(SevNone) == "text-green-600 bg-green-100 dark:bg-green-900/30"
  {
  }

  /** Every band gets its own colour class. */
  lemma CvssColorInjective(s: Severity, t: Severity)
    requires s != t
    ensures CvssColor(s) != CvssColor(t)
  {
    // the colour families differ in their first letter, which follows "text-"
    assert CvssColor(s)[5] == Hue(s)[0];
    assert CvssColor(t)[5] == Hue(t)[0];
  }
}

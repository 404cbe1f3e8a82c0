/** The advice list shown under an audit (`generateRecommendations` in
    src/components/Recommendations.tsx): a fixed table of rules, each
    adding at most one entry, tried in a fixed order. */
module Recommendations {
  import opened Seqs
  import opened Text
  import opened AuditTypes

  datatype Kind = KindCritical | KindWarning | KindInfo

  datatype Recommendation = Recommendation(kind: Kind, title: string, description: string)

  /** The rules of the table, with what each entry quotes. */
  datatype Advice =
    | DisableXmlRpc
    | RemoveDebugLog
    | HideGit
    | ConfigureHeaders(missing: seq<string>)
    | BlockUserEnumeration(count: nat, methodUsed: string)
    | HideVersion
    | GoodJob
  {
    /** Position of the rule in the table. */
    function Rank(): nat {
      match this
      case DisableXmlRpc => 0
      case RemoveDebugLog => 1
      case HideGit => 2
      case ConfigureHeaders(_) => 3
      case BlockUserEnumeration(_, _) => 4
      case HideVersion => 5
      case GoodJob => 6
    }
  }

  function Title(a: Advice): string {
    match a
    case DisableXmlRpc => "Desactivar XML-RPC"
    case RemoveDebugLog => "Eliminar debug.log"
    case HideGit => "Ocultar directorio .git"
    case ConfigureHeaders(_) => "Configurar cabeceras de seguridad"
    case BlockUserEnumeration(_, _) => "Bloquear enumeración de usuarios"
    case HideVersion => "Ocultar versión de WordPress"
    case GoodJob => "¡Buen trabajo!"
  }

  function KindOf(a: Advice): Kind {
    match a
    case DisableXmlRpc => KindCritical
    case RemoveDebugLog => KindCritical
    case HideGit => KindCritical
    case ConfigureHeaders(_) => KindWarning
    case BlockUserEnumeration(_, _) => KindWarning
    case HideVersion => KindInfo
    case GoodJob => KindInfo
  }

  const XmlRpcText := "XML-RPC está activo y puede ser usado para ataques de fuerza bruta. Añade esto a .htaccess: <Files xmlrpc.php> Order Deny,Allow Deny from all </Files>"
  const DebugLogText := "El archivo debug.log está expuesto públicamente y contiene información sensible. Elimínalo o restringe el acceso."
  const GitText := "El repositorio Git está expuesto. Esto puede revelar código fuente y credenciales. Añade una regla para bloquearlo."
  const HeadersLead := "Faltan cabeceras críticas: "
  const HeadersTail := ". Configúralas en tu servidor web o usando un plugin de seguridad."
  const EnumerationTail := ". Usa un plugin como \"Disable REST API\" o configura tu tema."
  const VersionText := "La versión de WordPress está expuesta en el código fuente. Añade remove_action(\"wp_head\", \"wp_generator\") a functions.php."
  const GoodJobText := "No se encontraron problemas críticos. Mantén WordPress y plugins actualizados."

  function Description(a: Advice): string {
    match a
    case DisableXmlRpc => XmlRpcText
    case RemoveDebugLog => DebugLogText
    case HideGit => GitText
    case ConfigureHeaders(names) => HeadersLead + Join(names, ", ") + HeadersTail
    case BlockUserEnumeration(count, methodUsed) =>
      "Se encontraron " + NatToString(count) + " usuarios expuestos via " + methodUsed + EnumerationTail
    case HideVersion => VersionText
    case GoodJob => GoodJobText
  }

  /** The entry as the page shows it. */
  function Render(a: Advice): Recommendation {
    Recommendation(KindOf(a), Title(a), Description(a))
  }

  function RenderAll(advice: seq<Advice>): (recs: seq<Recommendation>)
    ensures |recs| == |advice|
    ensures forall i :: 0 <= i < |advice| ==> recs[i] == Render(advice[i])
  {
    if advice == [] then [] else RenderAll(advice[..|advice| - 1]) + [Render(advice[|advice| - 1])]
  }

  /** Different rules give entries with different titles, so an entry on
      the page tells which rule fired. */
  lemma TitlesIdentifyRules(a: Advice, b: Advice)
    requires a.Rank() != b.Rank()
    ensures Title(a) != Title(b)
  {
    var ta, tb := Title(a), Title(b);
    assert ta[0] != tb[0] || ta[1] != tb[1] || ta[8] != tb[8];
  }

  /** An accessible critical endpoint with exactly this name was reported. */
  predicate CriticalEndpointExposed(result: AuditResult, name: string) {
    exists i :: 0 <= i < |result.endpoints| && result.endpoints[i].status == Accessible
      && result.endpoints[i].risk == RiskCritical && result.endpoints[i].name == name
  }

  /** The headers whose absence the advice names; X-Content-Type-Options,
      though critical for the score, is not one of them. */
  predicate IsAdvisedHeader(name: string) {
    name == "Content-Security-Policy" || name == "X-Frame-Options" || name == "Strict-Transport-Security"
  }

  function MissingCriticalHeaders(result: AuditResult): seq<SecurityHeader> {
    Filter(result.securityHeaders, (h: SecurityHeader) => h.status == Vulnerable && IsAdvisedHeader(h.name))
  }

  function Names(hs: seq<SecurityHeader>): (ns: seq<string>)
    ensures |ns| == |hs| && forall i :: 0 <= i < |hs| ==> ns[i] == hs[i].name
  {
    seq(|hs|, i requires 0 <= i < |hs| => hs[i].name)
  }

  /** What the rules look at in an audit: which critical endpoints are
      exposed, the advised headers found vulnerable (by name, in report
      order), the enumeration outcome and the generator tag. */
  datatype Signals = Signals(xmlRpc: bool, debugLog: bool, git: bool, missingHeaders: seq<string>,
                             enumeration: UserEnumeration, generator: bool)

  function SignalsOf(result: AuditResult): Signals {
    Signals(CriticalEndpointExposed(result, "XML-RPC"), CriticalEndpointExposed(result, "Debug Log"),
      CriticalEndpointExposed(result, "Git Exposed"), Names(MissingCriticalHeaders(result)),
      result.userEnumeration, result.wordpressInfo.generator)
  }

  /** `[a]` when the rule's condition holds, nothing otherwise. */
  function When(condition: bool, a: Advice): seq<Advice> {
    if condition then [a] else []
  }

  /** The rules that fire, in table order, before the fallback. */
  function FindingsFrom(sg: Signals): seq<Advice> {
    When(sg.xmlRpc, DisableXmlRpc)
    + When(sg.debugLog, RemoveDebugLog)
    + When(sg.git, HideGit)
    + When(|sg.missingHeaders| > 0, ConfigureHeaders(sg.missingHeaders))
    + When(sg.enumeration.found, BlockUserEnumeration(|sg.enumeration.users|, sg.enumeration.methodUsed))
    + When(sg.generator, HideVersion)
  }

  function Findings(result: AuditResult): seq<Advice> {
    FindingsFrom(SignalsOf(result))
  }

  /** The rules behind the list `generateRecommendations` returns. */
  function AdviceFor(result: AuditResult): seq<Advice> {
    var found := Findings(result);
    if found == [] then [GoodJob] else found
  }

  lemma RenderAllStep(fired: seq<Advice>, condition: bool, a: Advice)
    ensures RenderAll(fired + When(condition, a)) == RenderAll(fired) + (if condition then [Render(a)] else [])
  {
    if condition {
      assert (fired + [a])[..|fired|] == fired;
    } else {
      assert fired + [] == fired;
    }
  }

  /** One rule of `generateRecommendations`: push its entry when its
      condition holds. */
  method PushWhen(recommendations: seq<Recommendation>, ghost fired: seq<Advice>, condition: bool, a: Advice)
    returns (updated: seq<Recommendation>)
    requires recommendations == RenderAll(fired)
    ensures updated == RenderAll(fired + When(condition, a))
  {
    RenderAllStep(fired, condition, a);
    updated := recommendations;
    if condition {
      updated := updated + [Render(a)];
    }
  }

  /** The six rules of `generateRecommendations`, in table order. */
  method Push(sg: Signals) returns (recommendations: seq<Recommendation>)
    ensures recommendations == RenderAll(FindingsFrom(sg))
  {
    var e := sg.enumeration;
    ghost var f0 := When(sg.xmlRpc, DisableXmlRpc);
    recommendations := PushWhen([], [], sg.xmlRpc, DisableXmlRpc);
    assert [] + f0 == f0;
    recommendations := PushWhen(recommendations, f0, sg.debugLog, RemoveDebugLog);
    ghost var f1 := f0 + When(sg.debugLog, RemoveDebugLog);
    recommendations := PushWhen(recommendations, f1, sg.git, HideGit);
    ghost var f2 := f1 + When(sg.git, HideGit);
    recommendations := PushWhen(recommendations, f2, |sg.missingHeaders| > 0, ConfigureHeaders(sg.missingHeaders));
    ghost var f3 := f2 + When(|sg.missingHeaders| > 0, ConfigureHeaders(sg.missingHeaders));
    recommendations := PushWhen(recommendations, f3, e.found, BlockUserEnumeration(|e.users|, e.methodUsed));
    ghost var f4 := f3 + When(e.found, BlockUserEnumeration(|e.users|, e.methodUsed));
    recommendations := PushWhen(recommendations, f4, sg.generator, HideVersion);
  }

  /** `generateRecommendations`: the rules' entries in table order, or the
      "good job" entry alone when none fires. */
  method GenerateRecommendations(result: AuditResult) returns (recommendations: seq<Recommendation>)
    ensures recommendations == RenderAll(AdviceFor(result))
  {
    var sg := Signals(CriticalEndpointExposed(result, "XML-RPC"), CriticalEndpointExposed(result, "Debug Log"),
      CriticalEndpointExposed(result, "Git Exposed"), Names(MissingCriticalHeaders(result)),
      result.userEnumeration, result.wordpressInfo.generator);
    recommendations := Push(sg);
    if |recommendations| == 0 {
      recommendations := recommendations + [Render(GoodJob)];
      assert [GoodJob][..0] == [];
    }
  }

  /** Ranks strictly increase along the list. */
  predicate RanksIncrease(s: seq<Advice>) {
    forall i, j :: 0 <= i < j < |s| ==> s[i].Rank() < s[j].Rank()
  }

  /** Every rank along the list is below `k`. */
  predicate RanksBelow(s: seq<Advice>, k: nat) {
    forall i :: 0 <= i < |s| ==> s[i].Rank() < k
  }

  /** Appending a rule of higher rank than everything listed keeps the ranks
      increasing. */
  lemma AppendRule(s: seq<Advice>, condition: bool, a: Advice)
    requires RanksIncrease(s) && RanksBelow(s, a.Rank())
    ensures RanksIncrease(s + When(condition, a)) && RanksBelow(s + When(condition, a), a.Rank() + 1)
  {
  }

  /** A list whose ranks increase and stay below `k` has at most `k`
      entries. */
  lemma {:induction false} IncreasingRanksBound(s: seq<Advice>, k: nat)
    requires RanksIncrease(s) && RanksBelow(s, k)
    ensures |s| <= k
  {
    if s != [] {
      var last := s[|s| - 1];
      var init := s[..|s| - 1];
      assert RanksBelow(init, last.Rank()) by {
        forall i | 0 <= i < |init|
          ensures init[i].Rank() < last.Rank()
        {
          assert init[i] == s[i];
        }
      }
      IncreasingRanksBound(init, last.Rank());
    }
  }

  /** The rules that fire keep table order: ranks increase, all below the
      fallback's. */
  lemma FindingsOrdered(sg: Signals)
    ensures var f := FindingsFrom(sg);
      RanksIncrease(f) && RanksBelow(f, GoodJob.Rank())
  {
    var e := sg.enumeration;
    var f1 := When(sg.xmlRpc, DisableXmlRpc);
    AppendRule(f1, sg.debugLog, RemoveDebugLog);
    var f2 := f1 + When(sg.debugLog, RemoveDebugLog);
    AppendRule(f2, sg.git, HideGit);
    var f3 := f2 + When(sg.git, HideGit);
    AppendRule(f3, |sg.missingHeaders| > 0, ConfigureHeaders(sg.missingHeaders));
    var f4 := f3 + When(|sg.missingHeaders| > 0, ConfigureHeaders(sg.missingHeaders));
    AppendRule(f4, e.found, BlockUserEnumeration(|e.users|, e.methodUsed));
    var f5 := f4 + When(e.found, BlockUserEnumeration(|e.users|, e.methodUsed));
    AppendRule(f5, sg.generator, HideVersion);
  }

  /** An entry is among the findings exactly when it is one of the six
      rules and that rule's condition holds. */
  lemma FindingsByRule(sg: Signals, x: Advice)
    ensures var e := sg.enumeration;
      x in FindingsFrom(sg) <==>
           (x == DisableXmlRpc && sg.xmlRpc)
           || (x == RemoveDebugLog && sg.debugLog)
           || (x == HideGit && sg.git)
           || (x == ConfigureHeaders(sg.missingHeaders) && |sg.missingHeaders| > 0)
           || (x == BlockUserEnumeration(|e.users|, e.methodUsed) && e.found)
           || (x == HideVersion && sg.generator)
  {
    var e := sg.enumeration;
    var f1 := When(sg.xmlRpc, DisableXmlRpc);
    var f2 := f1 + When(sg.debugLog, RemoveDebugLog);
    var f3 := f2 + When(sg.git, HideGit);
    var f4 := f3 + When(|sg.missingHeaders| > 0, ConfigureHeaders(sg.missingHeaders));
    var f5 := f4 + When(e.found, BlockUserEnumeration(|e.users|, e.methodUsed));
    var f6 := f5 + When(sg.generator, HideVersion);
    assert x in f6 <==> x in f5 || (sg.generator && x == HideVersion);
    assert x in f5 <==> x in f4 || (e.found && x == BlockUserEnumeration(|e.users|, e.methodUsed));
    assert x in f4 <==> x in f3 || (|sg.missingHeaders| > 0 && x == ConfigureHeaders(sg.missingHeaders));
    assert x in f3 <==> x in f2 || (sg.git && x == HideGit);
    assert x in f2 <==> x in f1 || (sg.debugLog && x == RemoveDebugLog);
  }

  /** The list is never empty, holds at most one entry per rule, and lists
      them in table order: XML-RPC, debug log, Git, headers, user
      enumeration, version. */
  lemma AdviceOrdered(result: AuditResult)
    ensures var advice := AdviceFor(result);
      1 <= |advice| <= 6 && RanksIncrease(advice)
  {
    FindingsOrdered(SignalsOf(result));
    IncreasingRanksBound(Findings(result), GoodJob.Rank());
  }

  /** The fallback entry appears exactly when no rule fired, and then it is
      the whole list. */
  lemma GoodJobIffNothingFound(result: AuditResult)
    ensures var advice := AdviceFor(result);
      (GoodJob in advice <==> Findings(result) == [])
      && (GoodJob in advice ==> advice == [GoodJob])
  {
    FindingsByRule(SignalsOf(result), GoodJob);
  }

  /** Each endpoint entry appears exactly when an endpoint of that name is
      reported accessible with critical risk. */
  lemma EndpointAdviceIff(result: AuditResult)
    ensures var advice := AdviceFor(result);
      (DisableXmlRpc in advice <==> CriticalEndpointExposed(result, "XML-RPC"))
      && (RemoveDebugLog in advice <==> CriticalEndpointExposed(result, "Debug Log"))
      && (HideGit in advice <==> CriticalEndpointExposed(result, "Git Exposed"))
  {
    var sg := SignalsOf(result);
    FindingsByRule(sg, GoodJob);
    FindingsByRule(sg, DisableXmlRpc);
    FindingsByRule(sg, RemoveDebugLog);
    FindingsByRule(sg, HideGit);
  }

  /** The headers the entry names are exactly the advised ones reported
      vulnerable. */
  lemma MissingHeadersMembership(result: AuditResult)
    ensures forall h :: h in MissingCriticalHeaders(result) <==>
      h in result.securityHeaders && h.status == Vulnerable && IsAdvisedHeader(h.name)
  {
    var keep := (h: SecurityHeader) => h.status == Vulnerable && IsAdvisedHeader(h.name);
    forall h
      ensures h in MissingCriticalHeaders(result) <==> h in result.securityHeaders && keep(h)
    {
      FilterMembership(result.securityHeaders, keep, h);
    }
  }

  /** Given the signals, the headers entry appears exactly when some header
      is missing, and then it names them. */
  lemma HeadersEntryIff(sg: Signals)
    ensures var advice := if FindingsFrom(sg) == [] then [GoodJob] else FindingsFrom(sg);
      ((exists i :: 0 <= i < |advice| && advice[i].ConfigureHeaders?) <==> |sg.missingHeaders| > 0)
      && (|sg.missingHeaders| > 0 ==> ConfigureHeaders(sg.missingHeaders) in advice)
  {
    var advice := if FindingsFrom(sg) == [] then [GoodJob] else FindingsFrom(sg);
    FindingsByRule(sg, GoodJob);
    if |sg.missingHeaders| > 0 {
      FindingsByRule(sg, ConfigureHeaders(sg.missingHeaders));
      var i :| 0 <= i < |advice| && advice[i] == ConfigureHeaders(sg.missingHeaders);
      assert advice[i].ConfigureHeaders?;
    } else {
      forall i | 0 <= i < |advice|
        ensures !advice[i].ConfigureHeaders?
      {
        assert advice[i] in advice;
        FindingsByRule(sg, advice[i]);
      }
    }
  }

  /** The headers entry appears exactly when CSP, X-Frame-Options or HSTS
      is reported vulnerable, and names exactly those headers, in report
      order. */
  lemma HeadersAdviceIff(result: AuditResult)
    ensures var advice := AdviceFor(result);
      ((exists i :: 0 <= i < |advice| && advice[i].ConfigureHeaders?)
         <==> exists h :: h in result.securityHeaders && h.status == Vulnerable && IsAdvisedHeader(h.name))
      && (|MissingCriticalHeaders(result)| > 0 ==> ConfigureHeaders(Names(MissingCriticalHeaders(result))) in advice)
  {
    var missing := MissingCriticalHeaders(result);
    var sg := SignalsOf(result);
    MissingHeadersMembership(result);
    HeadersEntryIff(sg);
    assert AdviceFor(result) == if FindingsFrom(sg) == [] then [GoodJob] else FindingsFrom(sg);
    assert |sg.missingHeaders| == |missing|;
    if |missing| > 0 {
      assert missing[0] in missing;
    }
  }

  /** The user-enumeration entry appears exactly when enumeration succeeded,
      quoting the number of users and the method; the version entry exactly
      when a generator tag was found. */
  lemma EnumerationAndVersionAdviceIff(result: AuditResult)
    ensures var advice := AdviceFor(result);
      var e := result.userEnumeration;
      (BlockUserEnumeration(|e.users|, e.methodUsed) in advice <==> e.found)
      && (HideVersion in advice <==> result.wordpressInfo.generator)
  {
    var sg := SignalsOf(result);
    var e := result.userEnumeration;
    FindingsByRule(sg, GoodJob);
    FindingsByRule(sg, BlockUserEnumeration(|e.users|, e.methodUsed));
    FindingsByRule(sg, HideVersion);
  }
}

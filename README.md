# WordPress Security Guard — verified model of the audit core

WordPress Security Guard is a browser tool that audits a WordPress site from the
outside. Every request goes through a rotating set of public CORS proxies. The
auditor normalises the URL, grades eleven security headers plus the `Server` and
`X-Powered-By` disclosures, and probes twelve well-known WordPress paths. It then
tries three ways of enumerating users, collects version, theme and readme
information, and turns all of this into a 0–100 score. Around the auditor sit a
security-reference catalogue (OWASP category, CWE and CVSS 3.1 score for every
finding), WAF detection, a CVSS aggregate, the recommendation list shown to the
user, and a capped, de-duplicated audit history.

This Dafny project models that core and proves properties about it:

| module | file | models |
|---|---|---|
| `Wrappers`, `Seqs`, `Text`, `Http` | `wrappers.dfy`, `seqs.dfy`, `text.dfy`, `http.dfy` | Option/Result; filter and sum over sequences; ASCII lower-casing, JavaScript `trim`, substring search, regex-like captures; responses, case-insensitive header lookup, the existence test of a probe |
| `AuditTypes` | `audit_types.dfy` | `src/types/wordpress-audit.ts`: the result records, severity bands and severity colours |
| `SecurityReferences` | `security_references.dfy` | `src/lib/security-references.ts`: reference catalogue, WAF detection, overall CVSS |
| `Relay` | `cors_proxy.dfy` | `src/lib/cors-proxy.ts`: proxy health, rotation, response cache, endpoint probes (class `RelayTransport`) |
| `Auditor` | `wordpress_auditor.dfy` | `src/lib/wordpress-auditor.ts`: every step of `auditWordPress` and the score |
| `History` | `history.dfy` | `src/hooks/useAuditHistory.ts`: the history list (class `AuditHistory`) |
| `Recommendations` | `recommendations.dfy` | `generateRecommendations` in `src/components/Recommendations.tsx` |

The state that the relay module keeps in module-level variables (the rotation
index, the cache and the health map) becomes the fields of the class
`Relay.RelayTransport`. Its methods are proved equal to the value-level functions
`Fetch`, `ProbeOne` and `ProbeAll` over a `RelayState`, and the lemmas are stated
about those functions. The network is a function parameter:
`net(url, proxy)` either throws with a message or yields a response. The clock
is a parameter `now`, in milliseconds. The auditor's probes use the same kind of
oracle: `fetch(url)` is `None` when `fetchWithProxy` would throw. JSON decoding
of the users endpoint and the generator-meta regex are oracles too. Each loop of
the source is a `method` with a `while` or `for` loop and invariants, proved
against a specification function: `CheckSecurityHeaders`, `CheckUserEnumeration`,
`CalculateOverallScore`, `DetectWaf`, `CalculateOverallCvss`, `TryProxies` and
`CheckEndpointsBatch`. `GenerateRecommendations` is a method too, because it
pushes onto a list step by step; it has no loop. `CheckEndpoints` is a
`map` over the endpoint list, so it is a function.

CVSS scores are exact reals. `Math.round(x * 10) / 10` is modelled as
`floor(10x + 1/2) / 10`.

### Behaviour at the edges

- Score deductions (`src/lib/wordpress-auditor.ts:276-312`):
  - headers: 10 for a vulnerable critical header, 5 for another vulnerable header, 3 for a warning;
  - endpoints: 15, 10, 5, 2 and 0 for critical, high, medium, low and info;
  - 15 for user enumeration and 5 for the generator tag;
  - the result is then clamped to 0–100.
- User enumeration tries `/wp-json/wp/v2/users`, then `/?rest_route=/wp/v2/users`, then `?author=1` to `?author=5` (`src/lib/wordpress-auditor.ts:160-233`). Every user a REST form returns is kept.
- "Is WordPress" is a boolean: the home page contains `wp-content`, `wp-includes` or `WordPress` (`src/lib/wordpress-auditor.ts:320-327`).
- The endpoint list is the twelve paths of `WP_ENDPOINTS` (`src/lib/wordpress-auditor.ts:18`).
- `getCvssSeverity` maps every non-zero score below 4 to Low, negative scores included. It maps every score of 9 or more to Critical, scores above 10 included (`src/types/wordpress-audit.ts:104-110`).
- When a REST users endpoint answers 2xx with a JSON array whose `map` throws (an array holding `null`, say), the catch block still leaves `found` true and the method set, with no users (`src/lib/wordpress-auditor.ts:174-186`). The next method is still tried, and a later success overwrites both.
- `checkEndpointsBatch` advances with `i += concurrency` (`src/lib/cors-proxy.ts:132`), so it never ends when `concurrency` is 0 or negative. The model's `CheckEndpointsBatch` therefore requires `concurrency > 0`.
- The relay's 100-character test is on `text.length` (`src/lib/cors-proxy.ts:76`), which counts UTF-16 code units. A character outside the Basic Multilingual Plane counts twice (`Text.Utf16Length`).
- `auditWordPress` attaches no `cvssOverall`, no references and no WAF name, and it reports no progress beyond the callback messages (`src/lib/wordpress-auditor.ts:314-355`).

Two header verdicts depart from RFC 6797 and RFC 7034, and the model keeps them as the code has them:

- a quoted `max-age="31536000"` has no digits right after `max-age=`, so it parses as 0 and the HSTS header is graded vulnerable (`Auditor.QuotedMaxAgeIsVulnerable`);
- `X-Frame-Options: ALLOW-FROM …` is graded warning (`Auditor.FrameOptionsVerdict`).

## Model

| member | source | states |
|---|---|---|
| `AuditTypes.CvssSeverity` | src/types/wordpress-audit.ts:104-110 | None exactly at 0; Low for other scores below 4; Medium in [4,7); High in [7,9); Critical at 9 and above — each band as an if-and-only-if |
| `AuditTypes.CvssSeverityMonotone` | src/types/wordpress-audit.ts:104-110 | on non-negative scores a larger score never gets a lower severity |
| `AuditTypes.CvssColor` | src/types/wordpress-audit.ts:113-121 | every severity has a non-empty colour class |
| `AuditTypes.NoSeverityIsGreen` | src/types/wordpress-audit.ts:113-121 | a score of no severity takes the default branch, the green classes |
| `AuditTypes.CvssColorInjective` | src/types/wordpress-audit.ts:113-121 | different severities get different colour classes |
| `Text.ToLower` | src/lib/wordpress-auditor.ts:44 | same length; every character lower-cased on its own |
| `Text.ToLowerIdempotent` | src/lib/wordpress-auditor.ts:44 | lower-casing twice equals lower-casing once |
| `Text.TrimStart` | src/lib/wordpress-auditor.ts:34 | result is a suffix; everything dropped is whitespace; it does not start with whitespace |
| `Text.TrimEnd` | src/lib/wordpress-auditor.ts:34 | result is a prefix; everything dropped is whitespace; it does not end with whitespace |
| `Text.NatToString` | src/lib/wordpress-auditor.ts:212 | decimal digits, non-empty, whose value is the number |
| `Text.Run` | src/lib/wordpress-auditor.ts:58 | the longest prefix of accepted characters (`\d+`, `[^\/"]+`) |
| `Text.CaptureFrom` | src/lib/wordpress-auditor.ts:58 | `None` iff no position matches; otherwise the capture at the first matching position |
| `Text.Capture` | src/lib/wordpress-auditor.ts:217 | `None` iff no position matches; otherwise the non-empty run of accepted characters after the key at the leftmost matching position |
| `Text.Utf16Length` | src/lib/cors-proxy.ts:76 | `text.length` counts UTF-16 code units: between one and two per character |
| `Text.Utf16LengthBounds` | src/lib/cors-proxy.ts:76 | one code unit per character for Basic Multilingual Plane text, two per character beyond it |
| `Text.SplitOccurrence` | src/lib/security-references.ts:322 | a pattern without the separator that occurs in `a + sep + b` occurs in `a` or in `b` |
| `Seqs.Filter` | src/hooks/useAuditHistory.ts:38 | kept elements satisfy the test, come from the input, and there are no more of them than in the input |
| `Seqs.FilterMembership` | src/hooks/useAuditHistory.ts:38 | `x` survives the filter iff it was in the input and passes the test |
| `Seqs.FilterKeepsDistinct` | src/hooks/useAuditHistory.ts:38 | filtering a duplicate-free list keeps it duplicate-free |
| `Seqs.SumOfAppend` | src/lib/wordpress-auditor.ts:281-299 | a sum of deductions over a concatenation is the sum of the parts |
| `Seqs.SumOfPermutation` | src/lib/wordpress-auditor.ts:281-299 | a sum of deductions does not depend on the order of the list |
| `Http.HeaderGet` | src/lib/wordpress-auditor.ts:101 | a value is found iff some header name matches case-insensitively, and the value is that header's |
| `Http.Probe` | src/lib/cors-proxy.ts:113-123 | a thrown fetch gives `{exists: false, statusCode: 0}`; otherwise the status is reported and `exists` holds iff it is 2xx, 401 or 403 |
| `SecurityReferences.Cvss` | src/lib/security-references.ts:5-7 | keeps score and vector; severity is the severity band of the score |
| `SecurityReferences.CatalogueIsConsistent` | src/lib/security-references.ts:10-302 | every header and endpoint reference has a CVSS score in [0,10] whose stated severity is its band; user enumeration is 5.3 and version disclosure is 2.0 |
| `SecurityReferences.DetectWaf` | src/lib/security-references.ts:317-332 | `None` iff no pattern of any WAF occurs in the lower-cased header string; otherwise the name of the first WAF, in list order, with a matching pattern |
| `SecurityReferences.WafPatternsWellFormed` | src/lib/security-references.ts:305-314 | every WAF pattern is a non-empty word of lower-case letters, digits, `_` and `-` |
| `SecurityReferences.WellFormedPatternIsSeparatorFree` | src/lib/security-references.ts:320-326 | such a pattern is its own lower-case form and holds neither the entry separator `' '` nor `':'` |
| `SecurityReferences.WafPatternsAreSeparatorFree` | src/lib/security-references.ts:305-326 | every WAF pattern is non-empty, lower-case and free of `' '` and `':'` |
| `SecurityReferences.MatchImpliesOneHeader` | src/lib/security-references.ts:318-326 | a separator-free pattern found in the joined string lies inside one header's `key:value` entry |
| `SecurityReferences.OneHeaderImpliesMatch` | src/lib/security-references.ts:318-326 | a pattern inside one entry is found in the joined string |
| `SecurityReferences.MatchWithinOneHeader` | src/lib/security-references.ts:318-326 | both directions: found in the joined string iff found in some single header entry |
| `SecurityReferences.WafMatchesSomeHeader` | src/lib/security-references.ts:317-332 | a WAF is recognised iff one of its patterns occurs within one header |
| `SecurityReferences.MaxFromBounds` | src/lib/security-references.ts:341-364 | the running maximum is at least its start, at least every collected score, and equal to the start or one of the scores |
| `SecurityReferences.RoundTenth` | src/lib/security-references.ts:377 | rounding to one decimal moves the value by at most 0.05 |
| `SecurityReferences.CollectCandidates` | src/lib/security-references.ts:341-364 | the two loops and the enumeration step collect exactly the scores of vulnerable headers and accessible endpoints with a reference, plus 5.3 on enumeration, and the maximum of those |
| `SecurityReferences.CalculateOverallCvss` | src/lib/security-references.ts:335-384 | the result is the aggregate: round(0.6 · max + 0.4 · average) to one decimal, its severity band, and the max and the issue count |
| `SecurityReferences.HeaderScoresIgnoreOthers` | src/lib/security-references.ts:345-350 | headers that are not vulnerable or carry no CVSS contribute nothing |
| `SecurityReferences.EndpointScoresIgnoreOthers` | src/lib/security-references.ts:353-358 | endpoints that are not accessible or carry no CVSS contribute nothing |
| `SecurityReferences.HeaderScoresLength` | src/lib/security-references.ts:345-350 | one score per contributing header |
| `SecurityReferences.EndpointScoresLength` | src/lib/security-references.ts:353-358 | one score per contributing endpoint |
| `SecurityReferences.IssueCount` | src/lib/security-references.ts:342-382 | the issue count is the number of contributing headers and endpoints plus one per raised flag |
| `SecurityReferences.NothingFound` | src/lib/security-references.ts:372-383 | with nothing contributing and no flags the aggregate is 0.0, severity None, "Max 0, Issues 0" |
| `SecurityReferences.SumBounds` | src/lib/security-references.ts:373 | a sum of n scores within [lo,hi] lies within [n·lo, n·hi] |
| `SecurityReferences.AverageBounds` | src/lib/security-references.ts:372-374 | the average of scores within [lo,hi] lies within [lo,hi] |
| `SecurityReferences.RoundTenthInRange` | src/lib/security-references.ts:377 | rounding keeps a value in [0,10] within [0,10] |
| `SecurityReferences.OverallCvssInRange` | src/lib/security-references.ts:371-381 | with catalogue scores in [0,10], the weighted score is between 0.6·max and 10, at most max without version disclosure, and the final score is in [0,10] |
| `SecurityReferences.FlagsInAggregate` | src/lib/security-references.ts:360-369 | version disclosure (2.0) adds an issue but never raises the max; user enumeration (5.3) lifts the max to at least 5.3 |
| `SecurityReferences.TwoHighEndpoints` | src/lib/security-references.ts:335-384 | two accessible 7.5 endpoints give score 7.5, severity High, "Max 7.5, Issues 2" |
| `Relay.ProxiesToTry` | src/lib/cors-proxy.ts:41-42 | the proxies to try are never empty |
| `Relay.HealthyProxiesMembership` | src/lib/cors-proxy.ts:16-27 | a proxy is healthy iff it is unknown, its last success is over 2 minutes old, or it has fewer than 2 failures; with no healthy proxy all three are tried |
| `Relay.NeverSucceededIsRetried` | src/lib/cors-proxy.ts:16-27 | a proxy that never succeeded is always retried once the clock passes 2 minutes, whatever its failures |
| `Relay.RotationVisitsEachOnce` | src/lib/cors-proxy.ts:44-46 | the rotation `(current + i) % n` visits distinct proxies for distinct `i` |
| `Relay.ProxiesToTryDistinct` | src/lib/cors-proxy.ts:16-42 | the proxies a call may try have pairwise distinct names |
| `Relay.TryFromThrown` | src/lib/cors-proxy.ts:98-106 | a thrown attempt adds one failure to that proxy, records its message and moves on |
| `Relay.TryFromRejected` | src/lib/cors-proxy.ts:66-79 | a rejected response (bad status, or body under 100 UTF-16 code units) is recorded and leaves health untouched |
| `Relay.TryFromAccepted` | src/lib/cors-proxy.ts:81-97 | an accepted response resets that proxy's health, makes it current, caches a 2xx body when caching, and is returned |
| `Relay.TryProxies` | src/lib/cors-proxy.ts:44-110 | the loop over the proxies ends in the state and result the proxy walk defines |
| `Relay.TryFromFails` | src/lib/cors-proxy.ts:44-110 | the walk fails iff no remaining proxy accepts |
| `Relay.FailureReport` | src/lib/cors-proxy.ts:40-110 | on failure the index and cache are unchanged and there is one error per proxy, in rotation order |
| `Relay.TryFromSucceeds` | src/lib/cors-proxy.ts:44-97 | on success the first accepting proxy in rotation order answers, becomes current, gets health (0, now), and only a 2xx body is cached |
| `Relay.FailuresGrowOnlyOnThrow` | src/lib/cors-proxy.ts:98-106 | a proxy's failure count grows only if one of its attempts threw |
| `Relay.RejectionsLeaveHealthAlone` | src/lib/cors-proxy.ts:66-79 | a proxy that only answered with rejected responses keeps its health entry as it was |
| `Relay.CacheValidInsert` | src/lib/cors-proxy.ts:93-95 | storing a 2xx response of at least 100 UTF-16 code units keeps every cache entry 2xx and that long |
| `Relay.LengthCountsCodeUnits` | src/lib/cors-proxy.ts:66-79 | with an existence status, 50 characters beyond the Basic Multilingual Plane are accepted, while fewer than 100 plane-0 characters are rejected |
| `Relay.TryFromKeepsCacheValid` | src/lib/cors-proxy.ts:44-110 | the proxy walk keeps the cache holding only 2xx responses of at least 100 UTF-16 code units |
| `Relay.FetchFailsIffNoProxyAccepts` | src/lib/cors-proxy.ts:29-111 | without a cache hit, a fetch fails iff no proxy to try accepts |
| `Relay.FetchFailureReport` | src/lib/cors-proxy.ts:40-110 | a failed fetch reports one error per proxy tried, in rotation order, and keeps index and cache |
| `Relay.FailureNamesDistinct` | src/lib/cors-proxy.ts:40-110 | a failed fetch names each proxy in at most one of its reasons |
| `Relay.CacheHitChangesNothing` | src/lib/cors-proxy.ts:33-38 | a fresh cache entry is served and no state changes |
| `Relay.FetchKeepsCacheValid` | src/lib/cors-proxy.ts:29-111 | every fetch keeps the cache holding only 2xx responses of at least 100 UTF-16 code units |
| `Relay.CachedResponseIsServed` | src/lib/cors-proxy.ts:33-95 | after a cached 2xx fetch, the same URL within one minute returns the same response, whatever the network does |
| `Relay.ProbeExistsIffDelivered` | src/lib/cors-proxy.ts:113-123 | over a valid cache, a probe says the endpoint exists iff the relay delivers a response |
| `Relay.SweepSnoc` | src/lib/cors-proxy.ts:141-143 | probing one more URL threads the state and sets its result |
| `Relay.SweepAppend` | src/lib/cors-proxy.ts:132-144 | probing `a + b` equals probing `a` and then `b`, so batches compose |
| `Relay.SweepKeys` | src/lib/cors-proxy.ts:130-146 | the result map has exactly the probed URLs as keys |
| `Relay.RelayTransport.constructor` | src/lib/cors-proxy.ts:9-14 | index 0, empty cache, empty health |
| `Relay.RelayTransport.FetchWithProxy` | src/lib/cors-proxy.ts:29-111 | new state and result are those of `Fetch` on the old state |
| `Relay.RelayTransport.CheckEndpointExists` | src/lib/cors-proxy.ts:113-123 | new state and result are those of `ProbeOne` |
| `Relay.RelayTransport.ProbeSlice` | src/lib/cors-proxy.ts:133-143 | one batch is probed in order, as `ProbeAll` on that batch |
| `Relay.RelayTransport.CheckEndpointsBatch` | src/lib/cors-proxy.ts:126-147 | the batches together equal one sequential `ProbeAll` over all URLs |
| `Relay.RelayTransport.ClearCache` | src/lib/cors-proxy.ts:149-151 | the cache is emptied and index and health are kept |
| `Auditor.StripTrailingSlashes` | src/lib/wordpress-auditor.ts:38 | the result is a prefix, does not end in `/`, and only slashes were removed |
| `Auditor.NormalizeUrl` | src/lib/wordpress-auditor.ts:33-39 | the normalised URL never ends in `/` |
| `Auditor.NormalizeUrlShape` | src/lib/wordpress-auditor.ts:33-39 | the result is the trimmed URL, with `https://` added when it has no scheme, less only trailing slashes |
| `Auditor.NormalizeUrlScheme` | src/lib/wordpress-auditor.ts:34-37 | a trimmed URL without trailing slash is kept as is when it has a scheme and gets `https://` otherwise |
| `Auditor.StripKeepsNonSlashPrefix` | src/lib/wordpress-auditor.ts:38 | stripping `a + "///"` gives `a` when `a` does not end in a slash |
| `Auditor.HeaderStatusOf` | src/lib/wordpress-auditor.ts:41-67 | a missing or empty header is vulnerable; the grade is never info |
| `Auditor.HeaderStatusIgnoresNameCase` | src/lib/wordpress-auditor.ts:46 | header names are compared case-insensitively |
| `Auditor.FrameOptionsVerdict` | src/lib/wordpress-auditor.ts:52-56 | secure iff the value is `deny` or `sameorigin` in any case; warning otherwise |
| `Auditor.ContentTypeOptionsVerdict` | src/lib/wordpress-auditor.ts:62-63 | secure iff `nosniff` in any case; warning otherwise |
| `Auditor.CspVerdict` | src/lib/wordpress-auditor.ts:47-51 | warning iff the policy contains `unsafe-inline` or `unsafe-eval`; secure otherwise |
| `Auditor.HstsVerdict` | src/lib/wordpress-auditor.ts:57-61 | secure iff max-age is at least one year, warning iff between 1 and one year, vulnerable iff 0 |
| `Auditor.OtherHeaderVerdict` | src/lib/wordpress-auditor.ts:64-65 | any other header is secure when present and vulnerable when missing |
| `Auditor.MaxAgeOfDigits` | src/lib/wordpress-auditor.ts:58 | `max-age=<digits>` parses to their decimal value |
| `Auditor.HstsBoundary` | src/lib/wordpress-auditor.ts:57-61 | for `max-age=n`, n ≥ 31536000 is secure, 0 < n is warning and 0 is vulnerable |
| `Auditor.QuotedDirectiveHasNoMaxAge` | src/lib/wordpress-auditor.ts:58 | a quoted value does not match `max-age=(\d+)`, so it reads as 0 |
| `Auditor.QuotedMaxAgeIsVulnerable` | src/lib/wordpress-auditor.ts:57-61 | `max-age="n"` is graded vulnerable for every n |
| `Auditor.HeaderDescriptionMentions` | src/lib/wordpress-auditor.ts:69-92 | a missing header's description names it; an unlisted present header's description quotes its value |
| `Auditor.CheckListedHeaders` | src/lib/wordpress-auditor.ts:100-108 | one graded line per listed header, in list order |
| `Auditor.CheckSecurityHeaders` | src/lib/wordpress-auditor.ts:94-136 | the report built from one fetch of the base URL |
| `Auditor.HeadersReportShape` | src/lib/wordpress-auditor.ts:94-136 | empty iff the fetch failed; otherwise 11 to 13 lines whose first 11 name the listed headers with their values and grades |
| `Auditor.DisclosureLines` | src/lib/wordpress-auditor.ts:110-130 | a Server line appears iff the header is present, and it is a warning iff it mentions apache or nginx, info otherwise; an X-Powered-By line appears last iff present, always a warning |
| `Auditor.CheckEndpoints` | src/lib/wordpress-auditor.ts:138-158 | one line per catalogue endpoint, in order, with its name, risk and full URL; accessible iff the probe says it exists, blocked otherwise |
| `Auditor.EndpointAccessibleIff` | src/lib/wordpress-auditor.ts:138-158 | accessible iff the fetch succeeds with 2xx, 401 or 403; the status code is 0 on a failed fetch |
| `Auditor.RestAttempt` | src/lib/wordpress-auditor.ts:168-186 | a REST form yields users (never an empty list) or a throwing map only when the fetch gave a 2xx response |
| `Auditor.CheckUserEnumeration` | src/lib/wordpress-auditor.ts:160-233 | the method's result is the enumeration the three methods define, including a throwing map that marks the method found without users |
| `Auditor.AppendNextId` | src/lib/wordpress-auditor.ts:221-225 | appending author `i` keeps the ids increasing within 1..i |
| `Auditor.AuthorScanAppends` | src/lib/wordpress-auditor.ts:210-230 | the author scan only appends, ids stay increasing within 1..5, at most one user per remaining id |
| `Auditor.AuthorScanMethod` | src/lib/wordpress-auditor.ts:218-226 | found iff users were collected, and then the method is the author parameter |
| `Auditor.AuthorScanStopsAtFailure` | src/lib/wordpress-auditor.ts:210-230 | a fetch that throws at id j ends the scan: no user with an id of j or more is added |
| `Auditor.UserEnumerationShape` | src/lib/wordpress-auditor.ts:160-233 | found iff the method is named; users imply found; found without users only through a REST form; the method is one of the three; author scans yield 1 to 5 users with increasing ids |
| `Auditor.EnumerationPriority` | src/lib/wordpress-auditor.ts:167-207 | a REST API list wins; the rest_route list is used only when the REST API gives none; a REST method implies that form answered; with no users the result is the last throwing REST form, or nothing found |
| `Auditor.WordPressInfoOf` | src/lib/wordpress-auditor.ts:235-274 | readme iff the readme probe exists; a failed home fetch gives no version, theme or generator; a generator tag implies a non-empty version; a `ver=` version is non-empty digits and dots; a theme is non-empty and slash-free |
| `Auditor.VersionPrecedence` | src/lib/wordpress-auditor.ts:247-264 | generator iff a meta tag matched; its non-empty version wins, an empty one gives "Unknown"; without a tag the version is the leftmost `ver=` capture; the theme is the leftmost theme-path capture |
| `Auditor.Clamp` | src/lib/wordpress-auditor.ts:311 | in [0,100], and identity on [0,100] |
| `Auditor.CalculateOverallScore` | src/lib/wordpress-auditor.ts:276-312 | the loops compute 100 less the deductions, clamped, always in [0,100] |
| `Auditor.ScoreIsHundredLessDeductions` | src/lib/wordpress-auditor.ts:276-312 | deductions are non-negative and the score is 100 less them, or 0 when they reach 100 |
| `Auditor.ScoreIgnoresOrder` | src/lib/wordpress-auditor.ts:281-309 | reordering headers or endpoints does not change the score |
| `Auditor.ExtraHeaderNeverHelps` | src/lib/wordpress-auditor.ts:281-287 | adding a header line can never raise the score |
| `Auditor.AuditWordPress` | src/lib/wordpress-auditor.ts:314-355 | the method returns the audit that `AuditOf` defines |
| `Auditor.AuditFailsOnlyOnConnection` | src/lib/wordpress-auditor.ts:320-327 | the audit fails iff the first fetch of the base URL fails, and then with the connection error |
| `Auditor.AuditReport` | src/lib/wordpress-auditor.ts:314-350 | a successful audit holds the normalised URL, the time, the WordPress test on the home body and the four checks' results, with no CVSS aggregate |
| `Auditor.AuditScore` | src/lib/wordpress-auditor.ts:349-352 | the stored score is the score of the stored result and lies in [0,100] |
| `History.AddEntryShape` | src/hooks/useAuditHistory.ts:36-39 | the new entry is first, at most 10 entries, no other entry has its URL, the rest keep their order, length min(1 + others, 10) |
| `History.FilterKeepsUniqueUrls` | src/hooks/useAuditHistory.ts:38 | filtering keeps URLs unique |
| `History.AddEntryKeepsUniqueUrls` | src/hooks/useAuditHistory.ts:36-39 | adding to a history with unique URLs keeps them unique |
| `History.AddEntryTwice` | src/hooks/useAuditHistory.ts:36-39 | re-adding the same entry changes nothing |
| `History.FilterAllKept` | src/hooks/useAuditHistory.ts:38 | a filter everything passes keeps the list |
| `History.FilterDropsLast` | src/hooks/useAuditHistory.ts:38 | a filter that rejects a prefix and keeps the rest returns the rest |
| `History.FilterNoneKept` | src/hooks/useAuditHistory.ts:38 | a filter nothing passes returns the empty list |
| `History.AuditHistory.constructor` | src/hooks/useAuditHistory.ts:15 | the history starts empty |
| `History.AuditHistory.Load` | src/hooks/useAuditHistory.ts:17-26 | a stored list replaces the history; nothing stored or unreadable leaves it |
| `History.AuditHistory.AddToHistory` | src/hooks/useAuditHistory.ts:28-49 | the new history is the entry for the result followed by the other URLs' entries, capped at 10; it starts with the entry and keeps URLs unique |
| `History.AuditHistory.ClearHistory` | src/hooks/useAuditHistory.ts:51-58 | the history is emptied |
| `Recommendations.RenderAll` | src/components/Recommendations.tsx:16-89 | one recommendation per piece of advice, each the rendering of the advice at the same position |
| `Recommendations.TitlesIdentifyRules` | src/components/Recommendations.tsx:27-83 | different rules have different titles |
| `Recommendations.Names` | src/components/Recommendations.tsx:57 | the header names, one per header, in order |
| `Recommendations.PushWhen` | src/components/Recommendations.tsx:24-77 | a conditional push appends the rendered advice exactly when its condition holds |
| `Recommendations.Push` | src/components/Recommendations.tsx:19-77 | the six checks push exactly the rendered findings, in rule order |
| `Recommendations.GenerateRecommendations` | src/components/Recommendations.tsx:16-89 | the result is the rendered advice: the findings, or the single good-job entry when there are none |
| `Recommendations.IncreasingRanksBound` | src/components/Recommendations.tsx:16-89 | a list of strictly increasing ranks below k has at most k entries |
| `Recommendations.FindingsOrdered` | src/components/Recommendations.tsx:24-77 | findings come in rule order, each rule at most once |
| `Recommendations.FindingsByRule` | src/components/Recommendations.tsx:24-77 | a piece of advice is among the findings iff its rule's condition holds |
| `Recommendations.AdviceOrdered` | src/components/Recommendations.tsx:16-89 | between 1 and 6 recommendations, in rule order, with no repeats |
| `Recommendations.GoodJobIffNothingFound` | src/components/Recommendations.tsx:80-86 | the good-job entry appears iff nothing else fired, and then it is alone |
| `Recommendations.EndpointAdviceIff` | src/components/Recommendations.tsx:20-46 | XML-RPC, debug-log and Git advice appear iff that endpoint is accessible and critical |
| `Recommendations.MissingHeadersMembership` | src/components/Recommendations.tsx:49-51 | a header is listed as missing iff it is vulnerable and one of CSP, X-Frame-Options, HSTS |
| `Recommendations.HeadersEntryIff` | src/components/Recommendations.tsx:53-59 | header advice appears iff some header is missing, and it names them |
| `Recommendations.HeadersAdviceIff` | src/components/Recommendations.tsx:49-59 | header advice appears iff some advised header is vulnerable, and it names the missing headers in order |
| `Recommendations.EnumerationAndVersionAdviceIff` | src/components/Recommendations.tsx:62-77 | enumeration advice (with user count and method) iff users were found; version advice iff the generator tag is exposed |

## Left out

- The real `fetch`, `AbortController` and the 10-second timeout are left out. Each proxy attempt is the parameter `net(url, proxy)`, which either throws with a message or yields a response.
- `encodeURIComponent` and building the proxy URL are left out. `net` receives the target URL and the proxy.
- `Response.text()` and `clone()` are taken never to throw. A body is a string.
- Concurrency is not modelled. `Promise.all` in `checkEndpoints` and in `checkEndpointsBatch` is modelled as probes run one after another in list order, so interleavings of the relay state across concurrent probes are not captured.
- The auditor's probes use a stateless `fetch(url)` oracle. That oracle does not thread the relay's cache, rotation index and health map, so the auditor's effect on the relay state is not modelled. The relay itself is modelled in full in `Relay`. Repeated fetches of one URL are taken to give the same outcome. The source fetches the home page three times (`src/lib/wordpress-auditor.ts:98`, `:244` and `:322`) and caches only 2xx answers, for one minute. So in the source, after a 401 or 403 home page or once the minute has passed, the header and info fetches may fail or differ from the first one. The model cannot produce a successful audit with an empty header report.
- `Date.now()` and `new Date()` are a `now` parameter, one value per call. An ISO timestamp in the history is an integer.
- The generator meta regex is the oracle `generatorTag(html)`. Its case-insensitive, multi-attribute matching is not modelled. The `ver=` and theme regexes are modelled as captures.
- JSON decoding of the users endpoint is the oracle `json(body)`. It yields a user list, no users (not an array, or a parse error), or a `map` that throws. The field mapping itself is not modelled.
- `localStorage` reading, writing and parse errors are left out. `Load` takes the decoded list or `None`.
- The relay's final error message is left out: its failure is the list of per-proxy reasons, not the string that prefixes them and joins them with `, `. The auditor's connection failure keeps its message as a constant.
- `SecurityReferences.CalculateOverallCvss`: the vector string `Max: x, Issues: n` is kept as its two values, because number-to-string formatting of reals is not modelled.
- CVSS arithmetic uses exact reals, not IEEE doubles. Rounding at exact halves may differ from `Math.round` on a double.
- `Text.ToLower` lower-cases ASCII letters only. JavaScript's full Unicode case mapping is not modelled.
- `Http.HeaderGet` returns the first header with a matching name. The Fetch API's joining of repeated headers with `, ` is not modelled.
- The `onProgress` callback messages, `console.error` and all React components, hooks state plumbing and rendering (icons, colours in the page, export) are left out.
- The `type` of each recommendation (critical, warning or info) is kept as a `Kind`. Its display is not modelled.

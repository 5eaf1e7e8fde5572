# oldsite-scanner: the staleness scorer, the name cleaners and the zone parser

This project models, in Dafny, the deterministic core of the `.ch` old-site
scanner. That core is three pieces of the Python backend.

- **Staleness scanner** (`backend/scan_ch_sites.py`).
  - `score_site` checks a response's headers and body sample against eighteen fixed rules, in a fixed order. Each rule that fires adds a positive weight to the score and appends one reason.
  - `scan_domain` tries `https`, then `http`, and stops at the first scheme that answers. A plain-HTTP answer costs 25 more points and gets the `Pas de HTTPS; ` prefix. A record goes to the database only when the final score reaches the threshold.
  - The domain-list reader keeps the non-blank lines that do not start with `#`, stripped, and cuts them to the limit.
- **Certificate-transparency cleaner** (`backend/fetch_crtsh.py`).
  - `clean_domain` turns one name found in a certificate into a `.ch` domain of at most three labels, or rejects it.
  - The extraction loop of `fetch_crtsh_year` folds `clean_domain` over the newline-separated names of every entry of crt.sh's JSON answer.
- **Zone-transfer parser** (`backend/fetch_ch_domains.py`).
  - `try_axfr_transfer` reads the output of `dig … AXFR` into the sorted list of second-level names of the zone.
  - `try_alternative_sources` asks a fixed list of name servers in turn.
  - `check_existing_file` counts the domains of an existing list.

## How the model is organised

| module | file | content |
|---|---|---|
| `Wrappers` | wrappers.dfy | `Option` |
| `Text` | text.dfy | Python's `str` operations used by the source, as recursive functions: `strip` (on exactly the 29 characters of `str.isspace`), `lower`, `split`, `join`, `replace`, `count`, `endswith`, `in`, `str(int)`; lemmas about them |
| `StringOrder` | string_order.dfy | Python's string order (code-point lexicographic), proved a strict total order; `sorted(list(s))` of a set as a selection loop |
| `Scoring` | scoring.dfy | `score_site` as an imperative method, one small method per group of rules; each method is proved equal to a function on a `Tally` (score and reason list); the regular expressions at lines 71, 99 and 107 as explicit string predicates |
| `ScoringFacts` | scoring_facts.dfy | what the scorer promises: score = sum of reason weights, bounds, header case, placeholder, security count, the WordPress float |
| `Scanner` | scanner.dfy | `scan_domain`: the scheme loop, penalty, threshold and header serialisation |
| `DomainList` | domain_list.dfy | the domain-line filter, `limit`, and `check_existing_file` |
| `Crtsh` | crtsh.dfy | `clean_domain`, stage by stage; the extraction loop and its provenance and completeness |
| `ZoneTransfer` | zone_transfer.dfy | the AXFR answer parser, `try_axfr_transfer` and `try_alternative_sources` |

**The network, `dig` and files are parameters.**
- `scan_domain` receives `probe: Scheme -> Outcome`. The outcome is either `Fail` (any exception of the HEAD or partial GET) or `Ok(status, headers, body)`, with the body already decoded.
- `try_axfr_transfer` receives what `dig` did: it failed, or it printed some text.
- `try_alternative_sources` receives `dig` as a function of the server name.
- A file is the sequence of its lines, each still carrying its line terminator, as Python iterates them.
- The score threshold is a parameter.

**Where the model follows the code.**
- `score_site` takes no HTTP status argument.
- It has no early return.
- Every weight is positive: 15, 15, 20 and 15 for `Server`; 20, 15 and 10 for `X-Powered-By`; 15 for the charset; 20, 15 and 15 for the doctypes and meta charset; 10 for an obsolete tag; 5 and 5 for inline styles and viewport; 15, 15 and 20 for the CMS rules; 10 for the security headers.
- The weights add up to 255.

**Functions and methods.** Each rule group is written twice. Its function on a `Tally` is the reference definition, about which the facts are proved. Its method updates `score` and `reasons` step by step, as `score_site` does, and is proved to end in the state that function gives.

**The WordPress version.**
- The rule compares `float("M.F") < 4.0`. The model compares exactly, including the rounding to the nearest double, for a version of the form `3.F`.
- `ShortVersionBelowFour` proves that for a fraction of at most fifteen digits this is the same as the integer test `M < 4`.
- `SixteenNinesIsNotOld` shows where the two tests differ: `3.9999999999999999` rounds to 4.0, so the rule does not fire.

## Model

| member | source | states |
|---|---|---|
| `Scoring.ScoreSite` | backend/scan_ch_sites.py:11-121 | the score and reasons text are those of evaluating all rules in source order from zero and no reasons, joined by "; " or the placeholder |
| `Scoring.ScoreHeaders` | backend/scan_ch_sites.py:20-56 | the header rules on the lower-cased header map, from a zero tally |
| `Scoring.ScoreServer` | backend/scan_ch_sites.py:26-38 | the four `Server` rules (Apache, IIS, very old PHP, PHP 5.3–5.5), each adding its weight and reason independently |
| `Scoring.ScorePoweredBy` | backend/scan_ch_sites.py:41-50 | the three `X-Powered-By` rules |
| `Scoring.ScoreDoctype` | backend/scan_ch_sites.py:62-73 | the HTML 4 and XHTML 1.0 doctype rules and the meta-charset regular expression |
| `Scoring.FindObsoleteTag` | backend/scan_ch_sites.py:76-81 | the loop with `break` returns the first tag of the list that the body holds, or none |
| `Scoring.ScoreLayout` | backend/scan_ch_sites.py:75-91 | the obsolete-tag rule, more than twenty `style=`, and a missing `viewport` |
| `Scoring.ScoreCms` | backend/scan_ch_sites.py:93-112 | the Joomla!, WordPress and generator rules in that order |
| `Scoring.ScoreJoomla` | backend/scan_ch_sites.py:94-96 | the Joomla! 1.x/2.x rule |
| `Scoring.ScoreWordPress` | backend/scan_ch_sites.py:97-104 | the WordPress rule: only when `wordpress` occurs and the version regular expression matches, and only when the parsed float is below 4.0 |
| `Scoring.ScoreGenerator` | backend/scan_ch_sites.py:106-112 | the generator rule on the lower-cased generator content |
| `Scoring.WordPressVersion` | backend/scan_ch_sites.py:99 | a match's two groups are non-empty digit strings, so `float` at line 101 always parses them |
| `Scoring.WordPressVersionLeftmost` | backend/scan_ch_sites.py:99 | `re.search` reports the leftmost match: none when no position matches, otherwise the match at a position before which none starts |
| `Scoring.MetaCharsetIn` | backend/scan_ch_sites.py:71 | the reference definition of `re.search` of the meta-charset pattern: a match starting at some position of the body |
| `Scoring.FloatBelowFour` | backend/scan_ch_sites.py:101-102 | the reference definition of `float(version) < 4.0` with the parse rounded to the nearest double |
| `Scoring.Generator` | backend/scan_ch_sites.py:107 | the reference definition of the generator `re.search`: the group of the leftmost match |
| `Scoring.CountMissing` | backend/scan_ch_sites.py:116 | the reference definition of the `sum(1 for h in … if h not in headers_lower)` count |
| `Scoring.RenderReasons` | backend/scan_ch_sites.py:121 | the reference definition of `"; ".join(reasons) if reasons else` the placeholder |
| `Scoring.Span` | backend/scan_ch_sites.py:71 | a greedy character-class run: every character consumed is in the class and the next one is not |
| `Scoring.FirstContainedAt` | backend/scan_ch_sites.py:76-81 | the tag found is the first of the list that occurs, whatever occurs after it |
| `Scoring.FirstContainedNone` | backend/scan_ch_sites.py:76-81 | no tag is found when the body holds none of them |
| `Scoring.Evaluate` | backend/scan_ch_sites.py:16-119 | the reference definition of the eighteen rules in source order from zero, on the lower-cased headers and the lower-cased body; the rows below state its properties |
| `ScoringFacts.ScoreIsSumOfReasonWeights` | backend/scan_ch_sites.py:16-119 | the score is the sum of the fixed positive weights of the reasons reported, and every reason is one of the rules' reasons |
| `ScoringFacts.EvaluateConsistent` | backend/scan_ch_sites.py:16-119 | every rule group keeps the score equal to the sum of the weights of the reasons so far |
| `ScoringFacts.EvaluateBounds` | backend/scan_ch_sites.py:16-119 | the score is at most 255 and at most eighteen reasons are reported |
| `Scoring.LowerKeys` | backend/scan_ch_sites.py:20 | the reference definition of the dict comprehension, folded over the header pairs in order |
| `ScoringFacts.LowerKeysLastWins` | backend/scan_ch_sites.py:20 | a lower-cased name is in the map only when some header has it, and then holds the value of the last such header |
| `ScoringFacts.LowerKeysIgnoreCase` | backend/scan_ch_sites.py:20 | header lists differing only in the case of their names give the same lower-cased map, collisions included |
| `ScoringFacts.CaseInsensitiveHeaders` | backend/scan_ch_sites.py:20-119 | the score and reasons do not depend on the case of header names |
| `ScoringFacts.PlaceholderIffNoReasons` | backend/scan_ch_sites.py:121 | the placeholder text is returned exactly when no rule fired |
| `ScoringFacts.NoReasonStartsThePlaceholder` | backend/scan_ch_sites.py:121 | no reason text is a prefix of the placeholder, so a non-empty joined reason list, which starts with a reason, never equals it |
| `ScoringFacts.ObsoleteTagRuleNamesFirst` | backend/scan_ch_sites.py:76-81 | the tag rule adds 10 and one reason naming the first tag, in list order, that the body holds |
| `ScoringFacts.ObsoleteTagRuleSilent` | backend/scan_ch_sites.py:76-81 | a body with none of the tags leaves score and reasons unchanged |
| `ScoringFacts.CountMissingIsCardinality` | backend/scan_ch_sites.py:116 | the missing count is the number of distinct listed headers absent from the map |
| `ScoringFacts.SecurityRuleFires` | backend/scan_ch_sites.py:115-119 | the security rule adds 10 exactly when at least three of the four headers are missing, and its reason reports that count |
| `ScoringFacts.AllSecurityHeadersMissing` | backend/scan_ch_sites.py:115-119 | with none of the four headers the rule adds 10 and "Manque 4/4 headers de sécurité" |
| `ScoringFacts.ShortVersionBelowFour` | backend/scan_ch_sites.py:99-102 | for a fraction of at most fifteen digits, `float(version) < 4.0` is `major < 4` |
| `ScoringFacts.SixteenNinesIsNotOld` | backend/scan_ch_sites.py:101-102 | "3.9999999999999999" is not below 4.0 as a double |
| `ScoringFacts.NoHeaderRuleFires` | backend/scan_ch_sites.py:26-56 | no header rule fires on an empty header map |
| `ScoringFacts.NoHeadersEmptyBody` | backend/scan_ch_sites.py:59-121 | with no headers and an empty body the result is (10, "Manque 4/4 headers de sécurité") |
| `Scanner.HeaderLines` | backend/scan_ch_sites.py:157 | one `k: v` line per header, in order |
| `Scanner.HeadersText` | backend/scan_ch_sites.py:157 | the reference definition of `headers_str`: the `k: v` lines joined by line feeds |
| `Scanner.HeadersTextLines` | backend/scan_ch_sites.py:157 | for a non-empty header list whose names and values hold no line feed, splitting the serialised headers at line feeds gives back the `k: v` lines (an empty list gives `""`, which splits to one empty line) |
| `Scanner.Judge` | backend/scan_ch_sites.py:150-161 | the reference definition of what follows an answer: the HTTP penalty and prefix, then persist or below threshold |
| `Scanner.Decide` | backend/scan_ch_sites.py:130-176 | the reference definition of the scheme loop's decision: the first scheme that answers is judged, inaccessible when none does |
| `Scanner.Attempts` | backend/scan_ch_sites.py:130-173 | the reference definition of the schemes tried: up to and including the first that answers |
| `Scanner.Verdict` | backend/scan_ch_sites.py:150-163 | the HTTP penalty and prefix, then persist when the score reaches the threshold, otherwise below threshold |
| `Scanner.TryInOrder` | backend/scan_ch_sites.py:130-176 | the scheme loop returns the decision for the first scheme that answers, or inaccessible, and the schemes it tried |
| `Scanner.ScanDomain` | backend/scan_ch_sites.py:124-176 | `scan_domain` with `https` then `http` and `score_site` as the scorer |
| `Scanner.DecideSchemes` | backend/scan_ch_sites.py:130-176 | the decision over the two schemes, case by case |
| `Scanner.HttpsTriedFirst` | backend/scan_ch_sites.py:130 | `https` is tried first, and `http` is tried exactly when `https` failed |
| `Scanner.NothingTriedAfterSuccess` | backend/scan_ch_sites.py:130-173 | every tried scheme but the last failed; a decision was made on the last one |
| `Scanner.HttpsAnswer` | backend/scan_ch_sites.py:148-163 | an `https` answer keeps the scorer's score and reasons |
| `Scanner.HttpFallbackAnswer` | backend/scan_ch_sites.py:148-163 | an `http` answer after an `https` failure adds 25 and prefixes "Pas de HTTPS; " |
| `Scanner.InaccessibleIffBothFail` | backend/scan_ch_sites.py:130-176 | a domain is inaccessible exactly when both schemes fail |
| `Scanner.PersistIffThreshold` | backend/scan_ch_sites.py:148-161 | once a scheme has answered, a record is persisted exactly when that answer's score, with the `http` penalty, reaches the threshold; a persisted record has such a score and a shortfall reports a score below it |
| `Scanner.PersistedScoreBound` | backend/scan_ch_sites.py:148-158 | a persisted score is at most 255 + 25 |
| `Scanner.BareAnswerScore` | backend/scan_ch_sites.py:148 | the scorer gives (10, "Manque 4/4 headers de sécurité") for no headers and no body |
| `Scanner.HttpPrefixOnBareAnswer` | backend/scan_ch_sites.py:148-158 | a bare plain-HTTP answer is persisted at threshold 0 with score 35 and "Pas de HTTPS; Manque 4/4 headers de sécurité" |
| `DomainList.DomainLines` | backend/scan_ch_sites.py:187 | the reference definition of the list comprehension over the file's lines |
| `DomainList.DomainLinesAppend` | backend/scan_ch_sites.py:187 | the filter keeps file order |
| `DomainList.DomainLinesMembers` | backend/scan_ch_sites.py:187 | a domain is listed exactly when some non-blank line not starting with `#` strips to it |
| `DomainList.DomainLinesStripped` | backend/scan_ch_sites.py:187 | every listed domain is non-empty without surrounding whitespace |
| `DomainList.IndentedHashIsKept` | backend/scan_ch_sites.py:187 | the `#` test is on the raw line, so an indented `#` line is kept |
| `DomainList.ApplyLimit` | backend/scan_ch_sites.py:192-193 | the limit keeps a prefix, of Python's slice length for positive and negative limits, and all of it for no limit or 0 |
| `DomainList.DomainsToScan` | backend/scan_ch_sites.py:185-193 | the reference definition of the domains scanned: none for a file not found, otherwise the domain lines cut to the limit |
| `DomainList.DomainsToScanFromFile` | backend/scan_ch_sites.py:185-193 | nothing is scanned when the file is not found; every scanned domain is a stripped, non-blank line of the file not starting with `#` |
| `DomainList.DomainLinesCount` | backend/fetch_ch_domains.py:163-164 | the number of domain lines is the number of non-blank lines not starting with `#` |
| `DomainList.CheckExistingFile` | backend/fetch_ch_domains.py:148-166 | (exists, count): false and 0 when missing, true and 0 when unreadable, true and the domain-line count otherwise |
| `Crtsh.Validate` | backend/fetch_crtsh.py:57-70 | an accepted name is returned unchanged and is a clean name |
| `Crtsh.CleanDomain` | backend/fetch_crtsh.py:24-70 | empty input gives `None`; every result is a clean name: at least one `[a-z0-9.-]` followed by `.ch`, at most two dots |
| `Crtsh.CleanNameHasNoJunk` | backend/fetch_crtsh.py:38-68 | a clean name ends in `.ch`, has no `*`, `/`, `:`, whitespace or upper case, and at most three labels |
| `Crtsh.ValidateClean` | backend/fetch_crtsh.py:57-70 | validation accepts exactly the clean names |
| `Crtsh.Normalise` | backend/fetch_crtsh.py:38-55 | the reference definition of the stages before validation: strip, lower, wildcard, scheme, path and port, strip |
| `Crtsh.UnstarPlain` | backend/fetch_crtsh.py:38-42 | stripping, lower-casing and wildcard removal leave a plain name unchanged |
| `Crtsh.PlainNameUnchanged` | backend/fetch_crtsh.py:38-55 | the whole normalisation leaves a name without `*`, `/`, `:`, whitespace or upper case unchanged |
| `Crtsh.CleanNameIsKept` | backend/fetch_crtsh.py:24-70 | a clean name is its own cleaning |
| `Crtsh.CleanDomainFixpoint` | backend/fetch_crtsh.py:24-70 | a name is its own cleaning exactly when it is a clean name |
| `Crtsh.CleanDomainIdempotent` | backend/fetch_crtsh.py:24-70 | cleaning a cleaned name gives it back |
| `Crtsh.WildcardPortAndPath` | backend/fetch_crtsh.py:38-70 | " *.Foo.CH:443/x" cleans to "foo.ch" |
| `Crtsh.SchemeAndPath` | backend/fetch_crtsh.py:38-70 | "https://www.a.ch/p" cleans to "www.a.ch" |
| `Crtsh.TooDeep` | backend/fetch_crtsh.py:66-68 | "a.b.c.ch" has four labels and is rejected |
| `Crtsh.Chosen` | backend/fetch_crtsh.py:122 | `name_value` when truthy, otherwise `common_name`, each defaulting to "" |
| `Crtsh.PieceDomains` | backend/fetch_crtsh.py:125-128 | the reference definition of the inner loop's set: the cleaning of every newline-separated piece that cleans |
| `Crtsh.AddPieceDomains` | backend/fetch_crtsh.py:125-128 | the inner loop adds the cleaning of every piece that cleans |
| `Crtsh.ExtractDomains` | backend/fetch_crtsh.py:117-137 | the loop's set, and whether it ran to the end or stopped at a non-string field |
| `Crtsh.Harvest` | backend/fetch_crtsh.py:117-137 | the reference definition of the extraction loop: the set collected and whether the loop ran to the end |
| `Crtsh.HarvestProvenance` | backend/fetch_crtsh.py:117-128 | every collected domain is the cleaning of a newline-separated piece of an object entry's chosen field |
| `Crtsh.HarvestCompleteness` | backend/fetch_crtsh.py:117-128 | when the loop runs to the end, every piece that cleans is collected |
| `Crtsh.HarvestIsClean` | backend/fetch_crtsh.py:117-128 | every collected domain is a clean name |
| `Crtsh.NotObjectsIgnored` | backend/fetch_crtsh.py:118-119 | an entry that is not an object contributes nothing, wherever it stands |
| `ZoneTransfer.DropOnlyDotSuffix` | backend/fetch_ch_domains.py:58-60 | for a one-dot name ending in `.zone`, the replace leaves the label before the dot |
| `ZoneTransfer.BlankOrCommentSkipped` | backend/fetch_ch_domains.py:50-52 | blank and `;` lines give no name |
| `ZoneTransfer.AxfrName` | backend/fetch_ch_domains.py:50-62 | the reference definition of what one line of `dig` output contributes |
| `ZoneTransfer.AxfrNameIsOwnerName` | backend/fetch_ch_domains.py:50-62 | a line gives a name exactly when it is neither blank nor a comment and its first field without trailing dots ends in `.zone`, has one dot, a non-empty label not starting with `_`; the name given is that field |
| `ZoneTransfer.NamesOf` | backend/fetch_ch_domains.py:46-62 | the reference definition of the set `domains` the loop builds: the name given by each line |
| `ZoneTransfer.NamesOfMembers` | backend/fetch_ch_domains.py:49-62 | a name is collected exactly when some line gives it |
| `ZoneTransfer.NamesOfQualify` | backend/fetch_ch_domains.py:49-62 | every collected name qualifies and is the normalised first field of some line |
| `StringOrder.SortedFromSet` | backend/fetch_ch_domains.py:66 | `sorted(list(s))`: strictly ascending, with exactly the members of the set |
| `ZoneTransfer.ParseAxfrAnswer` | backend/fetch_ch_domains.py:46-69 | `None` exactly when no line gives a name; otherwise the strictly ascending list of exactly the collected names |
| `ZoneTransfer.TryAxfrTransfer` | backend/fetch_ch_domains.py:12-80 | a failed `dig` gives `None`; otherwise the parse of its output, never an empty list |
| `ZoneTransfer.FirstAnswering` | backend/fetch_ch_domains.py:104-108 | the first server, in list order, whose answer holds a name; all servers before it gave none |
| `ZoneTransfer.AskInTurn` | backend/fetch_ch_domains.py:104-111 | the list of the first server whose answer holds a name, the servers asked up to it, or `None` after asking all |
| `ZoneTransfer.TryAlternativeSources` | backend/fetch_ch_domains.py:83-111 | the same over the eight `nic.ch` servers for zone `ch` |

## Left out

- **Network.** The HEAD and partial GET, their timeouts, redirects, the semaphore and the connection limits are out. They are network I/O and concurrency, replaced by the `probe` parameter.
- **Latency.** The latency measurement is out: it is wall-clock time.
- **Body decoding.** UTF-8 decoding with `errors='ignore'` is out. The body arrives as a decoded string.
- **The database.** `db.add_scan` is an opaque sink. The decision `Persist` carries its arguments except the latency. An exception raised inside `add_scan`, or inside the scoring, would make the source fall through to the next scheme. So would an exception raised by the `print` after it (for example `✓` on a console that cannot encode it): after an `https` record was already persisted, the source goes on to try `http`. These paths are not modelled: the scorer and the sink are total here, and the database and the console are not part of this model.
- **Other files.** backend/api.py and backend/config.py are not part of this model. The threshold is a parameter.
- **Console and command line.** `print`, `argparse`, `main`, `generate_sample_domains` and `save_domains_to_file` are out: they are console and file output.
- **Running `dig`.** Running `dig` (`subprocess.run`, its timeout, a missing binary) is out. All of these are the single outcome `DigFailed`.
- **Fetching crt.sh.** The HTTP status test, the JSON decoding and the non-list answer of `fetch_crtsh_year` are out (backend/fetch_crtsh.py:98-115): they are I/O. The model starts from the decoded list of entries.
- **Reading files.** Opening files is out: a file is given as its lines, or as absent or unreadable. `scan_domains_from_file` catches only `FileNotFoundError` (backend/scan_ch_sites.py:188): any other error opening or reading the file propagates to its caller, which the model, where an absent file simply scans nothing, does not show.
- `Text.Lower`: models ASCII lower-casing only. Python's `str.lower` also maps other upper-case letters, some to ASCII (the Kelvin sign U+212A becomes `k`), so a name with such characters could be cleaned differently.
- `Scoring.LowerKeys`: header pairs are taken in the order `dict(resp.headers)` yields them. How that dict merges repeated response headers is left to the caller of the model.
- `Scoring.ScoreWordPress`: the version text in the reason is Python's float rendering only for plain versions (leading zeros of the major part and trailing zeros of the fraction dropped). Exponent renderings (versions below 0.0001, e.g. 0.00001 → 1e-05) and rounded renderings of long fractions are not modelled; the score is exact.
- `Scoring.WordPressVersion`: `\d` is the ASCII digits `0`–`9`. In Python 3, `\d` in a `str` pattern also matches every other Unicode decimal digit (fullwidth `３`, Arabic-Indic `٣`), and `float` accepts them, so a body with such a version fires the rule in the source and not in the model, and a later ASCII match can be picked in place of the leftmost non-ASCII one.
- `ZoneTransfer.TryAxfrTransfer`: the `dig` command line and the default name server are not modelled. Only what `dig` printed, or its failure, is.

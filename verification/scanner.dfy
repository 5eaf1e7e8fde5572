/**
  The per-domain decision of `scan_domain` (backend/scan_ch_sites.py): try
  `https`, then `http`, stop at the first scheme whose requests succeed, add
  the no-HTTPS penalty for a plain-HTTP site, and hand the record to the
  database only when the final score reaches the threshold.

  The network is a parameter: `probe(scheme)` is what the HEAD and partial
  GET on `scheme://domain` produce, either an exception (`Fail`) or the
  status, the response headers and the decoded body sample.
 */
module Scanner {
  import opened Text
  import opened Scoring
  import ScoringFacts

  datatype Scheme = Https | Http

  /** `for scheme in ['https', 'http']` */
  const Schemes: seq<Scheme> := [Https, Http]

  datatype Outcome = Fail | Ok(status: int, headers: Headers, body: string)

  /** The arguments of `db.add_scan`, without the latency. */
  datatype ScanRecord = ScanRecord(
    domain: string, httpCode: int, headersText: string, bodySample: string, score: nat, reasons: string)

  datatype Decision =
    | Inaccessible
    | BelowThreshold(scheme: Scheme, score: nat)
    | Persist(scheme: Scheme, record: ScanRecord)

  const HttpPenalty: nat := 25
  const NoHttpsPrefix: string := "Pas de HTTPS; "

  /** `f"{k}: {v}"` */
  function HeaderLine(h: (string, string)): string
  {
    h.0 + ": " + h.1
  }

  function HeaderLines(headers: Headers): (r: seq<string>)
    ensures |r| == |headers|
    ensures forall i :: 0 <= i < |headers| ==> r[i] == HeaderLine(headers[i])
  {
    if headers == [] then [] else [HeaderLine(headers[0])] + HeaderLines(headers[1..])
  }

  /** `"\n".join(f"{k}: {v}" for k, v in headers.items())` */
  function HeadersText(headers: Headers): string
  {
    Join(HeaderLines(headers), "\n")
  }

  /** What `score_site` reports for one answer: the score and the reasons
      text. */
  function SiteScore(headers: Headers, body: string): (nat, string)
  {
    (StalenessScore(headers, body), ReasonsText(headers, body))
  }

  /** What happens once `scheme` has answered and `scored` is what the
      scorer made of the answer: the penalty for plain HTTP, then the
      threshold test. */
  function Judge(domain: string, scheme: Scheme, status: int, headers: Headers, body: string,
                 scored: (nat, string), threshold: int): Decision
  {
    var score := scored.0 + (if scheme == Http then HttpPenalty else 0);
    var reasons := (if scheme == Http then NoHttpsPrefix else "") + scored.1;
    if score >= threshold then
      Persist(scheme, ScanRecord(domain, status, HeadersText(headers), body, score, reasons))
    else
      BelowThreshold(scheme, score)
  }

  /** The decision reached by trying `schemes` in order, with `score` as the
      scorer. */
  function Decide(schemes: seq<Scheme>, domain: string, probe: Scheme -> Outcome,
                  score: (Headers, string) -> (nat, string), threshold: int): Decision
  {
    if schemes == [] then Inaccessible
    else
      match probe(schemes[0])
      case Fail => Decide(schemes[1..], domain, probe, score, threshold)
      case Ok(status, headers, body) => Judge(domain, schemes[0], status, headers, body, score(headers, body), threshold)
  }

  /** The schemes that are tried, in order: up to and including the first
      one that answers. */
  function Attempts(schemes: seq<Scheme>, probe: Scheme -> Outcome): seq<Scheme>
  {
    if schemes == [] then []
    else [schemes[0]] + (if probe(schemes[0]).Ok? then [] else Attempts(schemes[1..], probe))
  }

  /** The penalty and the threshold test, given what `score_site` returned. */
  method Verdict(domain: string, scheme: Scheme, status: int, headers: Headers, body: string,
                 score0: nat, reasons0: string, threshold: int) returns (d: Decision)
    ensures d == Judge(domain, scheme, status, headers, body, (score0, reasons0), threshold)
  {
    var score, reasons := score0, reasons0;
    if scheme == Http {
      score := score + HttpPenalty;
      reasons := NoHttpsPrefix + reasons;
    }
    if score >= threshold {
      d := Persist(scheme, ScanRecord(domain, status, HeadersText(headers), body, score, reasons));
    } else {
      d := BelowThreshold(scheme, score);
    }
  }

  /** One step of `Decide` and `Attempts` at position `i`. */
  lemma DecideStep(schemes: seq<Scheme>, i: nat, domain: string, probe: Scheme -> Outcome,
                   score: (Headers, string) -> (nat, string), threshold: int)
    requires i < |schemes|
    ensures probe(schemes[i]).Fail? ==>
      && Decide(schemes[i..], domain, probe, score, threshold) == Decide(schemes[i + 1..], domain, probe, score, threshold)
      && Attempts(schemes[i..], probe) == [schemes[i]] + Attempts(schemes[i + 1..], probe)
    ensures probe(schemes[i]).Ok? ==>
      var o := probe(schemes[i]);
      && Decide(schemes[i..], domain, probe, score, threshold) == Judge(domain, schemes[i], o.status, o.headers, o.body, score(o.headers, o.body), threshold)
      && Attempts(schemes[i..], probe) == [schemes[i]]
  {
    var rest := schemes[i..];
    assert rest[0] == schemes[i] && rest[1..] == schemes[i + 1..];
  }

  /** The loop of `scan_domain`, over any list of schemes and with any
      scorer standing for `score_site`. */
  method TryInOrder(schemes: seq<Scheme>, domain: string, probe: Scheme -> Outcome,
                    score: (Headers, string) -> (nat, string), threshold: int)
    returns (d: Decision, tried: seq<Scheme>)
    ensures d == Decide(schemes, domain, probe, score, threshold)
    ensures tried == Attempts(schemes, probe)
  {
    tried := [];
    for i := 0 to |schemes|
      invariant tried == schemes[..i]
      invariant Decide(schemes, domain, probe, score, threshold) == Decide(schemes[i..], domain, probe, score, threshold)
      invariant Attempts(schemes, probe) == tried + Attempts(schemes[i..], probe)
    {
      var scheme := schemes[i];
      tried := tried + [scheme];
      var outcome := probe(scheme);
      DecideStep(schemes, i, domain, probe, score, threshold);
      if outcome.Ok? {
        var scored := score(outcome.headers, outcome.body);
        d := Verdict(domain, scheme, outcome.status, outcome.headers, outcome.body, scored.0, scored.1, threshold);
        return;
      }
    }
    assert schemes[|schemes|..] == [];
    d := Inaccessible;
  }

  /** `scan_domain`: `https` then `http`, scored by `score_site` (the
      function `SiteScore`, which `Scoring.ScoreSite` computes). */
  method ScanDomain(domain: string, probe: Scheme -> Outcome, threshold: int) returns (d: Decision, tried: seq<Scheme>)
    ensures d == Decide(Schemes, domain, probe, SiteScore, threshold)
    ensures tried == Attempts(Schemes, probe)
  {
    d, tried := TryInOrder(Schemes, domain, probe, SiteScore, threshold);
  }

  // ---- what the decision promises, whatever the scorer ----

  /** `Decide` on the two schemes, written out. */
  lemma DecideSchemes(domain: string, probe: Scheme -> Outcome,
                      score: (Headers, string) -> (nat, string), threshold: int)
    ensures Decide(Schemes, domain, probe, score, threshold) ==
      match probe(Https)
      case Ok(s, h, b) => Judge(domain, Https, s, h, b, score(h, b), threshold)
      case Fail =>
        match probe(Http)
        case Ok(s, h, b) => Judge(domain, Http, s, h, b, score(h, b), threshold)
        case Fail => Inaccessible
  {
    var rest := Schemes[1..];
    assert rest == [Http] && rest[1..] == [];
    if probe(Https).Fail? {
      assert Decide(Schemes, domain, probe, score, threshold) == Decide(rest, domain, probe, score, threshold);
      if probe(Http).Fail? {
        assert Decide(rest, domain, probe, score, threshold) == Decide([], domain, probe, score, threshold);
      }
    }
  }

  /** `Attempts` on the two schemes, written out. */
  lemma AttemptsSchemes(probe: Scheme -> Outcome)
    ensures Attempts(Schemes, probe) == if probe(Https).Ok? then [Https] else [Https, Http]
  {
    assert Schemes[1..] == [Http];
    assert Schemes[1..][1..] == [];
  }

  /** `https` is always tried first, and `http` only after `https` failed. */
  lemma HttpsTriedFirst(probe: Scheme -> Outcome)
    ensures var tried := Attempts(Schemes, probe);
      && tried != [] && tried[0] == Https
      && (Http in tried <==> probe(Https).Fail?)
  {
    AttemptsSchemes(probe);
  }

  /** No scheme is tried after one that answered: every tried scheme but the
      last failed, and a decision other than `Inaccessible` was made with
      the last one. */
  lemma NothingTriedAfterSuccess(domain: string, probe: Scheme -> Outcome,
                                 score: (Headers, string) -> (nat, string), threshold: int)
    ensures var tried := Attempts(Schemes, probe);
      var d := Decide(Schemes, domain, probe, score, threshold);
      && (forall i :: 0 <= i < |tried| - 1 ==> probe(tried[i]).Fail?)
      && (!d.Inaccessible? ==> probe(tried[|tried| - 1]).Ok? && d.scheme == tried[|tried| - 1])
  {
    AttemptsSchemes(probe);
    DecideSchemes(domain, probe, score, threshold);
  }

  /** An `https` answer is judged on the scorer's own score and reasons. */
  lemma HttpsAnswer(domain: string, probe: Scheme -> Outcome,
                    score: (Headers, string) -> (nat, string), threshold: int)
    requires probe(Https).Ok?
    ensures var o := probe(Https);
      var (n, text) := score(o.headers, o.body);
      var d := Decide(Schemes, domain, probe, score, threshold);
      && Attempts(Schemes, probe) == [Https]
      && (n >= threshold ==> d == Persist(Https, ScanRecord(domain, o.status, HeadersText(o.headers), o.body, n, text)))
      && (n < threshold ==> d == BelowThreshold(Https, n))
  {
  }

  /** A plain-HTTP answer, after `https` failed, costs 25 points and is
      reported with the `Pas de HTTPS; ` prefix. */
  lemma HttpFallbackAnswer(domain: string, probe: Scheme -> Outcome,
                           score: (Headers, string) -> (nat, string), threshold: int)
    requires probe(Https).Fail? && probe(Http).Ok?
    ensures var o := probe(Http);
      var (n, text) := score(o.headers, o.body);
      var d := Decide(Schemes, domain, probe, score, threshold);
      && Attempts(Schemes, probe) == [Https, Http]
      && (n + 25 >= threshold ==>
            d == Persist(Http, ScanRecord(domain, o.status, HeadersText(o.headers), o.body, n + 25, "Pas de HTTPS; " + text)))
      && (n + 25 < threshold ==> d == BelowThreshold(Http, n + 25))
  {
    AttemptsSchemes(probe);
    DecideSchemes(domain, probe, score, threshold);
  }

  /** A domain is inaccessible exactly when both schemes fail. */
  lemma InaccessibleIffBothFail(domain: string, probe: Scheme -> Outcome,
                                score: (Headers, string) -> (nat, string), threshold: int)
    ensures Decide(Schemes, domain, probe, score, threshold) == Inaccessible <==> probe(Https).Fail? && probe(Http).Fail?
  {
    DecideSchemes(domain, probe, score, threshold);
  }

  /** Once a scheme has answered, a record is persisted exactly when the
      final score of that answer, penalty included, reaches the threshold;
      otherwise the score that fell short is reported. */
  lemma PersistIffThreshold(domain: string, probe: Scheme -> Outcome,
                            score: (Headers, string) -> (nat, string), threshold: int)
    ensures var d := Decide(Schemes, domain, probe, score, threshold);
      && (d.Persist? ==> d.record.score >= threshold && d.record.domain == domain)
      && (d.BelowThreshold? ==> d.score < threshold)
    ensures var d := Decide(Schemes, domain, probe, score, threshold);
      var o := probe(Https);
      o.Ok? ==> (d.Persist? <==> score(o.headers, o.body).0 >= threshold)
    ensures var d := Decide(Schemes, domain, probe, score, threshold);
      var o := probe(Http);
      probe(Https).Fail? && o.Ok? ==> (d.Persist? <==> score(o.headers, o.body).0 + HttpPenalty >= threshold)
  {
    DecideSchemes(domain, probe, score, threshold);
  }

  // ---- with `score_site` as the scorer ----

  /** A persisted score is at most the scorer's maximum plus the penalty. */
  lemma PersistedScoreBound(domain: string, probe: Scheme -> Outcome, threshold: int)
    ensures var d := Decide(Schemes, domain, probe, SiteScore, threshold);
      d.Persist? ==> d.record.score <= MaxScore + HttpPenalty
  {
    DecideSchemes(domain, probe, SiteScore, threshold);
    match probe(Https)
    case Ok(_, h, b) =>
      ScoringFacts.EvaluateBounds(h, b);
    case Fail =>
      match probe(Http)
      case Ok(_, h, b) =>
        ScoringFacts.EvaluateBounds(h, b);
      case Fail =>
  }

  /** A bare plain-HTTP answer, with no headers and no body: the prefix
      stands in front of the one reason the scorer reports. */
  lemma HttpPrefixOnBareAnswer(domain: string, probe: Scheme -> Outcome)
    requires probe(Https).Fail? && probe(Http) == Ok(200, [], [])
    ensures var d := Decide(Schemes, domain, probe, SiteScore, 0);
      && d.Persist? && d.scheme == Http
      && d.record.score == 35 && d.record.reasons == NoHttpsPrefix + "Manque 4/4 headers de sécurité"
  {
    BareAnswerScore();
    HttpFallbackAnswer(domain, probe, SiteScore, 0);
  }

  lemma BareAnswerScore()
    ensures SiteScore([], []) == (10, "Manque 4/4 headers de sécurité")
  {
    ScoringFacts.NoHeadersEmptyBody();
  }

  /** For a non-empty header list whose names and values hold no line feed,
      the serialised headers give back one `k: v` line per header. (An empty
      list serialises to "", which splits to one empty line.) */
  lemma HeadersTextLines(headers: Headers)
    requires headers != []
    requires forall i :: 0 <= i < |headers| ==> '\n' !in headers[i].0 && '\n' !in headers[i].1
    ensures Split(HeadersText(headers), '\n') == HeaderLines(headers)
  {
    var lines := HeaderLines(headers);
    assert '\n' !in ": ";
    forall k | 0 <= k < |lines|
      ensures '\n' !in lines[k]
    {
      assert lines[k] == headers[k].0 + ": " + headers[k].1;
    }
    SplitJoin(lines, '\n');
  }
}

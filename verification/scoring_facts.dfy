/**
  What `score_site` promises about its result, proved of `Scoring.Evaluate`:
  the score is the sum of the weights of the reasons it reports, it is at
  most 255 with at most eighteen reasons, header names are compared without
  regard to case, the placeholder text appears exactly when no rule fires,
  the security rule counts the missing headers, and the WordPress rule
  compares the parsed version as a double.
 */
module ScoringFacts {
  import opened Wrappers
  import opened Text
  import opened Scoring

  // ---- the score is the sum of the reasons' weights ----

  /** The weight of the rule that reports `r`, read off the reason's fixed
      opening words. */
  function ReasonWeight(r: string): nat
  {
    if r == [] then 0
    else if r[0] == 'A' then
      if "Apache ancien (" <= r then 15 else if r == "ASP.NET classique" then 10 else 0
    else if r[0] == 'I' then
      if "IIS ancien (" <= r then 15 else 0
    else if r[0] == 'P' then
      if "PHP très ancien (" <= r then 20
      else if "PHP 5.x ancien (" <= r then 15
      else if r == "Pas de meta viewport" then 5
      else 0
    else if r[0] == 'X' then
      if "X-Powered-By PHP ancien (" <= r then 20
      else if "X-Powered-By PHP 5.x (" <= r then 15
      else 0
    else if r[0] == 'C' then
      if "Charset ancien (" <= r then 15 else 0
    else if r[0] == 'D' then
      if r == "DOCTYPE HTML 4" then 20 else if r == "DOCTYPE XHTML 1.0" then 15 else 0
    else if r[0] == 'M' then
      if r == "Meta charset ISO-8859" then 15 else if "Manque " <= r then 10 else 0
    else if r[0] == 'B' then
      if "Balise obsolète: " <= r then 10 else 0
    else if r[0] == 'N' then
      if r == "Nombreux styles inline" then 5 else 0
    else if r[0] == 'J' then
      if r == "Joomla! ancien" then 15 else 0
    else if r[0] == 'W' then
      if "WordPress ancien (" <= r then 15 else 0
    else if r[0] == 'G' then
      if "Générateur ancien: " <= r then 20 else 0
    else 0
  }

  function SumWeights(rs: seq<string>): nat
  {
    if rs == [] then 0 else SumWeights(rs[..|rs| - 1]) + ReasonWeight(rs[|rs| - 1])
  }

  /** Every reason accumulated so far is one of the rules' reasons, and the
      score is the sum of their weights. */
  predicate Consistent(t: Tally)
  {
    && t.score == SumWeights(t.reasons)
    && forall i :: 0 <= i < |t.reasons| ==> ReasonWeight(t.reasons[i]) > 0
  }

  lemma AddConsistent(t: Tally, fires: bool, weight: nat, reason: string)
    requires Consistent(t)
    requires fires ==> ReasonWeight(reason) == weight > 0
    ensures Consistent(Add(t, fires, weight, reason))
  {
    if fires {
      var rs := t.reasons + [reason];
      assert rs[..|t.reasons|] == t.reasons;
      assert SumWeights(rs) == t.score + weight;
      forall i | 0 <= i < |rs|
        ensures ReasonWeight(rs[i]) > 0
      {
        if i < |t.reasons| {
          assert rs[i] == t.reasons[i];
        }
      }
    }
  }

  // Where two reasons open with the same letter, the character that tells
  // them apart.

  lemma Php5Weight(v: string)
    ensures ReasonWeight("PHP 5.x ancien (" + v + ")") == 15
  {
    assert ("PHP 5.x ancien (" + v + ")")[4] != "PHP très ancien ("[4];
  }

  lemma PoweredByPhp5Weight(v: string)
    ensures ReasonWeight("X-Powered-By PHP 5.x (" + v + ")") == 15
  {
    assert ("X-Powered-By PHP 5.x (" + v + ")")[17] != "X-Powered-By PHP ancien ("[17];
  }

  lemma AspNetWeight()
    ensures ReasonWeight("ASP.NET classique") == 10
  {
    assert "ASP.NET classique"[1] != "Apache ancien ("[1];
  }

  lemma ViewportWeight()
    ensures ReasonWeight("Pas de meta viewport") == 5
  {
    assert "Pas de meta viewport"[1] != "PHP très ancien ("[1];
    assert "Pas de meta viewport"[1] != "PHP 5.x ancien ("[1];
  }

  lemma DoctypeWeights()
    ensures ReasonWeight("DOCTYPE HTML 4") == 20
    ensures ReasonWeight("DOCTYPE XHTML 1.0") == 15
    ensures ReasonWeight("Meta charset ISO-8859") == 15
  {
    assert "DOCTYPE XHTML 1.0"[8] != "DOCTYPE HTML 4"[8];
  }

  lemma ServerRulesConsistent(t: Tally, server: string)
    requires Consistent(t)
    ensures Consistent(ServerRules(t, server))
  {
    var t1 := Add(t, OldApache(server), 15, "Apache ancien (" + server + ")");
    AddConsistent(t, OldApache(server), 15, "Apache ancien (" + server + ")");
    var t2 := Add(t1, OldIis(server), 15, "IIS ancien (" + server + ")");
    AddConsistent(t1, OldIis(server), 15, "IIS ancien (" + server + ")");
    var t3 := Add(t2, VeryOldPhp(server), 20, "PHP très ancien (" + server + ")");
    AddConsistent(t2, VeryOldPhp(server), 20, "PHP très ancien (" + server + ")");
    Php5Weight(server);
    AddConsistent(t3, OldPhp5(server), 15, "PHP 5.x ancien (" + server + ")");
  }

  lemma PoweredByRulesConsistent(t: Tally, powered: string)
    requires Consistent(t)
    ensures Consistent(PoweredByRules(t, powered))
  {
    var t1 := Add(t, VeryOldPhp(powered), 20, "X-Powered-By PHP ancien (" + powered + ")");
    AddConsistent(t, VeryOldPhp(powered), 20, "X-Powered-By PHP ancien (" + powered + ")");
    var t2 := Add(t1, OldPhp5(powered), 15, "X-Powered-By PHP 5.x (" + powered + ")");
    PoweredByPhp5Weight(powered);
    AddConsistent(t1, OldPhp5(powered), 15, "X-Powered-By PHP 5.x (" + powered + ")");
    AspNetWeight();
    AddConsistent(t2, Contains(powered, "asp.net"), 10, "ASP.NET classique");
  }

  lemma HeaderRulesConsistent(t: Tally, hl: map<string, string>)
    requires Consistent(t)
    ensures Consistent(HeaderRules(t, hl))
  {
    var contentType := Lower(Get(hl, "content-type"));
    var t1 := ServerRules(t, Lower(Get(hl, "server")));
    ServerRulesConsistent(t, Lower(Get(hl, "server")));
    var t2 := PoweredByRules(t1, Lower(Get(hl, "x-powered-by")));
    PoweredByRulesConsistent(t1, Lower(Get(hl, "x-powered-by")));
    AddConsistent(t2, OldCharset(contentType), 15, "Charset ancien (" + contentType + ")");
  }

  lemma DoctypeRulesConsistent(t: Tally, bl: string)
    requires Consistent(t)
    ensures Consistent(DoctypeRules(t, bl))
  {
    DoctypeWeights();
    var t1 := Add(t, Contains(bl, "<!doctype html public \"-//w3c//dtd html 4"), 20, "DOCTYPE HTML 4");
    AddConsistent(t, Contains(bl, "<!doctype html public \"-//w3c//dtd html 4"), 20, "DOCTYPE HTML 4");
    var t2 := Add(t1, Contains(bl, "<!doctype html public \"-//w3c//dtd xhtml 1.0"), 15, "DOCTYPE XHTML 1.0");
    AddConsistent(t1, Contains(bl, "<!doctype html public \"-//w3c//dtd xhtml 1.0"), 15, "DOCTYPE XHTML 1.0");
    AddConsistent(t2, MetaCharsetIn(bl), 15, "Meta charset ISO-8859");
  }

  lemma LayoutRulesConsistent(t: Tally, bl: string)
    requires Consistent(t)
    ensures Consistent(LayoutRules(t, bl))
  {
    var t1 := ObsoleteTagRule(t, bl);
    match FirstContained(ObsoleteTags, bl) {
      case None =>
      case Some(tag) => AddConsistent(t, true, 10, "Balise obsolète: " + tag);
    }
    var t2 := Add(t1, Count(bl, "style=") > 20, 5, "Nombreux styles inline");
    AddConsistent(t1, Count(bl, "style=") > 20, 5, "Nombreux styles inline");
    ViewportWeight();
    AddConsistent(t2, !Contains(bl, "viewport"), 5, "Pas de meta viewport");
  }

  lemma WordPressWeight(v: string)
    ensures ReasonWeight("WordPress ancien (" + v + ")") == 15
  {
  }

  lemma GeneratorWeight(v: string)
    ensures ReasonWeight("Générateur ancien: " + v) == 20
  {
  }

  lemma WordPressRuleConsistent(t: Tally, bl: string)
    requires Consistent(t)
    ensures Consistent(WordPressRule(t, bl))
  {
    if Contains(bl, "wordpress") {
      match WordPressVersion(bl)
      case None =>
      case Some(v) =>
        WordPressWeight(VersionText(v));
        AddConsistent(t, FloatBelowFour(v), 15, "WordPress ancien (" + VersionText(v) + ")");
    }
  }

  lemma GeneratorRuleConsistent(t: Tally, bl: string)
    requires Consistent(t)
    ensures Consistent(GeneratorRule(t, bl))
  {
    match Generator(bl)
    case None =>
    case Some(g) =>
      GeneratorWeight(Lower(g));
      AddConsistent(t, OldGenerator(Lower(g)), 20, "Générateur ancien: " + Lower(g));
  }

  lemma CmsRulesConsistent(t: Tally, bl: string)
    requires Consistent(t)
    ensures Consistent(CmsRules(t, bl))
  {
    var t1 := Add(t, Contains(bl, "joomla! 1.") || Contains(bl, "joomla! 2."), 15, "Joomla! ancien");
    AddConsistent(t, Contains(bl, "joomla! 1.") || Contains(bl, "joomla! 2."), 15, "Joomla! ancien");
    WordPressRuleConsistent(t1, bl);
    GeneratorRuleConsistent(WordPressRule(t1, bl), bl);
  }

  lemma BodyRulesConsistent(t: Tally, body: string)
    requires Consistent(t)
    ensures Consistent(BodyRules(t, body))
  {
    if body != [] {
      var bl := Lower(body);
      DoctypeRulesConsistent(t, bl);
      LayoutRulesConsistent(DoctypeRules(t, bl), bl);
      CmsRulesConsistent(LayoutRules(DoctypeRules(t, bl), bl), bl);
    }
  }

  lemma EvaluateConsistent(headers: Headers, body: string)
    ensures Consistent(Evaluate(headers, body))
  {
    var hl := LowerKeys(headers);
    var t1 := HeaderRules(Tally(0, []), hl);
    HeaderRulesConsistent(Tally(0, []), hl);
    var t2 := BodyRules(t1, body);
    BodyRulesConsistent(t1, body);
    var missing := CountMissing(SecurityHeaders, hl);
    AddConsistent(t2, missing >= 3, 10, "Manque " + NatToString(missing) + "/4 headers de sécurité");
  }

  /** The score `score_site` returns is the sum of the weights of the
      reasons it reports, and each reason is one of the rules' reasons. */
  lemma ScoreIsSumOfReasonWeights(headers: Headers, body: string)
    ensures Evaluate(headers, body).score == SumWeights(Evaluate(headers, body).reasons)
    ensures forall r :: r in Evaluate(headers, body).reasons ==> ReasonWeight(r) > 0
  {
    EvaluateConsistent(headers, body);
  }

  // ---- bounds ----

  /** From `t` to `u` the score grows by at most `w` and at most `n`
      reasons are appended. */
  predicate Grows(t: Tally, u: Tally, w: nat, n: nat)
  {
    && t.score <= u.score <= t.score + w
    && t.reasons <= u.reasons
    && |u.reasons| <= |t.reasons| + n
  }

  lemma AddGrows(t: Tally, fires: bool, weight: nat, reason: string)
    ensures Grows(t, Add(t, fires, weight, reason), weight, 1)
  {
  }

  lemma GrowsTrans(t: Tally, u: Tally, v: Tally, w1: nat, n1: nat, w2: nat, n2: nat)
    requires Grows(t, u, w1, n1) && Grows(u, v, w2, n2)
    ensures Grows(t, v, w1 + w2, n1 + n2)
  {
  }

  lemma ServerRulesGrow(t: Tally, server: string)
    ensures Grows(t, ServerRules(t, server), 65, 4)
  {
  }

  lemma PoweredByRulesGrow(t: Tally, powered: string)
    ensures Grows(t, PoweredByRules(t, powered), 45, 3)
  {
  }

  lemma HeaderRulesGrow(t: Tally, hl: map<string, string>)
    ensures Grows(t, HeaderRules(t, hl), 125, 8)
  {
    var contentType := Lower(Get(hl, "content-type"));
    var t1 := ServerRules(t, Lower(Get(hl, "server")));
    var t2 := PoweredByRules(t1, Lower(Get(hl, "x-powered-by")));
    ServerRulesGrow(t, Lower(Get(hl, "server")));
    PoweredByRulesGrow(t1, Lower(Get(hl, "x-powered-by")));
    GrowsTrans(t, t1, t2, 65, 4, 45, 3);
    AddGrows(t2, OldCharset(contentType), 15, "Charset ancien (" + contentType + ")");
    GrowsTrans(t, t2, HeaderRules(t, hl), 110, 7, 15, 1);
  }

  lemma DoctypeRulesGrow(t: Tally, bl: string)
    ensures Grows(t, DoctypeRules(t, bl), 50, 3)
  {
  }

  lemma LayoutRulesGrow(t: Tally, bl: string)
    ensures Grows(t, LayoutRules(t, bl), 20, 3)
  {
  }

  lemma CmsRulesGrow(t: Tally, bl: string)
    ensures Grows(t, CmsRules(t, bl), 50, 3)
  {
  }

  lemma BodyRulesGrow(t: Tally, body: string)
    ensures Grows(t, BodyRules(t, body), 120, 9)
  {
    if body != [] {
      var bl := Lower(body);
      var t1 := DoctypeRules(t, bl);
      var t2 := LayoutRules(t1, bl);
      DoctypeRulesGrow(t, bl);
      LayoutRulesGrow(t1, bl);
      CmsRulesGrow(t2, bl);
      GrowsTrans(t, t1, t2, 50, 3, 20, 3);
      GrowsTrans(t, t2, CmsRules(t2, bl), 70, 6, 50, 3);
    }
  }

  lemma SecurityRuleGrow(t: Tally, hl: map<string, string>)
    ensures Grows(t, SecurityRule(t, hl), 10, 1)
  {
    var missing := CountMissing(SecurityHeaders, hl);
    AddGrows(t, missing >= 3, 10, "Manque " + NatToString(missing) + "/4 headers de sécurité");
  }

  /** At most 255 points and eighteen reasons. */
  lemma EvaluateBounds(headers: Headers, body: string)
    ensures Evaluate(headers, body).score <= MaxScore
    ensures |Evaluate(headers, body).reasons| <= 18
  {
    var hl := LowerKeys(headers);
    var t0 := Tally(0, []);
    var t1 := HeaderRules(t0, hl);
    var t2 := BodyRules(t1, body);
    HeaderRulesGrow(t0, hl);
    BodyRulesGrow(t1, body);
    GrowsTrans(t0, t1, t2, 125, 8, 120, 9);
    SecurityRuleGrow(t2, hl);
    GrowsTrans(t0, t2, SecurityRule(t2, hl), 245, 17, 10, 1);
  }

  // ---- header names are compared without regard to case ----

  /** Two header lists that differ only in the case of their names. */
  predicate SameButCase(h1: Headers, h2: Headers)
  {
    && |h1| == |h2|
    && forall i :: 0 <= i < |h1| ==> Lower(h1[i].0) == Lower(h2[i].0) && h1[i].1 == h2[i].1
  }

  lemma {:induction false} LowerKeysIgnoreCase(h1: Headers, h2: Headers)
    requires SameButCase(h1, h2)
    ensures LowerKeys(h1) == LowerKeys(h2)
  {
    if h1 != [] {
      LowerKeysIgnoreCase(h1[..|h1| - 1], h2[..|h2| - 1]);
    }
  }

  /** The lower-cased map holds a name only when some header has it, with
      the value of the last such header `i`. */
  lemma {:induction false} LowerKeysLastWins(h: Headers, k: string) returns (i: int)
    ensures k !in LowerKeys(h) ==> forall j :: 0 <= j < |h| ==> Lower(h[j].0) != k
    ensures k in LowerKeys(h) ==> 0 <= i < |h| && Lower(h[i].0) == k && LowerKeys(h)[k] == h[i].1
    ensures k in LowerKeys(h) ==> forall j :: i < j < |h| ==> Lower(h[j].0) != k
  {
    i := -1;
    if h != [] {
      var n := |h| - 1;
      var init := h[..n];
      var i0 := LowerKeysLastWins(init, k);
      assert forall j :: 0 <= j < n ==> init[j] == h[j];
      i := if Lower(h[n].0) == k then n else i0;
    }
  }

  lemma CaseInsensitiveHeaders(h1: Headers, h2: Headers, body: string)
    requires SameButCase(h1, h2)
    ensures Evaluate(h1, body) == Evaluate(h2, body)
  {
    LowerKeysIgnoreCase(h1, h2);
  }

  // ---- the reasons text ----

  lemma NoReasonStartsThePlaceholder(r: string)
    requires ReasonWeight(r) > 0
    ensures !(r <= Placeholder)
  {
    assert Placeholder[0] == 'A' && Placeholder[1] == 'u';
    if r[0] == 'A' {
      assert |r| >= 2 && (r[1] == 'p' || r[1] == 'S');
    }
  }

  /** The placeholder text is reported exactly when no rule fires. */
  lemma PlaceholderIffNoReasons(headers: Headers, body: string)
    ensures ReasonsText(headers, body) == Placeholder <==> Evaluate(headers, body).reasons == []
  {
    var rs := Evaluate(headers, body).reasons;
    if rs != [] {
      EvaluateConsistent(headers, body);
      JoinStartsWithFirst(rs, "; ");
      NoReasonStartsThePlaceholder(rs[0]);
    }
  }

  // ---- the security-header rule ----

  lemma {:induction false} CountMissingIsCardinality(keys: seq<string>, hl: map<string, string>)
    requires forall i, j :: 0 <= i < j < |keys| ==> keys[i] != keys[j]
    ensures CountMissing(keys, hl) == |set k | k in keys && k !in hl|
  {
    if keys != [] {
      CountMissingIsCardinality(keys[1..], hl);
      var rest := set k | k in keys[1..] && k !in hl;
      var all := set k | k in keys && k !in hl;
      if keys[0] in hl {
        assert all == rest;
      } else {
        assert all == rest + {keys[0]};
        assert keys[0] !in rest;
      }
    }
  }

  /** The security rule fires exactly when at least three of the four
      headers are missing, and its reason says how many. */
  lemma SecurityRuleFires(t: Tally, hl: map<string, string>)
    ensures var missing := |set k | k in SecurityHeaders && k !in hl|;
      SecurityRule(t, hl) ==
        if missing >= 3 then Tally(t.score + 10, t.reasons + ["Manque " + NatToString(missing) + "/4 headers de sécurité"])
        else t
  {
    CountMissingIsCardinality(SecurityHeaders, hl);
  }

  // ---- the obsolete-tag rule ----

  /** The rule names the first tag of the list that the body holds, and adds
      10 points and that one reason. */
  lemma ObsoleteTagRuleNamesFirst(t: Tally, bl: string, i: nat)
    requires i < |ObsoleteTags| && Contains(bl, ObsoleteTags[i])
    requires forall j :: 0 <= j < i ==> !Contains(bl, ObsoleteTags[j])
    ensures ObsoleteTagRule(t, bl) == Tally(t.score + 10, t.reasons + ["Balise obsolète: " + ObsoleteTags[i]])
  {
    FirstContainedAt(ObsoleteTags, bl, i);
  }

  /** A body without any of the tags leaves the tally as it is. */
  lemma ObsoleteTagRuleSilent(t: Tally, bl: string)
    requires forall j :: 0 <= j < |ObsoleteTags| ==> !Contains(bl, ObsoleteTags[j])
    ensures ObsoleteTagRule(t, bl) == t
  {
    FirstContainedNone(ObsoleteTags, bl);
  }

  // ---- the WordPress version ----

  /** For a version whose fraction has at most fifteen digits, the double
      comparison with 4.0 is the comparison of the major number with 4. */
  lemma ShortVersionBelowFour(v: Version)
    requires IsDigits(v.major) && IsDigits(v.minor) && |v.minor| <= 15
    ensures FloatBelowFour(v) <==> DigitsValue(v.major) < 4
  {
    var f := DigitsValue(v.minor);
    var p := Pow10(|v.minor|);
    DigitsValueBound(v.minor);
    Pow10Monotone(|v.minor|, 15);
    assert Pow10(15) == 1000000000000000;
    if DigitsValue(v.major) == 3 {
      assert (p - f) * TwoPow52 >= TwoPow52;
    }
  }

  lemma {:induction false} AllNines(s: string)
    requires forall i :: 0 <= i < |s| ==> s[i] == '9'
    ensures IsDigits(s) && DigitsValue(s) == Pow10(|s|) - 1
  {
    if s != [] {
      AllNines(s[..|s| - 1]);
    }
  }

  lemma Pow10Sixteen()
    ensures Pow10(16) == 10000000000000000
  {
    assert Pow10(8) == 100000000;
  }

  /** "3.9999999999999999" parses to the double 4.0, so the WordPress rule
      does not fire for it. */
  lemma SixteenNinesIsNotOld()
    ensures !FloatBelowFour(Version("3", "9999999999999999"))
  {
    AllNines("9999999999999999");
    Pow10Sixteen();
  }

  // ---- examples ----

  lemma NoHeaderRuleFires()
    ensures HeaderRules(Tally(0, []), map[]) == Tally(0, [])
  {
  }

  lemma {:induction false} CountMissingAll(keys: seq<string>, hl: map<string, string>)
    requires forall i :: 0 <= i < |keys| ==> keys[i] !in hl
    ensures CountMissing(keys, hl) == |keys|
  {
    if keys != [] {
      CountMissingAll(keys[1..], hl);
    }
  }

  /** With none of the four headers, the security rule adds its weight and
      the reason "Manque 4/4 headers de sécurité". */
  lemma AllSecurityHeadersMissing(t: Tally, hl: map<string, string>)
    requires forall i :: 0 <= i < |SecurityHeaders| ==> SecurityHeaders[i] !in hl
    ensures SecurityRule(t, hl) == Tally(t.score + 10, t.reasons + ["Manque 4/4 headers de sécurité"])
  {
    CountMissingAll(SecurityHeaders, hl);
    assert NatToString(4) == "4";
    assert "Manque " + "4" + "/4 headers de sécurité" == "Manque 4/4 headers de sécurité";
  }

  /** No headers and no body: only the security rule fires. */
  lemma NoHeadersEmptyBody()
    ensures Evaluate([], "") == Tally(10, ["Manque 4/4 headers de sécurité"])
    ensures ReasonsText([], "") == "Manque 4/4 headers de sécurité"
  {
    assert LowerKeys([]) == map[];
    NoHeaderRuleFires();
    AllSecurityHeadersMissing(Tally(0, []), map[]);
  }
}

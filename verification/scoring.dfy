/**
  The staleness scorer of `score_site` (backend/scan_ch_sites.py).

  A response's headers and body sample are checked against eighteen fixed
  rules in a fixed order; each rule that fires adds a positive weight to the
  score and one reason to the list. `Evaluate` is that evaluation on a
  `Tally`, one function per group of rules; `ScoreSite` is the scorer itself,
  accumulating the score and the reasons rule by rule as the source does, and
  is proved to return the tally of `Evaluate` with its reasons joined by "; ".
 */
module Scoring {
  import opened Wrappers
  import opened Text

  /** A response header map, as (name, value) pairs in insertion order. */
  type Headers = seq<(string, string)>

  /** The score and the reasons accumulated so far. */
  datatype Tally = Tally(score: nat, reasons: seq<string>)

  /** The reasons text when no rule fires. */
  const Placeholder: string := "Aucun critère d'ancienneté détecté"

  /** The sum of the weights of all eighteen rules. */
  const MaxScore: nat := 255

  const ObsoleteTags: seq<string> := ["<font", "<center", "<marquee", "<blink", "<frame"]

  const SecurityHeaders: seq<string> :=
    ["strict-transport-security", "x-frame-options", "x-content-type-options", "content-security-policy"]

  /** `{k.lower(): v for k, v in headers.items()}`: a later pair wins over an
      earlier one whose name has the same lower-case form. */
  function LowerKeys(h: Headers): map<string, string>
  {
    if h == [] then map[]
    else LowerKeys(h[..|h| - 1])[Lower(h[|h| - 1].0) := h[|h| - 1].1]
  }

  /** `m.get(k, '')` */
  function Get(m: map<string, string>, k: string): string
  {
    if k in m then m[k] else ""
  }

  /** The tally after one more rule: `score += weight; reasons.append(reason)`
      when it fires. */
  function Add(t: Tally, fires: bool, weight: nat, reason: string): Tally
  {
    if fires then Tally(t.score + weight, t.reasons + [reason]) else t
  }

  // ---- the header rules ----

  predicate OldApache(server: string)
  {
    Contains(server, "apache/1.") || Contains(server, "apache/2.0") || Contains(server, "apache/2.2")
  }

  predicate OldIis(server: string)
  {
    Contains(server, "iis/5") || Contains(server, "iis/6") || Contains(server, "iis/7")
  }

  predicate VeryOldPhp(v: string)
  {
    Contains(v, "php/4") || Contains(v, "php/5.0") || Contains(v, "php/5.1") || Contains(v, "php/5.2")
  }

  predicate OldPhp5(v: string)
  {
    Contains(v, "php/5.3") || Contains(v, "php/5.4") || Contains(v, "php/5.5")
  }

  predicate OldCharset(contentType: string)
  {
    Contains(contentType, "iso-8859") || Contains(contentType, "windows-1252")
  }

  /** The `Server` rules (lines 26 to 38). */
  function ServerRules(t: Tally, server: string): Tally
  {
    var t1 := Add(t, OldApache(server), 15, "Apache ancien (" + server + ")");
    var t2 := Add(t1, OldIis(server), 15, "IIS ancien (" + server + ")");
    var t3 := Add(t2, VeryOldPhp(server), 20, "PHP très ancien (" + server + ")");
    Add(t3, OldPhp5(server), 15, "PHP 5.x ancien (" + server + ")")
  }

  /** The `X-Powered-By` rules (lines 41 to 50). */
  function PoweredByRules(t: Tally, powered: string): Tally
  {
    var t1 := Add(t, VeryOldPhp(powered), 20, "X-Powered-By PHP ancien (" + powered + ")");
    var t2 := Add(t1, OldPhp5(powered), 15, "X-Powered-By PHP 5.x (" + powered + ")");
    Add(t2, Contains(powered, "asp.net"), 10, "ASP.NET classique")
  }

  /** The header rules (lines 26 to 56), on the lower-cased header map. */
  function HeaderRules(t: Tally, hl: map<string, string>): Tally
  {
    var contentType := Lower(Get(hl, "content-type"));
    var t1 := ServerRules(t, Lower(Get(hl, "server")));
    var t2 := PoweredByRules(t1, Lower(Get(hl, "x-powered-by")));
    Add(t2, OldCharset(contentType), 15, "Charset ancien (" + contentType + ")")
  }

  // ---- the regular expressions of the body rules ----

  datatype CharClass = Space | SlashOrSpace | Digit | NotQuote

  predicate IsQuote(c: char) { c == '"' || c == '\'' }

  predicate InClass(c: char, k: CharClass)
  {
    match k
    case Space => IsSpace(c)
    case SlashOrSpace => c == '/' || IsSpace(c)
    case Digit => IsDigit(c)
    case NotQuote => !IsQuote(c)
  }

  /** The length of the longest prefix of `t` in class `k`: what a greedy
      `[k]*` consumes. */
  function Span(t: string, k: CharClass): (n: nat)
    ensures n <= |t|
    ensures forall i :: 0 <= i < n ==> InClass(t[i], k)
    ensures n < |t| ==> !InClass(t[n], k)
  {
    if t != [] && InClass(t[0], k) then 1 + Span(t[1..], k) else 0
  }

  /** `re.match(r'charset\s*=\s*["\']?iso-8859', t)`. Each greedy `\s*` is
      followed by a character it cannot match, and a quote cannot start
      `iso-8859`, so no backtracking can succeed where the greedy reading fails. */
  predicate MetaCharsetAtStart(t: string)
  {
    if !("charset" <= t) then false
    else
      var a := t[7..];
      var a2 := a[Span(a, Space)..];
      if !("=" <= a2) then false
      else
        var b := a2[1..];
        var b2 := b[Span(b, Space)..];
        var c := if b2 != [] && IsQuote(b2[0]) then b2[1..] else b2;
        "iso-8859" <= c
  }

  /** `re.search(r'charset\s*=\s*["\']?iso-8859', t) is not None` */
  predicate MetaCharsetIn(t: string)
  {
    MetaCharsetAtStart(t) || (t != [] && MetaCharsetIn(t[1..]))
  }

  /** The two digit groups of `(\d+\.\d+)`. */
  datatype Version = Version(major: string, minor: string)

  predicate IsDigits(s: string) { forall i :: 0 <= i < |s| ==> IsDigit(s[i]) }

  /** `re.match(r'wordpress[/\s]+(\d+\.\d+)', t)` and its group. */
  function WordPressVersionAtStart(t: string): (r: Option<Version>)
    ensures r.Some? ==> IsDigits(r.value.major) && IsDigits(r.value.minor)
    ensures r.Some? ==> r.value.major != [] && r.value.minor != []
    ensures r.Some? ==> "wordpress" <= t
  {
    if !("wordpress" <= t) then None
    else
      var a := t[9..];
      var n1 := Span(a, SlashOrSpace);
      var b := a[n1..];
      var n2 := Span(b, Digit);
      if n1 == 0 || n2 == 0 || n2 == |b| || b[n2] != '.' then None
      else
        var c := b[n2 + 1..];
        var n3 := Span(c, Digit);
        if n3 == 0 then None else Some(Version(b[..n2], c[..n3]))
  }

  /** `re.search(r'wordpress[/\s]+(\d+\.\d+)', t)`: the leftmost match. */
  function WordPressVersion(t: string): (r: Option<Version>)
    ensures r.Some? ==> IsDigits(r.value.major) && IsDigits(r.value.minor)
    ensures r.Some? ==> r.value.major != [] && r.value.minor != []
  {
    match WordPressVersionAtStart(t)
    case Some(v) => Some(v)
    case None => if t == [] then None else WordPressVersion(t[1..])
  }

  /** The match `re.search` reports is the leftmost one: no match starts
      anywhere when there is none, and otherwise the one found starts at some
      position with no match starting before it. */
  lemma WordPressVersionLeftmost(t: string)
    ensures WordPressVersion(t).None? ==>
      forall i :: 0 <= i <= |t| ==> WordPressVersionAtStart(t[i..]).None?
    ensures WordPressVersion(t).Some? ==>
      exists i :: 0 <= i < |t| && WordPressVersionAtStart(t[i..]) == WordPressVersion(t)
        && forall j :: 0 <= j < i ==> WordPressVersionAtStart(t[j..]).None?
  {
    var at := WordPressVersionAtStart;
    var search := WordPressVersion;
    assert forall s :: search(s) == if at(s).Some? then at(s) else if s == [] then None else search(s[1..]);
    if search(t).None? {
      NoMatchAnywhere(t, at, search);
    } else {
      var i := LeftmostMatch(t, at, search);
      assert "wordpress" <= t[i..];
    }
  }

  /** A search that tries `at` on every suffix in turn finds nothing only
      when no suffix matches. */
  lemma {:induction false} NoMatchAnywhere<T>(t: string, at: string -> Option<T>, search: string -> Option<T>)
    requires forall s :: search(s) == if at(s).Some? then at(s) else if s == [] then None else search(s[1..])
    requires search(t).None?
    ensures forall i :: 0 <= i <= |t| ==> at(t[i..]).None?
  {
    assert t[0..] == t;
    if t != [] {
      var u := t[1..];
      NoMatchAnywhere(u, at, search);
      forall i | 1 <= i <= |t|
        ensures at(t[i..]).None?
      {
        assert t[i..] == u[i - 1..];
      }
    }
  }

  /** Otherwise what it finds is the match at the first suffix that matches. */
  lemma {:induction false} LeftmostMatch<T>(t: string, at: string -> Option<T>, search: string -> Option<T>)
    returns (i: nat)
    requires forall s :: search(s) == if at(s).Some? then at(s) else if s == [] then None else search(s[1..])
    requires search(t).Some?
    ensures i <= |t| && at(t[i..]) == search(t)
    ensures forall j :: 0 <= j < i ==> at(t[j..]).None?
  {
    assert t[0..] == t;
    if at(t).Some? {
      i := 0;
    } else {
      var u := t[1..];
      var k := LeftmostMatch(u, at, search);
      i := k + 1;
      assert t[i..] == u[k..];
      forall j | 1 <= j < i
        ensures at(t[j..]).None?
      {
        assert t[j..] == u[j - 1..];
      }
    }
  }

  /** 2^52: the spacing of doubles in [2, 4) is 2^-51. */
  const TwoPow52: nat := 4503599627370496

  /** `float(major + "." + minor) < 4.0`. Parsing rounds to the nearest double;
      a value in [3, 4) rounds up to 4.0 exactly when it is at least
      4 - 2^-52 (the tie goes to 4.0, whose last mantissa bit is even). */
  predicate FloatBelowFour(v: Version)
    requires IsDigits(v.major) && IsDigits(v.minor)
  {
    var m := DigitsValue(v.major);
    var f := DigitsValue(v.minor);
    var p := Pow10(|v.minor|);
    m < 3 || (m == 3 && (p - f) * TwoPow52 > p)
  }

  function DropLeadingZeros(s: string): string
  {
    if |s| > 1 && s[0] == '0' then DropLeadingZeros(s[1..]) else s
  }

  function DropTrailingZeros(s: string): string
  {
    if |s| > 1 && s[|s| - 1] == '0' then DropTrailingZeros(s[..|s| - 1]) else s
  }

  /** The text of the parsed version in the reason: Python's float rendering
      for short versions. */
  function VersionText(v: Version): string
  {
    DropLeadingZeros(v.major) + "." + DropTrailingZeros(v.minor)
  }

  /** `re.search(r'<meta\s+name=["\']generator["\']\s+content=["\']([^"\']+)', t)`
      anchored at the start of `t`, and its group: every `\s+` is greedy and
      followed by a letter, and the group is the longest run without quotes. */
  function GeneratorAtStart(t: string): Option<string>
  {
    if !("<meta" <= t) then None
    else
      var a := t[5..];
      var n1 := Span(a, Space);
      var b := a[n1..];
      if n1 == 0 || !("name=" <= b) || |b| < 16 || !IsQuote(b[5])
         || !("generator" <= b[6..]) || !IsQuote(b[15]) then None
      else
        var c := b[16..];
        var n2 := Span(c, Space);
        var d := c[n2..];
        if n2 == 0 || !("content=" <= d) || |d| < 9 || !IsQuote(d[8]) then None
        else
          var e := d[9..];
          var n3 := Span(e, NotQuote);
          if n3 == 0 then None else Some(e[..n3])
  }

  /** The group of the leftmost generator match. */
  function Generator(t: string): Option<string>
  {
    match GeneratorAtStart(t)
    case Some(g) => Some(g)
    case None => if t == [] then None else Generator(t[1..])
  }

  predicate OldGenerator(gen: string)
  {
    Contains(gen, "frontpage") || Contains(gen, "dreamweaver") || Contains(gen, "golive")
  }

  // ---- the body rules ----

  /** The first of `tags` that occurs in `s`. */
  function FirstContained(tags: seq<string>, s: string): Option<string>
  {
    if tags == [] then None
    else if Contains(s, tags[0]) then Some(tags[0])
    else FirstContained(tags[1..], s)
  }

  /** The obsolete-tag rule (lines 76 to 81): at most one finding, for the
      first tag found. */
  function ObsoleteTagRule(t: Tally, bl: string): Tally
  {
    match FirstContained(ObsoleteTags, bl)
    case None => t
    case Some(tag) => Tally(t.score + 10, t.reasons + ["Balise obsolète: " + tag])
  }

  /** The doctype and meta-charset rules (lines 63 to 73). */
  function DoctypeRules(t: Tally, bl: string): Tally
  {
    var t1 := Add(t, Contains(bl, "<!doctype html public \"-//w3c//dtd html 4"), 20, "DOCTYPE HTML 4");
    var t2 := Add(t1, Contains(bl, "<!doctype html public \"-//w3c//dtd xhtml 1.0"), 15, "DOCTYPE XHTML 1.0");
    Add(t2, MetaCharsetIn(bl), 15, "Meta charset ISO-8859")
  }

  /** The obsolete-tag, inline-style and viewport rules (lines 76 to 91). */
  function LayoutRules(t: Tally, bl: string): Tally
  {
    var t1 := ObsoleteTagRule(t, bl);
    var t2 := Add(t1, Count(bl, "style=") > 20, 5, "Nombreux styles inline");
    Add(t2, !Contains(bl, "viewport"), 5, "Pas de meta viewport")
  }

  /** The WordPress rule (lines 97 to 104). */
  function WordPressRule(t: Tally, bl: string): Tally
  {
    if !Contains(bl, "wordpress") then t
    else
      match WordPressVersion(bl)
      case None => t
      case Some(v) => Add(t, FloatBelowFour(v), 15, "WordPress ancien (" + VersionText(v) + ")")
  }

  /** The generator rule (lines 107 to 112). */
  function GeneratorRule(t: Tally, bl: string): Tally
  {
    match Generator(bl)
    case None => t
    case Some(g) =>
      var gen := Lower(g);
      Add(t, OldGenerator(gen), 20, "Générateur ancien: " + gen)
  }

  /** The content-management rules (lines 94 to 112). */
  function CmsRules(t: Tally, bl: string): Tally
  {
    var t1 := Add(t, Contains(bl, "joomla! 1.") || Contains(bl, "joomla! 2."), 15, "Joomla! ancien");
    GeneratorRule(WordPressRule(t1, bl), bl)
  }

  /** The body rules (lines 59 to 112): only for a non-empty body sample. */
  function BodyRules(t: Tally, body: string): Tally
  {
    if body == [] then t
    else
      var bl := Lower(body);
      CmsRules(LayoutRules(DoctypeRules(t, bl), bl), bl)
  }

  // ---- the security-header rule ----

  /** `sum(1 for h in keys if h not in hl)` */
  function CountMissing(keys: seq<string>, hl: map<string, string>): nat
  {
    if keys == [] then 0 else (if keys[0] in hl then 0 else 1) + CountMissing(keys[1..], hl)
  }

  /** The security-header rule (lines 115 to 119). */
  function SecurityRule(t: Tally, hl: map<string, string>): Tally
  {
    var missing := CountMissing(SecurityHeaders, hl);
    Add(t, missing >= 3, 10, "Manque " + NatToString(missing) + "/4 headers de sécurité")
  }

  // ---- the whole scorer ----

  /** The rules in the order `score_site` evaluates them, from a zero score
      and no reasons. */
  function Evaluate(headers: Headers, body: string): Tally
  {
    var hl := LowerKeys(headers);
    SecurityRule(BodyRules(HeaderRules(Tally(0, []), hl), body), hl)
  }

  /** `"; ".join(reasons) if reasons else "Aucun critère d'ancienneté détecté"` */
  function RenderReasons(rs: seq<string>): string
  {
    if rs == [] then Placeholder else Join(rs, "; ")
  }

  /** The score `score_site` returns. */
  function StalenessScore(headers: Headers, body: string): nat
  {
    Evaluate(headers, body).score
  }

  /** The reasons text `score_site` returns. */
  function ReasonsText(headers: Headers, body: string): string
  {
    RenderReasons(Evaluate(headers, body).reasons)
  }

  /** `score_site(headers, body_sample)`: adds each rule's weight to the score
      and its reason to the list as the rule fires. */
  method ScoreSite(headers: Headers, body: string) returns (score: nat, text: string)
    ensures score == StalenessScore(headers, body)
    ensures text == ReasonsText(headers, body)
  {
    var hl := LowerKeys(headers);
    var reasons: seq<string>;

    score, reasons := ScoreHeaders(hl);

    // the body sample
    ghost var before := Tally(score, reasons);
    if body != [] {
      var bl := Lower(body);
      score, reasons := ScoreDoctype(bl, score, reasons);
      score, reasons := ScoreLayout(bl, score, reasons);
      score, reasons := ScoreCms(bl, score, reasons);
    }
    assert Tally(score, reasons) == BodyRules(before, body);

    // the security headers
    before := Tally(score, reasons);
    var missing := CountMissing(SecurityHeaders, hl);
    if missing >= 3 {
      var reason := "Manque " + NatToString(missing) + "/4 headers de sécurité";
      score := score + 10;
      reasons := reasons + [reason];
    }
    assert Tally(score, reasons) == SecurityRule(before, hl);

    text := if reasons != [] then Join(reasons, "; ") else Placeholder;
  }

  /** The doctype and meta-charset rules on the lower-cased body (lines 63 to 73). */
  method ScoreDoctype(bl: string, score0: nat, reasons0: seq<string>) returns (score: nat, reasons: seq<string>)
    ensures Tally(score, reasons) == DoctypeRules(Tally(score0, reasons0), bl)
  {
    score, reasons := score0, reasons0;
    if Contains(bl, "<!doctype html public \"-//w3c//dtd html 4") {
      score := score + 20;
      reasons := reasons + ["DOCTYPE HTML 4"];
    }
    if Contains(bl, "<!doctype html public \"-//w3c//dtd xhtml 1.0") {
      score := score + 15;
      reasons := reasons + ["DOCTYPE XHTML 1.0"];
    }
    if MetaCharsetIn(bl) {
      score := score + 15;
      reasons := reasons + ["Meta charset ISO-8859"];
    }
  }

  /** The obsolete-tag, inline-style and viewport rules on the lower-cased
      body (lines 76 to 91). */
  method ScoreLayout(bl: string, score0: nat, reasons0: seq<string>) returns (score: nat, reasons: seq<string>)
    ensures Tally(score, reasons) == LayoutRules(Tally(score0, reasons0), bl)
  {
    score, reasons := score0, reasons0;
    var tag := FindObsoleteTag(bl);
    if tag.Some? {
      score := score + 10;
      reasons := reasons + ["Balise obsolète: " + tag.value];
    }
    if Count(bl, "style=") > 20 {
      score := score + 5;
      reasons := reasons + ["Nombreux styles inline"];
    }
    if !Contains(bl, "viewport") {
      score := score + 5;
      reasons := reasons + ["Pas de meta viewport"];
    }
  }

  /** The header rules on the lower-cased header map (lines 26 to 56). */
  method ScoreHeaders(hl: map<string, string>) returns (score: nat, reasons: seq<string>)
    ensures Tally(score, reasons) == HeaderRules(Tally(0, []), hl)
  {
    score, reasons := ScoreServer(Lower(Get(hl, "server")), 0, []);
    score, reasons := ScorePoweredBy(Lower(Get(hl, "x-powered-by")), score, reasons);
    var contentType := Lower(Get(hl, "content-type"));
    if OldCharset(contentType) {
      score := score + 15;
      reasons := reasons + ["Charset ancien (" + contentType + ")"];
    }
  }

  /** The `Server` rules on the lower-cased header value (lines 26 to 38). */
  method ScoreServer(server: string, score0: nat, reasons0: seq<string>) returns (score: nat, reasons: seq<string>)
    ensures Tally(score, reasons) == ServerRules(Tally(score0, reasons0), server)
  {
    score, reasons := score0, reasons0;
    if OldApache(server) {
      score := score + 15;
      reasons := reasons + ["Apache ancien (" + server + ")"];
    }
    if OldIis(server) {
      score := score + 15;
      reasons := reasons + ["IIS ancien (" + server + ")"];
    }
    if VeryOldPhp(server) {
      score := score + 20;
      reasons := reasons + ["PHP très ancien (" + server + ")"];
    }
    if OldPhp5(server) {
      score := score + 15;
      reasons := reasons + ["PHP 5.x ancien (" + server + ")"];
    }
  }

  /** The `X-Powered-By` rules on the lower-cased header value (lines 41 to 50). */
  method ScorePoweredBy(powered: string, score0: nat, reasons0: seq<string>) returns (score: nat, reasons: seq<string>)
    ensures Tally(score, reasons) == PoweredByRules(Tally(score0, reasons0), powered)
  {
    score, reasons := score0, reasons0;
    if VeryOldPhp(powered) {
      score := score + 20;
      reasons := reasons + ["X-Powered-By PHP ancien (" + powered + ")"];
    }
    if OldPhp5(powered) {
      score := score + 15;
      reasons := reasons + ["X-Powered-By PHP 5.x (" + powered + ")"];
    }
    if Contains(powered, "asp.net") {
      score := score + 10;
      reasons := reasons + ["ASP.NET classique"];
    }
  }

  /** The loop over the obsolete tags (lines 76 to 81): the first one the
      body holds, if any. */
  method FindObsoleteTag(bl: string) returns (tag: Option<string>)
    ensures tag == FirstContained(ObsoleteTags, bl)
  {
    tag := None;
    for i := 0 to |ObsoleteTags|
      invariant forall j :: 0 <= j < i ==> !Contains(bl, ObsoleteTags[j])
      invariant tag == None
    {
      if Contains(bl, ObsoleteTags[i]) {
        FirstContainedAt(ObsoleteTags, bl, i);
        tag := Some(ObsoleteTags[i]);
        break;
      }
    }
    if tag == None {
      FirstContainedNone(ObsoleteTags, bl);
    }
  }

  /** The content-management rules on the lower-cased body (lines 94 to 112). */
  method ScoreCms(bl: string, score0: nat, reasons0: seq<string>) returns (score: nat, reasons: seq<string>)
    ensures Tally(score, reasons) == CmsRules(Tally(score0, reasons0), bl)
  {
    score, reasons := ScoreJoomla(bl, score0, reasons0);
    score, reasons := ScoreWordPress(bl, score, reasons);
    score, reasons := ScoreGenerator(bl, score, reasons);
  }

  method ScoreJoomla(bl: string, score0: nat, reasons0: seq<string>) returns (score: nat, reasons: seq<string>)
    ensures Tally(score, reasons) == Add(Tally(score0, reasons0), Contains(bl, "joomla! 1.") || Contains(bl, "joomla! 2."), 15, "Joomla! ancien")
  {
    score, reasons := score0, reasons0;
    if Contains(bl, "joomla! 1.") || Contains(bl, "joomla! 2.") {
      score := score + 15;
      reasons := reasons + ["Joomla! ancien"];
    }
  }

  method ScoreWordPress(bl: string, score0: nat, reasons0: seq<string>) returns (score: nat, reasons: seq<string>)
    ensures Tally(score, reasons) == WordPressRule(Tally(score0, reasons0), bl)
  {
    score, reasons := score0, reasons0;
    if Contains(bl, "wordpress") {
      var wp := WordPressVersion(bl);
      if wp.Some? {
        var version := wp.value;
        if FloatBelowFour(version) {
          score := score + 15;
          reasons := reasons + ["WordPress ancien (" + VersionText(version) + ")"];
        }
      }
    }
  }

  method ScoreGenerator(bl: string, score0: nat, reasons0: seq<string>) returns (score: nat, reasons: seq<string>)
    ensures Tally(score, reasons) == GeneratorRule(Tally(score0, reasons0), bl)
  {
    score, reasons := score0, reasons0;
    var generator := Generator(bl);
    if generator.Some? {
      var gen := Lower(generator.value);
      if OldGenerator(gen) {
        score := score + 20;
        reasons := reasons + ["Générateur ancien: " + gen];
      }
    }
  }

  lemma {:induction false} FirstContainedAt(tags: seq<string>, s: string, i: nat)
    requires i < |tags| && Contains(s, tags[i])
    requires forall j :: 0 <= j < i ==> !Contains(s, tags[j])
    ensures FirstContained(tags, s) == Some(tags[i])
  {
    if i > 0 {
      FirstContainedAt(tags[1..], s, i - 1);
    }
  }

  lemma {:induction false} FirstContainedNone(tags: seq<string>, s: string)
    requires forall j :: 0 <= j < |tags| ==> !Contains(s, tags[j])
    ensures FirstContained(tags, s) == None
  {
    if tags != [] {
      FirstContainedNone(tags[1..], s);
    }
  }
}

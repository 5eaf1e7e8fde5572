/**
  The certificate-transparency side of backend/fetch_crtsh.py: `clean_domain`,
  which turns one name found in a certificate into a `.ch` domain of at most
  three labels or rejects it, and the loop of `fetch_crtsh_year` that folds it
  over the names of every entry of crt.sh's JSON answer.
 */
module Crtsh {
  import opened Wrappers
  import opened Text

  // ---- clean_domain ----

  /** `re.sub(pattern, '', s)` for a pattern anchored with `^` and matching
      the literal `p`: `p` is removed from the front, once. */
  function DropPrefix(s: string, p: string): string
  {
    if p <= s then s[|p|..] else s
  }

  /** `re.sub(r'^https?://', '', s)` */
  function DropWebScheme(s: string): string
  {
    if "https://" <= s then s[8..] else DropPrefix(s, "http://")
  }

  /** `[a-z0-9.-]` */
  predicate NameChar(c: char)
  {
    ('a' <= c <= 'z') || ('0' <= c <= '9') || c == '.' || c == '-'
  }

  /** The whole of `s` matches `[a-z0-9.-]+\.ch`. */
  predicate NameShape(s: string)
  {
    |s| >= 4 && (forall i :: 0 <= i < |s| ==> NameChar(s[i])) && EndsWith(s, ".ch")
  }

  /** `re.match(r'^[a-z0-9.-]+\.ch$', s)`: `$` also matches just before a
      final line feed. */
  predicate NamePattern(s: string)
  {
    NameShape(s) || (s != [] && s[|s| - 1] == '\n' && NameShape(s[..|s| - 1]))
  }

  /** What `clean_domain` accepts: the name pattern, and at most three
      dot-separated labels. */
  predicate IsCleanName(d: string)
  {
    NameShape(d) && CountChar(d, '.') <= 2
  }

  /** Lines 41 and 42: `*.` and then `*` replaced by nothing. */
  function Unstar(s: string): string
  {
    Replace(Replace(s, "*.", ""), "*", "")
  }

  /** Lines 45 and 46: the scheme prefix removed. */
  function Unscheme(s: string): string
  {
    DropPrefix(DropWebScheme(s), "ftp://")
  }

  /** Lines 49 and 52: `s.split('/')[0].split(':')[0]`. */
  function HostPart(s: string): string
  {
    Split(Split(s, '/')[0], ':')[0]
  }

  /** Lines 38 to 55: the candidate name before validation. */
  function Normalise(raw: string): string
  {
    Strip(HostPart(Unscheme(Unstar(Lower(Strip(raw))))))
  }

  /** Lines 58 to 70: the `.ch` suffix, the pattern and the label count. */
  function Validate(d: string): (r: Option<string>)
    ensures r.Some? ==> r == Some(d) && IsCleanName(d)
  {
    if !EndsWith(d, ".ch") then None
    else if !NamePattern(d) then None
    else if |Split(d, '.')| > 3 then None
    else
      SplitPieces(d, '.');
      Some(d)
  }

  /** `clean_domain(raw_domain)` */
  function CleanDomain(raw: string): (r: Option<string>)
    ensures raw == [] ==> r == None
    ensures r.Some? ==> IsCleanName(r.value)
  {
    if raw == [] then None else Validate(Normalise(raw))
  }

  /** A clean name holds nothing that the cleaning removes or rejects. */
  lemma CleanNameHasNoJunk(d: string)
    requires IsCleanName(d)
    ensures d != [] && EndsWith(d, ".ch")
    ensures forall i :: 0 <= i < |d| ==>
      d[i] != '*' && d[i] != '/' && d[i] != ':' && !IsSpace(d[i]) && !IsUpper(d[i])
    ensures |Split(d, '.')| <= 3
  {
    SplitPieces(d, '.');
  }

  /** The validation accepts exactly the clean names. */
  lemma ValidateClean(d: string)
    ensures Validate(d) == Some(d) <==> IsCleanName(d)
  {
    SplitPieces(d, '.');
  }

  /** `p` cannot start `s` when one of its characters is missing from `s`. */
  lemma NotPrefixOf(p: string, s: string, k: nat)
    requires k < |p| && p[k] !in s
    ensures !(p <= s)
  {
  }

  /** Lines 38 to 42 leave a name without whitespace, upper case or `*`
      unchanged. */
  lemma UnstarPlain(d: string)
    requires forall i :: 0 <= i < |d| ==> d[i] != '*' && !IsSpace(d[i]) && !IsUpper(d[i])
    ensures Unstar(Lower(Strip(d))) == d
  {
    StripNoSpace(d);
    LowerOfLowerCase(d);
    assert '*' !in d;
    NotContainsFirstChar(d, "*.");
    ReplaceAbsent(d, "*.", "");
    NotContainsFirstChar(d, "*");
    ReplaceAbsent(d, "*", "");
  }

  /** A name without whitespace, upper case, `*`, `/` or `:` goes through the
      normalisation unchanged. */
  lemma PlainNameUnchanged(d: string)
    requires forall i :: 0 <= i < |d| ==>
      d[i] != '*' && d[i] != '/' && d[i] != ':' && !IsSpace(d[i]) && !IsUpper(d[i])
    ensures Normalise(d) == d
  {
    UnstarPlain(d);
    assert ':' !in d && '/' !in d;
    NotPrefixOf("https://", d, 5);
    NotPrefixOf("http://", d, 4);
    NotPrefixOf("ftp://", d, 3);
    assert Unscheme(d) == d;
    SplitNoSeparator(d, '/');
    SplitNoSeparator(d, ':');
    assert HostPart(d) == d;
    StripNoSpace(d);
  }

  /** The steps of `clean_domain` leave a clean name as it is. */
  lemma CleanNameIsKept(d: string)
    requires IsCleanName(d)
    ensures CleanDomain(d) == Some(d)
  {
    CleanNameHasNoJunk(d);
    PlainNameUnchanged(d);
    ValidateClean(d);
  }

  /** A name is its own cleaning exactly when it is a clean name. */
  lemma CleanDomainFixpoint(d: string)
    ensures CleanDomain(d) == Some(d) <==> IsCleanName(d)
  {
    if IsCleanName(d) {
      CleanNameIsKept(d);
    }
  }

  /** `clean_domain` is idempotent on its results. */
  lemma CleanDomainIdempotent(raw: string)
    requires CleanDomain(raw).Some?
    ensures CleanDomain(CleanDomain(raw).value) == CleanDomain(raw)
  {
    CleanNameIsKept(CleanDomain(raw).value);
  }

  // ---- the extraction loop of fetch_crtsh_year ----

  /** A field of a crt.sh entry as the loop sees it: missing, a string, or
      some other JSON value, truthy or not. */
  datatype Field = Absent | Str(s: string) | Other(truthy: bool)

  /** One element of the JSON list: not an object, or an object with its
      `name_value` and `common_name` fields. */
  datatype Entry = NotObject | Object(nameValue: Field, commonName: Field)

  /** `entry.get(key, '')` */
  function GetOrEmpty(f: Field): Field
  {
    if f.Absent? then Str("") else f
  }

  predicate Truthy(f: Field)
  {
    match f
    case Absent => false
    case Str(s) => s != []
    case Other(t) => t
  }

  /** `entry.get('name_value', '') or entry.get('common_name', '')` */
  function Chosen(nameValue: Field, commonName: Field): (r: Field)
    ensures !r.Absent?
    ensures Truthy(nameValue) ==> r == nameValue
    ensures !Truthy(nameValue) ==> r == GetOrEmpty(commonName)
  {
    var nv := GetOrEmpty(nameValue);
    if Truthy(nv) then nv else GetOrEmpty(commonName)
  }

  /** The domains that the names `pieces` contribute. */
  function PieceDomains(pieces: seq<string>): set<string>
  {
    if pieces == [] then {}
    else
      (match CleanDomain(pieces[0]) case Some(d) => {d} case None => {})
      + PieceDomains(pieces[1..])
  }

  /** The newline-separated names of an object entry whose chosen field is
      a string. */
  function Pieces(e: Entry): seq<string>
    requires e.Object? && Chosen(e.nameValue, e.commonName).Str?
  {
    Split(Chosen(e.nameValue, e.commonName).s, '\n')
  }

  /** The set the loop builds, and whether it ran to the end. A chosen field
      that is not a string has no `split`: the exception ends the whole
      request and `fetch_crtsh_year` returns what it had collected. */
  function Harvest(entries: seq<Entry>): (set<string>, bool)
  {
    if entries == [] then ({}, true)
    else
      var e := entries[0];
      if e.NotObject? then Harvest(entries[1..])
      else if !Chosen(e.nameValue, e.commonName).Str? then ({}, false)
      else
        var rest := Harvest(entries[1..]);
        (PieceDomains(Pieces(e)) + rest.0, rest.1)
  }

  /** The loop at lines 117 to 128, with the early exit of line 134. */
  method ExtractDomains(entries: seq<Entry>) returns (domains: set<string>, complete: bool)
    ensures (domains, complete) == Harvest(entries)
  {
    domains := {};
    var i := 0;
    assert entries[0..] == entries;
    while i < |entries|
      invariant 0 <= i <= |entries|
      invariant Harvest(entries).0 == domains + Harvest(entries[i..]).0
      invariant Harvest(entries).1 == Harvest(entries[i..]).1
    {
      var entry := entries[i];
      assert entries[i..][1..] == entries[i + 1..];
      if entry.Object? {
        var raw := Chosen(entry.nameValue, entry.commonName);
        if !raw.Str? {
          complete := false;
          return;
        }
        domains := AddPieceDomains(Split(raw.s, '\n'), domains);
      }
      i := i + 1;
    }
    complete := true;
  }

  /** The inner loop: `clean_domain` of every piece, added when it is not
      `None`. */
  method AddPieceDomains(pieces: seq<string>, domains0: set<string>) returns (domains: set<string>)
    ensures domains == domains0 + PieceDomains(pieces)
  {
    domains := domains0;
    for k := 0 to |pieces|
      invariant domains + PieceDomains(pieces[k..]) == domains0 + PieceDomains(pieces)
    {
      assert pieces[k..][1..] == pieces[k + 1..];
      var cleaned := CleanDomain(pieces[k]);
      if cleaned.Some? {
        domains := domains + {cleaned.value};
      }
    }
  }

  /** Every collected domain is the cleaning of one of the names of an
      object entry whose chosen field is a string. */
  lemma {:induction false} HarvestProvenance(entries: seq<Entry>, d: string)
    requires d in Harvest(entries).0
    ensures exists i, k ::
      && 0 <= i < |entries| && entries[i].Object? && Chosen(entries[i].nameValue, entries[i].commonName).Str?
      && 0 <= k < |Pieces(entries[i])| && CleanDomain(Pieces(entries[i])[k]) == Some(d)
  {
    var e := entries[0];
    var tail := entries[1..];
    if e.Object? && d in PieceDomains(Pieces(e)) {
      var k := PieceSource(Pieces(e), d);
    } else {
      HarvestProvenance(tail, d);
      var i, k :| 0 <= i < |tail| && tail[i].Object? && Chosen(tail[i].nameValue, tail[i].commonName).Str?
        && 0 <= k < |Pieces(tail[i])| && CleanDomain(Pieces(tail[i])[k]) == Some(d);
      assert entries[i + 1] == tail[i];
    }
  }

  /** Where a domain of `PieceDomains` comes from. */
  lemma {:induction false} PieceSource(pieces: seq<string>, d: string) returns (k: nat)
    requires d in PieceDomains(pieces)
    ensures k < |pieces| && CleanDomain(pieces[k]) == Some(d)
  {
    if CleanDomain(pieces[0]) == Some(d) {
      k := 0;
    } else {
      k := PieceSource(pieces[1..], d);
      k := k + 1;
    }
  }

  /** Every name that cleans to a domain contributes it. */
  lemma {:induction false} PieceCollected(pieces: seq<string>, k: nat)
    requires k < |pieces| && CleanDomain(pieces[k]).Some?
    ensures CleanDomain(pieces[k]).value in PieceDomains(pieces)
  {
    if k > 0 {
      PieceCollected(pieces[1..], k - 1);
    }
  }

  /** When the loop runs to the end, every name of every object entry that
      cleans to a domain is collected. */
  lemma {:induction false} HarvestCompleteness(entries: seq<Entry>, i: nat, k: nat)
    requires Harvest(entries).1
    requires i < |entries| && entries[i].Object?
    ensures Chosen(entries[i].nameValue, entries[i].commonName).Str?
    ensures k < |Pieces(entries[i])| && CleanDomain(Pieces(entries[i])[k]).Some? ==>
      CleanDomain(Pieces(entries[i])[k]).value in Harvest(entries).0
  {
    if i == 0 {
      if k < |Pieces(entries[0])| && CleanDomain(Pieces(entries[0])[k]).Some? {
        PieceCollected(Pieces(entries[0]), k);
      }
    } else {
      HarvestCompleteness(entries[1..], i - 1, k);
      assert entries[1..][i - 1] == entries[i];
    }
  }

  /** Every collected domain is a clean name. */
  lemma HarvestIsClean(entries: seq<Entry>)
    ensures forall d :: d in Harvest(entries).0 ==> IsCleanName(d)
  {
    forall d | d in Harvest(entries).0
      ensures IsCleanName(d)
    {
      HarvestProvenance(entries, d);
    }
  }

  /** Entries that are not objects contribute nothing, wherever they stand. */
  lemma {:induction false} NotObjectsIgnored(a: seq<Entry>, b: seq<Entry>)
    ensures Harvest(a + [NotObject] + b) == Harvest(a + b)
  {
    if a == [] {
      assert a + [NotObject] + b == [NotObject] + b;
      assert ([NotObject] + b)[1..] == b;
      assert a + b == b;
    } else {
      assert (a + [NotObject] + b)[1..] == a[1..] + [NotObject] + b;
      assert (a + b)[1..] == a[1..] + b;
      NotObjectsIgnored(a[1..], b);
    }
  }

  // ---- examples ----

  /** Wildcard, upper case, port and path removed. Each example names its
      input in a `requires` and follows it through the stages of
      `clean_domain` one helper lemma per stage, so that the intermediate
      string after each stage is stated and can be read against the source. */
  lemma WildcardPortAndPath(raw: string)
    requires raw == " *.Foo.CH:443/x"
    ensures CleanDomain(raw) == Some("foo.ch")
  {
    WildcardNormalise(raw);
    PortValidate("foo.ch");
  }

  lemma PortValidate(d: string)
    requires d == "foo.ch"
    ensures Validate(d) == Some(d)
  {
    assert CountChar("foo.ch", '.') == 1;
    ValidateClean(d);
  }

  lemma WildcardNormalise(raw: string)
    requires raw == " *.Foo.CH:443/x"
    ensures Normalise(raw) == "foo.ch"
  {
    WildcardFront(raw);
    PortBack("foo.ch:443/x");
  }

  lemma WildcardFront(raw: string)
    requires raw == " *.Foo.CH:443/x"
    ensures Unstar(Lower(Strip(raw))) == "foo.ch:443/x"
  {
    WildcardStrip(raw);
    WildcardLower(raw[1..]);
    WildcardUnstar(Lower(raw[1..]));
  }

  lemma PortBack(s: string)
    requires s == "foo.ch:443/x"
    ensures Strip(HostPart(Unscheme(s))) == "foo.ch"
  {
    PortUnscheme(s);
    PortHostPart(s);
    StripNoSpace(s[..6]);
  }

  lemma WildcardStrip(raw: string)
    requires raw == " *.Foo.CH:443/x"
    ensures raw[1..] == "*.Foo.CH:443/x" && Strip(raw) == raw[1..]
  {
    var a := raw[1..];
    assert a == "*.Foo.CH:443/x";
    assert IsSpace(raw[0]) && !IsSpace(a[0]) && !IsSpace(a[|a| - 1]);
    assert LStrip(raw) == LStrip(a) == a;
    assert RStrip(a) == a;
  }

  lemma WildcardLower(a: string)
    requires a == "*.Foo.CH:443/x"
    ensures Lower(a) == "*.foo.ch:443/x"
  {
  }

  lemma WildcardUnstar(b: string)
    requires b == "*.foo.ch:443/x"
    ensures b[2..] == "foo.ch:443/x" && Unstar(b) == b[2..]
  {
    var s := b[2..];
    assert s == "foo.ch:443/x";
    assert "*." <= b;
    NotContainsFirstChar(s, "*.");
    ReplaceAbsent(s, "*.", "");
    assert Replace(b, "*.", "") == s;
    NotContainsFirstChar(s, "*");
    ReplaceAbsent(s, "*", "");
  }

  lemma PortUnscheme(s: string)
    requires s == "foo.ch:443/x"
    ensures Unscheme(s) == s
  {
    assert s[0] == 'f' && s[1] == 'o';
  }

  lemma PortHostPart(s: string)
    requires s == "foo.ch:443/x"
    ensures s[..6] == "foo.ch" && HostPart(s) == s[..6]
  {
    var first := s[..10];
    assert s == first + ['/'] + s[11..];
    assert '/' !in first;
    SplitAfterPiece(first, '/', s[11..]);
    var host := first[..6];
    assert first == host + [':'] + first[7..];
    assert ':' !in host;
    SplitAfterPiece(host, ':', first[7..]);
    assert s[..6] == host;
  }

  /** Scheme and path removed. */
  lemma SchemeAndPath(raw: string)
    requires raw == "https://www.a.ch/p"
    ensures CleanDomain(raw) == Some("www.a.ch")
  {
    SchemeNormalise(raw);
    SchemeValidate("www.a.ch");
  }

  lemma SchemeNormalise(raw: string)
    requires raw == "https://www.a.ch/p"
    ensures Normalise(raw) == "www.a.ch"
  {
    SchemeFront(raw);
    SchemeBack(raw);
  }

  lemma SchemeFront(raw: string)
    requires raw == "https://www.a.ch/p"
    ensures Unstar(Lower(Strip(raw))) == raw
  {
    SchemePlain(raw);
    UnstarPlain(raw);
  }

  lemma SchemePlain(raw: string)
    requires raw == "https://www.a.ch/p"
    ensures forall i :: 0 <= i < |raw| ==> raw[i] != '*' && !IsSpace(raw[i]) && !IsUpper(raw[i])
  {
  }

  lemma SchemeBack(raw: string)
    requires raw == "https://www.a.ch/p"
    ensures Strip(HostPart(Unscheme(raw))) == "www.a.ch"
  {
    SchemeUnscheme(raw);
    var s := raw[8..];
    SchemeHostPart(s);
    StripNoSpace(s[..8]);
  }

  lemma SchemeValidate(d: string)
    requires d == "www.a.ch"
    ensures Validate(d) == Some(d)
  {
    assert CountChar("www.a.ch", '.') == 2;
    ValidateClean(d);
  }

  lemma SchemeUnscheme(raw: string)
    requires raw == "https://www.a.ch/p"
    ensures raw[8..] == "www.a.ch/p" && Unscheme(raw) == raw[8..]
  {
    assert "https://" <= raw;
    assert raw[8] == 'w';
  }

  lemma SchemeHostPart(s: string)
    requires s == "www.a.ch/p"
    ensures s[..8] == "www.a.ch" && HostPart(s) == s[..8]
  {
    var host := s[..8];
    assert s == host + ['/'] + s[9..];
    assert '/' !in host && ':' !in host;
    SplitAfterPiece(host, '/', s[9..]);
    SplitNoSeparator(host, ':');
  }

  /** Four labels are one too many. */
  lemma TooDeep(raw: string)
    requires raw == "a.b.c.ch"
    ensures CleanDomain(raw) == None
  {
    TooDeepPlain(raw);
    PlainNameUnchanged(raw);
    TooDeepCount(raw);
  }

  lemma TooDeepPlain(raw: string)
    requires raw == "a.b.c.ch"
    ensures forall i :: 0 <= i < |raw| ==>
      raw[i] != '*' && raw[i] != '/' && raw[i] != ':' && !IsSpace(raw[i]) && !IsUpper(raw[i])
  {
  }

  lemma TooDeepCount(raw: string)
    requires raw == "a.b.c.ch"
    ensures Validate(raw) == None
  {
    assert CountChar("a.b.c.ch", '.') == 3;
    SplitPieces(raw, '.');
  }
}

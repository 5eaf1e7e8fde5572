/**
  The zone-transfer side of backend/fetch_ch_domains.py: reading the answer
  of `dig @server zone AXFR +noall +answer` into the sorted list of the
  zone's second-level names (`try_axfr_transfer`), and asking a fixed list
  of name servers in turn until one of them gives a non-empty list
  (`try_alternative_sources`).

  Running `dig` is a parameter: its outcome is either a failure (a non-zero
  exit code, a timeout, a missing `dig`, any other exception) or the text it
  printed.
 */
module ZoneTransfer {
  import opened Wrappers
  import opened Text
  import opened StringOrder

  // ---- one answer line ----

  /** A name that the parser keeps: it ends in `.zone`, holds exactly one
      dot, and the stem before the dot is not empty and does not start with
      `_`. */
  predicate Qualifies(d: string, zone: string)
  {
    && EndsWith(d, "." + zone)
    && CountChar(d, '.') == 1
    && |d| > |zone| + 1
    && d[0] != '_'
  }

  /** Lines 50 to 62 for one line of the answer: the name it adds to the
      set, if any. */
  function AxfrName(rawLine: string, zone: string): Option<string>
  {
    var line := Strip(rawLine);
    if line == [] || ";" <= line then None
    else
      var domain := RStripChar(FirstField(line), '.');
      if !(EndsWith(domain, "." + zone) && CountChar(domain, '.') == 1) then None
      else
        var name := Replace(domain, "." + zone, "");
        if name == [] || "_" <= name then None
        else Some(name + "." + zone)
  }

  /** The first field of a line, without its trailing dots: the name the
      parser looks at. */
  function OwnerName(rawLine: string): string
  {
    RStripChar(FirstField(Strip(rawLine)), '.')
  }

  /** A name whose only dot starts the suffix `p` is its stem followed by
      `p`, and replacing `p` by nothing leaves the stem. */
  lemma DropOnlyDotSuffix(d: string, p: string)
    requires p != [] && p[0] == '.' && EndsWith(d, p) && CountChar(d, '.') == 1
    ensures d == d[..|d| - |p|] + p
    ensures Replace(d, p, []) == d[..|d| - |p|]
  {
    var x := d[..|d| - |p|];
    assert d == x + p;
    CountCharAppend(x, p, '.');
    assert p == [p[0]] + p[1..];
    CountCharAppend([p[0]], p[1..], '.');
    CountCharZero(x, '.');
    ReplaceSuffix(x, p);
  }

  /** Blank lines and comment lines give nothing. */
  lemma BlankOrCommentSkipped(rawLine: string, zone: string)
    requires IsBlank(rawLine) || ";" <= Strip(rawLine)
    ensures AxfrName(rawLine, zone) == None
  {
    StripEmptyIffBlank(rawLine);
  }

  /** A line gives a name exactly when it is neither blank nor a comment and
      its owner name qualifies; the name given is the owner name itself. */
  lemma AxfrNameIsOwnerName(rawLine: string, zone: string, d: string)
    ensures AxfrName(rawLine, zone) == Some(d) <==>
      && Strip(rawLine) != [] && !(";" <= Strip(rawLine))
      && d == OwnerName(rawLine) && Qualifies(d, zone)
  {
    var line := Strip(rawLine);
    if line != [] && !(";" <= line) {
      var domain := OwnerName(rawLine);
      if EndsWith(domain, "." + zone) && CountChar(domain, '.') == 1 {
        var p := "." + zone;
        DropOnlyDotSuffix(domain, p);
        var stem := domain[..|domain| - |p|];
        assert stem + "." + zone == stem + p;
        assert stem != [] ==> stem[0] == domain[0];
      }
    }
  }

  // ---- the whole answer ----

  /** The set that the loop of lines 49 to 62 builds from `lines`. */
  function NamesOf(lines: seq<string>, zone: string): set<string>
  {
    if lines == [] then {}
    else
      (match AxfrName(lines[0], zone) case Some(d) => {d} case None => {})
      + NamesOf(lines[1..], zone)
  }

  /** A name is in the set exactly when some line gives it. */
  lemma {:induction false} NamesOfMembers(lines: seq<string>, zone: string, d: string)
    ensures d in NamesOf(lines, zone) <==> exists i :: 0 <= i < |lines| && AxfrName(lines[i], zone) == Some(d)
  {
    if lines != [] {
      NamesOfMembers(lines[1..], zone, d);
      if exists i :: 0 <= i < |lines| && AxfrName(lines[i], zone) == Some(d) {
        var i :| 0 <= i < |lines| && AxfrName(lines[i], zone) == Some(d);
        if i > 0 {
          assert lines[1..][i - 1] == lines[i];
        }
      }
      if exists i :: 0 <= i < |lines[1..]| && AxfrName(lines[1..][i], zone) == Some(d) {
        var i :| 0 <= i < |lines[1..]| && AxfrName(lines[1..][i], zone) == Some(d);
        assert lines[i + 1] == lines[1..][i];
      }
    }
  }

  /** Every name in the set qualifies and is the owner name of some line. */
  lemma NamesOfQualify(lines: seq<string>, zone: string)
    ensures forall d :: d in NamesOf(lines, zone) ==>
      Qualifies(d, zone) && exists i :: 0 <= i < |lines| && d == OwnerName(lines[i])
  {
    forall d | d in NamesOf(lines, zone)
      ensures Qualifies(d, zone) && exists i :: 0 <= i < |lines| && d == OwnerName(lines[i])
    {
      NamesOfMembers(lines, zone, d);
      var i :| 0 <= i < |lines| && AxfrName(lines[i], zone) == Some(d);
      AxfrNameIsOwnerName(lines[i], zone, d);
    }
  }

  /** Lines 46 to 69, once `dig` has answered: the sorted names, or `None`
      when no line gave one. */
  method ParseAxfrAnswer(stdout: string, zone: string) returns (r: Option<seq<string>>)
    ensures r.None? <==> NamesOf(Split(stdout, '\n'), zone) == {}
    ensures r.Some? ==> StrictlyAscending(r.value)
    ensures r.Some? ==> forall x :: x in r.value <==> x in NamesOf(Split(stdout, '\n'), zone)
  {
    var domains: set<string> := {};
    var lines := Split(stdout, '\n');
    for i := 0 to |lines|
      invariant domains + NamesOf(lines[i..], zone) == NamesOf(lines, zone)
    {
      assert lines[i..][1..] == lines[i + 1..];
      var name := AxfrName(lines[i], zone);
      if name.Some? {
        domains := domains + {name.value};
      }
    }
    assert lines[|lines|..] == [];
    if domains != {} {
      var sorted := SortedFromSet(domains);
      r := Some(sorted);
    } else {
      r := None;
    }
  }

  /** What running `dig` gave. */
  datatype DigResult = DigFailed | DigAnswer(stdout: string)

  /** The names an answer holds; none when `dig` failed. */
  function AnswerNames(d: DigResult, zone: string): set<string>
  {
    match d
    case DigFailed => {}
    case DigAnswer(stdout) => NamesOf(Split(stdout, '\n'), zone)
  }

  /** `try_axfr_transfer(zone, nameserver)`, given what `dig` did. */
  method TryAxfrTransfer(dig: DigResult, zone: string) returns (r: Option<seq<string>>)
    ensures r.None? <==> AnswerNames(dig, zone) == {}
    ensures r.Some? ==> r.value != [] && StrictlyAscending(r.value)
    ensures r.Some? ==> forall x :: x in r.value <==> x in AnswerNames(dig, zone)
  {
    match dig
    case DigFailed =>
      r := None;
    case DigAnswer(stdout) =>
      r := ParseAxfrAnswer(stdout, zone);
      if r.Some? {
        var x :| x in NamesOf(Split(stdout, '\n'), zone);
        assert x in r.value;
      }
  }

  // ---- the fallback over other name servers ----

  const AlternativeServers: seq<string> :=
    ["ns1.nic.ch", "ns2.nic.ch", "ns3.nic.ch", "a.nic.ch", "b.nic.ch", "c.nic.ch", "d.nic.ch", "e.nic.ch"]

  /** The position of the first server whose answer holds a name, or the
      number of servers when none does. */
  function FirstAnswering(servers: seq<string>, dig: string -> DigResult, zone: string): (k: nat)
    ensures k <= |servers|
    ensures forall j :: 0 <= j < k ==> AnswerNames(dig(servers[j]), zone) == {}
    ensures k < |servers| ==> AnswerNames(dig(servers[k]), zone) != {}
  {
    if servers == [] then 0
    else if AnswerNames(dig(servers[0]), zone) != {} then 0
    else 1 + FirstAnswering(servers[1..], dig, zone)
  }

  /** The loop of `try_alternative_sources()` over any list of servers: the
      list from the first server, in order, whose answer holds a name, and
      the servers asked up to and including that one. */
  method AskInTurn(servers: seq<string>, dig: string -> DigResult, zone: string)
    returns (r: Option<seq<string>>, asked: seq<string>)
    ensures var k := FirstAnswering(servers, dig, zone);
      && (r.None? <==> k == |servers|)
      && (r.Some? ==> StrictlyAscending(r.value)
                      && forall x :: x in r.value <==> x in AnswerNames(dig(servers[k]), zone))
      && asked == servers[..if k < |servers| then k + 1 else k]
  {
    asked := [];
    for i := 0 to |servers|
      invariant asked == servers[..i]
      invariant forall j :: 0 <= j < i ==> AnswerNames(dig(servers[j]), zone) == {}
    {
      var server := servers[i];
      asked := asked + [server];
      var domains := TryAxfrTransfer(dig(server), zone);
      if domains.Some? && domains.value != [] {
        FirstAnsweringAt(servers, dig, zone, i);
        return domains, asked;
      }
    }
    FirstAnsweringNone(servers, dig, zone);
    r := None;
  }

  /** `try_alternative_sources()`: the `.ch` zone asked of the fixed list of
      servers in turn. */
  method TryAlternativeSources(dig: string -> DigResult) returns (r: Option<seq<string>>, asked: seq<string>)
    ensures var k := FirstAnswering(AlternativeServers, dig, "ch");
      && (r.None? <==> k == |AlternativeServers|)
      && (r.Some? ==> StrictlyAscending(r.value)
                      && forall x :: x in r.value <==> x in AnswerNames(dig(AlternativeServers[k]), "ch"))
      && asked == AlternativeServers[..if k < |AlternativeServers| then k + 1 else k]
  {
    r, asked := AskInTurn(AlternativeServers, dig, "ch");
  }

  lemma {:induction false} FirstAnsweringAt(servers: seq<string>, dig: string -> DigResult, zone: string, i: nat)
    requires i < |servers| && AnswerNames(dig(servers[i]), zone) != {}
    requires forall j :: 0 <= j < i ==> AnswerNames(dig(servers[j]), zone) == {}
    ensures FirstAnswering(servers, dig, zone) == i
  {
    if i > 0 {
      FirstAnsweringAt(servers[1..], dig, zone, i - 1);
    }
  }

  lemma {:induction false} FirstAnsweringNone(servers: seq<string>, dig: string -> DigResult, zone: string)
    requires forall j :: 0 <= j < |servers| ==> AnswerNames(dig(servers[j]), zone) == {}
    ensures FirstAnswering(servers, dig, zone) == |servers|
  {
    if servers != [] {
      FirstAnsweringNone(servers[1..], dig, zone);
    }
  }
}

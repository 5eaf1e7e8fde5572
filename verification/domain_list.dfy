/**
  The domain-list file as `scan_domains_from_file` (backend/scan_ch_sites.py)
  and `check_existing_file` (backend/fetch_ch_domains.py) read it: one domain
  per line, blank lines and lines starting with `#` skipped. A file is the
  sequence of its lines as Python iterates them, each still carrying its line
  terminator.
 */
module DomainList {
  import opened Wrappers
  import opened Text

  /** `line.strip() and not line.startswith('#')`: the stripped line is
      not empty (`StripEmptyIffBlank`) and the raw line, before stripping,
      does not start with `#`. */
  predicate IsDomainLine(line: string)
  {
    !IsBlank(line) && !("#" <= line)
  }

  /** `[line.strip() for line in f if line.strip() and not line.startswith('#')]` */
  function DomainLines(lines: seq<string>): seq<string>
  {
    if lines == [] then []
    else
      var last := lines[|lines| - 1];
      DomainLines(lines[..|lines| - 1]) + (if IsDomainLine(last) then [Strip(last)] else [])
  }

  /** The filter keeps file order: the domains of two consecutive parts of a
      file are those of the first part followed by those of the second. */
  lemma {:induction false} DomainLinesAppend(a: seq<string>, b: seq<string>)
    ensures DomainLines(a + b) == DomainLines(a) + DomainLines(b)
  {
    if b == [] {
      assert a + b == a;
    } else {
      assert (a + b)[..|a + b| - 1] == a + b[..|b| - 1];
      DomainLinesAppend(a, b[..|b| - 1]);
    }
  }

  /** A domain is listed exactly when some line of the file is a domain line
      whose stripped text it is. */
  lemma {:induction false} DomainLinesMembers(lines: seq<string>, d: string)
    ensures d in DomainLines(lines) <==> exists i :: 0 <= i < |lines| && IsDomainLine(lines[i]) && Strip(lines[i]) == d
  {
    if lines != [] {
      var init := lines[..|lines| - 1];
      DomainLinesMembers(init, d);
      if d in DomainLines(init) {
        var i :| 0 <= i < |init| && IsDomainLine(init[i]) && Strip(init[i]) == d;
        assert lines[i] == init[i];
      }
      if exists i :: 0 <= i < |lines| && IsDomainLine(lines[i]) && Strip(lines[i]) == d {
        var i :| 0 <= i < |lines| && IsDomainLine(lines[i]) && Strip(lines[i]) == d;
        if i < |init| {
          assert init[i] == lines[i];
        }
      }
    }
  }

  /** Every listed domain is non-empty and has no surrounding whitespace. */
  lemma {:induction false} DomainLinesStripped(lines: seq<string>)
    ensures forall k :: 0 <= k < |DomainLines(lines)| ==>
      var d := DomainLines(lines)[k]; d != [] && !IsSpace(d[0]) && !IsSpace(d[|d| - 1])
  {
    if lines != [] {
      var last := lines[|lines| - 1];
      DomainLinesStripped(lines[..|lines| - 1]);
      StripEmptyIffBlank(last);
      StripShape(last);
    }
  }

  /** The comment test looks at the raw line: an indented `#` line is kept,
      without its indentation. */
  lemma IndentedHashIsKept()
    ensures DomainLines(["# list\n", "  #x.ch\n", "\n", "a.ch\n"]) == ["#x.ch", "a.ch"]
  {
    var lines := ["# list\n", "  #x.ch\n", "\n", "a.ch\n"];
    assert IsSpace(lines[2][0]);
    assert !IsSpace(lines[1][2]) && !IsSpace(lines[3][0]);
    assert Strip("  #x.ch\n") == "#x.ch";
    assert Strip("a.ch\n") == "a.ch";
    assert lines[..3][..2][..1] == ["# list\n"];
    assert DomainLines(lines[..3][..2][..1]) == [];
  }

  /** The number of domain lines: the count `check_existing_file` reports. */
  lemma {:induction false} DomainLinesCount(lines: seq<string>)
    ensures |DomainLines(lines)| == |set i | 0 <= i < |lines| && IsDomainLine(lines[i])|
  {
    if lines != [] {
      var n := |lines| - 1;
      var init := lines[..n];
      DomainLinesCount(init);
      var before := set i | 0 <= i < n && IsDomainLine(init[i]);
      var after := set i | 0 <= i < |lines| && IsDomainLine(lines[i]);
      if IsDomainLine(lines[n]) {
        assert after == before + {n};
      } else {
        assert after == before;
      }
    }
  }

  /** `if limit: domains = domains[:limit]`, with Python's slice bounds: a
      negative limit drops that many domains from the end, and no limit or a
      zero limit keeps them all. */
  function ApplyLimit(domains: seq<string>, limit: Option<int>): (r: seq<string>)
    ensures r <= domains
    ensures limit.Some? && limit.value > 0 ==> |r| == if limit.value < |domains| then limit.value else |domains|
    ensures limit.Some? && limit.value < 0 ==> |r| == if -limit.value < |domains| then |domains| + limit.value else 0
    ensures limit.None? || limit.value == 0 ==> r == domains
  {
    match limit
    case None => domains
    case Some(n) =>
      if n == 0 then domains
      else if n > 0 then (if n < |domains| then domains[..n] else domains)
      else (if -n < |domains| then domains[..|domains| + n] else [])
  }

  /** The domains `scan_domains_from_file` scans: none when the file cannot be
      opened, otherwise the domain lines cut to the limit. */
  function DomainsToScan(file: Option<seq<string>>, limit: Option<int>): seq<string>
  {
    match file
    case None => []
    case Some(lines) => ApplyLimit(DomainLines(lines), limit)
  }

  /** Nothing is scanned from a file that cannot be opened; otherwise every
      domain scanned is a stripped line of the file that is neither blank
      nor a `#` line. */
  lemma DomainsToScanFromFile(file: Option<seq<string>>, limit: Option<int>, d: string)
    ensures file.None? ==> DomainsToScan(file, limit) == []
    ensures d in DomainsToScan(file, limit) ==>
      file.Some? && exists i :: 0 <= i < |file.value| && IsDomainLine(file.value[i]) && Strip(file.value[i]) == d
  {
    if file.Some? && d in DomainsToScan(file, limit) {
      var all := DomainLines(file.value);
      var k :| 0 <= k < |DomainsToScan(file, limit)| && DomainsToScan(file, limit)[k] == d;
      assert all[k] == d;
      DomainLinesMembers(file.value, d);
    }
  }

  /** What `check_existing_file` finds on disk. */
  datatype FileState = Missing | Unreadable | Readable(lines: seq<string>)

  /** `check_existing_file`: whether the file exists, and how many domains it
      lists (0 when it cannot be read). */
  function CheckExistingFile(f: FileState): (r: (bool, nat))
    ensures r.0 <==> !f.Missing?
    ensures f.Readable? ==> r.1 == |set i | 0 <= i < |f.lines| && IsDomainLine(f.lines[i])|
    ensures !f.Readable? ==> r.1 == 0
  {
    match f
    case Missing => (false, 0)
    case Unreadable => (true, 0)
    case Readable(lines) =>
      DomainLinesCount(lines);
      (true, |DomainLines(lines)|)
  }
}

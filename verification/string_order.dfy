/**
  Python's ordering of `str` values (lexicographic on code points, a proper
  prefix first) and `sorted(list(s))` for a set of strings.
 */
module StringOrder {

  /** `a < b` on Python strings. */
  predicate Less(a: string, b: string)
  {
    if a == [] then b != []
    else if b == [] then false
    else if a[0] != b[0] then a[0] < b[0]
    else Less(a[1..], b[1..])
  }

  lemma {:induction false} LessIrreflexive(a: string)
    ensures !Less(a, a)
  {
    if a != [] {
      LessIrreflexive(a[1..]);
    }
  }

  lemma {:induction false} LessTransitive(a: string, b: string, c: string)
    requires Less(a, b) && Less(b, c)
    ensures Less(a, c)
  {
    if a != [] && b != [] && c != [] && a[0] == b[0] && b[0] == c[0] {
      LessTransitive(a[1..], b[1..], c[1..]);
    }
  }

  lemma {:induction false} LessTotal(a: string, b: string)
    requires a != b
    ensures Less(a, b) || Less(b, a)
  {
    if a != [] && b != [] && a[0] == b[0] {
      assert a == [a[0]] + a[1..] && b == [b[0]] + b[1..];
      LessTotal(a[1..], b[1..]);
    }
  }

  /** Sorted with no element repeated. */
  predicate StrictlyAscending(xs: seq<string>)
  {
    forall i, j :: 0 <= i < j < |xs| ==> Less(xs[i], xs[j])
  }

  /** The least element of a non-empty finite set of strings. */
  method Minimum(s: set<string>) returns (m: string)
    requires s != {}
    ensures m in s
    ensures forall y :: y in s && y != m ==> Less(m, y)
  {
    m :| m in s;
    var todo := s - {m};
    while todo != {}
      invariant todo <= s && m in s && m !in todo
      invariant forall y :: y in s && y !in todo && y != m ==> Less(m, y)
      decreases |todo|
    {
      var y :| y in todo;
      if Less(y, m) {
        forall z | z in s && z !in todo && z != y
          ensures Less(y, z)
        {
          if z != m {
            LessTransitive(y, m, z);
          }
        }
        m := y;
      } else if y != m {
        LessTotal(y, m);
      }
      todo := todo - {y};
    }
  }

  /** `sorted(list(s))` */
  method SortedFromSet(s: set<string>) returns (xs: seq<string>)
    ensures StrictlyAscending(xs)
    ensures forall x :: x in xs <==> x in s
  {
    xs := [];
    var rest := s;
    while rest != {}
      invariant rest <= s
      invariant forall x :: x in s <==> x in xs || x in rest
      invariant StrictlyAscending(xs)
      invariant forall i, y :: 0 <= i < |xs| && y in rest ==> Less(xs[i], y)
      decreases |rest|
    {
      var m := Minimum(rest);
      xs := xs + [m];
      rest := rest - {m};
    }
  }
}

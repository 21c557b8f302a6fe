/** The order in which Python sorts strings, and `sorted` over a set of them. */
module PathOrder {
  /** `a < b`, character by character. */
  predicate Before(a: string, b: string) {
    if b == "" then false
    else if a == "" then true
    else a[0] < b[0] || (a[0] == b[0] && Before(a[1..], b[1..]))
  }

  ghost predicate Ascending(paths: seq<string>) {
    forall i, j :: 0 <= i < j < |paths| ==> Before(paths[i], paths[j])
  }

  lemma {:induction false} Irreflexive(a: string)
    ensures !Before(a, a)
  {
    if a != "" { Irreflexive(a[1..]); }
  }

  lemma {:induction false} Transitive(a: string, b: string, c: string)
    requires Before(a, b) && Before(b, c)
    ensures Before(a, c)
  {
    if a != "" && a[0] == b[0] == c[0] { Transitive(a[1..], b[1..], c[1..]); }
  }

  lemma {:induction false} Trichotomy(a: string, b: string)
    ensures Before(a, b) || a == b || Before(b, a)
  {
    if a != "" && b != "" && a[0] == b[0] {
      Trichotomy(a[1..], b[1..]);
      assert a == [a[0]] + a[1..] && b == [b[0]] + b[1..];
    }
  }

  lemma Asymmetric(a: string, b: string)
    requires Before(a, b)
    ensures !Before(b, a) && a != b
  {
  }

  /** A common beginning does not matter. */
  lemma {:induction false} CommonPrefix(p: string, a: string, b: string)
    ensures Before(p + a, p + b) <==> Before(a, b)
  {
    if p == "" {
      assert p + a == a && p + b == b;
    } else {
      CommonPrefix(p[1..], a, b);
      assert (p + a)[1..] == p[1..] + a && (p + b)[1..] == p[1..] + b;
    }
  }

  /** Two strings that differ somewhere stay ordered whatever follows. */
  lemma {:induction false} Diverge(a: string, b: string, x: string, y: string)
    requires Before(a, b) && !(a <= b)
    ensures Before(a + x, b + y)
  {
    if a[0] == b[0] {
      assert a == [a[0]] + a[1..] && b == [b[0]] + b[1..];
      assert a[1..] <= b[1..] ==> a <= b;
      Diverge(a[1..], b[1..], x, y);
      assert (a + x)[1..] == a[1..] + x && (b + y)[1..] == b[1..] + y;
    }
  }

  lemma {:induction false} Smallest(paths: set<string>) returns (least: string)
    requires paths != {}
    ensures least in paths && forall p :: p in paths ==> p == least || Before(least, p)
    decreases |paths|
  {
    var some :| some in paths;
    if paths == {some} {
      least := some;
    } else {
      var rest := paths - {some};
      var other := Smallest(rest);
      Trichotomy(some, other);
      if Before(some, other) {
        least := some;
        forall p | p in paths ensures p == least || Before(least, p) {
          if p != some && p != other { Transitive(some, other, p); }
        }
      } else {
        least := other;
      }
    }
  }

  lemma {:induction false} AscendingUnique(a: seq<string>, b: seq<string>)
    requires Ascending(a) && Ascending(b)
    requires forall p :: p in a <==> p in b
    ensures a == b
  {
    assert (|a| > 0 ==> a[0] in b) && (|b| > 0 ==> b[0] in a);
    if a != [] {
      HeadsAgree(a, b);
      forall p ensures p in a[1..] <==> p in b[1..] {
        TailMembers(a, p);
        TailMembers(b, p);
      }
      AscendingUnique(a[1..], b[1..]);
    }
  }

  lemma HeadsAgree(a: seq<string>, b: seq<string>)
    requires a != [] && b != [] && Ascending(a) && Ascending(b)
    requires a[0] in b && b[0] in a
    ensures a[0] == b[0]
  {
    if a[0] != b[0] { Asymmetric(a[0], b[0]); }
  }

  lemma TailMembers(a: seq<string>, p: string)
    requires a != [] && Ascending(a)
    ensures p in a[1..] <==> p in a && p != a[0]
  {
    Irreflexive(p);
  }

  lemma AscendingAppend(paths: seq<string>, p: string)
    requires Ascending(paths) && forall q :: q in paths ==> Before(q, p)
    ensures Ascending(paths + [p])
  {
  }

  /** `sorted(paths)`. */
  method Sorted(paths: set<string>) returns (sorted: seq<string>)
    ensures Ascending(sorted) && forall p :: p in sorted <==> p in paths
  {
    sorted := [];
    var rest := paths;
    while rest != {}
      invariant rest <= paths && Ascending(sorted)
      invariant forall p :: p in sorted <==> p in paths - rest
      invariant forall p, q :: p in sorted && q in rest ==> Before(p, q)
      decreases |rest|
    {
      ghost var smallest := Smallest(rest);
      var least :| least in rest && forall p :: p in rest ==> p == least || Before(least, p);
      AscendingAppend(sorted, least);
      sorted := sorted + [least];
      rest := rest - {least};
    }
  }
}

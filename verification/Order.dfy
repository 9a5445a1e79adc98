/** Byte-wise string order, and the sorted listing of a finite set of names. */
module Order {

  /** s comes strictly before t: at the first difference, or by ending first. */
  predicate Less(s: string, t: string)
    decreases |s|
  {
    if t == "" then false
    else if s == "" then true
    else if s[0] != t[0] then s[0] < t[0]
    else Less(s[1..], t[1..])
  }

  /** Less, without the recursion: some common beginning, and then the end of s or a
      smaller character. */
  lemma {:induction false} LessExactly(s: string, t: string)
    ensures Less(s, t) <==> exists k | 0 <= k <= |s| && k < |t| :: Parts(s, t, k)
    decreases |s|
  {
    if s != "" && t != "" && s[0] == t[0] {
      LessExactly(s[1..], t[1..]);
      if k :| 0 <= k <= |s[1..]| && k < |t[1..]| && Parts(s[1..], t[1..], k) {
        PartsLater(s, t, k);
      }
      if k :| 0 <= k <= |s| && k < |t| && Parts(s, t, k) {
        assert k > 0;
        PartsLater(s, t, k - 1);
      }
    } else if t != "" && Less(s, t) {
      assert Parts(s, t, 0);
    }
  }

  /** The two agree on their first k characters, and there s ends or goes on smaller. */
  predicate Parts(s: string, t: string, k: nat)
    requires k <= |s| && k < |t|
  {
    s[..k] == t[..k] && (k == |s| || s[k] < t[k])
  }

  lemma {:induction false} PartsLater(s: string, t: string, k: nat)
    requires s != "" && t != "" && s[0] == t[0] && k < |s| && k + 1 < |t|
    ensures Parts(s, t, k + 1) <==> Parts(s[1..], t[1..], k)
  {
    assert s[..k + 1] == [s[0]] + s[1..][..k] && t[..k + 1] == [t[0]] + t[1..][..k];
    if s[..k + 1] == t[..k + 1] {
      assert s[1..][..k] == s[..k + 1][1..] == t[..k + 1][1..] == t[1..][..k];
    }
  }

  lemma {:induction false} LessTransitive(s: string, t: string, u: string)
    requires Less(s, t) && Less(t, u)
    ensures Less(s, u)
    decreases |s|
  {
    if s != "" && s[0] == t[0] && t[0] == u[0] {
      LessTransitive(s[1..], t[1..], u[1..]);
    }
  }

  lemma {:induction false} LessTotal(s: string, t: string)
    ensures Less(s, t) || s == t || Less(t, s)
    decreases |s|
  {
    if s != "" && t != "" && s[0] == t[0] {
      LessTotal(s[1..], t[1..]);
      assert s == [s[0]] + s[1..] && t == [t[0]] + t[1..];
    }
  }

  lemma {:induction false} LessIrreflexive(s: string)
    ensures !Less(s, s)
    decreases |s|
  {
    if s != "" {
      LessIrreflexive(s[1..]);
    }
  }

  ghost predicate IsFirst(s: string, names: set<string>) {
    s in names && forall t | t in names && t != s :: Less(s, t)
  }

  lemma {:induction false} FirstExists(names: set<string>)
    requires names != {}
    ensures exists s :: IsFirst(s, names)
    decreases |names|
  {
    var x :| x in names;
    var rest := names - {x};
    assert names == rest + {x};
    if rest == {} {
      assert IsFirst(x, names);
    } else {
      FirstExists(rest);
      var y :| IsFirst(y, rest);
      LessTotal(x, y);
      if Less(y, x) {
        assert IsFirst(y, names);
      } else {
        forall t | t in names && t != x
          ensures Less(x, t)
        {
          if t != y {
            LessTransitive(x, y, t);
          }
        }
        assert IsFirst(x, names);
      }
    }
  }

  lemma FirstUnique(s: string, t: string, names: set<string>)
    requires IsFirst(s, names) && IsFirst(t, names)
    ensures s == t
  {
    if s != t {
      LessTransitive(s, t, s);
      LessIrreflexive(s);
    }
  }

  ghost function First(names: set<string>): (s: string)
    requires names != {}
    ensures IsFirst(s, names)
  {
    FirstExists(names);
    var s :| IsFirst(s, names);
    s
  }

  /** The names in order. */
  ghost function Sorted(names: set<string>): (s: seq<string>)
    ensures forall n :: n in s <==> n in names
    ensures |s| == |names|
    decreases |names|
  {
    if names == {} then [] else [First(names)] + Sorted(names - {First(names)})
  }

  ghost predicate Ascending(s: seq<string>) {
    forall i, j | 0 <= i < j < |s| :: Less(s[i], s[j])
  }

  lemma {:induction false} SortedAscending(names: set<string>)
    ensures Ascending(Sorted(names))
    ensures forall i, j | 0 <= i < j < |Sorted(names)| :: Sorted(names)[i] != Sorted(names)[j]
    decreases |names|
  {
    if names != {} {
      var rest := names - {First(names)};
      SortedAscending(rest);
      forall i, j | 0 <= i < j < |Sorted(names)|
        ensures Less(Sorted(names)[i], Sorted(names)[j]) && Sorted(names)[i] != Sorted(names)[j]
      {
        assert Sorted(names)[j] == Sorted(rest)[j - 1];
        if i == 0 {
          assert Sorted(rest)[j - 1] in rest;
        }
      }
    }
  }

  method List(names: set<string>) returns (s: seq<string>)
    ensures s == Sorted(names)
  {
    s := [];
    var rest := names;
    while rest != {}
      invariant s + Sorted(rest) == Sorted(names)
      decreases |rest|
    {
      FirstExists(rest);
      var n :| n in rest && forall t | t in rest && t != n :: Less(n, t);
      FirstUnique(n, First(rest), rest);
      assert s + ([n] + Sorted(rest - {n})) == (s + [n]) + Sorted(rest - {n});
      s := s + [n];
      rest := rest - {n};
    }
  }
}

/** The iteration order of a BTreeMap with string keys. */
module KeyOrder {
  import opened Base

  predicate Less(a: string, b: string) {
    b != [] && (a == [] || a[0] < b[0] || (a[0] == b[0] && Less(a[1..], b[1..])))
  }

  /** `a` and `b` agree up to position `i`, where `a` ends or has the smaller character. */
  ghost predicate FirstDiffers(a: string, b: string, i: nat) {
    && i <= |a| && i < |b| && a[..i] == b[..i]
    && (i == |a| || (i < |a| && a[i] < b[i]))
  }

  /** `a` comes before `b` in the order of strings, character by character. */
  ghost predicate Before(a: string, b: string) {
    exists i: nat :: FirstDiffers(a, b, i)
  }

  ghost predicate StrictlySorted(s: seq<string>) {
    forall i, j | 0 <= i < j < |s| :: Before(s[i], s[j])
  }

  lemma DiffersOneOn(a: string, b: string, i: nat)
    requires a != [] && b != [] && a[0] == b[0]
    ensures FirstDiffers(a, b, i + 1) <==> FirstDiffers(a[1..], b[1..], i)
  {
    if i < |a| && i < |b| {
      assert a[..i + 1] == [a[0]] + a[1..][..i] && b[..i + 1] == [b[0]] + b[1..][..i];
    }
  }

  /** The comparison is that order. */
  lemma {:induction false} LessMeans(a: string, b: string)
    ensures Less(a, b) <==> Before(a, b)
  {
    if a == [] || b == [] || a[0] != b[0] {
      assert b != [] && (a == [] || a[0] < b[0]) ==> FirstDiffers(a, b, 0);
      forall i: nat | FirstDiffers(a, b, i) ensures i == 0 { }
    } else {
      LessMeans(a[1..], b[1..]);
      if Less(a, b) {
        var i: nat :| FirstDiffers(a[1..], b[1..], i);
        DiffersOneOn(a, b, i);
      }
      forall i: nat | FirstDiffers(a, b, i) ensures Before(a[1..], b[1..]) { DiffersOneOn(a, b, i - 1); }
    }
  }

  lemma {:induction false} LessTotal(a: string, b: string)
    ensures a == b || Less(a, b) || Less(b, a)
    ensures !(Less(a, b) && Less(b, a)) && !(a == b && Less(a, b))
  {
    if a == [] || b == [] {
    } else {
      LessTotal(a[1..], b[1..]);
      assert a == [a[0]] + a[1..] && b == [b[0]] + b[1..];
    }
  }

  lemma {:induction false} LessTransitive(a: string, b: string, c: string)
    requires Less(a, b) && Less(b, c)
    ensures Less(a, c)
  {
    if a == [] || b == [] || a[0] != b[0] || b[0] != c[0] {
    } else {
      LessTransitive(a[1..], b[1..], c[1..]);
    }
  }

  predicate IsLeast(m: string, s: set<string>) {
    m in s && forall k | k in s :: k == m || Less(m, k)
  }

  lemma {:induction false} LeastExists(s: set<string>) returns (m: string)
    requires s != {}
    ensures IsLeast(m, s)
    decreases |s|
  {
    m :| m in s;
    if s != {m} {
      var m' := LeastExists(s - {m});
      LessTotal(m, m');
      if Less(m', m) { m := m'; }
      else {
        forall k | k in s && k != m ensures Less(m, k) {
          if k != m' { LessTransitive(m, m', k); }
        }
      }
    }
  }

  lemma LeastUnique(s: set<string>)
    ensures forall a, b | IsLeast(a, s) && IsLeast(b, s) :: a == b
  {
    forall a, b | IsLeast(a, s) && IsLeast(b, s) ensures a == b { LessTotal(a, b); }
  }

  function Least(s: set<string>): (m: string)
    requires s != {}
    ensures IsLeast(m, s)
  {
    assert exists m :: m in s && IsLeast(m, s) by { var m := LeastExists(s); }
    LeastUnique(s);
    var m :| m in s && IsLeast(m, s);
    m
  }

  lemma Prepend(m: string, s: set<string>, rest: seq<string>)
    requires IsLeast(m, s) && StrictlySorted(rest) && ToSet(rest) == s - {m}
    ensures StrictlySorted([m] + rest) && ToSet([m] + rest) == s
  {
    forall x | x in rest ensures Before(m, x) {
      assert x in ToSet(rest);
      LessMeans(m, x);
    }
    var r := [m] + rest;
    forall x | x in s ensures x in r { assert x == m || x in ToSet(rest); }
    forall x | x in r ensures x in s { assert x == m || x in ToSet(rest); }
  }

  /** The keys in ascending order. */
  function Ascending(s: set<string>): (r: seq<string>)
    ensures StrictlySorted(r) && ToSet(r) == s
    decreases |s|
  {
    if s == {} then [] else
      var m := Least(s);
      var rest := Ascending(s - {m});
      Prepend(m, s, rest);
      [m] + rest
  }
}

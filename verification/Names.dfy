/** Lexicographic order on names, and the sorting of names the fan-out and the configuration rely on. */
module Names {

  /** Strictly before in lexicographic order. */
  predicate Before(a: string, b: string) {
    b != "" && (a == "" || a[0] < b[0] || (a[0] == b[0] && Before(a[1..], b[1..])))
  }

  /** A proper prefix comes first; otherwise the first character that differs decides. */
  lemma {:induction false} BeforeIff(a: string, b: string)
    ensures Before(a, b) <==> exists k: nat :: Decides(a, b, k)
  {
    if Before(a, b) {
      if a == "" || a[0] < b[0] {
        assert Decides(a, b, 0);
      } else {
        BeforeIff(a[1..], b[1..]);
        var k: nat :| Decides(a[1..], b[1..], k);
        assert a == [a[0]] + a[1..] && b == [b[0]] + b[1..];
        assert Decides(a, b, k + 1);
      }
    }
    if k: nat :| Decides(a, b, k) {
      if k > 0 {
        assert a[..k][0] == b[..k][0] && a[..k][1..] == a[1..][..k - 1] && b[..k][1..] == b[1..][..k - 1];
        assert Decides(a[1..], b[1..], k - 1);
        BeforeIff(a[1..], b[1..]);
      }
    }
  }

  /** The names agree up to k, where the first one ends or has the smaller character. */
  ghost predicate Decides(a: string, b: string, k: nat) {
    k <= |a| && k < |b| && a[..k] == b[..k] && (k == |a| || a[k] < b[k])
  }

  lemma {:induction false} BeforeTotal(a: string, b: string)
    ensures Before(a, b) || a == b || Before(b, a)
    ensures !(Before(a, b) && Before(b, a)) && !Before(a, a)
  {
    if a != "" && b != "" {
      BeforeTotal(a[1..], b[1..]);
      BeforeTotal(a[1..], a[1..]);
      if a[0] == b[0] && a[1..] == b[1..] {
        assert a == [a[0]] + a[1..] && b == [b[0]] + b[1..];
      }
    } else if a != "" {
      BeforeTotal(a[1..], a[1..]);
    }
  }

  lemma {:induction false} BeforeTransitive(a: string, b: string, c: string)
    requires Before(a, b) && Before(b, c)
    ensures Before(a, c)
  {
    if a != "" && a[0] == b[0] == c[0] {
      BeforeTransitive(a[1..], b[1..], c[1..]);
    }
  }

  ghost predicate Ascending(names: seq<string>) {
    forall i, j | 0 <= i < j < |names| :: Before(names[i], names[j])
  }

  ghost predicate Distinct<T>(xs: seq<T>) {
    forall i, j | 0 <= i < j < |xs| :: xs[i] != xs[j]
  }

  lemma AscendingDistinct(names: seq<string>)
    requires Ascending(names)
    ensures Distinct(names)
  {
    forall i, j | 0 <= i < j < |names| ensures names[i] != names[j] {
      BeforeTotal(names[i], names[i]);
    }
  }

  /** Inserts a new name into ascending names. */
  method Insert(names: seq<string>, name: string) returns (r: seq<string>)
    requires Ascending(names) && name !in names
    ensures Ascending(r) && forall n :: n in r <==> n in names || n == name
  {
    var i := 0;
    while i < |names| && Before(names[i], name)
      invariant 0 <= i <= |names|
      invariant forall k | 0 <= k < i :: Before(names[k], name)
    {
      i := i + 1;
    }
    r := names[..i] + [name] + names[i..];
    forall k | i <= k < |names| ensures Before(name, names[k]) {
      BeforeTotal(name, names[i]);
      if k > i {
        BeforeTransitive(name, names[i], names[k]);
      }
    }
    assert forall n | n in names :: n in names[..i] || n in names[i..];
  }

  /** The names of a set, in order: a map's keys collected in any order and then sorted. */
  method Sorted(names: set<string>) returns (r: seq<string>)
    ensures Ascending(r) && forall n :: n in r <==> n in names
  {
    r := [];
    var left := names;
    while left != {}
      invariant left <= names
      invariant Ascending(r) && forall n :: n in r <==> n in names - left
    {
      var name :| name in left;
      r := Insert(r, name);
      left := left - {name};
    }
  }
}

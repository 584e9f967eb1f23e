/** Lexicographic orders: strings by character, lists of strings by string. */
module Orders {

  predicate StrLess(a: string, b: string) {
    if |b| == 0 then false
    else if |a| == 0 then true
    else a[0] < b[0] || (a[0] == b[0] && StrLess(a[1..], b[1..]))
  }

  lemma {:induction false} StrIrreflexive(a: string)
    ensures !StrLess(a, a)
  {
    if |a| == 0 {
    } else {
      StrIrreflexive(a[1..]);
    }
  }

  lemma {:induction false} StrTransitive(a: string, b: string, c: string)
    requires StrLess(a, b) && StrLess(b, c)
    ensures StrLess(a, c)
  {
    if |a| == 0 || a[0] != b[0] || b[0] != c[0] {
    } else {
      StrTransitive(a[1..], b[1..], c[1..]);
    }
  }

  lemma {:induction false} StrTotal(a: string, b: string)
    ensures StrLess(a, b) || a == b || StrLess(b, a)
  {
    if |a| == 0 || |b| == 0 {
    } else {
      assert a == [a[0]] + a[1..] && b == [b[0]] + b[1..];
      StrTotal(a[1..], b[1..]);
    }
  }

  predicate ListLess(a: seq<string>, b: seq<string>) {
    if |b| == 0 then false
    else if |a| == 0 then true
    else StrLess(a[0], b[0]) || (a[0] == b[0] && ListLess(a[1..], b[1..]))
  }

  lemma {:induction false} ListIrreflexive(a: seq<string>)
    ensures !ListLess(a, a)
  {
    if |a| == 0 {
    } else {
      StrIrreflexive(a[0]);
      ListIrreflexive(a[1..]);
    }
  }

  lemma {:induction false} ListTransitive(a: seq<string>, b: seq<string>, c: seq<string>)
    requires ListLess(a, b) && ListLess(b, c)
    ensures ListLess(a, c)
  {
    if |a| > 0 {
      if StrLess(a[0], b[0]) && StrLess(b[0], c[0]) { StrTransitive(a[0], b[0], c[0]); }
      else if !StrLess(a[0], b[0]) && !StrLess(b[0], c[0]) { ListTransitive(a[1..], b[1..], c[1..]); }
    }
  }

  lemma {:induction false} ListTotal(a: seq<string>, b: seq<string>)
    ensures ListLess(a, b) || a == b || ListLess(b, a)
  {
    if |a| == 0 || |b| == 0 {
    } else {
      assert a == [a[0]] + a[1..] && b == [b[0]] + b[1..];
      StrTotal(a[0], b[0]);
      ListTotal(a[1..], b[1..]);
    }
  }

  // ----- What the order means

  /** `a` is a proper prefix of `b`, or has the smaller character where they first differ. */
  ghost predicate Before(a: string, b: string) {
    exists i :: 0 <= i <= |a| && i < |b| && a[..i] == b[..i] && (i == |a| || a[i] < b[i])
  }

  lemma HeadsAgree(a: string, b: string, i: nat)
    requires 0 < i <= |a| && i <= |b| && a[..i] == b[..i]
    ensures a[0] == b[0]
  {
    assert a[..i][0] == b[..i][0];
  }

  /** Equal first characters do not matter. */
  lemma TailBefore(a: string, b: string)
    requires |a| > 0 && |b| > 0 && a[0] == b[0]
    ensures Before(a[1..], b[1..]) <==> Before(a, b)
  {
    if Before(a[1..], b[1..]) {
      var i :| 0 <= i <= |a[1..]| && i < |b[1..]| && a[1..][..i] == b[1..][..i] && (i == |a[1..]| || a[1..][i] < b[1..][i]);
      assert a[..i + 1] == [a[0]] + a[1..][..i] && b[..i + 1] == [b[0]] + b[1..][..i];
    }
    if Before(a, b) {
      var i :| 0 <= i <= |a| && i < |b| && a[..i] == b[..i] && (i == |a| || a[i] < b[i]);
      if i > 0 {
        assert a[1..][..i - 1] == a[..i][1..] && b[1..][..i - 1] == b[..i][1..];
      }
    }
  }

  lemma {:induction false} StrLessIsBefore(a: string, b: string)
    ensures StrLess(a, b) <==> Before(a, b)
  {
    if |b| == 0 {
    } else if |a| == 0 {
      assert a[..0] == b[..0];
    } else if a[0] == b[0] {
      StrLessIsBefore(a[1..], b[1..]);
      TailBefore(a, b);
    } else {
      assert a[..0] == b[..0];
      if Before(a, b) {
        var i :| 0 <= i <= |a| && i < |b| && a[..i] == b[..i] && (i == |a| || a[i] < b[i]);
        if i > 0 { HeadsAgree(a, b, i); }
      }
    }
  }
}

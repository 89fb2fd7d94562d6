// The key under which a browser configuration is cached.
module Keys {

  function LowerChar(c: char): (r: char)
    ensures r == '/' <==> c == '/'
    ensures r == ':' <==> c == ':'
  {
    if 'A' <= c <= 'Z' then c - 'A' + 'a' else c
  }

  function Lower(s: string): (r: string)
    ensures |r| == |s|
    ensures forall i :: 0 <= i < |s| ==> r[i] == LowerChar(s[i])
  {
    seq(|s|, i requires 0 <= i < |s| => LowerChar(s[i]))
  }

  function KeyFor(namespace: string, browser: string, version: string): string {
    namespace + "/" + Lower(browser) + ":" + Lower(version)
  }

  // The same letter, up to its case, or the very same character.
  predicate SameLetter(c: char, d: char) {
    || c == d
    || ('A' <= c <= 'Z' && d as int == c as int + 32)
    || ('A' <= d <= 'Z' && c as int == d as int + 32)
  }

  predicate SameName(a: string, b: string) {
    |a| == |b| && forall i :: 0 <= i < |a| ==> SameLetter(a[i], b[i])
  }

  lemma LowerExact(a: string, b: string)
    ensures Lower(a) == Lower(b) <==> SameName(a, b)
  {
    if SameName(a, b) {
      assert forall i :: 0 <= i < |a| ==> SameLetter(a[i], b[i]) && Lower(a)[i] == Lower(b)[i];
    }
    if Lower(a) == Lower(b) {
      forall i | 0 <= i < |a| ensures SameLetter(a[i], b[i]) {
        assert Lower(a)[i] == Lower(b)[i];
      }
    }
  }

  // A separator that does not occur before the place where the strings are split
  // determines that place.
  lemma SplitOnce(a: string, x: string, b: string, y: string, sep: char)
    requires sep !in a && sep !in b
    requires a + [sep] + x == b + [sep] + y
    ensures a == b && x == y
  {
    var s, t := a + [sep] + x, b + [sep] + y;
    assert s[|a|] == sep && t[|b|] == sep;
    assert forall i :: 0 <= i < |a| ==> s[i] == a[i] && a[i] in a;
    assert forall i :: 0 <= i < |b| ==> t[i] == b[i] && b[i] in b;
    assert a == s[..|a|] && b == t[..|b|];
    assert x == s[|a| + 1..] && y == t[|b| + 1..];
  }

  // One name, followed by a colon, begins another, up to letter case.
  predicate Nested(a: string, b: string) {
    |a| < |b| && b[|a|] == ':' && SameName(a, b[..|a|])
  }

  lemma NestedExact(a: string, b: string)
    ensures Nested(a, b) <==> Lower(a) + ":" <= Lower(b)
  {
    if |a| < |b| {
      LowerExact(a, b[..|a|]);
      assert Lower(b[..|a|]) == Lower(b)[..|a|];
      assert Lower(a) + ":" <= Lower(b) <==> Lower(b)[..|a|] == Lower(a) && Lower(b)[|a|] == ':';
    }
  }

  lemma MeetingWords(l1: string, x1: string, l2: string, x2: string)
    requires l1 + ":" + x1 == l2 + ":" + x2
    ensures (l1 == l2 && x1 == x2) || l1 + ":" <= l2 || l2 + ":" <= l1
  {
    var s, t := l1 + ":" + x1, l2 + ":" + x2;
    assert s[..|l1|] == l1 && s[|l1|] == ':' && t[..|l2|] == l2 && t[|l2|] == ':';
    if |l1| == |l2| {
      assert s[|l1| + 1..] == x1 && t[|l2| + 1..] == x2;
    } else if |l1| < |l2| {
      assert l2[..|l1| + 1] == s[..|l1| + 1] == l1 + ":";
    } else {
      assert l1[..|l2| + 1] == t[..|l2| + 1] == l2 + ":";
    }
  }

  // Equal keys of one namespace: one of the two names ends where the other's version starts.
  lemma MeetingNames(n: string, b1: string, v1: string, b2: string, v2: string)
    requires KeyFor(n, b1, v1) == KeyFor(n, b2, v2)
    ensures (SameName(b1, b2) && SameName(v1, v2)) || Nested(b1, b2) || Nested(b2, b1)
  {
    hide Lower, Nested, SameName;
    LowerExact(b1, b2);
    LowerExact(v1, v2);
    NestedExact(b1, b2);
    NestedExact(b2, b1);
    var x, y := Lower(b1) + ":" + Lower(v1), Lower(b2) + ":" + Lower(v2);
    assert n + "/" + x == KeyFor(n, b1, v1) && n + "/" + y == KeyFor(n, b2, v2);
    assert x == (n + "/" + x)[|n| + 1..] && y == (n + "/" + y)[|n| + 1..];
    MeetingWords(Lower(b1), Lower(v1), Lower(b2), Lower(v2));
  }

  // Such names do share a key.
  lemma NestedMeet(n: string, b1: string, b2: string)
    requires Nested(b1, b2)
    ensures exists v1, v2 ::
      KeyFor(n, b1, v1) == KeyFor(n, b2, v2) && !SameName(b1, b2)
  {
    hide SameName;
    NestedExact(b1, b2);
    LowerExact(b1, b2);
    var l1, l2 := Lower(b1), Lower(b2);
    var v1 := l2[|l1| + 1..] + ":";
    LowerAgain(b2, |l1| + 1);
    assert Lower(v1) == v1 by { assert forall i :: 0 <= i < |v1| ==> v1[i] == LowerChar(v1[i]); }
    assert Lower("") == "";
    assert l1 + ":" + v1 == l2 + ":";
    assert KeyFor(n, b1, v1) == n + "/" + (l1 + ":" + v1);
    assert KeyFor(n, b2, "") == n + "/" + (l2 + ":");
    assert KeyFor(n, b1, v1) == KeyFor(n, b2, "");
  }

  lemma LowerAgain(s: string, from: nat)
    requires from <= |s|
    ensures forall i :: 0 <= i < |s| - from ==> LowerChar(Lower(s)[from..][i]) == Lower(s)[from..][i]
  {
  }

  // Two browser names can meet in a key exactly when they are the same up to letter case
  // or one of them, followed by a colon, begins the other.
  lemma KeysMeet(n1: string, b1: string, n2: string, b2: string)
    requires '/' !in n1 && '/' !in n2
    ensures (exists v1, v2 :: KeyFor(n1, b1, v1) == KeyFor(n2, b2, v2))
       <==> n1 == n2 && (SameName(b1, b2) || Nested(b1, b2) || Nested(b2, b1))
  {
    hide Lower, Nested;
    forall v1, v2 | KeyFor(n1, b1, v1) == KeyFor(n2, b2, v2)
      ensures n1 == n2 && (SameName(b1, b2) || Nested(b1, b2) || Nested(b2, b1))
    {
      SameNamespace(n1, b1, v1, n2, b2, v2);
      MeetingNames(n1, b1, v1, b2, v2);
    }
    if n1 == n2 {
      if SameName(b1, b2) {
        assert KeyFor(n1, b1, "") == KeyFor(n2, b2, "");
      } else if Nested(b1, b2) {
        NestedMeet(n1, b1, b2);
      } else if Nested(b2, b1) {
        NestedMeet(n1, b2, b1);
      }
    }
  }

  lemma SameNamespace(n1: string, b1: string, v1: string, n2: string, b2: string, v2: string)
    requires '/' !in n1 && '/' !in n2 && KeyFor(n1, b1, v1) == KeyFor(n2, b2, v2)
    ensures n1 == n2
  {
    var x, y := Lower(b1) + ":" + Lower(v1), Lower(b2) + ":" + Lower(v2);
    assert KeyFor(n1, b1, v1) == n1 + ['/'] + x && KeyFor(n2, b2, v2) == n2 + ['/'] + y;
    SplitOnce(n1, x, n2, y, '/');
  }

  // The lookups of two browsers never meet by mistake, whatever their versions, exactly
  // when neither name, followed by a colon, begins the other.
  lemma KeysApartExactly(n: string, b1: string, b2: string)
    ensures (forall v1, v2 :: KeyFor(n, b1, v1) == KeyFor(n, b2, v2) ==>
               SameName(b1, b2) && SameName(v1, v2))
       <==> !Nested(b1, b2) && !Nested(b2, b1)
  {
    hide KeyFor, Lower, Nested;
    if !Nested(b1, b2) && !Nested(b2, b1) {
      forall v1, v2 | KeyFor(n, b1, v1) == KeyFor(n, b2, v2) ensures SameName(b1, b2) && SameName(v1, v2) {
        MeetingNames(n, b1, v1, b2, v2);
      }
    } else if Nested(b1, b2) {
      NestedMeet(n, b1, b2);
    } else {
      NestedMeet(n, b2, b1);
    }
  }

  // A name without a colon is never begun by another one and a colon.
  lemma NestedHasColon(a: string, b: string)
    requires Nested(a, b)
    ensures ':' in b
  {
    assert Lower(b)[|a|] == (Lower(a) + ":")[|a|] == ':';
    assert b[|a|] == ':';
  }

  // Two lookups meet the same key exactly when they name the same namespace and, up to
  // letter case, the same browser and version.
  lemma KeyForInjective(n1: string, b1: string, v1: string, n2: string, b2: string, v2: string)
    requires '/' !in n1 && '/' !in n2
    requires !Nested(b1, b2) && !Nested(b2, b1)
    ensures KeyFor(n1, b1, v1) == KeyFor(n2, b2, v2)
       <==> n1 == n2 && SameName(b1, b2) && SameName(v1, v2)
  {
    if KeyFor(n1, b1, v1) == KeyFor(n2, b2, v2) {
      SameNamespace(n1, b1, v1, n2, b2, v2);
      MeetingNames(n1, b1, v1, b2, v2);
    }
  }

  // Kubernetes names have no such separators: then a key is found under any casing of the
  // browser's name and version, and under nothing else.
  lemma PlainKeysExact(n1: string, b1: string, v1: string, n2: string, b2: string, v2: string)
    requires '/' !in n1 && '/' !in n2 && ':' !in b1 && ':' !in b2
    ensures KeyFor(n1, b1, v1) == KeyFor(n2, b2, v2) <==> n1 == n2 && SameName(b1, b2) && SameName(v1, v2)
  {
    hide KeyFor, SameName;
    KeyForInjective(n1, b1, v1, n2, b2, v2);
  }
}

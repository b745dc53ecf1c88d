/** Strings as the services compare, sort and trim them. */
module Text {

  /** Byte order, which for UTF-8 is the order of the code points. */
  predicate Less(a: string, b: string) {
    if b == "" then false
    else if a == "" then true
    else a[0] < b[0] || (a[0] == b[0] && Less(a[1..], b[1..]))
  }

  lemma {:induction false} LessTotal(a: string, b: string)
    ensures a == b || Less(a, b) || Less(b, a)
    ensures !(Less(a, b) && Less(b, a))
    ensures a == b ==> !Less(a, b)
  {
    if a != "" && b != "" && a[0] == b[0] {
      LessTotal(a[1..], b[1..]);
      assert a == [a[0]] + a[1..] && b == [b[0]] + b[1..];
    }
  }

  lemma {:induction false} LessTransitive(a: string, b: string, c: string)
    requires Less(a, b) && Less(b, c)
    ensures Less(a, c)
  {
    if a != "" && a[0] == b[0] == c[0] {
      LessTransitive(a[1..], b[1..], c[1..]);
    }
  }

  predicate Ascending(s: seq<string>) {
    forall i, j :: 0 <= i < j < |s| ==> Less(s[i], s[j])
  }

  predicate IsLeast(m: string, keys: set<string>) {
    m in keys && forall k :: k in keys && k != m ==> Less(m, k)
  }

  lemma LeastExists(keys: set<string>)
    requires keys != {}
    ensures exists m :: IsLeast(m, keys)
    ensures forall m, n :: IsLeast(m, keys) && IsLeast(n, keys) ==> m == n
  {
    forall m, n | IsLeast(m, keys) && IsLeast(n, keys) ensures m == n {
      LessTotal(m, n);
    }
    var x :| x in keys;
    var rest := keys - {x};
    assert forall k :: k in keys ==> k == x || k in rest;
    if rest == {} {
      assert IsLeast(x, keys);
    } else {
      LeastExists(rest);
      var m :| IsLeast(m, rest);
      LessTotal(m, x);
      if Less(x, m) {
        forall k | k in keys && k != x ensures Less(x, k) {
          if k != m { LessTransitive(x, m, k); }
        }
        assert IsLeast(x, keys);
      } else {
        assert IsLeast(m, keys);
      }
    }
  }

  /** The keys in the order that sort.Strings gives them. */
  function Sorted(keys: set<string>): (s: seq<string>)
    ensures Ascending(s)
    ensures forall k :: k in s <==> k in keys
  {
    if keys == {} then [] else
      LeastExists(keys);
      var m :| m in keys && IsLeast(m, keys);
      [m] + Sorted(keys - {m})
  }

  /** White space as unicode.IsSpace has it. */
  predicate IsSpace(c: char) {
    c in {'\t', '\n', '\U{0B}', '\U{0C}', '\r', ' ', '\U{85}', '\U{A0}', '\U{1680}',
          '\U{2028}', '\U{2029}', '\U{202F}', '\U{205F}', '\U{3000}'}
    || '\U{2000}' <= c <= '\U{200A}'
  }

  function TrimSpace(s: string): (t: string)
    ensures t == "" <==> forall i :: 0 <= i < |s| ==> IsSpace(s[i])
    ensures t != "" ==> !IsSpace(t[0]) && !IsSpace(t[|t| - 1])
  {
    if s == "" then ""
    else if IsSpace(s[0]) then TrimSpace(s[1..])
    else if IsSpace(s[|s| - 1]) then TrimSpace(s[..|s| - 1])
    else s
  }

  /** Only white space comes before i and from j on. */
  predicate Framed(s: string, i: nat, j: nat) {
    i <= j <= |s| && forall k :: 0 <= k < |s| && (k < i || j <= k) ==> IsSpace(s[k])
  }

  /** What TrimSpace leaves is a part of the string with only white space around it. */
  lemma {:induction false} TrimIs(s: string)
    ensures exists i: nat, j: nat :: Framed(s, i, j) && s[i..j] == TrimSpace(s)
  {
    hide IsSpace;
    if s == "" {
      assert Framed(s, 0, 0);
    } else if IsSpace(s[0]) {
      TrimIs(s[1..]);
      var i: nat, j: nat :| Framed(s[1..], i, j) && s[1..][i..j] == TrimSpace(s[1..]);
      hide Framed;
      FramedFromLeft(s, i, j);
    } else if IsSpace(s[|s| - 1]) {
      TrimIs(s[..|s| - 1]);
      var i: nat, j: nat :| Framed(s[..|s| - 1], i, j) && s[..|s| - 1][i..j] == TrimSpace(s[..|s| - 1]);
      hide Framed;
      FramedFromRight(s, i, j);
    } else {
      assert Framed(s, 0, |s|) && s[0..|s|] == s;
    }
  }

  lemma FramedFromLeft(s: string, i: nat, j: nat)
    requires s != "" && IsSpace(s[0]) && Framed(s[1..], i, j)
    ensures i <= j < |s| && Framed(s, i + 1, j + 1) && s[i + 1..j + 1] == s[1..][i..j]
  {
    hide IsSpace;
    assert forall k :: 1 <= k < |s| ==> s[k] == s[1..][k - 1];
  }

  lemma FramedFromRight(s: string, i: nat, j: nat)
    requires s != "" && IsSpace(s[|s| - 1]) && Framed(s[..|s| - 1], i, j)
    ensures i <= j < |s| && Framed(s, i, j) && s[i..j] == s[..|s| - 1][i..j]
  {
    hide IsSpace;
  }

  predicate Bare(t: string) {
    t != "" && !IsSpace(t[0]) && !IsSpace(t[|t| - 1])
  }

  /** And the only such part that is not blank at either end. */
  lemma OneFrame(s: string, i: nat, j: nat, k: nat, l: nat)
    requires Framed(s, i, j) && Framed(s, k, l) && Bare(s[i..j]) && (s[k..l] == "" || Bare(s[k..l]))
    ensures i == k && j == l
  {
    hide IsSpace;
    assert s[i..j][0] == s[i] && s[i..j][j - i - 1] == s[j - 1];
    if k < l {
      assert s[k..l][0] == s[k] && s[k..l][l - k - 1] == s[l - 1];
    }
  }
}

/** Python's `str.join`, the only string combinator the query builder uses. */
module Strings {

  /** `sep.join(parts)`: the parts in order with `sep` between neighbours,
      built from the left as the handler builds its clause. */
  function Join(parts: seq<string>, sep: string): string
  {
    if |parts| == 0 then ""
    else if |parts| == 1 then parts[0]
    else Join(parts[..|parts| - 1], sep) + sep + parts[|parts| - 1]
  }

  /** Sum of the lengths of the parts. */
  function TotalLength(parts: seq<string>): nat
  {
    if |parts| == 0 then 0 else TotalLength(parts[..|parts| - 1]) + |parts[|parts| - 1]|
  }

  /** A joined string is exactly the parts plus one separator between each
      neighbouring pair: nothing is added, dropped or repeated. */
  lemma {:induction false} JoinLength(parts: seq<string>, sep: string)
    requires |parts| >= 1
    ensures |Join(parts, sep)| == TotalLength(parts) + (|parts| - 1) * |sep|
  {
    if |parts| > 1 {
      JoinLength(parts[..|parts| - 1], sep);
    }
  }

  /** Prepending a part puts it and one separator in front of the joined
      text: joining from the left or from the right gives the same string. */
  lemma {:induction false} JoinCons(p: string, parts: seq<string>, sep: string)
    requires |parts| >= 1
    ensures Join([p] + parts, sep) == p + sep + Join(parts, sep)
  {
    var all := [p] + parts;
    if |parts| == 1 {
      assert all[..1] == [p];
    } else {
      var init := parts[..|parts| - 1];
      assert all[..|all| - 1] == [p] + init;
      JoinCons(p, init, sep);
    }
  }

  /** Eight parts joined: the shape of a SELECT list. */
  lemma JoinEight(a: string, b: string, c: string, d: string, e: string, f: string, g: string, h: string, sep: string)
    ensures Join([a, b, c, d, e, f, g, h], sep) == a + sep + b + sep + c + sep + d + sep + e + sep + f + sep + g + sep + h
  {
    var p := [a, b, c, d, e, f, g, h];
    assert p[..1] == [a];
    assert Join(p[..1], sep) == a;
    assert p[..2][..1] == p[..1] && p[..2][1] == b;
    assert Join(p[..2], sep) == a + sep + b;
    assert p[..3][..2] == p[..2] && p[..3][2] == c;
    assert Join(p[..3], sep) == a + sep + b + sep + c;
    assert p[..4][..3] == p[..3] && p[..4][3] == d;
    assert Join(p[..4], sep) == a + sep + b + sep + c + sep + d;
    assert p[..5][..4] == p[..4] && p[..5][4] == e;
    assert Join(p[..5], sep) == a + sep + b + sep + c + sep + d + sep + e;
    assert p[..6][..5] == p[..5] && p[..6][5] == f;
    assert Join(p[..6], sep) == a + sep + b + sep + c + sep + d + sep + e + sep + f;
    assert p[..7][..6] == p[..6] && p[..7][6] == g;
    assert Join(p[..7], sep) == a + sep + b + sep + c + sep + d + sep + e + sep + f + sep + g;
    assert p[..7] == p[..|p| - 1];
  }

  /** Three parts joined: the shape of a three-branch UNION. */
  lemma JoinThree(a: string, b: string, c: string, sep: string)
    ensures Join([a, b, c], sep) == a + sep + b + sep + c
  {
    var p := [a, b, c];
    assert p[..1] == [a];
    assert Join(p[..1], sep) == a;
    assert p[..2][..1] == p[..1] && p[..2][1] == b;
    assert Join(p[..2], sep) == a + sep + b;
    assert p[..2] == p[..|p| - 1];
  }

  /** Every character of `s` belongs to `alphabet`. */
  predicate AllCharsIn(s: string, alphabet: set<char>) {
    forall i :: 0 <= i < |s| ==> s[i] in alphabet
  }

  /** Joining never introduces a character that is in neither a part nor the
      separator. */
  lemma {:induction false} JoinChars(parts: seq<string>, sep: string, alphabet: set<char>)
    requires forall i :: 0 <= i < |parts| ==> AllCharsIn(parts[i], alphabet)
    requires AllCharsIn(sep, alphabet)
    ensures AllCharsIn(Join(parts, sep), alphabet)
  {
    if |parts| > 1 {
      var init := parts[..|parts| - 1];
      var last := parts[|parts| - 1];
      JoinChars(init, sep, alphabet);
      var head := Join(init, sep);
      var s := head + sep + last;
      assert AllCharsIn(last, alphabet);
      forall i | 0 <= i < |s|
        ensures s[i] in alphabet
      {
        if i < |head| {
          assert s[i] == head[i];
        } else if i < |head| + |sep| {
          assert s[i] == sep[i - |head|];
        } else {
          assert s[i] == last[i - |head| - |sep|];
        }
      }
    } else if |parts| == 1 {
      assert AllCharsIn(parts[0], alphabet);
    }
  }
}

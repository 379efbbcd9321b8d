/** String helpers the subreddit argument goes through: JavaScript's `trim`,
    a split on the comma separator, `join`, and the POSIX `path.basename`. */
module Text {

  /** The characters JavaScript's `trim` and the regular-expression class `\s`
      treat as white space (WhiteSpace and LineTerminator of ECMA-262). */
  predicate IsSpace(c: char) {
    || c == ' ' || c == '\t' || c == '\n' || c == '\r' || c == '\U{B}' || c == '\U{C}'
    || c == '\U{A0}' || c == '\U{1680}' || ('\U{2000}' <= c <= '\U{200A}')
    || c == '\U{2028}' || c == '\U{2029}' || c == '\U{202F}' || c == '\U{205F}'
    || c == '\U{3000}' || c == '\U{FEFF}'
  }

  /** Neither the first nor the last character is white space. */
  predicate NoEdgeSpace(s: string) {
    s == [] || (!IsSpace(s[0]) && !IsSpace(s[|s| - 1]))
  }

  /** Drops the leading white space: the result is the suffix of `s` that
      starts at its first non-space character. */
  function TrimStart(s: string): (r: string)
    ensures |r| <= |s| && r == s[|s| - |r|..]
    ensures forall k :: 0 <= k < |s| - |r| ==> IsSpace(s[k])
    ensures r == [] || !IsSpace(r[0])
  {
    if s != [] && IsSpace(s[0]) then
      var r := TrimStart(s[1..]);
      assert s[1..][|s| - 1 - |r|..] == s[|s| - |r|..];
      assert forall k :: 1 <= k < |s| ==> s[k] == s[1..][k - 1];
      r
    else s
  }

  /** Drops the trailing white space: the result is the prefix of `s` that
      ends at its last non-space character. */
  function TrimEnd(s: string): (r: string)
    ensures |r| <= |s| && r == s[..|r|]
    ensures forall k :: |r| <= k < |s| ==> IsSpace(s[k])
    ensures r == [] || !IsSpace(r[|r| - 1])
  {
    if s != [] && IsSpace(s[|s| - 1]) then
      var r := TrimEnd(s[..|s| - 1]);
      assert s[..|s| - 1][..|r|] == s[..|r|];
      assert forall k :: 0 <= k < |s| - 1 ==> s[k] == s[..|s| - 1][k];
      r
    else s
  }

  /** Every character of `s` is white space. */
  predicate SpaceOnly(s: string) {
    forall k :: 0 <= k < |s| ==> IsSpace(s[k])
  }

  /** `s.trim()`, without edge white space. */
  function Trim(s: string): (r: string)
    ensures NoEdgeSpace(r)
    ensures |r| <= |s|
  {
    TrimStart(TrimEnd(s))
  }

  /** What `trim` keeps: the infix of `s` that ends where `TrimEnd` stops,
      with nothing but white space before and after it. */
  lemma TrimInfix(s: string)
    ensures |Trim(s)| <= |TrimEnd(s)| <= |s|
    ensures s[|TrimEnd(s)| - |Trim(s)|..|TrimEnd(s)|] == Trim(s)
    ensures SpaceOnly(s[..|TrimEnd(s)| - |Trim(s)|])
    ensures SpaceOnly(s[|TrimEnd(s)|..])
  {
    var t := TrimEnd(s);
    var i := |t| - |TrimStart(t)|;
    assert s[..i] == t[..i];
    assert s[i..|t|] == t[i..];
    TrimStartDropsSpace(t);
    TrimEndDropsSpace(s);
  }

  /** What `TrimStart` drops is white space only. */
  lemma TrimStartDropsSpace(t: string)
    ensures SpaceOnly(t[..|t| - |TrimStart(t)|])
  {
    var i := |t| - |TrimStart(t)|;
    forall k | 0 <= k < i ensures IsSpace(t[..i][k]) {
      assert t[..i][k] == t[k];
    }
  }

  /** What `TrimEnd` drops is white space only. */
  lemma TrimEndDropsSpace(s: string)
    ensures SpaceOnly(s[|TrimEnd(s)|..])
  {
    var j := |TrimEnd(s)|;
    forall k | 0 <= k < |s| - j ensures IsSpace(s[j..][k]) {
      assert s[j..][k] == s[j + k];
    }
  }

  /** Trimming leaves a string without edge white space as it is, so it is idempotent. */
  lemma TrimKeepsTrimmed(s: string)
    requires NoEdgeSpace(s)
    ensures Trim(s) == s
  {
    assert TrimEnd(s) == s by {
      if s != [] { assert !IsSpace(s[|s| - 1]); }
    }
    assert TrimStart(s) == s by {
      if s != [] { assert !IsSpace(s[0]); }
    }
  }

  /** White space appended to a string does not survive `TrimEnd`. */
  lemma {:induction false} TrimEndDropsTail(u: string, v: string)
    requires SpaceOnly(v)
    ensures TrimEnd(u + v) == TrimEnd(u)
  {
    if v == [] {
      assert u + v == u;
    } else {
      assert (u + v)[..|u + v| - 1] == u + v[..|v| - 1];
      TrimEndDropsTail(u, v[..|v| - 1]);
    }
  }

  /** White space put in front of a string does not survive `TrimStart`. */
  lemma {:induction false} TrimStartDropsHead(w: string, u: string)
    requires SpaceOnly(w)
    ensures TrimStart(w + u) == TrimStart(u)
  {
    if w == [] {
      assert w + u == u;
    } else {
      assert (w + u)[1..] == w[1..] + u;
      TrimStartDropsHead(w[1..], u);
    }
  }

  /** `TrimEnd` of a string behind white space: all of it goes when the string
      is blank, otherwise the leading white space stays. */
  lemma {:induction false} TrimEndBehindHead(w: string, u: string)
    requires SpaceOnly(w)
    ensures TrimEnd(w + u) == if TrimEnd(u) == [] then [] else w + TrimEnd(u)
  {
    if u == [] {
      assert w + u == w;
    } else if IsSpace(u[|u| - 1]) {
      assert (w + u)[..|w + u| - 1] == w + u[..|u| - 1];
      TrimEndBehindHead(w, u[..|u| - 1]);
    }
  }

  /** White space around a string changes nothing about its trim. */
  lemma TrimIgnoresPadding(w: string, u: string, v: string)
    requires SpaceOnly(w) && SpaceOnly(v)
    ensures Trim(w + u + v) == Trim(u)
  {
    TrimEndDropsTail(w + u, v);
    TrimEndBehindHead(w, u);
    if TrimEnd(u) != [] {
      TrimStartDropsHead(w, TrimEnd(u));
    }
  }

  /** `s.split(c)`: the pieces between the occurrences of `c`, in order. */
  function SplitOn(s: string, c: char): (parts: seq<string>)
    ensures |parts| >= 1
    ensures forall i :: 0 <= i < |parts| ==> c !in parts[i]
  {
    if s == [] then [[]]
    else
      var rest := SplitOn(s[1..], c);
      if s[0] == c then [[]] + rest else [[s[0]] + rest[0]] + rest[1..]
  }

  /** `parts.join(c)`: holds no character other than the separator and those
      of the pieces. */
  function JoinWith(parts: seq<string>, c: char): (s: string)
    ensures forall d :: d in s && d != c ==> exists i :: 0 <= i < |parts| && d in parts[i]
  {
    if |parts| == 0 then []
    else if |parts| == 1 then parts[0]
    else
      var tail := JoinWith(parts[1..], c);
      assert forall i :: 0 <= i < |parts| - 1 ==> parts[1..][i] == parts[i + 1];
      parts[0] + [c] + tail
  }

  /** Joining the pieces of a split with the same separator gives back the string. */
  lemma {:induction false} JoinSplit(s: string, c: char)
    ensures JoinWith(SplitOn(s, c), c) == s
  {
    if s != [] {
      var rest := SplitOn(s[1..], c);
      JoinSplit(s[1..], c);
      if s[0] == c {
        assert ([[]] + rest)[1..] == rest;
      } else {
        var parts := [[s[0]] + rest[0]] + rest[1..];
        assert parts[1..] == rest[1..];
        if |rest| == 1 {
          assert JoinWith(rest, c) == rest[0];
        } else {
          assert JoinWith(rest, c) == rest[0] + [c] + JoinWith(rest[1..], c);
        }
        assert s == [s[0]] + s[1..];
      }
    }
  }

  /** A string without the separator is a single piece. */
  lemma {:induction false} SplitWithoutSeparator(a: string, c: char)
    requires c !in a
    ensures SplitOn(a, c) == [a]
  {
    if a != [] {
      SplitWithoutSeparator(a[1..], c);
      assert a == [a[0]] + a[1..];
    }
  }

  /** A separator-free head followed by the separator is split off as the first piece. */
  lemma {:induction false} SplitAtSeparator(a: string, t: string, c: char)
    requires c !in a
    ensures SplitOn(a + [c] + t, c) == [a] + SplitOn(t, c)
  {
    var s := a + [c] + t;
    if a == [] {
      assert s[0] == c && s[1..] == t;
    } else {
      assert s[0] == a[0] && s[1..] == a[1..] + [c] + t;
      SplitAtSeparator(a[1..], t, c);
      assert a == [a[0]] + a[1..];
    }
  }

  /** Splitting a join of separator-free pieces gives back the pieces. */
  lemma {:induction false} SplitJoin(parts: seq<string>, c: char)
    requires |parts| >= 1
    requires forall i :: 0 <= i < |parts| ==> c !in parts[i]
    ensures SplitOn(JoinWith(parts, c), c) == parts
  {
    if |parts| == 1 {
      SplitWithoutSeparator(parts[0], c);
    } else {
      SplitAtSeparator(parts[0], JoinWith(parts[1..], c), c);
      SplitJoin(parts[1..], c);
      assert parts == [parts[0]] + parts[1..];
    }
  }

  /** White space put in front of a join lands in its first piece. */
  lemma JoinPrepend(w: string, parts: seq<string>, c: char)
    requires |parts| >= 1
    ensures w + JoinWith(parts, c) == JoinWith([w + parts[0]] + parts[1..], c)
  {
    var q := [w + parts[0]] + parts[1..];
    assert q[1..] == parts[1..];
    if |parts| > 1 {
      assert w + (parts[0] + [c] + JoinWith(parts[1..], c)) == (w + parts[0]) + [c] + JoinWith(parts[1..], c);
    }
  }

  /** A string appended to a join lands in its last piece. */
  lemma {:induction false} JoinAppend(parts: seq<string>, v: string, c: char)
    requires |parts| >= 1
    ensures JoinWith(parts, c) + v == JoinWith(parts[..|parts| - 1] + [parts[|parts| - 1] + v], c)
  {
    var n := |parts|;
    var q := parts[..n - 1] + [parts[n - 1] + v];
    if n == 1 {
      assert q == [parts[0] + v];
    } else {
      JoinAppend(parts[1..], v, c);
      assert q[0] == parts[0];
      assert q[1..] == parts[1..][..n - 2] + [parts[1..][n - 2] + v];
      assert JoinWith(parts, c) + v == parts[0] + [c] + (JoinWith(parts[1..], c) + v);
    }
  }

  /** Each piece trimmed: the white space around every separator goes. */
  function TrimEach(parts: seq<string>): seq<string> {
    seq(|parts|, i requires 0 <= i < |parts| => Trim(parts[i]))
  }

  /** A blank string holds no character that is not white space. */
  lemma BlankAvoids(w: string, c: char)
    requires SpaceOnly(w) && !IsSpace(c)
    ensures c !in w
  {
    forall k | 0 <= k < |w| ensures w[k] != c {
      assert IsSpace(w[k]);
    }
  }

  /** The pieces with `w` put in front of the first and `v` after the last. */
  function PadEnds(w: string, parts: seq<string>, v: string): (q: seq<string>)
    requires |parts| >= 1
    ensures |q| == |parts|
  {
    var p1 := [w + parts[0]] + parts[1..];
    p1[..|parts| - 1] + [p1[|parts| - 1] + v]
  }

  /** Padding the end pieces pads the join. */
  lemma JoinPadEnds(w: string, parts: seq<string>, v: string, c: char)
    requires |parts| >= 1
    ensures JoinWith(PadEnds(w, parts, v), c) == w + JoinWith(parts, c) + v
  {
    JoinPrepend(w, parts, c);
    JoinAppend([w + parts[0]] + parts[1..], v, c);
  }

  /** Each padded piece is the original one with (possibly empty) white space
      around it. */
  lemma PadEndsPieces(w: string, parts: seq<string>, v: string, k: int)
    requires |parts| >= 1 && 0 <= k < |parts|
    ensures PadEnds(w, parts, v)[k] == (if k == 0 then w else []) + parts[k] + (if k == |parts| - 1 then v else [])
  {
  }

  /** One padded piece has the same trim. */
  lemma PadEndsPieceTrim(w: string, parts: seq<string>, v: string, k: int)
    requires |parts| >= 1 && 0 <= k < |parts|
    requires SpaceOnly(w) && SpaceOnly(v)
    ensures Trim(PadEnds(w, parts, v)[k]) == Trim(parts[k])
  {
    var wk: string := if k == 0 then w else [];
    var vk: string := if k == |parts| - 1 then v else [];
    PadEndsPieces(w, parts, v, k);
    TrimIgnoresPadding(wk, parts[k], vk);
  }

  /** Padding the end pieces with a separator-free string brings in no separator. */
  lemma PadEndsAvoids(w: string, parts: seq<string>, v: string, c: char)
    requires |parts| >= 1 && c !in w && c !in v
    requires forall k :: 0 <= k < |parts| ==> c !in parts[k]
    ensures forall k :: 0 <= k < |parts| ==> c !in PadEnds(w, parts, v)[k]
  {
    forall k | 0 <= k < |parts| ensures c !in PadEnds(w, parts, v)[k] {
      PadEndsPieces(w, parts, v, k);
    }
  }

  /** Padding the end pieces with white space changes none of the trimmed pieces. */
  lemma PadEndsTrimmed(w: string, parts: seq<string>, v: string)
    requires |parts| >= 1
    requires SpaceOnly(w) && SpaceOnly(v)
    ensures TrimEach(PadEnds(w, parts, v)) == TrimEach(parts)
  {
    var q := PadEnds(w, parts, v);
    forall k | 0 <= k < |parts| ensures TrimEach(q)[k] == TrimEach(parts)[k] {
      PadEndsPieceTrim(w, parts, v, k);
    }
  }

  /** White space around a string changes none of the trimmed pieces of its
      split on a separator that is not white space. */
  lemma SplitIgnoresPadding(w: string, t: string, v: string, c: char)
    requires SpaceOnly(w) && SpaceOnly(v) && !IsSpace(c)
    ensures TrimEach(SplitOn(w + t + v, c)) == TrimEach(SplitOn(t, c))
  {
    var p := SplitOn(t, c);
    var q := PadEnds(w, p, v);
    JoinSplit(t, c);
    JoinPadEnds(w, p, v, c);
    BlankAvoids(w, c);
    BlankAvoids(v, c);
    PadEndsAvoids(w, p, v, c);
    PadEndsTrimmed(w, p, v);
    SplitJoin(q, c);
  }

  /** A string is its prefix, its infix and its suffix around two cut points. */
  lemma Thirds(s: string, i: int, j: int)
    requires 0 <= i <= j <= |s|
    ensures s == s[..i] + s[i..j] + s[j..]
  {
  }

  /** When the separator is not white space, trimming the whole string before
      the split changes none of the trimmed pieces. */
  lemma OuterTrimIrrelevant(s: string, c: char)
    requires !IsSpace(c)
    ensures TrimEach(SplitOn(Trim(s), c)) == TrimEach(SplitOn(s, c))
  {
    var t := Trim(s);
    var j := |TrimEnd(s)|;
    var i := j - |t|;
    TrimInfix(s);
    var w, v := s[..i], s[j..];
    assert SpaceOnly(w) && SpaceOnly(v) && s[i..j] == t;
    Thirds(s, i, j);
    assert w + t + v == s;
    SplitIgnoresPadding(w, t, v, c);
  }

  /** A character in neither the separator nor any piece is not in their join. */
  lemma JoinAvoids(parts: seq<string>, c: char, d: char)
    requires d != c
    requires forall i :: 0 <= i < |parts| ==> d !in parts[i]
    ensures d !in JoinWith(parts, c)
  {
  }

  /** Removes every trailing `/`: the longest prefix of `p` not ending in `/`,
      everything after it being slashes. */
  function StripTrailingSlashes(p: string): (r: string)
    ensures |r| <= |p| && r == p[..|r|]
    ensures forall k :: |r| <= k < |p| ==> p[k] == '/'
    ensures r == [] || r[|r| - 1] != '/'
  {
    if p != [] && p[|p| - 1] == '/' then StripTrailingSlashes(p[..|p| - 1]) else p
  }

  /** The part of `p` after its last `/` (all of `p` when it has none). */
  function AfterLastSlash(p: string): (r: string)
    ensures |r| <= |p| && r == p[|p| - |r|..]
    ensures '/' !in r
    ensures |r| < |p| ==> p[|p| - |r| - 1] == '/'
  {
    if p == [] || p[|p| - 1] == '/' then []
    else AfterLastSlash(p[..|p| - 1]) + [p[|p| - 1]]
  }

  /** POSIX `path.basename(p)`: trailing slashes dropped, then the last path
      component, that is the longest slash-free suffix of what is left. */
  function Basename(p: string): (r: string)
    ensures var q := StripTrailingSlashes(p);
      && |r| <= |q| && r == q[|q| - |r|..]
      && (|r| < |q| ==> q[|q| - |r| - 1] == '/')
    ensures '/' !in r
    ensures '/' !in p ==> r == p
  {
    AfterLastSlash(StripTrailingSlashes(p))
  }
}

/** The three Python string operations the formatter relies on, restricted to
    ASCII: `str.strip()` with no argument, `str.title()` and `str.join`. */
module PyText {

  /** `str.isspace` on the ASCII range: tab, line feed, vertical tab, form
      feed, carriage return, the four separators 0x1C-0x1F and space. */
  predicate IsSpace(c: char) {
    var n := c as int;
    n == 32 || 9 <= n <= 13 || 28 <= n <= 31
  }

  predicate AllSpace(s: string) {
    forall k :: 0 <= k < |s| ==> IsSpace(s[k])
  }

  /** The number of whitespace characters that start `s`. */
  function LeadingSpace(s: string): (n: nat)
    ensures n <= |s|
    ensures AllSpace(s[..n])
    ensures n < |s| ==> !IsSpace(s[n])
    decreases |s|
  {
    if |s| == 0 || !IsSpace(s[0]) then 0
    else
      var m := LeadingSpace(s[1..]);
      assert s[..m + 1] == [s[0]] + s[1..][..m];
      1 + m
  }

  /** The number of whitespace characters that end `s`. */
  function TrailingSpace(s: string): (n: nat)
    ensures n <= |s|
    ensures AllSpace(s[|s| - n..])
    ensures n < |s| ==> !IsSpace(s[|s| - n - 1])
    decreases |s|
  {
    if |s| == 0 || !IsSpace(s[|s| - 1]) then 0
    else
      var init := s[..|s| - 1];
      var m := TrailingSpace(init);
      assert s[|s| - (m + 1)..] == init[|init| - m..] + [s[|s| - 1]];
      1 + m
  }

  /** `s` without its leading whitespace. */
  function TrimStart(s: string): (t: string)
    ensures |t| <= |s| && t == s[|s| - |t|..] && AllSpace(s[..|s| - |t|])
    ensures t != "" ==> !IsSpace(t[0])
    ensures t == "" <==> AllSpace(s)
  {
    var i := LeadingSpace(s);
    assert AllSpace(s) ==> i == |s|;
    assert i == |s| ==> s == s[..i];
    s[i..]
  }

  /** `t` without its trailing whitespace. */
  function TrimEnd(t: string): (u: string)
    ensures |u| <= |t| && u == t[..|u|] && AllSpace(t[|u|..])
    ensures u != "" ==> !IsSpace(u[|u| - 1])
    ensures u == "" <==> AllSpace(t)
  {
    var j := TrailingSpace(t);
    assert AllSpace(t) ==> j == |t|;
    assert j == |t| ==> t == t[|t| - j..];
    t[..|t| - j]
  }

  /** `s.strip()`: `s` without its leading and trailing whitespace.  It is
      empty exactly when `s` is all whitespace, and otherwise it neither
      starts nor ends with whitespace; `StripDecomposes` shows it is what lies
      between two whitespace runs of `s`. */
  function Strip(s: string): (r: string)
    ensures r == "" <==> AllSpace(s)
    ensures r != "" ==> !IsSpace(r[0]) && !IsSpace(r[|r| - 1])
  {
    var t := TrimStart(s);
    var r := TrimEnd(t);
    assert r != "" ==> r[0] == t[0];
    r
  }

  /** Stripping is determined by its defining properties: whenever `s` is a
      whitespace run, then `r`, then a whitespace run, and `r` neither starts
      nor ends with whitespace, `s.strip()` is `r`. */
  lemma {:induction false} StripIsUniqueTrim(a: string, r: string, b: string)
    requires AllSpace(a) && AllSpace(b)
    requires r != "" ==> !IsSpace(r[0]) && !IsSpace(r[|r| - 1])
    ensures Strip(a + r + b) == r
  {
    var s := a + r + b;
    if r == "" {
      assert AllSpace(s) by {
        forall k | 0 <= k < |s| ensures IsSpace(s[k]) {
          if k < |a| { assert s[k] == a[k]; } else { assert s[k] == b[k - |a|]; }
        }
      }
    } else {
      assert s == a + (r + b);
      LeadingSpaceOfPadded(a, r + b);
      assert s[|a|..] == r + b;
      TrailingSpaceOfPadded(r, b);
      assert (r + b)[..|r + b| - |b|] == r;
    }
  }

  lemma {:induction false} LeadingSpaceOfPadded(a: string, u: string)
    requires AllSpace(a)
    requires u != [] && !IsSpace(u[0])
    ensures LeadingSpace(a + u) == |a|
    decreases |a|
  {
    if a == [] {
      assert a + u == u;
    } else {
      assert (a + u)[1..] == a[1..] + u;
      LeadingSpaceOfPadded(a[1..], u);
    }
  }

  lemma {:induction false} TrailingSpaceOfPadded(u: string, b: string)
    requires AllSpace(b)
    requires u != [] && !IsSpace(u[|u| - 1])
    ensures TrailingSpace(u + b) == |b|
    decreases |b|
  {
    if b == [] {
      assert u + b == u;
    } else {
      var b' := b[..|b| - 1];
      assert (u + b)[..|u + b| - 1] == u + b';
      TrailingSpaceOfPadded(u, b');
    }
  }

  lemma AllSpaceConcat(x: string, y: string)
    requires AllSpace(x) && AllSpace(y)
    ensures AllSpace(x + y)
  {
    forall k | 0 <= k < |x + y| ensures IsSpace((x + y)[k]) {
      if k >= |x| { assert (x + y)[k] == y[k - |x|]; }
    }
  }

  /** Whitespace added around a string is stripped with the whitespace it had. */
  lemma StripIgnoresPadding(a: string, c: string, b: string)
    requires AllSpace(a) && AllSpace(b)
    ensures Strip(a + c + b) == Strip(c)
  {
    var head, tail := StripDecomposes(c);
    var r := Strip(c);
    AllSpaceConcat(a, head);
    AllSpaceConcat(tail, b);
    Regroup(a, head, r, tail, b);
    StripIsUniqueTrim(a + head, r, tail + b);
  }

  /** Every string is its stripped form between two whitespace runs. */
  lemma StripDecomposes(c: string) returns (head: string, tail: string)
    ensures c == head + Strip(c) + tail && AllSpace(head) && AllSpace(tail)
  {
    var t := TrimStart(c);
    var r := TrimEnd(t);
    var i := |c| - |t|;
    assert c[i + |r|..] == t[|r|..];
    head, tail := c[..i], c[i + |r|..];
    SplitAround(c, i, |r|);
  }

  lemma SplitAround(c: string, i: nat, n: nat)
    requires i + n <= |c|
    ensures c == c[..i] + c[i..i + n] + c[i + n..]
  {
  }

  lemma Regroup(a: string, x: string, y: string, z: string, b: string)
    ensures a + (x + y + z) + b == (a + x) + y + (z + b)
  {
  }

  /** Stripping twice is stripping once. */
  lemma StripIdempotent(s: string)
    ensures Strip(Strip(s)) == Strip(s)
  {
    var r := Strip(s);
    if r != "" {
      assert LeadingSpace(r) == 0 && r[0..] == r;
      assert TrailingSpace(r) == 0 && r[..|r| - 0] == r;
    }
  }

  predicate IsLetter(c: char) {
    'a' <= c <= 'z' || 'A' <= c <= 'Z'
  }

  function Upper(c: char): (d: char)
    ensures IsLetter(d) == IsLetter(c)
  {
    if 'a' <= c <= 'z' then (c as int - 32) as char else c
  }

  function Lower(c: char): (d: char)
    ensures IsLetter(d) == IsLetter(c)
  {
    if 'A' <= c <= 'Z' then (c as int + 32) as char else c
  }

  /** `str.title()` scanned from a position whose preceding character was a
      letter exactly when `prevCased` holds. */
  function TitleFrom(s: string, prevCased: bool): (r: string)
    ensures |r| == |s|
    ensures forall k :: 0 <= k < |s| ==>
      r[k] == if (if k == 0 then prevCased else IsLetter(s[k - 1])) then Lower(s[k]) else Upper(s[k])
    decreases |s|
  {
    if |s| == 0 then ""
    else [if prevCased then Lower(s[0]) else Upper(s[0])] + TitleFrom(s[1..], IsLetter(s[0]))
  }

  /** `s.title()`: every letter that follows a letter is lower-cased, every
      other letter is upper-cased, and every other character is kept. */
  function Title(s: string): (r: string)
    ensures |r| == |s|
    ensures forall k {:trigger r[k]} :: 0 <= k < |s| ==>
      r[k] == if k > 0 && IsLetter(s[k - 1]) then Lower(s[k]) else Upper(s[k])
  {
    TitleFrom(s, false)
  }

  /** Title-casing a title-cased name changes nothing. */
  lemma TitleIdempotent(s: string)
    ensures Title(Title(s)) == Title(s)
  {
    var t := Title(s);
    forall k | 0 <= k < |s| ensures Title(t)[k] == t[k] {
      var prev := k > 0 && IsLetter(s[k - 1]);
      if k > 0 {
        assert IsLetter(t[k - 1]) == IsLetter(s[k - 1]) by {
          assert t[k - 1] == Lower(s[k - 1]) || t[k - 1] == Upper(s[k - 1]);
          assert IsLetter(Lower(s[k - 1])) == IsLetter(s[k - 1]) == IsLetter(Upper(s[k - 1]));
        }
      }
      if prev {
        assert t[k] == Lower(s[k]);
        assert Title(t)[k] == Lower(t[k]);
        assert Lower(Lower(s[k])) == Lower(s[k]);
      } else {
        assert t[k] == Upper(s[k]);
        assert Title(t)[k] == Upper(t[k]);
        assert Upper(Upper(s[k])) == Upper(s[k]);
      }
    }
  }

  /** `sep.join(parts)`: the parts in order with `sep` between neighbours. */
  function Join(parts: seq<string>, sep: string): (r: string)
    decreases |parts|
  {
    if |parts| == 0 then ""
    else if |parts| == 1 then parts[0]
    else Join(parts[..|parts| - 1], sep) + sep + parts[|parts| - 1]
  }

  /** Joining two non-empty lists of parts is joining each and putting one
      separator between the two results. */
  lemma {:induction false} JoinConcat(a: seq<string>, b: seq<string>, sep: string)
    requires a != [] && b != []
    ensures Join(a + b, sep) == Join(a, sep) + sep + Join(b, sep)
    decreases |b|
  {
    if |b| == 1 {
      assert (a + b)[..|a + b| - 1] == a;
    } else {
      var b' := b[..|b| - 1];
      assert (a + b)[..|a + b| - 1] == a + b';
      JoinConcat(a, b', sep);
    }
  }

  /** The length of a join: all the parts and one separator fewer than parts. */
  lemma {:induction false} JoinLength(parts: seq<string>, sep: string)
    requires parts != []
    ensures |Join(parts, sep)| == TotalLength(parts) + (|parts| - 1) * |sep|
    decreases |parts|
  {
    if |parts| > 1 {
      var init := parts[..|parts| - 1];
      JoinLength(init, sep);
      assert init[..|init| - 1] == parts[..|parts| - 2];
      assert (|parts| - 1) * |sep| == (|init| - 1) * |sep| + |sep|;
    }
  }

  function TotalLength(parts: seq<string>): nat
    decreases |parts|
  {
    if |parts| == 0 then 0 else TotalLength(parts[..|parts| - 1]) + |parts[|parts| - 1]|
  }
}

/** `clean_name` of scripts/agb_build_csv.py: the display-name normaliser
    run over the roster before stats are allocated. Each regular-expression
    substitution is modelled as the leftmost, non-overlapping scan that
    Python's `re.sub` performs; `\s` and `str.strip` use Python's whitespace. */
module CleanName {
  import opened Wrappers
  import opened Seqs
  import opened Text

  const OpenQuote: char := 0x201C as char
  const CloseQuote: char := 0x201D as char

  /** The end of the whitespace run that starts at `i`. */
  function SpaceRunEnd(s: string, i: nat): (j: nat)
    requires i <= |s|
    ensures i <= j <= |s|
    ensures forall k :: i <= k < j ==> IsPySpace(s[k])
    ensures j == |s| || !IsPySpace(s[j])
    decreases |s| - i
  {
    if i < |s| && IsPySpace(s[i]) then SpaceRunEnd(s, i + 1) else i
  }

  /** The first index at or after `i` holding `c`. */
  function IndexFrom(s: string, i: nat, c: char): (r: Option<nat>)
    requires i <= |s|
    ensures r.None? <==> forall k :: i <= k < |s| ==> s[k] != c
    ensures r.Some? ==> i <= r.value < |s| && s[r.value] == c
                        && forall k :: i <= k < r.value ==> s[k] != c
    decreases |s| - i
  {
    if i == |s| then None
    else if s[i] == c then Some(i)
    else IndexFrom(s, i + 1, c)
  }

  /** The length of a match of `\s*\([^)]*\)` at the start of `s`, if any. */
  function GroupAt(s: string): (r: Option<nat>)
    ensures r.Some? ==> 2 <= r.value <= |s|
  {
    var j := SpaceRunEnd(s, 0);
    if j < |s| && s[j] == '(' then
      match IndexFrom(s, j + 1, ')')
      case Some(k) => Some(k + 1)
      case None => None
    else None
  }

  /** `re.sub(r"\s*\([^)]*\)", "", name)` */
  function StripParens(s: string): (r: string)
    ensures |r| <= |s|
    decreases |s|
  {
    if s == [] then []
    else match GroupAt(s)
      case Some(n) => StripParens(s[n..])
      case None => [s[0]] + StripParens(s[1..])
  }

  /** Removing groups introduces no character. */
  lemma {:induction false} StripParensChars(s: string)
    ensures forall c :: c in StripParens(s) ==> c in s
    decreases |s|
  {
    if s != [] {
      match GroupAt(s)
      case Some(n) =>
        StripParensChars(s[n..]);
        assert forall c :: c in s[n..] ==> c in s;
      case None =>
        StripParensChars(s[1..]);
        assert forall c :: c in s[1..] ==> c in s;
    }
  }

  /** No `(` is followed, anywhere later, by a `)`. */
  predicate NoGroup(s: string)
  {
    forall a, b :: 0 <= a < b < |s| && s[a] == '(' ==> s[b] != ')'
  }

  /** After removal no parenthesised group is left. */
  lemma {:induction false} StripParensLeavesNoGroup(s: string)
    ensures NoGroup(StripParens(s))
    decreases |s|
  {
    if s != [] {
      match GroupAt(s)
      case Some(n) => StripParensLeavesNoGroup(s[n..]);
      case None =>
        var rest := StripParens(s[1..]);
        StripParensLeavesNoGroup(s[1..]);
        StripParensChars(s[1..]);
        if s[0] == '(' {
          assert SpaceRunEnd(s, 0) == 0;
          assert forall k :: 1 <= k < |s| ==> s[k] != ')';
          assert forall c :: c in rest ==> c in s[1..];
          assert ')' !in rest;
        }
        var r := [s[0]] + rest;
        forall a, b | 0 <= a < b < |r| && r[a] == '('
          ensures r[b] != ')'
        {
          assert r[b] == rest[b - 1];
          if a > 0 {
            assert rest[a - 1] == '(';
          } else {
            assert rest[b - 1] in rest;
          }
        }
    }
  }

  /** A text without a group is left alone. */
  lemma {:induction false} StripParensKeepsPlain(s: string)
    requires NoGroup(s)
    ensures StripParens(s) == s
    decreases |s|
  {
    if s != [] {
      var j := SpaceRunEnd(s, 0);
      if j < |s| && s[j] == '(' {
        assert IndexFrom(s, j + 1, ')').None?;
      }
      assert NoGroup(s[1..]) by {
        forall a, b | 0 <= a < b < |s[1..]| && s[1..][a] == '('
          ensures s[1..][b] != ')'
        {
          assert s[a + 1] == '(';
        }
      }
      StripParensKeepsPlain(s[1..]);
      assert s == [s[0]] + s[1..];
    }
  }

  /** A group is removed together with the whitespace before it: a prefix
      holding no `(` and not ending in whitespace is kept, and the scan
      resumes after the group. */
  lemma StripParensDropsGroup(a: string, w: string, m: string, t: string)
    requires '(' !in a && (a == [] || !IsPySpace(a[|a| - 1]))
    requires forall k :: 0 <= k < |w| ==> IsPySpace(w[k])
    requires ')' !in m
    ensures StripParens(a + w + "(" + m + ")" + t) == a + StripParens(t)
  {
    var g := w + "(" + m + ")" + t;
    assert a + w + "(" + m + ")" + t == a + g;
    StripParensKeepsPrefix(a, g);
    GroupAtGroup(w, m, t);
  }

  /** A prefix holding no `(` and not ending in whitespace cannot start a
      match, so it is copied whatever follows it. */
  lemma {:induction false} StripParensKeepsPrefix(a: string, g: string)
    requires forall k :: 0 <= k < |a| ==> a[k] != '('
    requires a == [] || !IsPySpace(a[|a| - 1])
    ensures StripParens(a + g) == a + StripParens(g)
    decreases |a|
  {
    if a == [] {
      assert a + g == g;
    } else {
      var rest := a[1..];
      GroupAtNonePrefix(a, g);
      StripParensKeepsPrefix(rest, g);
      ConsSplit(a, g, StripParens(g));
    }
  }

  /** The sequence identities behind one step of the prefix induction. */
  lemma ConsSplit(a: string, g: string, tail: string)
    requires a != []
    ensures (a + g)[1..] == a[1..] + g
    ensures [a[0]] + (a[1..] + tail) == a + tail
  {
    assert a == [a[0]] + a[1..];
  }

  /** Where no match starts, `re.sub` copies one character and moves on. */
  lemma GroupAtNonePrefix(a: string, g: string)
    requires a != [] && !IsPySpace(a[|a| - 1])
    requires forall k :: 0 <= k < |a| ==> a[k] != '('
    ensures GroupAt(a + g).None?
    ensures StripParens(a + g) == [a[0]] + StripParens((a + g)[1..])
  {
    var s := a + g;
    var j := SpaceRunEnd(s, 0);
    assert s[|a| - 1] == a[|a| - 1];
    assert j < |a|;
    assert s[j] == a[j];
  }

  lemma GroupAtGroup(w: string, m: string, t: string)
    requires forall k :: 0 <= k < |w| ==> IsPySpace(w[k])
    requires ')' !in m
    ensures var s := w + "(" + m + ")" + t;
      GroupAt(s) == Some(|w| + |m| + 2) && s[|w| + |m| + 2..] == t
  {
    var s := w + "(" + m + ")" + t;
    SpaceRunEndAt(s, 0, |w|);
    var close := |w| + 1 + |m|;
    assert s[close] == ')';
    assert forall k :: |w| + 1 <= k < close ==> s[k] == m[k - |w| - 1];
    assert IndexFrom(s, |w| + 1, ')') == Some(close);
    assert s[close + 1..] == t;
  }

  lemma GroupAtNone(s: string, n: nat)
    requires 0 < n <= |s|
    requires forall k :: 0 <= k < n ==> s[k] != '('
    requires !IsPySpace(s[n - 1])
    ensures GroupAt(s).None?
  {
    var j := SpaceRunEnd(s, 0);
    assert j < n;
  }

  lemma {:induction false} SpaceRunEndAt(s: string, i: nat, j: nat)
    requires i <= j < |s|
    requires forall k :: i <= k < j ==> IsPySpace(s[k])
    requires !IsPySpace(s[j])
    ensures SpaceRunEnd(s, i) == j
    decreases j - i
  {
    if i < j {
      SpaceRunEndAt(s, i + 1, j);
    }
  }

  predicate IsQuote(c: char)
  {
    c == '\'' || c == '"' || c == OpenQuote || c == CloseQuote
  }

  /** `name.replace("“", '"').replace("”", '"')` */
  function StraightenQuotes(s: string): (r: string)
    ensures |r| == |s|
    ensures forall k :: 0 <= k < |s| ==>
              r[k] == (if s[k] == OpenQuote || s[k] == CloseQuote then '"' else s[k])
  {
    seq(|s|, k requires 0 <= k < |s| =>
      if s[k] == OpenQuote || s[k] == CloseQuote then '"' else s[k])
  }

  /** The two replacements, then `name.replace("'", "").replace('"', "")`. */
  function DropQuotes(s: string): (r: string)
  {
    Filter(StraightenQuotes(s), c => c != '\'' && c != '"')
  }

  /** No quote of either kind survives, and only quotes are removed: every
      other character keeps its number of occurrences. */
  lemma DropQuotesSpec(s: string)
    ensures forall c :: c in DropQuotes(s) ==> !IsQuote(c) && c in s
    ensures forall c :: c in s && !IsQuote(c) ==> multiset(DropQuotes(s))[c] == multiset(s)[c]
  {
    var q := StraightenQuotes(s);
    FilterSpec(q, c => c != '\'' && c != '"');
    forall c | c in q
      ensures !IsQuote(c) ==> c in s
      ensures c != OpenQuote && c != CloseQuote
    {
    }
    forall c | c in s && !IsQuote(c)
      ensures multiset(q)[c] == multiset(s)[c]
    {
      StraightenCount(s, c);
    }
  }

  /** The replacements leave no curly quote, turn each into a straight double
      quote, and leave every other character's count as it was. */
  lemma StraightenQuotesSpec(s: string)
    ensures |StraightenQuotes(s)| == |s|
    ensures OpenQuote !in StraightenQuotes(s) && CloseQuote !in StraightenQuotes(s)
    ensures forall c :: c != OpenQuote && c != CloseQuote && c != '"' ==>
      multiset(StraightenQuotes(s))[c] == multiset(s)[c]
    ensures multiset(StraightenQuotes(s))['"'] ==
      multiset(s)['"'] + multiset(s)[OpenQuote] + multiset(s)[CloseQuote]
  {
    forall c | c != OpenQuote && c != CloseQuote && c != '"'
      ensures multiset(StraightenQuotes(s))[c] == multiset(s)[c]
    {
      StraightenCount(s, c);
    }
    StraightenDoubleCount(s);
  }

  lemma {:induction false} StraightenCount(s: string, c: char)
    requires c != OpenQuote && c != CloseQuote && c != '"'
    ensures multiset(StraightenQuotes(s))[c] == multiset(s)[c]
  {
    if s != [] {
      StraightenCount(s[1..], c);
      assert StraightenQuotes(s) == [StraightenQuotes(s)[0]] + StraightenQuotes(s[1..]);
      assert s == [s[0]] + s[1..];
    }
  }

  lemma {:induction false} StraightenDoubleCount(s: string)
    ensures multiset(StraightenQuotes(s))['"'] ==
      multiset(s)['"'] + multiset(s)[OpenQuote] + multiset(s)[CloseQuote]
  {
    if s != [] {
      StraightenDoubleCount(s[1..]);
      assert StraightenQuotes(s) == [StraightenQuotes(s)[0]] + StraightenQuotes(s[1..]);
      assert s == [s[0]] + s[1..];
    }
  }

  lemma DropQuotesKeepsPlain(s: string)
    requires forall k :: 0 <= k < |s| ==> !IsQuote(s[k])
    ensures DropQuotes(s) == s
  {
    assert StraightenQuotes(s) == s;
    FilterAll(s, c => c != '\'' && c != '"');
  }

  lemma {:induction false} FilterKeepsNoGroup(s: string, p: char -> bool)
    requires NoGroup(s)
    ensures NoGroup(Filter(s, p))
  {
    if s != [] {
      assert NoGroup(s[1..]) by {
        forall a, b | 0 <= a < b < |s[1..]| && s[1..][a] == '('
          ensures s[1..][b] != ')'
        {
          assert s[a + 1] == '(';
        }
      }
      FilterKeepsNoGroup(s[1..], p);
      var rest := Filter(s[1..], p);
      if p(s[0]) {
        FilterSpec(s[1..], p);
        var r := [s[0]] + rest;
        forall a, b | 0 <= a < b < |r| && r[a] == '('
          ensures r[b] != ')'
        {
          assert r[b] == rest[b - 1];
          if a > 0 {
            assert rest[a - 1] == '(';
          } else {
            assert rest[b - 1] in rest;
            assert rest[b - 1] in s[1..];
          }
        }
      }
    }
  }

  /** `re.sub(r"\s{2,}", " ", name)` */
  function Collapse(s: string): (r: string)
    ensures forall c :: c in r ==> c in s || c == ' '
    ensures s != [] ==> r != [] && (IsPySpace(r[0]) <==> IsPySpace(s[0]))
    ensures s != [] ==> (IsPySpace(r[|r| - 1]) <==> IsPySpace(s[|s| - 1]))
    decreases |s|
  {
    if s == [] then []
    else
      var j := SpaceRunEnd(s, 0);
      if j >= 2 then
        assert IsPySpace(' ');
        var rest := Collapse(s[j..]);
        assert j < |s| ==> s[j..][0] == s[j] && s[|s| - 1] == s[j..][|s[j..]| - 1];
        assert j == |s| ==> IsPySpace(s[|s| - 1]);
        [' '] + rest
      else
        var rest := Collapse(s[1..]);
        assert |s| > 1 ==> s[|s| - 1] == s[1..][|s[1..]| - 1];
        [s[0]] + rest
  }

  /** No two whitespace characters are adjacent. */
  predicate NoDoubleSpace(s: string)
  {
    forall k :: 0 <= k < |s| - 1 ==> !(IsPySpace(s[k]) && IsPySpace(s[k + 1]))
  }

  lemma {:induction false} CollapseLeavesNoDoubleSpace(s: string)
    ensures NoDoubleSpace(Collapse(s))
    decreases |s|
  {
    if s != [] {
      var r := Collapse(s);
      var j := SpaceRunEnd(s, 0);
      var n := if j >= 2 then j else 1;
      var rest := Collapse(s[n..]);
      CollapseLeavesNoDoubleSpace(s[n..]);
      assert r == [r[0]] + rest;
      if rest != [] {
        assert IsPySpace(r[0]) ==> j >= 1;
        assert IsPySpace(r[0]) ==> !IsPySpace(s[n..][0]);
      }
      forall k | 0 <= k < |r| - 1
        ensures !(IsPySpace(r[k]) && IsPySpace(r[k + 1]))
      {
        if k > 0 {
          assert r[k] == rest[k - 1] && r[k + 1] == rest[k];
        }
      }
    }
  }

  lemma {:induction false} CollapseKeepsPlain(s: string)
    requires NoDoubleSpace(s)
    ensures Collapse(s) == s
    decreases |s|
  {
    if s != [] {
      assert SpaceRunEnd(s, 0) <= 1 by {
        if IsPySpace(s[0]) && |s| > 1 {
          assert !IsPySpace(s[1]);
          SpaceRunEndAt(s, 0, 1);
        }
      }
      CollapseKeepsPlain(s[1..]);
      assert s == [s[0]] + s[1..];
    }
  }

  lemma {:induction false} CollapseKeepsNoGroup(s: string)
    requires NoGroup(s)
    ensures NoGroup(Collapse(s))
    decreases |s|
  {
    if s != [] {
      var r := Collapse(s);
      var j := SpaceRunEnd(s, 0);
      var n := if j >= 2 then j else 1;
      var rest := Collapse(s[n..]);
      assert NoGroup(s[n..]) by {
        forall a, b | 0 <= a < b < |s[n..]| && s[n..][a] == '('
          ensures s[n..][b] != ')'
        {
          assert s[a + n] == '(';
        }
      }
      CollapseKeepsNoGroup(s[n..]);
      assert r == [r[0]] + rest;
      if r[0] == '(' {
        assert n == 1 && s[0] == '(';
        forall c | c in rest
          ensures c != ')'
        {
          assert c in s[1..] || c == ' ';
          if c in s[1..] {
            var b :| 0 <= b < |s[1..]| && s[1..][b] == c;
            assert s[b + 1] == c;
          }
        }
      }
      forall a, b | 0 <= a < b < |r| && r[a] == '('
        ensures r[b] != ')'
      {
        assert r[b] == rest[b - 1];
        if a > 0 {
          assert rest[a - 1] == '(';
        } else {
          assert rest[b - 1] in rest;
        }
      }
    }
  }

  /** `str.strip()` with no argument. */
  function Strip(s: string): (r: string)
    ensures r == [] || (!IsPySpace(r[0]) && !IsPySpace(r[|r| - 1]))
    ensures exists i, j :: 0 <= i <= j <= |s| && r == s[i..j]
                         && (forall k :: 0 <= k < i ==> IsPySpace(s[k]))
                         && (forall k :: j <= k < |s| ==> IsPySpace(s[k]))
    ensures (forall k :: 0 <= k < |s| ==> IsPySpace(s[k])) <==> r == []
  {
    var i := SpaceRunEnd(s, 0);
    var j := TrailingStart(s, i, |s|);
    assert i < |s| ==> !IsPySpace(s[i]);
    assert s[i..j] == [] ==> i == |s|;
    s[i..j]
  }

  /** The start of the trailing whitespace of `s[i..end]`. */
  function TrailingStart(s: string, i: nat, end: nat): (j: nat)
    requires i <= end <= |s|
    requires i < end ==> !IsPySpace(s[i])
    ensures i <= j <= end
    ensures forall k :: j <= k < end ==> IsPySpace(s[k])
    ensures i < end ==> i < j && !IsPySpace(s[j - 1])
    decreases end - i
  {
    if end > i && IsPySpace(s[end - 1]) then TrailingStart(s, i, end - 1) else end
  }

  lemma StripKeepsPlain(s: string)
    requires s == [] || (!IsPySpace(s[0]) && !IsPySpace(s[|s| - 1]))
    ensures Strip(s) == s
  {
    if s != [] {
      assert SpaceRunEnd(s, 0) == 0;
      assert TrailingStart(s, 0, |s|) == |s|;
    }
    assert s[0..|s|] == s;
  }

  /** `clean_name` */
  function Clean(name: string): (r: string)
  {
    Strip(Collapse(DropQuotes(StripParens(name))))
  }

  lemma StripKeepsShape(s: string)
    ensures forall c :: c in Strip(s) ==> c in s
    ensures NoGroup(s) ==> NoGroup(Strip(s))
    ensures NoDoubleSpace(s) ==> NoDoubleSpace(Strip(s))
  {
    var r := Strip(s);
    var i, j :| 0 <= i <= j <= |s| && r == s[i..j];
    assert forall k :: 0 <= k < |r| ==> r[k] == s[i + k];
  }

  lemma StraightenKeepsNoGroup(s: string)
    requires NoGroup(s)
    ensures NoGroup(StraightenQuotes(s))
  {
    var q := StraightenQuotes(s);
    forall a, b | 0 <= a < b < |q| && q[a] == '('
      ensures q[b] != ')'
    {
      assert s[a] == '(';
    }
  }

  /** A cleaned name holds no parenthesised group and no quote of either
      kind, does not start or end with whitespace and has no two adjacent
      whitespace characters. */
  lemma CleanSpec(name: string)
    ensures NoGroup(Clean(name))
    ensures forall c :: c in Clean(name) ==> !IsQuote(c)
    ensures var r := Clean(name); r == [] || (!IsPySpace(r[0]) && !IsPySpace(r[|r| - 1]))
    ensures NoDoubleSpace(Clean(name))
  {
    var s1 := StripParens(name);
    var s2 := DropQuotes(s1);
    var s3 := Collapse(s2);
    StripParensLeavesNoGroup(name);
    StraightenKeepsNoGroup(s1);
    FilterKeepsNoGroup(StraightenQuotes(s1), c => c != '\'' && c != '"');
    CollapseKeepsNoGroup(s2);
    CollapseLeavesNoDoubleSpace(s2);
    DropQuotesSpec(s1);
    StripKeepsShape(s3);
    assert IsQuote(' ') == false;
  }

  /** Cleaning a cleaned name changes nothing. */
  lemma CleanIdempotent(name: string)
    ensures Clean(Clean(name)) == Clean(name)
  {
    var r := Clean(name);
    CleanSpec(name);
    StripParensKeepsPlain(r);
    assert forall k :: 0 <= k < |r| ==> !IsQuote(r[k]) by {
      forall k | 0 <= k < |r|
        ensures !IsQuote(r[k])
      {
        assert r[k] in r;
      }
    }
    DropQuotesKeepsPlain(r);
    CollapseKeepsPlain(r);
    StripKeepsPlain(r);
  }
}

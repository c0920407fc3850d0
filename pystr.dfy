/** The few Python `str` operations the core relies on (`replace`, `split`,
    `join` and the `in` substring test), written out over `seq<char>`, with the
    facts about them that the rest of the model uses. */
module PyStr {

  /** `s.replace(pat, rep)` for a non-empty `pat`: occurrences are found from
      left to right and never overlap, so after a match the scan resumes just
      past it. */
  function Replace(s: string, pat: string, rep: string): string
    requires pat != []
    decreases |s|
  {
    if |s| < |pat| then s
    else if s[..|pat|] == pat then rep + Replace(s[|pat|..], pat, rep)
    else [s[0]] + Replace(s[1..], pat, rep)
  }

  /** `sub in s` for two strings: some suffix of `s` starts with `sub`. */
  predicate Contains(s: string, sub: string)
    decreases |s|
  {
    if |s| < |sub| then false
    else s[..|sub|] == sub || Contains(s[1..], sub)
  }

  /** No position of `s` holds `a` immediately followed by `b`. */
  ghost predicate PairFree(s: string, a: char, b: char) {
    forall i :: 0 <= i < |s| - 1 ==> !(s[i] == a && s[i + 1] == b)
  }

  /** `s.split(sep)` for a one-character separator: always at least one piece. */
  function Split(s: string, sep: char): (parts: seq<string>)
    ensures |parts| >= 1
  {
    if s == [] then [[]]
    else
      var rest := Split(s[1..], sep);
      if s[0] == sep then [[]] + rest
      else [[s[0]] + rest[0]] + rest[1..]
  }

  /** `sep.join(parts)` for a one-character separator. */
  function Join(parts: seq<string>, sep: char): string {
    if parts == [] then []
    else if |parts| == 1 then parts[0]
    else parts[0] + [sep] + Join(parts[1..], sep)
  }

  // ---------------------------------------------------------------- replace

  /** A replacement no longer than the pattern never makes the string longer. */
  lemma {:induction false} ReplaceNotLonger(s: string, pat: string, rep: string)
    requires pat != [] && |rep| <= |pat|
    ensures |Replace(s, pat, rep)| <= |s|
  {
    if |s| >= |pat| {
      if s[..|pat|] == pat {
        ReplaceNotLonger(s[|pat|..], pat, rep);
      } else {
        ReplaceNotLonger(s[1..], pat, rep);
      }
    }
  }

  /** A string without the pattern's first character is left as it is. */
  lemma {:induction false} ReplaceWithoutLead(s: string, pat: string, rep: string)
    requires pat != [] && pat[0] !in s
    ensures Replace(s, pat, rep) == s
  {
    if |s| >= |pat| {
      assert s[..|pat|][0] == s[0];
      ReplaceWithoutLead(s[1..], pat, rep);
      assert [s[0]] + s[1..] == s;
    }
  }

  /** The first character of a replacement with a two-character pattern and a
      one-character replacement. */
  lemma ReplaceHead(t: string, pat: string, rep: string)
    requires |pat| == 2 && |rep| == 1
    requires Replace(t, pat, rep) != []
    ensures Replace(t, pat, rep)[0] ==
            if |t| >= 2 && t[0] == pat[0] && t[1] == pat[1] then rep[0] else t[0]
  {
    if |t| >= 2 {
      assert t[..2] == [t[0], t[1]];
      assert pat == [pat[0], pat[1]];
    }
  }

  lemma PairFreeCons(x: char, t: string, a: char, b: char)
    requires PairFree(t, a, b)
    requires t != [] ==> !(x == a && t[0] == b)
    ensures PairFree([x] + t, a, b)
  {
    var s := [x] + t;
    forall i | 0 <= i < |s| - 1
      ensures !(s[i] == a && s[i + 1] == b)
    {
      if i > 0 {
        assert s[i] == t[i - 1] && s[i + 1] == t[i];
      }
    }
  }

  lemma PairFreeTail(s: string, k: nat, a: char, b: char)
    requires PairFree(s, a, b) && k <= |s|
    ensures PairFree(s[k..], a, b)
  {
    var t := s[k..];
    forall i | 0 <= i < |t| - 1
      ensures !(t[i] == a && t[i + 1] == b)
    {
      assert t[i] == s[k + i] && t[i + 1] == s[k + i + 1];
    }
  }

  /** Replacing a two-character pattern by a character that is neither of its
      own leaves no occurrence of the pattern behind. */
  lemma {:induction false} ReplaceRemovesPair(s: string, pat: string, rep: string)
    requires |pat| == 2 && |rep| == 1
    requires rep[0] != pat[0] && rep[0] != pat[1]
    ensures PairFree(Replace(s, pat, rep), pat[0], pat[1])
  {
    if |s| >= 2 {
      assert s[..2] == [s[0], s[1]];
      assert pat == [pat[0], pat[1]];
      if s[..2] == pat {
        ReplaceRemovesPair(s[2..], pat, rep);
        PairFreeCons(rep[0], Replace(s[2..], pat, rep), pat[0], pat[1]);
        assert rep == [rep[0]];
      } else {
        var t := s[1..];
        ReplaceRemovesPair(t, pat, rep);
        if Replace(t, pat, rep) != [] {
          ReplaceHead(t, pat, rep);
        }
        PairFreeCons(s[0], Replace(t, pat, rep), pat[0], pat[1]);
      }
    }
  }

  /** Replacing a two-character pattern by a character that is neither `a`
      nor `b` cannot create an `a` followed by `b`. */
  lemma {:induction false} ReplaceKeepsPairFree(s: string, pat: string, rep: string, a: char, b: char)
    requires |pat| == 2 && |rep| == 1
    requires rep[0] != a && rep[0] != b
    requires PairFree(s, a, b)
    ensures PairFree(Replace(s, pat, rep), a, b)
  {
    if |s| >= 2 {
      assert s[..2] == [s[0], s[1]];
      assert pat == [pat[0], pat[1]];
      if s[..2] == pat {
        PairFreeTail(s, 2, a, b);
        ReplaceKeepsPairFree(s[2..], pat, rep, a, b);
        PairFreeCons(rep[0], Replace(s[2..], pat, rep), a, b);
        assert rep == [rep[0]];
      } else {
        var t := s[1..];
        PairFreeTail(s, 1, a, b);
        ReplaceKeepsPairFree(t, pat, rep, a, b);
        if Replace(t, pat, rep) != [] {
          ReplaceHead(t, pat, rep);
        }
        PairFreeCons(s[0], Replace(t, pat, rep), a, b);
      }
    }
  }

  // ---------------------------------------------------------- split / join

  /** Joining the pieces of a split gives back the original string. */
  lemma {:induction false} JoinSplit(s: string, sep: char)
    ensures Join(Split(s, sep), sep) == s
  {
    if s != [] {
      var rest := Split(s[1..], sep);
      JoinSplit(s[1..], sep);
      if s[0] == sep {
        assert Join([[]] + rest, sep) == [] + [sep] + Join(rest, sep);
      } else if |rest| > 1 {
        assert Join(rest, sep) == rest[0] + [sep] + Join(rest[1..], sep);
        assert ([[s[0]] + rest[0]] + rest[1..])[1..] == rest[1..];
      }
      assert [s[0]] + s[1..] == s;
    }
  }

  /** `Split` of a string given by its first character and the rest. */
  lemma SplitCons(c: char, t: string, sep: char)
    ensures Split([c] + t, sep) ==
      if c == sep then [[]] + Split(t, sep) else [[c] + Split(t, sep)[0]] + Split(t, sep)[1..]
  {
    assert ([c] + t)[0] == c;
    assert ([c] + t)[1..] == t;
  }

  /** Extending the first piece of a non-empty list of pieces commutes with
      appending more pieces. */
  lemma ExtendFirstPiece(x: char, rest: seq<string>, tail: seq<string>)
    requires rest != []
    ensures [[x] + (rest + tail)[0]] + (rest + tail)[1..] == ([[x] + rest[0]] + rest[1..]) + tail
  {
    assert (rest + tail)[0] == rest[0];
    assert (rest + tail)[1..] == rest[1..] + tail;
  }

  /** Splitting at a separator between two strings: the pieces of the first
      followed by the pieces of the second. */
  lemma {:induction false} SplitConcat(a: string, b: string, sep: char)
    ensures Split(a + [sep] + b, sep) == Split(a, sep) + Split(b, sep)
  {
    if a == [] {
      assert [] + [sep] + b == [sep] + b;
      SplitCons(sep, b, sep);
    } else {
      var x, a' := a[0], a[1..];
      assert a == [x] + a';
      assert a + [sep] + b == [x] + (a' + [sep] + b);
      SplitConcat(a', b, sep);
      SplitCons(x, a' + [sep] + b, sep);
      SplitCons(x, a', sep);
      if x != sep {
        ExtendFirstPiece(x, Split(a', sep), Split(b, sep));
      } else {
        assert [[]] + (Split(a', sep) + Split(b, sep)) == ([[]] + Split(a', sep)) + Split(b, sep);
      }
    }
  }

  /** A string splits into more than one piece exactly when it holds the separator. */
  lemma {:induction false} SplitSingleIff(s: string, sep: char)
    ensures |Split(s, sep)| == 1 <==> sep !in s
  {
    if s != [] {
      SplitSingleIff(s[1..], sep);
      assert s == [s[0]] + s[1..];
    }
  }

  /** Splitting a separator-free line followed by the separator peels that line off. */
  lemma {:induction false} SplitAfterLine(a: string, b: string, sep: char)
    requires sep !in a
    ensures Split(a + [sep] + b, sep) == [a] + Split(b, sep)
  {
    if a == [] {
      assert [] + [sep] + b == [sep] + b;
      assert ([sep] + b)[1..] == b;
    } else {
      SplitAfterLine(a[1..], b, sep);
      assert (a + [sep] + b)[1..] == a[1..] + [sep] + b;
      assert [a[0]] + a[1..] == a;
    }
  }
}

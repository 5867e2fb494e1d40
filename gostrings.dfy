/** The three functions of Go's `strings` package that the bash generator
    relies on: `TrimSpace`, `Split` (always with a one-character separator)
    and `Join`.  Strings are sequences of Unicode scalar values here, so a
    "space" is a rune for which Go's `unicode.IsSpace` holds. */
module GoStrings {

  /** Go's `unicode.IsSpace`: the Latin-1 spaces and the other runes with
      the Unicode White_Space property. */
  predicate IsSpace(c: char) {
    || c == ' ' || c == '\t' || c == '\n' || c == '\r'
    || c == '\U{000B}' || c == '\U{000C}' || c == '\U{0085}' || c == '\U{00A0}'
    || c == '\U{1680}' || ('\U{2000}' <= c <= '\U{200A}')
    || c == '\U{2028}' || c == '\U{2029}' || c == '\U{202F}' || c == '\U{205F}'
    || c == '\U{3000}'
  }

  predicate AllSpace(s: string) {
    forall i :: 0 <= i < |s| ==> IsSpace(s[i])
  }

  /** `strings.TrimSpace`: drops the leading and the trailing spaces. */
  function TrimSpace(s: string): string
  {
    if |s| > 0 && IsSpace(s[0]) then TrimSpace(s[1..])
    else if |s| > 0 && IsSpace(s[|s| - 1]) then TrimSpace(s[..|s| - 1])
    else s
  }

  /** What `TrimSpace` leaves neither starts nor ends with a space. */
  lemma {:induction false} TrimSpaceEnds(s: string)
    ensures var r := TrimSpace(s); r == "" || (!IsSpace(r[0]) && !IsSpace(r[|r| - 1]))
    decreases |s|
  {
    if |s| > 0 && IsSpace(s[0]) {
      TrimSpaceEnds(s[1..]);
    } else if |s| > 0 && IsSpace(s[|s| - 1]) {
      TrimSpaceEnds(s[..|s| - 1]);
    }
  }

  /** `s` is what `TrimSpace` leaves with only spaces around it. */
  lemma {:induction false} TrimSpaceTrims(s: string)
    ensures exists i :: TrimmedAt(s, i, TrimSpace(s))
    decreases |s|
  {
    if |s| > 0 && IsSpace(s[0]) {
      TrimSpaceTrims(s[1..]);
      var j :| TrimmedAt(s[1..], j, TrimSpace(s[1..]));
      TrimmedAfterSpace(s, j, TrimSpace(s[1..]));
      assert TrimSpace(s) == TrimSpace(s[1..]);
      assert TrimmedAt(s, j + 1, TrimSpace(s));
    } else if |s| > 0 && IsSpace(s[|s| - 1]) {
      TrimSpaceTrims(s[..|s| - 1]);
      var j :| TrimmedAt(s[..|s| - 1], j, TrimSpace(s[..|s| - 1]));
      TrimmedBeforeSpace(s, j, TrimSpace(s[..|s| - 1]));
      assert TrimSpace(s) == TrimSpace(s[..|s| - 1]);
      assert TrimmedAt(s, j, TrimSpace(s));
    } else {
      assert TrimSpace(s) == s;
      assert s[0..|s|] == s;
      assert TrimmedAt(s, 0, s);
    }
  }

  lemma TrimmedAfterSpace(s: string, j: int, r: string)
    requires |s| > 0 && IsSpace(s[0])
    requires TrimmedAt(s[1..], j, r)
    ensures TrimmedAt(s, j + 1, r)
  {
    assert s[j + 1..j + 1 + |r|] == s[1..][j..j + |r|];
    assert s[..j + 1] == [s[0]] + s[1..][..j];
    assert s[j + 1 + |r|..] == s[1..][j + |r|..];
  }

  lemma TrimmedBeforeSpace(s: string, j: int, r: string)
    requires |s| > 0 && IsSpace(s[|s| - 1])
    requires TrimmedAt(s[..|s| - 1], j, r)
    ensures TrimmedAt(s, j, r)
  {
    assert s[j..j + |r|] == s[..|s| - 1][j..j + |r|];
    assert s[..j] == s[..|s| - 1][..j];
    assert s[j + |r|..] == s[..|s| - 1][j + |r|..] + [s[|s| - 1]];
  }

  /** Trimming adds no character that was not there. */
  lemma {:induction false} TrimSpaceOmits(s: string, c: char)
    requires c !in s
    ensures c !in TrimSpace(s)
    decreases |s|
  {
    if |s| > 0 && IsSpace(s[0]) {
      TrimSpaceOmits(s[1..], c);
    } else if |s| > 0 && IsSpace(s[|s| - 1]) {
      TrimSpaceOmits(s[..|s| - 1], c);
    }
  }

  /** `s` is `r` placed at offset `i` with only spaces around it. */
  predicate TrimmedAt(s: string, i: int, r: string) {
    0 <= i <= |s| - |r| && s[i..i + |r|] == r && AllSpace(s[..i]) && AllSpace(s[i + |r|..])
  }

  /** `strings.Split(s, string(sep))`.  Go returns one piece for a string
      without the separator, the empty string included. */
  function Split(s: string, sep: char): (r: seq<string>)
    ensures |r| >= 1
  {
    if |s| == 0 then [""]
    else
      var rest := Split(s[1..], sep);
      if s[0] == sep then [""] + rest
      else [[s[0]] + rest[0]] + rest[1..]
  }

  /** `strings.Join(parts, sep)`. */
  function Join(parts: seq<string>, sep: string): string
  {
    if |parts| == 0 then ""
    else if |parts| == 1 then parts[0]
    else parts[0] + sep + Join(parts[1..], sep)
  }

  lemma {:induction false} SplitPiecesHaveNoSeparator(s: string, sep: char)
    ensures forall k :: 0 <= k < |Split(s, sep)| ==> sep !in Split(s, sep)[k]
  {
    if |s| > 0 {
      SplitPiecesHaveNoSeparator(s[1..], sep);
    }
  }

  /** Joining the pieces with the separator gives back the string. */
  lemma {:induction false} JoinSplit(s: string, sep: char)
    ensures Join(Split(s, sep), [sep]) == s
  {
    if |s| > 0 {
      var rest := Split(s[1..], sep);
      JoinSplit(s[1..], sep);
      if s[0] == sep {
        assert Split(s, sep) == [""] + rest;
        assert ([""] + rest)[1..] == rest;
      } else {
        var parts := [[s[0]] + rest[0]] + rest[1..];
        assert Split(s, sep) == parts;
        if |rest| > 1 {
          assert parts[1..] == rest[1..];
        }
      }
    }
  }

  lemma {:induction false} SplitWithoutSeparator(x: string, sep: char)
    requires sep !in x
    ensures Split(x, sep) == [x]
  {
    if |x| > 0 {
      assert sep !in x[1..] by {
        forall k | 0 <= k < |x[1..]| ensures x[1..][k] != sep {
          assert x[1..][k] == x[k + 1];
        }
      }
      SplitWithoutSeparator(x[1..], sep);
      assert [x[0]] + x[1..] == x;
    }
  }

  lemma {:induction false} SplitAfterPiece(x: string, sep: char, y: string)
    requires sep !in x
    ensures Split(x + [sep] + y, sep) == [x] + Split(y, sep)
  {
    if |x| == 0 {
      assert x + [sep] + y == [sep] + y;
      assert ([sep] + y)[1..] == y;
    } else {
      var s := x + [sep] + y;
      assert s[1..] == x[1..] + [sep] + y;
      assert sep !in x[1..] by {
        forall k | 0 <= k < |x[1..]| ensures x[1..][k] != sep {
          assert x[1..][k] == x[k + 1];
        }
      }
      SplitAfterPiece(x[1..], sep, y);
      var rest := Split(s[1..], sep);
      assert rest == [x[1..]] + Split(y, sep);
      assert [s[0]] + rest[0] == x;
      assert rest[1..] == Split(y, sep);
    }
  }

  /** Splitting a join of separator-free pieces gives back the pieces. */
  lemma {:induction false} SplitJoin(parts: seq<string>, sep: char)
    requires |parts| >= 1
    requires forall k :: 0 <= k < |parts| ==> sep !in parts[k]
    ensures Split(Join(parts, [sep]), sep) == parts
  {
    if |parts| == 1 {
      SplitWithoutSeparator(parts[0], sep);
    } else {
      SplitJoin(parts[1..], sep);
      SplitAfterPiece(parts[0], sep, Join(parts[1..], [sep]));
      assert [parts[0]] + parts[1..] == parts;
    }
  }

  /** A join contains a character only when one of the parts or the
      separator does. */
  lemma {:induction false} JoinHasNoChar(parts: seq<string>, sep: string, c: char)
    requires c !in sep
    requires forall k :: 0 <= k < |parts| ==> c !in parts[k]
    ensures c !in Join(parts, sep)
  {
    if |parts| > 1 {
      JoinHasNoChar(parts[1..], sep, c);
    }
  }
}

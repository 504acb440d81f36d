/** Values shared by every part of the model: optional values, the exceptions
    the application raises, Python's truthiness test on optional text, and
    the string operations `split` and `join`. */
module Common {

  datatype Option<+T> = None | Some(value: T)

  /** The exceptions raised by the modelled code, with the message it gives. */
  datatype Error =
    | ValueError(msg: string)
    | KeyError(msg: string)
    | IndexError
    | WebScrapError
    | RuntimeError
    | WorkFlowError(msg: string)
    | StorageError(msg: string)
    | HTTPException(statusCode: int, detail: string)

  datatype Result<+T> = Ok(value: T) | Err(error: Error)

  /** Python's `if text:` on a `str | None`: false for None and for "". */
  predicate Truthy(text: Option<string>)
  {
    text.Some? && text.value != ""
  }

  /** The text of an optional string, or "" when absent. */
  function OrEmpty(text: Option<string>): (r: string)
    ensures Truthy(text) <==> r != ""
    ensures text.Some? ==> r == text.value
  {
    if text.Some? then text.value else ""
  }

  /** Python's `sep.join(items)`. */
  function Join(items: seq<string>, sep: string): string
  {
    if |items| == 0 then ""
    else if |items| == 1 then items[0]
    else items[0] + sep + Join(items[1..], sep)
  }

  /** Python's `str.split(sep)` for a non-empty separator: the pieces between
      the separators, found left to right without overlapping. */
  function Split(s: string, sep: string): (r: seq<string>)
    requires sep != ""
    ensures |r| >= 1
    decreases |s|
  {
    if |s| < |sep| then [s]
    else if s[..|sep|] == sep then [""] + Split(s[|sep|..], sep)
    else
      var rest := Split(s[1..], sep);
      [[s[0]] + rest[0]] + rest[1..]
  }

  /** Python's `s.split(sep)[-1]`. */
  function LastPiece(s: string, sep: string): string
    requires sep != ""
  {
    var pieces := Split(s, sep);
    pieces[|pieces| - 1]
  }

  /** Splitting and joining again with the same separator gives back the
      text: no character is lost or added by `split`. */
  lemma {:induction false} SplitJoin(s: string, sep: string)
    requires sep != ""
    ensures Join(Split(s, sep), sep) == s
    decreases |s|
  {
    if |s| < |sep| {
    } else if s[..|sep|] == sep {
      SplitJoin(s[|sep|..], sep);
      SplitJoinAtSep(s, sep);
    } else {
      SplitJoin(s[1..], sep);
      SplitJoinAtChar(s, sep);
    }
  }

  /** The round trip for a text that starts with the separator, given the
      round trip for the rest. */
  lemma SplitJoinAtSep(s: string, sep: string)
    requires sep != "" && |s| >= |sep| && s[..|sep|] == sep
    requires Join(Split(s[|sep|..], sep), sep) == s[|sep|..]
    ensures Join(Split(s, sep), sep) == s
  {
    var rest := Split(s[|sep|..], sep);
    SplitAtSep(s, sep);
    JoinCons("", rest, sep);
    Rejoin(sep, s[|sep|..], s);
  }

  /** The round trip for a text that does not start with the separator,
      given the round trip for the text after its first character. */
  lemma SplitJoinAtChar(s: string, sep: string)
    requires sep != "" && |s| >= |sep| && s[..|sep|] != sep
    requires Join(Split(s[1..], sep), sep) == s[1..]
    ensures Join(Split(s, sep), sep) == s
  {
    var rest := Split(s[1..], sep);
    SplitAtChar(s, sep);
    JoinExtendFirst(s[0], rest, sep);
    FirstAndRest(s);
  }

  lemma SplitAtSep(s: string, sep: string)
    requires sep != "" && |s| >= |sep| && s[..|sep|] == sep
    ensures Split(s, sep) == [""] + Split(s[|sep|..], sep)
  {
  }

  lemma SplitAtChar(s: string, sep: string)
    requires sep != "" && |s| >= |sep| && s[..|sep|] != sep
    ensures var rest := Split(s[1..], sep); Split(s, sep) == [[s[0]] + rest[0]] + rest[1..]
  {
  }

  /** A non-empty text is its first character followed by the rest. */
  lemma FirstAndRest(s: string)
    requires s != ""
    ensures [s[0]] + s[1..] == s
  {
  }

  /** A text is its first part followed by the rest. */
  lemma Rejoin(first: string, rest: string, s: string)
    requires |first| <= |s| && s[..|first|] == first && rest == s[|first|..]
    ensures "" + first + rest == s && first + rest == s
  {
    assert "" + first == first;
  }

  lemma JoinCons(first: string, rest: seq<string>, sep: string)
    requires rest != []
    ensures Join([first] + rest, sep) == first + sep + Join(rest, sep)
  {
    assert ([first] + rest)[1..] == rest;
  }

  /** Adding a character in front of the first piece adds it in front of
      the joined text. */
  lemma JoinExtendFirst(c: char, pieces: seq<string>, sep: string)
    requires pieces != []
    ensures Join([[c] + pieces[0]] + pieces[1..], sep) == [c] + Join(pieces, sep)
  {
    if |pieces| > 1 {
      JoinCons([c] + pieces[0], pieces[1..], sep);
      AppendAssoc([c] + pieces[0], sep, Join(pieces[1..], sep));
      AppendAssoc([c], pieces[0], sep + Join(pieces[1..], sep));
      AppendAssoc(pieces[0], sep, Join(pieces[1..], sep));
    }
  }

  /** Text without the one-character separator is a single piece. */
  lemma {:induction false} SplitWithoutSep(s: string, c: char)
    requires forall i :: 0 <= i < |s| ==> s[i] != c
    ensures Split(s, [c]) == [s]
    decreases |s|
  {
    if |s| >= 1 {
      SplitWithoutSep(s[1..], c);
      assert [s[0]] + s[1..] == s;
    }
  }

  /** With a one-character separator, the last piece is everything after
      the last separator. */
  lemma {:induction false} SplitLastAfterSep(a: string, c: char, b: string)
    requires forall i :: 0 <= i < |b| ==> b[i] != c
    ensures |Split(a + [c] + b, [c])| >= 2
    ensures LastPiece(a + [c] + b, [c]) == b
    decreases |a|
  {
    var s := a + [c] + b;
    if a == [] {
      assert s[..1] == [c] && s[1..] == b;
      SplitWithoutSep(b, c);
    } else {
      assert s[1..] == a[1..] + [c] + b;
      SplitLastAfterSep(a[1..], c, b);
      if a[0] != c {
        assert s[..1] != [c];
      } else {
        assert s[..1] == [c];
      }
    }
  }

  /** `sep` occurs in `s` at position `i`. */
  predicate SepAt(s: string, sep: string, i: nat)
  {
    i + |sep| <= |s| && s[i..i + |sep|] == sep
  }

  /** `sep` occurs nowhere in `s`. */
  predicate NoSepIn(s: string, sep: string)
  {
    forall i: nat :: i < |s| ==> !SepAt(s, sep, i)
  }

  /** No occurrence of `sep` in `a + sep` starts inside `a`: the separator
      written after `a` is the first one a left-to-right scan meets there. */
  predicate NoSepAcross(a: string, sep: string)
  {
    forall p: nat :: p < |a| < p + |sep| ==> !SepAt(a + sep, sep, p)
  }

  /** Text in which the separator never occurs is a single piece. */
  lemma {:induction false} SplitWithoutSepIn(s: string, sep: string)
    requires sep != "" && NoSepIn(s, sep)
    ensures Split(s, sep) == [s]
    decreases |s|
  {
    if |s| >= |sep| {
      assert !SepAt(s, sep, 0);
      forall i: nat | i < |s[1..]|
        ensures !SepAt(s[1..], sep, i)
      {
        assert !SepAt(s, sep, i + 1);
        if i + |sep| <= |s[1..]| {
          assert s[1..][i..i + |sep|] == s[i + 1..i + 1 + |sep|];
        }
      }
      SplitWithoutSepIn(s[1..], sep);
      SplitAtChar(s, sep);
      FirstAndRest(s);
    }
  }

  lemma NoSepAcrossDrop(a: string, sep: string, d: nat)
    requires d <= |a| && NoSepAcross(a, sep)
    ensures NoSepAcross(a[d..], sep)
  {
    forall p: nat | p < |a[d..]| < p + |sep|
      ensures !SepAt(a[d..] + sep, sep, p)
    {
      assert !SepAt(a + sep, sep, p + d);
      assert (a[d..] + sep)[p..p + |sep|] == (a + sep)[p + d..p + d + |sep|];
    }
  }

  /** The last piece is everything after a separator that is not crossed
      by an earlier occurrence and not followed by another one. This is the
      general form of `SplitLastAfterSep`. */
  lemma {:induction false} SplitLastAfterSepIn(a: string, sep: string, b: string)
    requires sep != "" && NoSepAcross(a, sep) && NoSepIn(b, sep)
    ensures |Split(a + sep + b, sep)| >= 2
    ensures LastPiece(a + sep + b, sep) == b
    decreases |a|
  {
    var s := a + sep + b;
    if a == [] {
      assert s[..|sep|] == sep && s[|sep|..] == b;
      SplitAtSep(s, sep);
      SplitWithoutSepIn(b, sep);
    } else if |a| >= |sep| && a[..|sep|] == sep {
      assert s[..|sep|] == sep && s[|sep|..] == a[|sep|..] + sep + b;
      SplitAtSep(s, sep);
      NoSepAcrossDrop(a, sep, |sep|);
      SplitLastAfterSepIn(a[|sep|..], sep, b);
    } else {
      if |a| >= |sep| {
        assert s[..|sep|] == a[..|sep|];
      } else {
        assert !SepAt(a + sep, sep, 0);
        assert s[..|sep|] == (a + sep)[0..|sep|];
      }
      assert s[1..] == a[1..] + sep + b;
      SplitAtChar(s, sep);
      NoSepAcrossDrop(a, sep, 1);
      SplitLastAfterSepIn(a[1..], sep, b);
    }
  }

  /** A start date, followed by " - " and the end date when there is one. */
  function DateRange(start: string, end: Option<string>): (r: string)
    ensures r == start <==> !Truthy(end)
    ensures Truthy(end) ==> r == start + " - " + end.value
    ensures start <= r
  {
    if Truthy(end) then start + " - " + end.value else start
  }

  /** Regrouping a concatenation: builders use it to keep the text or
      document they started from apart from what they have appended. */
  lemma AppendAssoc<T>(a: seq<T>, b: seq<T>, c: seq<T>)
    ensures a + b + c == a + (b + c)
  {
  }

  /** Splitting off the last element of the second of two sequences. */
  lemma SplitLast<T>(a: seq<T>, b: seq<T>)
    requires b != []
    ensures b == b[..|b| - 1] + [b[|b| - 1]]
    ensures a + b == (a + b[..|b| - 1]) + [b[|b| - 1]]
  {
    assert b == b[..|b| - 1] + [b[|b| - 1]];
  }

  /** A prefix one element longer. */
  lemma TakeOneMore<T>(s: seq<T>, i: nat)
    requires i < |s|
    ensures s[..i + 1] == s[..i] + [s[i]]
  {
  }

  /** A sequence begins any concatenation it opens. */
  lemma PrefixOfAppends<T>(a: seq<T>, b: seq<T>, c: seq<T>, d: seq<T>)
    ensures a <= a + b && a <= a + b + c + d
  {
    assert (a + b + c + d)[..|a|] == a;
  }

  /** A concatenation of six parts opens with the first and closes with the
      last. */
  lemma Framed<T>(a: seq<T>, b: seq<T>, c: seq<T>, d: seq<T>, e: seq<T>, f: seq<T>)
    ensures a <= a + b + c + d + e + f
    ensures var s := a + b + c + d + e + f; |s| >= |f| && s[|s| - |f|..] == f
  {
    var s := a + b + c + d + e + f;
    assert s[..|a|] == a;
    assert s[|s| - |f|..] == f;
  }

  lemma AppendNothing<T>(a: seq<T>)
    ensures a + [] == a
  {
  }
}

/**
 * JavaScript's `split` followed by `filter` of the empty pieces, as the
 * endpoint dispatcher and the key-combination renderer use them, and
 * `join`, its inverse for a one-character separator.
 */
module Split {
  import opened Seqs

  /**
   * `s.split(sep)` for a separator given by a character test: the pieces
   * between separator characters, in order, none of them holding one.
   */
  function SplitOn(s: string, isSep: char -> bool): (r: seq<string>)
    ensures |r| >= 1
    ensures forall i :: 0 <= i < |r| ==> NoSep(r[i], isSep)
  {
    if s == [] then [""]
    else
      var t := SplitOn(s[1..], isSep);
      if isSep(s[0]) then [""] + t
      else [[s[0]] + t[0]] + t[1..]
  }

  predicate NoSep(s: string, isSep: char -> bool)
  {
    forall j :: 0 <= j < |s| ==> !isSep(s[j])
  }

  /** There is one piece more than there are separator characters. */
  lemma {:induction false} SplitCount(s: string, isSep: char -> bool)
    ensures |SplitOn(s, isSep)| == |Filter(s, isSep)| + 1
  {
    if s != [] {
      SplitCount(s[1..], isSep);
      FilterAppend([s[0]], s[1..], isSep);
      assert [s[0]] + s[1..] == s;
      assert [s[0]][..0] == [];
    }
  }

  /** `pieces.join('')`. */
  function Concat(pieces: seq<string>): string
  {
    if pieces == [] then "" else pieces[0] + Concat(pieces[1..])
  }

  /** The test "is not a separator". */
  function Not(isSep: char -> bool): char -> bool
  {
    (c: char) => !isSep(c)
  }

  /** The pieces, put back together, are the input with its separators taken out. */
  lemma {:induction false} SplitConcat(s: string, isSep: char -> bool)
    ensures Concat(SplitOn(s, isSep)) == Filter(s, Not(isSep))
  {
    if s != [] {
      var t := SplitOn(s[1..], isSep);
      SplitConcat(s[1..], isSep);
      FilterAppend([s[0]], s[1..], Not(isSep));
      assert [s[0]] + s[1..] == s;
      assert [s[0]][..0] == [];
      if !isSep(s[0]) {
        assert t == [t[0]] + t[1..];
        assert Concat(t) == t[0] + Concat(t[1..]);
      }
    }
  }

  function NonEmpty(): string -> bool
  {
    (piece: string) => piece != ""
  }

  /** `s.split(sep).filter(Boolean)`: the non-empty pieces. */
  function Tokens(s: string, isSep: char -> bool): seq<string>
  {
    Filter(SplitOn(s, isSep), NonEmpty())
  }

  /** No token is empty, and none holds a separator. */
  lemma TokensClean(s: string, isSep: char -> bool)
    ensures forall i :: 0 <= i < |Tokens(s, isSep)| ==> Tokens(s, isSep)[i] != "" && NoSep(Tokens(s, isSep)[i], isSep)
  {
    var r := Tokens(s, isSep);
    FilterMembers(SplitOn(s, isSep), NonEmpty());
    assert forall i :: 0 <= i < |r| ==> r[i] in r;
  }

  lemma {:induction false} ConcatAppend(a: seq<string>, b: seq<string>)
    ensures Concat(a + b) == Concat(a) + Concat(b)
  {
    if a != [] {
      ConcatAppend(a[1..], b);
      assert (a + b)[1..] == a[1..] + b;
    } else {
      assert a + b == b;
    }
  }

  /** Dropping empty pieces does not change their concatenation. */
  lemma {:induction false} ConcatDropsEmpty(pieces: seq<string>)
    ensures Concat(Filter(pieces, NonEmpty())) == Concat(pieces)
  {
    if pieces != [] {
      var head, rest := pieces[0], pieces[1..];
      ConcatDropsEmpty(rest);
      assert [head] + rest == pieces;
      FilterAppend([head], rest, NonEmpty());
      assert [head][..0] == [];
      var kept := Filter([head], NonEmpty());
      assert kept == (if head != "" then [head] else []);
      ConcatAppend(kept, Filter(rest, NonEmpty()));
      assert Concat(kept) == head;
    }
  }

  /** The tokens, put back together, are the input with its separators taken out. */
  lemma TokensConcat(s: string, isSep: char -> bool)
    ensures Concat(Tokens(s, isSep)) == Filter(s, Not(isSep))
  {
    ConcatDropsEmpty(SplitOn(s, isSep));
    SplitConcat(s, isSep);
  }

  /** The test "is the character `c`". */
  function Is(c: char): char -> bool
  {
    (x: char) => x == c
  }

  /** `pieces.join(sep)` for a one-character separator. */
  function Join(pieces: seq<string>, sep: char): string
  {
    if pieces == [] then ""
    else if |pieces| == 1 then pieces[0]
    else pieces[0] + [sep] + Join(pieces[1..], sep)
  }

  /** Splitting a piece free of the separator, followed by one, gives the piece and then the rest's pieces. */
  lemma {:induction false} SplitAfterPiece(a: string, sep: char, b: string)
    requires NoSep(a, Is(sep))
    ensures SplitOn(a + [sep] + b, Is(sep)) == [a] + SplitOn(b, Is(sep))
  {
    if a == [] {
      assert (a + [sep] + b)[1..] == b;
    } else {
      SplitAfterPiece(a[1..], sep, b);
      assert (a + [sep] + b)[1..] == a[1..] + [sep] + b;
      assert [a[0]] + a[1..] == a;
    }
  }

  lemma {:induction false} SplitWithoutSep(a: string, isSep: char -> bool)
    requires NoSep(a, isSep)
    ensures SplitOn(a, isSep) == [a]
  {
    if a != [] {
      SplitWithoutSep(a[1..], isSep);
      assert [a[0]] + a[1..] == a;
    }
  }

  /** Joining pieces free of the separator and splitting again gives the pieces back. */
  lemma {:induction false} SplitJoin(pieces: seq<string>, sep: char)
    requires pieces != []
    requires forall i :: 0 <= i < |pieces| ==> NoSep(pieces[i], Is(sep))
    ensures SplitOn(Join(pieces, sep), Is(sep)) == pieces
  {
    if |pieces| == 1 {
      SplitWithoutSep(pieces[0], Is(sep));
    } else {
      SplitJoin(pieces[1..], sep);
      SplitAfterPiece(pieces[0], sep, Join(pieces[1..], sep));
      assert [pieces[0]] + pieces[1..] == pieces;
    }
  }

  /** Splitting and joining again with the same separator gives the input back. */
  lemma {:induction false} JoinSplit(s: string, sep: char)
    ensures Join(SplitOn(s, Is(sep)), sep) == s
  {
    if s != [] {
      var t := SplitOn(s[1..], Is(sep));
      JoinSplit(s[1..], sep);
      if s[0] == sep {
        assert ([""] + t)[1..] == t;
        assert s == [sep] + s[1..];
      } else {
        var r := [[s[0]] + t[0]] + t[1..];
        assert r[1..] == t[1..];
        if |t| == 1 {
          assert t == [t[0]];
        } else {
          assert Join(t, sep) == t[0] + [sep] + Join(t[1..], sep);
        }
        assert s == [s[0]] + s[1..];
      }
    }
  }
}

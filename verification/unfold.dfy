/** Line unfolding (parse.go:51-57), the reverse of the folding of section
    3.1 of RFC 5545: one left-to-right pass of `strings.Replacer` that
    deletes every CRLF followed by a single SPACE or HTAB. */
module Unfolding {

  /** A fold, CRLF followed by one SPACE or HTAB, starts at index i. */
  predicate FoldAt(s: string, i: nat)
  {
    i + 3 <= |s| && s[i] == '\r' && s[i + 1] == '\n' && (s[i + 2] == ' ' || s[i + 2] == '\t')
  }

  /** `unfold`: at each position a fold is deleted whole; any other
      character is copied and the scan moves one character on. */
  function Unfold(s: string): (r: string)
    ensures |r| <= |s|
    decreases |s|
  {
    if |s| == 0 then ""
    else if FoldAt(s, 0) then Unfold(s[3..])
    else [s[0]] + Unfold(s[1..])
  }

  /** The number of folds in the text. Folds never overlap: a fold's second
      and third characters cannot start another. */
  function Folds(s: string): nat
    decreases |s|
  {
    if |s| == 0 then 0
    else (if FoldAt(s, 0) then 1 else 0) + Folds(s[1..])
  }

  lemma {:induction false} FoldsNone(s: string)
    ensures Folds(s) == 0 <==> forall i :: 0 <= i < |s| ==> !FoldAt(s, i)
    decreases |s|
  {
    if |s| > 0 {
      FoldsNone(s[1..]);
      forall i | 1 <= i < |s| ensures FoldAt(s, i) == FoldAt(s[1..], i - 1) { }
      if Folds(s) == 0 {
        assert !FoldAt(s, 0) && Folds(s[1..]) == 0;
        forall i | 0 <= i < |s| ensures !FoldAt(s, i) {
          if i > 0 { assert !FoldAt(s[1..], i - 1); }
        }
      }
      if forall i :: 0 <= i < |s| ==> !FoldAt(s, i) {
        forall i | 0 <= i < |s| - 1 ensures !FoldAt(s[1..], i) { assert !FoldAt(s, i + 1); }
        assert Folds(s[1..]) == 0;
      }
    }
  }

  /** Every fold is deleted, and nothing else: unfolding shortens the text by
      exactly three characters per fold. */
  lemma {:induction false} UnfoldLength(s: string)
    ensures |Unfold(s)| == |s| - 3 * Folds(s)
    decreases |s|
  {
    if |s| > 0 {
      if FoldAt(s, 0) {
        assert !FoldAt(s[1..], 0) && !FoldAt(s[2..], 0);
        assert s[1..][1..] == s[2..] && s[2..][1..] == s[3..];
        assert Folds(s) == 1 + Folds(s[1..]);
        assert Folds(s[1..]) == Folds(s[2..]);
        assert Folds(s[2..]) == Folds(s[3..]);
        UnfoldLength(s[3..]);
      } else {
        UnfoldLength(s[1..]);
      }
    }
  }

  /** Unfolding changes a text if and only if it holds a fold. */
  lemma UnfoldIdentity(s: string)
    ensures Unfold(s) == s <==> forall i :: 0 <= i < |s| ==> !FoldAt(s, i)
  {
    UnfoldLength(s);
    FoldsNone(s);
    if forall i :: 0 <= i < |s| ==> !FoldAt(s, i) {
      UnfoldUnchanged(s);
    }
  }

  lemma {:induction false} UnfoldUnchanged(s: string)
    requires forall i :: 0 <= i < |s| ==> !FoldAt(s, i)
    ensures Unfold(s) == s
    decreases |s|
  {
    if |s| > 0 {
      forall i | 0 <= i < |s| - 1 ensures !FoldAt(s[1..], i) {
        assert !FoldAt(s, i + 1);
      }
      UnfoldUnchanged(s[1..]);
    }
  }

  /** A fold is deleted whole wherever it sits, and the text on either side
      unfolds as if the fold were not there: no fold straddles its edges. */
  lemma {:induction false} UnfoldSplice(a: string, w: char, b: string)
    requires w == ' ' || w == '\t'
    ensures Unfold(a + ['\r', '\n', w] + b) == Unfold(a) + Unfold(b)
    decreases |a|
  {
    var s := a + ['\r', '\n', w] + b;
    if |a| == 0 {
      assert s[3..] == b;
    } else {
      assert FoldAt(s, 0) <==> FoldAt(a, 0);
      if FoldAt(a, 0) {
        assert s[3..] == a[3..] + ['\r', '\n', w] + b;
        UnfoldSplice(a[3..], w, b);
      } else {
        assert s[1..] == a[1..] + ['\r', '\n', w] + b;
        UnfoldSplice(a[1..], w, b);
      }
    }
  }

  /** parse_test.go's two unfolding tests. */
  lemma UnfoldExamples()
    ensures Unfold("1\r\n 2\r\n 3") == "123"
    ensures Unfold("1\r\n\t2\r\n\t3") == "123"
  {
    UnfoldSplice("1", ' ', "2\r\n 3");
    UnfoldSplice("2", ' ', "3");
    UnfoldSplice("1", '\t', "2\r\n\t3");
    UnfoldSplice("2", '\t', "3");
  }

  /** One pass does not reach a fixed point: deleting a fold can join a
      carriage return to a line feed and a space that were apart. */
  lemma UnfoldNotIdempotent()
    ensures Unfold("\r\r\n \n ") == "\r\n "
    ensures Unfold("\r\n ") == ""
    ensures Unfold(Unfold("\r\r\n \n ")) != Unfold("\r\r\n \n ")
  {
    UnfoldSplice("\r", ' ', "\n ");
    UnfoldUnchanged("\r");
    UnfoldUnchanged("\n ");
    UnfoldSplice("", ' ', "");
  }
}

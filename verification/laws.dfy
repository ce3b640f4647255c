/** Laws relating the cursor operations of lib/lexer/token.rs to one another:
    how `take`, `take_split` and `take_from` carve up the same window, how
    `position` and `slice_index` feed `take_split`, and what the bookkeeping
    fields `start` and `end` do and do not record. */
module CursorLaws {
  import opened Wrappers
  import opened TokenCatalog
  import opened TokenCursor

  /** The consumed half of `take_split(n)` is `take(n)`, and the remainder
      shows the same tokens as `take_from(n)`. */
  lemma TakeSplitAgreesWithTakeAndTakeFrom(t: Tokens, n: nat)
    requires n <= InputLen(t)
    ensures TakeSplit(t, n).1 == Take(t, n)
    ensures TakeSplit(t, n).0.tok == TakeFrom(t, n).tok
  {
  }

  /** Taking `m` of the first `n` tokens is taking `m` tokens. */
  lemma TakeOfTake(t: Tokens, n: nat, m: nat)
    requires n <= InputLen(t) && m <= n
    ensures Take(Take(t, n), m) == Take(t, m)
  {
  }

  /** Skipping `i` then `j` tokens shows the tokens from `i + j` on, but the
      result records `start == j`: `start` is relative to the immediate
      parent, not an offset into the original stream. */
  lemma TakeFromOfTakeFrom(t: Tokens, i: nat, j: nat)
    requires i <= InputLen(t) && j <= InputLen(t) - i
    ensures TakeFrom(TakeFrom(t, i), j).tok == TakeFrom(t, i + j).tok
    ensures TakeFrom(TakeFrom(t, i), j).start == j
    ensures TakeFrom(TakeFrom(t, i), j).end == t.end
  {
  }

  /** What the bookkeeping does keep: `new` makes `start..end` span the
      window, and `take`, both halves of `take_split` and `take_from` keep it
      spanning at least the window. */
  lemma BookkeepingCoversWindow(t: Tokens, v: seq<Token>, n: nat)
    ensures MetadataCovers(New(v))
    ensures MetadataCovers(t) && n <= InputLen(t) ==>
      MetadataCovers(Take(t, n)) &&
      MetadataCovers(TakeSplit(t, n).0) && MetadataCovers(TakeSplit(t, n).1) &&
      MetadataCovers(TakeFrom(t, n))
  {
  }

  /** `take_from` keeps the bookkeeping consistent with the window exactly
      when the parent window starts at 0. */
  lemma TakeFromMetadataIff(t: Tokens, i: nat)
    requires i <= InputLen(t) && MetadataAgrees(t)
    ensures MetadataAgrees(TakeFrom(t, i)) <==> t.start == 0
  {
  }

  /** A cursor built from `new` by two `take_from(1)` steps sees one token
      while its bookkeeping spans two: `input_len` must not be read off
      `end - start`. */
  lemma InputLenIsNotEndMinusStart()
    ensures var t := TakeFrom(TakeFrom(New([Let, Let, Let]), 1), 1);
      InputLen(t) == 1 && t.end - t.start == 2
  {
  }

  /** When `slice_index(c)` succeeds, `take_split` at the returned count is
      in range and consumes exactly `c` tokens. */
  lemma SliceIndexThenTakeSplit(t: Tokens, c: nat)
    ensures SliceIndex(t, c).Ok? ==>
      SliceIndex(t, c).value <= InputLen(t) &&
      InputLen(TakeSplit(t, SliceIndex(t, c).value).1) == c &&
      InputLen(TakeSplit(t, SliceIndex(t, c).value).0) == InputLen(t) - c
    ensures SliceIndex(t, c).Err? ==> InputLen(t) < c
  {
  }

  /** Splitting at the position of the first match consumes only tokens that
      fail the predicate and leaves the matching token at the front of the
      remainder. */
  lemma PositionSplitsAtMatch(t: Tokens, p: Token -> bool)
    ensures Position(t, p).Some? ==>
      var (rest, consumed) := TakeSplit(t, Position(t, p).value);
      (forall j :: 0 <= j < InputLen(consumed) ==> !p(consumed.tok[j])) &&
      InputLen(rest) > 0 && p(rest.tok[0])
  {
  }

  /** The first match in `take(n)` is the first match of the whole window
      when that lies below `n`, and there is none otherwise. */
  lemma PositionInTake(t: Tokens, p: Token -> bool, n: nat)
    requires n <= InputLen(t)
    ensures Position(Take(t, n), p) ==
      if Position(t, p).Some? && Position(t, p).value < n then Position(t, p) else None
  {
    var w := Take(t, n);
    assert forall j :: 0 <= j < n ==> w.tok[j] == t.tok[j];
    match Position(t, p)
    case None =>
    case Some(i) =>
      if i < n {
        assert p(w.tok[i]);
      } else {
        assert forall j :: 0 <= j < n ==> !p(w.tok[j]);
      }
  }

  /** Skipping tokens that all fail the predicate shifts the first match
      down by the number skipped. */
  lemma PositionInTakeFrom(t: Tokens, p: Token -> bool, i: nat)
    requires i <= InputLen(t)
    requires forall j :: 0 <= j < i ==> !p(t.tok[j])
    ensures Position(TakeFrom(t, i), p).None? <==> Position(t, p).None?
    ensures Position(t, p).Some? ==>
      Position(t, p).value >= i && Position(TakeFrom(t, i), p) == Some(Position(t, p).value - i)
  {
  }

  /** Enumerating a concatenation enumerates the second part with the
      counter advanced past the first. */
  lemma EnumerateAppend(a: seq<Token>, b: seq<Token>, k: nat)
    ensures Enumerate(a + b, k) == Enumerate(a, k) + Enumerate(b, k + |a|)
  {
  }

  /** `iter_elements` and `iter_indices` walk the same tokens: the indexed
      iteration is the plain one paired with positions 0, 1, 2, ... */
  lemma IterIndicesPairsIterElements(t: Tokens)
    ensures |IterIndices(t)| == |IterElements(t)|
    ensures forall i :: 0 <= i < |IterIndices(t)| ==> IterIndices(t)[i] == (i, IterElements(t)[i])
  {
  }

  /** Iterating the two halves of `take_split(n)` visits the tokens of the
      whole window in order; the remainder's own indices restart at 0, so
      they are the whole window's indices minus `n`. */
  lemma IterationOfTakeSplit(t: Tokens, n: nat)
    requires n <= InputLen(t)
    ensures IterElements(TakeSplit(t, n).1) + IterElements(TakeSplit(t, n).0) == IterElements(t)
    ensures IterIndices(t) == IterIndices(TakeSplit(t, n).1) + Enumerate(TakeSplit(t, n).0.tok, n)
  {
    var (rest, consumed) := TakeSplit(t, n);
    calc {
      IterIndices(t);
      Enumerate(t.tok, 0);
      { assert t.tok == consumed.tok + rest.tok; }
      Enumerate(consumed.tok + rest.tok, 0);
      { EnumerateAppend(consumed.tok, rest.tok, 0); }
      Enumerate(consumed.tok, 0) + Enumerate(rest.tok, n);
    }
  }
}

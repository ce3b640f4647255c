/** The token-stream cursor of lib/lexer/token.rs:45-128.

    `Tokens` is a window over a token sequence, handed to the `nom` parser
    combinators as their input type. The window itself is `tok`; `start` and
    `end` are bookkeeping fields that the operations set but never read back
    (except `take_from`, which copies the parent's `end`). In particular
    `InputLen` is the length of `tok`, not `end - start`, and after
    `TakeFrom` the two need not agree.

    Every operation is a pure function. Where Rust would panic on an
    out-of-range slice the function has a `requires` instead. */
module TokenCursor {
  import opened Wrappers
  import opened TokenCatalog

  datatype Tokens = Tokens(tok: seq<Token>, start: nat, end: nat)

  /** `nom::Needed`; this cursor only ever reports an unknown amount. */
  datatype Needed = Unknown

  /** The bookkeeping fields span at least the visible window. */
  predicate MetadataCovers(t: Tokens)
  {
    t.start <= t.end && |t.tok| <= t.end - t.start
  }

  /** The bookkeeping fields describe a window of exactly `|tok|` tokens. */
  predicate MetadataAgrees(t: Tokens)
  {
    t.start <= t.end && t.end - t.start == |t.tok|
  }

  /** `Tokens::new`: a cursor over the whole sequence. */
  function New(v: seq<Token>): (r: Tokens)
    ensures InputLen(r) == |v| && IterElements(r) == v
    ensures MetadataAgrees(r) && r.start == 0
    ensures v == [] ==> InputLen(r) == 0
  {
    Tokens(v, 0, |v|)
  }

  /** `input_len`: the number of tokens visible through the window. */
  function InputLen(t: Tokens): (n: nat)
    ensures MetadataAgrees(t) ==> n == t.end - t.start
  {
    |t.tok|
  }

  /** `take`: the first `n` tokens, as a fresh window whose bookkeeping is
      reset to `(0, n)`. */
  function Take(t: Tokens, n: nat): (r: Tokens)
    requires n <= InputLen(t)
    ensures InputLen(r) == n
    ensures forall i :: 0 <= i < n ==> r.tok[i] == t.tok[i]
    ensures r.start == 0 && MetadataAgrees(r)
  {
    Tokens(t.tok[0..n], 0, n)
  }

  /** `take_split`: the pair `(remainder, consumed)`, in that order, where
      `consumed` holds the first `n` tokens and `remainder` the rest. Both
      windows have their bookkeeping reset to `(0, own length)`. */
  function TakeSplit(t: Tokens, n: nat): (r: (Tokens, Tokens))
    requires n <= InputLen(t)
    ensures InputLen(r.1) == n && InputLen(r.0) == InputLen(t) - n
    ensures r.1.tok + r.0.tok == t.tok
    ensures r.0.start == 0 && MetadataAgrees(r.0)
    ensures r.1.start == 0 && MetadataAgrees(r.1)
  {
    var prefix := t.tok[..n];
    var suffix := t.tok[n..];
    assert prefix + suffix == t.tok;
    var first := Tokens(prefix, 0, |prefix|);
    var second := Tokens(suffix, 0, |suffix|);
    (second, first)
  }

  /** `iter_elements`: the visible tokens, front to back. */
  function IterElements(t: Tokens): (r: seq<Token>)
    ensures |r| == InputLen(t)
    ensures forall i :: 0 <= i < |r| ==> r[i] == t.tok[i]
  {
    t.tok
  }

  /** `Iterator::enumerate` over `s`, with the counter starting at `k`. */
  function Enumerate(s: seq<Token>, k: nat): (r: seq<(nat, Token)>)
    ensures |r| == |s|
    ensures forall i :: 0 <= i < |s| ==> r[i] == (k + i, s[i])
    decreases |s|
  {
    if s == [] then []
    else [(k, s[0])] + Enumerate(s[1..], k + 1)
  }

  /** `iter_indices`: every visible token paired with its position in the
      window, front to back. */
  function IterIndices(t: Tokens): (r: seq<(nat, Token)>)
    ensures |r| == InputLen(t)
    ensures forall i :: 0 <= i < |r| ==> r[i].0 == i && r[i].1 == t.tok[i]
  {
    Enumerate(t.tok, 0)
  }

  /** `Iterator::position` over `s`: the index of the first token that
      satisfies `p`, or `None` when none does. */
  function FirstMatch(s: seq<Token>, p: Token -> bool): (r: Option<nat>)
    ensures r.Some? ==> r.value < |s| && p(s[r.value])
    ensures r.Some? ==> forall j :: 0 <= j < r.value ==> !p(s[j])
    ensures r.None? <==> forall j :: 0 <= j < |s| ==> !p(s[j])
    decreases |s|
  {
    if s == [] then None
    else if p(s[0]) then Some(0)
    else match FirstMatch(s[1..], p)
      case None => None
      case Some(i) => Some(i + 1)
  }

  /** `position`: the smallest window index whose token satisfies `p`, or
      `None` exactly when no visible token does. */
  function Position(t: Tokens, p: Token -> bool): (r: Option<nat>)
    ensures r.Some? ==> r.value < InputLen(t) && p(t.tok[r.value])
    ensures r.Some? ==> forall j :: 0 <= j < r.value ==> !p(t.tok[j])
    ensures r.None? <==> forall j :: 0 <= j < InputLen(t) ==> !p(t.tok[j])
    ensures InputLen(t) == 0 ==> r.None?
  {
    FirstMatch(t.tok, p)
  }

  /** `slice_index`: `Ok(count)` when at least `count` tokens are visible,
      otherwise a request for an unknown amount of further input. */
  function SliceIndex(t: Tokens, count: nat): (r: Result<nat, Needed>)
    ensures r.Ok? <==> count <= InputLen(t)
    ensures r.Ok? ==> r.value == count && r.value <= InputLen(t)
    ensures r.Err? ==> r.error == Unknown
  {
    if |t.tok| >= count then Ok(count) else Err(Unknown)
  }

  /** `take_from`: the tokens from `index` on. The new `start` is `index`
      (relative to this window, not to the original stream) and `end` is
      copied from the parent unchanged. */
  function TakeFrom(t: Tokens, index: nat): (r: Tokens)
    requires index <= InputLen(t)
    ensures InputLen(r) == InputLen(t) - index
    ensures forall i :: 0 <= i < InputLen(r) ==> r.tok[i] == t.tok[index + i]
    ensures r.start == index && r.end == t.end
  {
    Tokens(t.tok[index..], index, t.end)
  }
}

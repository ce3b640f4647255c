# Monkey token catalog and token cursor, in Dafny

This project models `lib/lexer/token.rs` of the Monkey interpreter
(monkey-rust): the closed `Token` enum that is the alphabet of the language,
and the `Tokens` cursor through which the `nom` parser combinators read a
pre-lexed token sequence.

- `wrappers.dfy` — module `Wrappers`: Rust's `Option` and `Result`.
- `token.dfy` — module `TokenCatalog`: the `Token` datatype (32 variants, the
  `IntLiteral` payload as a 64-bit signed `i64` newtype), the derived
  `PartialEq` as `DerivedEq` (discriminant, then payload), and the proof that
  it is structural equality.
- `cursor.dfy` — module `TokenCursor`: `Tokens(tok, start, end)` and one
  pure function per operation of the `nom::Input` implementation
  (`New`, `InputLen`, `Take`, `TakeSplit`, `IterElements`, `IterIndices`,
  `Position`, `SliceIndex`, `TakeFrom`). An index that would make Rust's slice
  operation panic is excluded by a `requires`.
- `laws.dfy` — module `CursorLaws`: how the operations relate to one another
  (split round-trip, `take`/`take_from` composition, `position` against
  `take_split`, `slice_index` against `take_split`, iteration of split windows)
  and what the bookkeeping fields `start`/`end` record.
- `scenario.dfy` — module `Scenarios`: the tokens of `let x = 5;` pushed
  through the cursor.

The cursor's `start` and `end` are set by every constructor of a window but
never read by the operations, except that `take_from` copies its parent's
`end`. `take` and `take_split` reset them to `(0, own length)`; `take_from`
records the index relative to its parent. The model keeps this behaviour as
written. `CursorLaws.TakeFromMetadataIff` and
`CursorLaws.InputLenIsNotEndMinusStart` show its consequence:
`end - start` is not the window length after `take_from` on a window that
does not start at 0. `input_len` always reads the window itself.

## Model

| member | source | states |
|---|---|---|
| TokenCatalog.Discriminant | lib/lexer/token.rs:5-43 | every token has a discriminant below the number of declared variants |
| TokenCatalog.DiscriminantRoundTrip | lib/lexer/token.rs:5-43 | turning a token's discriminant back into a token gives that token's variant with the payload erased |
| TokenCatalog.StripKeepsDiscriminant | lib/lexer/token.rs:5-43 | erasing a token's payload does not change its discriminant |
| TokenCatalog.PayloadRoundTrip | lib/lexer/token.rs:5-43 | a token is rebuilt exactly from its payload-erased variant and its payload |
| TokenCatalog.DiscriminantIdentifiesVariant | lib/lexer/token.rs:5-43 | two tokens have equal discriminants exactly when they are built by the same variant, checked against a reference that compares the tokens with their payloads erased |
| TokenCatalog.DerivedEq | lib/lexer/token.rs:4-43 | the derived `PartialEq` holds exactly when the two tokens are of the same variant and carry the same payload |
| TokenCatalog.DerivedEqIsEquality | lib/lexer/token.rs:4-43 | the derived `PartialEq` (same discriminant and same payload) holds exactly when two tokens are equal |
| TokenCatalog.PayloadDistinguishes | lib/lexer/token.rs:9-12 | under the derived `PartialEq`, `Ident(x)` equals `Ident(y)` iff `x == y`; an identifier differs from a string literal with the same text; an integer literal never equals a boolean literal |
| TokenCursor.New | lib/lexer/token.rs:54-60 | the new cursor shows all of `v`, its length is `|v|`, its bookkeeping is `(0, |v|)`; an empty `v` gives a zero-length cursor |
| TokenCursor.InputLen | lib/lexer/token.rs:65-67 | the length is the size of the visible window; it equals `end - start` whenever the bookkeeping agrees with the window |
| TokenCursor.Take | lib/lexer/token.rs:69-75 | for `n <= input_len`, the result shows the first `n` tokens, has length `n` and bookkeeping `(0, n)` |
| TokenCursor.TakeSplit | lib/lexer/token.rs:78-91 | for `n <= input_len`, returns `(remainder, consumed)`: consumed has length `n`, remainder has the rest, consumed ++ remainder is the window, and each has bookkeeping `(0, own length)` |
| TokenCursor.IterElements | lib/lexer/token.rs:101-104 | yields exactly the visible tokens, as many as `input_len`, in window order |
| TokenCursor.Enumerate | lib/lexer/token.rs:98-100 | enumerating from counter `k` yields, in order, `(k + i, s[i])` for every index `i` |
| TokenCursor.IterIndices | lib/lexer/token.rs:98-100 | yields exactly the pairs `(i, tok[i])` for every window index, in order |
| TokenCursor.FirstMatch | lib/lexer/token.rs:110 | returns the first index whose token satisfies the predicate, or `None` exactly when no token does |
| TokenCursor.Position | lib/lexer/token.rs:106-111 | `Some(i)` for the smallest `i` with `p(tok[i])`; `None` iff no visible token satisfies `p`, so always `None` on an empty window |
| TokenCursor.SliceIndex | lib/lexer/token.rs:113-119 | `Ok(count)` iff `count <= input_len`, otherwise `Err(Unknown)`; an `Ok` value never exceeds `input_len` |
| TokenCursor.TakeFrom | lib/lexer/token.rs:121-127 | for `index <= input_len`, shows the tokens from `index` on, `start == index` and `end` is the parent's `end` unchanged |
| CursorLaws.TakeSplitAgreesWithTakeAndTakeFrom | lib/lexer/token.rs:69-91 | the consumed half of `take_split(n)` is `take(n)` and the remainder shows the tokens of `take_from(n)` |
| CursorLaws.TakeOfTake | lib/lexer/token.rs:69-75 | `take(m)` of `take(n)` is `take(m)` for `m <= n` |
| CursorLaws.TakeFromOfTakeFrom | lib/lexer/token.rs:121-127 | `take_from(j)` after `take_from(i)` shows the tokens from `i + j`, but records `start == j` and the original `end` |
| CursorLaws.BookkeepingCoversWindow | lib/lexer/token.rs:54-127 | `new` makes `start..end` span the window; `take`, both halves of `take_split` and `take_from` keep `start <= end` with `end - start` at least the window length |
| CursorLaws.TakeFromMetadataIff | lib/lexer/token.rs:121-127 | on a window whose bookkeeping agrees, `take_from` keeps it agreeing iff the window's `start` is 0 |
| CursorLaws.InputLenIsNotEndMinusStart | lib/lexer/token.rs:54-67 | a cursor reached by `new` and two `take_from(1)` has one visible token while `end - start` is 2 |
| CursorLaws.SliceIndexThenTakeSplit | lib/lexer/token.rs:78-119 | a successful `slice_index(c)` is a valid `take_split` count that consumes exactly `c` tokens; a failed one means fewer than `c` are visible |
| CursorLaws.PositionSplitsAtMatch | lib/lexer/token.rs:78-111 | splitting at the first match consumes only non-matching tokens and leaves the matching token first in the remainder |
| CursorLaws.PositionInTake | lib/lexer/token.rs:69-111 | the first match in `take(n)` is the whole window's first match when that lies below `n`, and `None` otherwise |
| CursorLaws.PositionInTakeFrom | lib/lexer/token.rs:106-127 | skipping `i` non-matching tokens with `take_from` shifts the first match down by `i`, and preserves whether there is one |
| CursorLaws.EnumerateAppend | lib/lexer/token.rs:98-100 | enumerating `a ++ b` from `k` is enumerating `a` from `k` then `b` from `k + |a|` |
| CursorLaws.IterIndicesPairsIterElements | lib/lexer/token.rs:98-104 | `iter_indices` is `iter_elements` paired with positions 0, 1, 2, ... |
| CursorLaws.IterationOfTakeSplit | lib/lexer/token.rs:78-104 | iterating consumed then remainder of `take_split(n)` visits the whole window in order; the window's indices are the consumed half's followed by the remainder's shifted by `n` |
| Scenarios.LetStatementWalkthrough | lib/lexer/token.rs:54-119 | on `let x = 5;`: `take(1)` is `[Let]`, `take_split(2)` consumes `let x` and leaves `= 5 ;`, the semicolon is at position 4, and asking for 6 tokens needs more input |

## Left out

- The `nom::Input` trait machinery (associated types `Item`, `Iter`, `IterIndices`, and the `Enumerate`/`slice::Iter` iterator objects): iteration is modelled as the finite sequence the iterator yields.
- Lifetimes, borrowing and the no-copy guarantee: Dafny sequences are values, so O(1) narrowing of a shared array cannot be stated.
- `#[repr(C)]`, the `Clone`/`Copy`/`Debug` derives and `#[inline]` hints: they do not change behaviour.
- Panics on out-of-range indices in `take`, `take_split` and `take_from`: stated as `requires` clauses rather than modelled failures.
- `Needed` has only the `Unknown` constructor, the only one this cursor produces.
- `usize` is modelled as `nat`: no operation does arithmetic on a `usize` (`slice_index` only compares its count with the length, `take_from` copies `end` unchanged, and the other fields are set from slice lengths or the caller's count), so no wrap-around is reachable.
- The `position` predicate is a total Dafny function; a Rust closure with interior mutability is not modelled.
- Immutability of the cursor under iteration is not stated: every Dafny value is immutable.

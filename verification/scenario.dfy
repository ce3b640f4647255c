/** The token stream of `let x = 5;` pushed through the cursor operations. */
module Scenarios {
  import opened Wrappers
  import opened TokenCatalog
  import opened TokenCursor

  function LetStatement(): seq<Token>
  {
    [Let, Ident("x"), Assign, IntLiteral(5), SemiColon]
  }

  /** `take(1)` sees `let`; `take_split(2)` consumes `let x` and leaves
      `= 5 ;`; the first semicolon is at index 4. */
  lemma LetStatementWalkthrough()
    ensures Take(New(LetStatement()), 1).tok == [Let]
    ensures TakeSplit(New(LetStatement()), 2).1.tok == [Let, Ident("x")]
    ensures TakeSplit(New(LetStatement()), 2).0.tok == [Assign, IntLiteral(5), SemiColon]
    ensures Position(New(LetStatement()), (tk: Token) => tk.SemiColon?) == Some(4)
    ensures SliceIndex(New(LetStatement()), 6) == Err(Unknown)
  {
    var t := New(LetStatement());
    assert t.tok == [Let, Ident("x"), Assign, IntLiteral(5), SemiColon];
    assert t.tok[4].SemiColon? && forall j :: 0 <= j < 4 ==> !t.tok[j].SemiColon?;
  }
}

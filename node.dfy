/** The abstract syntax tree (src/Parsing/Node.cs). */
module Ast {
  import opened Tokens

  /** An expression: a number literal or a binary operation. */
  datatype Expr = Number(value: real) | Binary(lhs: Expr, op: TokenType, rhs: Expr)

  /** A statement: the empty statement `;` or an expression statement. */
  datatype Stmt = Nop | ExprStmt(expr: Expr)

  /** A program: its statements in order. */
  datatype Prog = Prog(body: seq<Stmt>)

  /** A chain `left op1 r1 op2 r2 ...` grouped to the left, read from the left
      as the parsers' loops build it: `((left op1 r1) op2 r2) ...`. */
  function FoldLeft(left: Expr, rights: seq<(TokenType, Expr)>): (e: Expr)
    ensures rights == [] ==> e == left
    ensures rights != [] ==> e.Binary? && (e.op, e.rhs) == rights[|rights| - 1]
    decreases |rights|
  {
    if rights == [] then left
    else FoldLeft(Binary(left, rights[0].0, rights[0].1), rights[1..])
  }

  /** Extending a chain by one operand puts the whole chain so far on the
      left of the new operator. */
  lemma {:induction false} FoldLeftSnoc(left: Expr, rights: seq<(TokenType, Expr)>, op: TokenType, rhs: Expr)
    ensures FoldLeft(left, rights + [(op, rhs)]) == Binary(FoldLeft(left, rights), op, rhs)
    decreases |rights|
  {
    if rights != [] {
      assert (rights + [(op, rhs)])[1..] == rights[1..] + [(op, rhs)];
      FoldLeftSnoc(Binary(left, rights[0].0, rights[0].1), rights[1..], op, rhs);
    }
  }
}

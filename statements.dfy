/** The closed set of BASIC statements and the data each one carries. */
module Statements {
  import opened Expressions

  const SyntaxError := "SYNTAX ERROR"

  /**
   * One variant per statement class. The IF comparator is kept as the string the
   * parser produced; only execution decides whether it is one of the six known ones.
   */
  datatype Stmt =
    | Rem(comment: seq<string>)
    | Let(name: string, exp: Expr)
    | Print(exp: Expr)
    | Input(name: string)
    | End
    | Goto(target: int)
    | If(lhs: Expr, op: string, rhs: Expr, target: int)

  /** The keyword each statement is written with. */
  function Keyword(s: Stmt): string {
    match s
    case Rem(_) => "REM"
    case Let(_, _) => "LET"
    case Print(_) => "PRINT"
    case Input(_) => "INPUT"
    case End => "END"
    case Goto(_) => "GOTO"
    case If(_, _, _, _) => "IF"
  }
}

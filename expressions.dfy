/**
 * Expressions are abstract here. An expression is identified by the tokens it
 * was read from; which token lists form an expression, how a number token is
 * converted and how an expression evaluates are supplied from outside, so that
 * nothing is claimed about precedence, division or overflow.
 */
module Expressions {
  import opened Wrappers

  /** The variable store: each bound name maps to its integer value. */
  type Vars = map<string, int>

  datatype Expr = Expr(tokens: seq<string>)

  /**
   * The parsing collaborators: read(ts) passes when the expression reader
   * consumes exactly the tokens ts and otherwise fails with the message the
   * reader raises (SYNTAX ERROR for tokens left over); toInteger converts a
   * line-number token or raises its own error.
   */
  datatype Syntax = Syntax(read: seq<string> -> Outcome, toInteger: string -> Result<int>)

  /** Evaluation of an expression against the variable store: a value or an error message. */
  type Evaluator = (Expr, Vars) -> Result<int>
}

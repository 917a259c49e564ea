/** Core forms of the language after their heads have been recognised. */
module Syntax {
  import opened Prelude
  import opened Data

  datatype Formals = Formals(params: seq<string>, rest: Option<string>) {
    function Names(): seq<string> {
      if rest.Some? then params + [rest.value] else params
    }
  }

  datatype Expr =
    | Lit(c: Const)
    | Var(x: string)
    | SetVar(x: string, e: Expr)
    | Define(x: string, e: Expr)
    | If(test: Expr, thn: Expr, els: Option<Expr>)
    | Begin(es: Exprs)
    | And(es: Exprs)
    | Or(es: Exprs)
    | When(test: Expr, body: Exprs)
    | Unless(test: Expr, body: Exprs)
    | Let(bs: Bindings, body: Exprs)
    | LetStar(bs: Bindings, body: Exprs)
    | Cond(tests: Tests)
    | Case(key: Expr, clauses: Clauses)
    | Lambda(formals: Formals, body: Exprs)
    | App(f: Expr, args: Exprs)

  datatype Exprs = NoExprs | More(head: Expr, tail: Exprs)

  datatype Bindings = NoBindings | Bind(x: string, init: Expr, rest: Bindings)

  /** `cond` clauses in order; `Arrow` is the `(test => receiver)` form. */
  datatype Tests =
    | NoTests
    | ElseTests(body: Exprs)
    | Test(test: Expr, body: Exprs, rest: Tests)
    | Arrow(test: Expr, receiver: Expr, rest: Tests)

  /** `case` clauses in order. */
  datatype Clauses =
    | NoClauses
    | ElseClauses(body: Exprs)
    | Clause(data: seq<Const>, body: Exprs, rest: Clauses)

  function Count(es: Exprs): nat {
    if es.NoExprs? then 0 else 1 + Count(es.tail)
  }
}

/**
  The expression tree of the object-definition language: operators, type
  paths, prefabs, expressions, terms and follows, and the two conversions
  between an expression and a term.

  A bare term converts to an expression with no unary operators and no
  follows; an expression converts back to a term by peeling off such no-op
  wrappers (a parenthesised term), recursively, and boxing anything else.
*/
module Ast {

  import opened Wrappers

  datatype UnaryOp = Neg | Not | BitNot | PreIncr | PostIncr | PreDecr | PostDecr

  datatype PathOp = Slash | Dot | Colon

  datatype BinaryOp =
    | Pow | Add | Sub | Mul | Div | Mod
    | Less | Greater | LessEq | GreaterEq
    | LShift | RShift | Eq | NotEq
    | BitAnd | BitXor | BitOr | And | Or

  datatype AssignOp =
    | Assign | AddAssign | SubAssign | MulAssign | DivAssign
    | BitAndAssign | BitOrAssign | BitXorAssign | LShiftAssign | RShiftAssign

  /** The compound-assignment operator for a binary operator. As written it
      answers no mapping for any operator. */
  function AssignOpOf(op: BinaryOp): (r: Option<AssignOp>)
    ensures r == None
  {
    None
  }

  /** The binary operator underlying an assignment operator. As written it
      answers no mapping for any operator. */
  function BinaryOpOf(op: AssignOp): (r: Option<BinaryOp>)
    ensures r == None
  {
    None
  }

  /** A signed 32-bit integer literal. */
  newtype I32 = x: int | -0x8000_0000 <= x < 0x8000_0000

  /** A 32-bit float literal, kept as its bit pattern and never interpreted. */
  datatype F32 = F32(bits: bv32)

  type TypePath = seq<(PathOp, string)>

  /** A type path with variable overrides. The overrides keep their
      insertion order, and two prefabs are equal only when the overrides
      are equal in the same order. */
  datatype Prefab = Prefab(path: TypePath, vars: seq<(string, Expression)>)

  datatype NewType = Implicit | Ident(name: string) | Prefab(fab: Prefab)

  datatype Expression =
    /** A term, then its follows, then its unary operators in reverse order. */
    | Base(unary: seq<UnaryOp>, term: Term, follow: seq<Follow>)
    | Binary(bop: BinaryOp, lhs: Expression, rhs: Expression)
    | Assign(aop: AssignOp, lhs: Expression, rhs: Expression)

  datatype Term =
    | Null
    | New(newType: NewType, args: seq<Expression>)
    | List(items: seq<(Expression, Option<Expression>)>)
    | Call(callee: string, args: seq<Expression>)
    | PrefabLit(fab: Prefab)
    | Ident(ident: string)
    | String(text: string)
    | Resource(resource: string)
    | Int(intValue: I32)
    | Float(floatValue: F32)
    | Expr(expr: Expression)

  datatype Follow =
    | Field(field: string)
    | Index(index: Expression)
    | Call(methodName: string, args: seq<Expression>)

  /** An expression that only wraps its term: no unary operators, no follows. */
  predicate IsBare(e: Expression) {
    e.Base? && e.unary == [] && e.follow == []
  }

  /** A term in the form the expression-to-term conversion produces: never a
      parenthesised bare expression. */
  predicate Canonical(t: Term) {
    !(t.Expr? && IsBare(t.expr))
  }

  /** Conversion of a term into an expression. */
  function ExprOf(t: Term): (e: Expression)
    ensures IsBare(e) && e.term == t
  {
    Base([], t, [])
  }

  /** Conversion of an expression into a term. */
  function TermOf(e: Expression): (t: Term)
    ensures Canonical(t)
    ensures !IsBare(e) ==> t == Expr(e)
    ensures IsBare(e) && !e.term.Expr? ==> t == e.term
    decreases e
  {
    match e
    case Base(unary, term, follow) =>
      if unary == [] && follow == [] then
        match term
        case Expr(inner) => TermOf(inner)
        case _ => term
      else
        Expr(Base(unary, term, follow))
    case _ => Expr(e)
  }

  /** Strips every layer of no-op parenthesisation from the outside of an
      expression: the expression a reader sees once redundant brackets are
      dropped. */
  function Unparen(e: Expression): (u: Expression)
    ensures !(IsBare(u) && u.term.Expr?)
    decreases e
  {
    if IsBare(e) && e.term.Expr? then Unparen(e.term.expr) else e
  }

  /** `n` layers of parentheses around `x`. */
  function Parenthesised(n: nat, x: Expression): Expression {
    if n == 0 then x else Base([], Expr(Parenthesised(n - 1, x)), [])
  }

  /** Converting a term to an expression and back gives the term itself
      exactly when the term is canonical. */
  lemma RoundTripIffCanonical(t: Term)
    ensures TermOf(ExprOf(t)) == t <==> Canonical(t)
  {
    if Canonical(t) && t.Expr? {
      assert !IsBare(t.expr);
    }
  }

  /** Every term that is not a parenthesised expression survives the round
      trip through an expression. */
  lemma RoundTripNonExpr(t: Term)
    requires !t.Expr?
    ensures TermOf(ExprOf(t)) == t
  {
    RoundTripIffCanonical(t);
  }

  /** Simplifying twice is the same as simplifying once. */
  lemma TermOfIdempotent(e: Expression)
    ensures TermOf(ExprOf(TermOf(e))) == TermOf(e)
  {
    RoundTripIffCanonical(TermOf(e));
  }

  /** Any number of redundant parentheses around an expression collapse to
      the term of the expression itself. */
  lemma {:induction false} NestedParenthesesCollapse(n: nat, x: Expression)
    ensures TermOf(Parenthesised(n, x)) == TermOf(x)
  {
    if n > 0 {
      NestedParenthesesCollapse(n - 1, x);
    }
  }

  /** The expression-to-term conversion loses nothing but parenthesisation:
      turning its result back into an expression gives the input up to
      redundant brackets. */
  lemma {:induction false} TermOfKeepsMeaning(e: Expression)
    ensures Unparen(ExprOf(TermOf(e))) == Unparen(e)
    decreases e
  {
    if IsBare(e) && e.term.Expr? {
      TermOfKeepsMeaning(e.term.expr);
    }
  }
}

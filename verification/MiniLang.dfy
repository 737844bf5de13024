/** The abstract syntax the builder walks. */
module MiniLang {
  import opened Cir

  datatype TypeName = IntName | LongName | FloatName | BoolName | VoidName

  datatype TypeNode = TypeNode(name: TypeName, arrayLen: Option<int>)

  datatype UnaryOp = Negate | Complement | LogicalNot

  datatype BinaryOp =
    | Plus | Minus | Times | Over | Modulo
    | Equal | NotEqual | Less | LessEqual | Greater | GreaterEqual
    | Both | Either
    | BitAnd | BitOr | BitXor | ShiftLeft | ShiftRight

  datatype Expr =
    | IntLit(value: int)
    | FloatLit(float: Float)
    | BoolLit(truth: bool)
    | VarRef(name: string)
    | Unary(uop: UnaryOp, operand: Expr)
    | Binary(bop: BinaryOp, lhs: Expr, rhs: Expr)
    | CallExpr(callee: string, args: seq<Expr>)
    | Index(base: Expr, index: Expr)

  datatype Stmt =
    | Let(name: string, typeNode: TypeNode, init: Option<Expr>)
    | Assign(target: Expr, source: Expr)
    | ExprStmt(expr: Expr)
    | Block(stmts: seq<Stmt>)
    | If(cond: Expr, thenPart: Stmt, elsePart: Option<Stmt>)
    | While(cond: Expr, body: Stmt)
    | For(first: Option<Stmt>, test: Option<Expr>, step: Option<Stmt>, body: Stmt)
    | Break
    | Continue
    | Return(result: Option<Expr>)

  datatype Param = Param(name: string, typeNode: TypeNode)

  datatype FnDecl = FnDecl(name: string, params: seq<Param>, retType: TypeNode, body: Stmt)

  /** Names assigned anywhere below `s`. */
  function AssignedNames(s: Stmt): set<string> {
    match s
    case Assign(VarRef(name), _) => {name}
    case Block(stmts) => AssignedIn(stmts)
    case If(_, t, e) => AssignedNames(t) + (if e.Some? then AssignedNames(e.value) else {})
    case While(_, body) => AssignedNames(body)
    case For(first, _, step, body) =>
      (if first.Some? then AssignedNames(first.value) else {}) +
          (if step.Some? then AssignedNames(step.value) else {}) + AssignedNames(body)
    case _ => {}
  }

  function AssignedIn(stmts: seq<Stmt>): set<string> {
    if stmts == [] then {} else AssignedNames(stmts[0]) + AssignedIn(stmts[1..])
  }

  /** `break` and `continue` only inside loops, and `return` with a value exactly when there is one to give. */
  predicate WellPlaced(s: Stmt, inLoop: bool, isVoid: bool) {
    match s
    case Break => inLoop
    case Continue => inLoop
    case Return(v) => v.None? <==> isVoid
    case Block(stmts) => forall k :: 0 <= k < |stmts| ==> WellPlaced(stmts[k], inLoop, isVoid)
    case If(_, t, e) => WellPlaced(t, inLoop, isVoid) && (e.Some? ==> WellPlaced(e.value, inLoop, isVoid))
    case While(_, body) => WellPlaced(body, true, isVoid)
    case For(first, _, step, body) =>
      && (first.Some? ==> WellPlaced(first.value, inLoop, isVoid))
          && (step.Some? ==> WellPlaced(step.value, inLoop, isVoid))
      && WellPlaced(body, true, isVoid)
    case _ => true
  }
}

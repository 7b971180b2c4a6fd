/** The abstract syntax of queries: conditions, nodes and the values that the
    parser passes around. */
module QueryAst {
  datatype NodeOp = NOOP | ANDOP | OROP

  datatype FieldOp = NO | EQ | LT | GT | LE | GE | NE

  /** Dynamically typed values. Floats are exact reals. `Raw` and `List` are
      matched bytes and sequences, `Pointer` is a node or condition handle. */
  datatype Value =
    | NoValue
    | Str(s: string)
    | Int(n: int)
    | Float(v: real)
    | Raw(s: string)
    | List(vs: seq<Value>)
    | Pointer
    | Parsed(q: Query)

  datatype Condition = Condition(field: string, op: FieldOp, value: Value, invert: bool)

  /** An element of a node; `Missing` is a nil condition. */
  datatype Item = Cond(c: Condition) | Sub(n: Node) | Missing

  datatype Node = Node(op: NodeOp, conds: seq<Item>)

  datatype Query = Query(cond: Item)
}

/** How values and operators are printed. */
module ValueText {
  import opened QueryAst
  import opened Decimal

  function Quoted(s: string): string {
    var t := if s != "" && s[0] == '"' then s else "\"" + s;
    if t != "" && t[|t| - 1] == '"' then t else t + "\""
  }

  /** The text of a value; other dynamic types print as nothing. */
  function VtoS(v: Value): string {
    match v
    case Str(s) => Quoted(s)
    case Int(n) => IntText(n)
    case Float(x) => FloatText(x)
    case _ => ""
  }

  function OpName(op: NodeOp): string {
    match op case NOOP => "NOP" case ANDOP => "AND" case OROP => "OR"
  }

  /** Every element is a condition or a node, at every depth. */
  predicate NoMissing(n: Node)
    decreases n
  {
    forall i | 0 <= i < |n.conds| :: !n.conds[i].Missing? && (n.conds[i].Sub? ==> NoMissing(n.conds[i].n))
  }
}

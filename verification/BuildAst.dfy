/** The entry point: a text becomes a query or an error. */
module BuildAst {
  import opened Wrappers
  import opened Peg
  import opened QueryAst
  import opened NodeStacks
  import opened QueryGrammar
  import opened Tokens
  import opened Values
  import opened QueryParse
  import opened Parsers

  /** A successful parse has read the whole text. */
  lemma InputEnds(g: Grammar, data: string)
    requires Q(g)
    ensures var r := RecRule(g, data, INPUT, 0); r.Some? ==> r.value == |data|
  {
    InputParts(g);
    RuleIs(g, data, INPUT, 0);
    var es := Body(INPUT).e.es;
    if RecSeq(g, data, es, 0, 0).Some? {
      hide Rec, RecRule, RecSeq;
      SeqStep(g, data, es, 0, 0);
      var p0 := Rec(g, data, es[0], 0).value;
      SeqStep(g, data, es, 1, p0);
      var p1 := Rec(g, data, es[1], p0).value;
      SeqStep(g, data, es, 2, p1);
      var p2 := Rec(g, data, es[2], p1).value;
      SeqStep(g, data, es, 3, p2);
      NotAtEnd(g, data, p2);
      SeqEnd(g, data, es, p2);
    }
  }

  /** Without memoisation the result is the query the semantics predicts, or an
      error when nothing matches, an action fails or the text is no UTF-8. With
      memoisation the text is recognized in the same cases. */
  method BuildAST(g: Grammar, data: string, memoize: bool, n: NodeStack) returns (ok: bool, r: Option<Value>)
    requires IsQueryGrammar(g)
    modifies n
    ensures WellFormed(g) && ok == RecRule(g, data, INPUT, 0).Some?
    ensures !memoize ==> r == Built(g, data)
  {
    GrammarWellFormed(g);
    n.Reset();
    var p := new Parser(g, data, memoize, n);
    p.PushV();
    var val;
    val, ok := p.ParseRule(INPUT);
    InputEnds(g, data);
    r := if ok && !p.failed && !p.badEncoding then Some(val) else None;
  }
}

/** Windows: ranges of numbers or of dates and times in brackets. */
module Windows {
  import opened Wrappers
  import opened Peg
  import opened QueryGrammar
  import opened Decimal
  import opened Texts
  import opened Tokens
  import opened Values

  /** Where the parts of a window stand. */
  lemma WindowParts(data: string, pos: nat, v: ValText)
    requires v.WindowText? && StartsAt(data, pos, TextOf(v))
    ensures var b := pos + 1 + |v.open|; var c := b + |v.from|; var d := c + 1; var e := d + |v.to|; var f := e + |v.close|;
            && f + 1 == pos + |TextOf(v)| <= |data|
            && Is(data, pos, '[') && StartsAt(data, pos + 1, v.open) && StartsAt(data, b, v.from) && Is(data, c, '~')
            && StartsAt(data, d, v.to) && StartsAt(data, e, v.close) && Is(data, f, ']')
  {
    hide StartsAt;
    var c := pos + 1 + |v.open| + |v.from|;
    var f := c + 1 + |v.to| + |v.close|;
    var t4 := v.close + "]";
    var t3 := "~" + (v.to + t4);
    StartsBound(data, pos, TextOf(v));
    StartsSplit(data, pos, "[", v.open + (v.from + t3));
    StartsSplit(data, pos + 1, v.open, v.from + t3);
    StartsSplit(data, pos + 1 + |v.open|, v.from, t3);
    StartsSplit(data, c, "~", v.to + t4);
    StartsSplit(data, c + 1, v.to, t4);
    StartsSplit(data, c + 1 + |v.to|, v.close, "]");
    StartsOne(data, pos, '[');
    StartsOne(data, c, '~');
    StartsOne(data, f, ']');
  }

  lemma WinDateTimeIs(g: Grammar, data: string, pos: nat)
    requires Q(g) && pos <= |data|
    ensures RecRule(g, data, WIN_DATE_TIME, pos) == RecRule(g, data, DATE_TIME, pos)
  {
    hide RecRule, Rec;
    RuleIs(g, data, WIN_DATE_TIME, pos);
    RuleIs(g, data, DATE_TIME, pos);
  }

  lemma ListParts(g: Grammar, r: RuleId)
    requires Q(g) && r < RULES && Body(r).Seq?
    ensures ExprOk(g, Body(r)) && forall k | 0 <= k < |Body(r).es| :: ExprOk(g, Body(r).es[k])
  {
    assert RuleOk(g, r);
  }

  lemma DateWindowMatches(g: Grammar, data: string, pos: nat, from: string, to: string)
    requires Q(g) && LegalDateTime(from) && LegalDateTime(to)
    requires var c := pos + |from|; StartsAt(data, pos, from) && Is(data, c, '~') && StartsAt(data, c + 1, to)
    ensures RecRule(g, data, DATE_WINDOW, pos) == Some(pos + |from| + 1 + |to|)
  {
    hide RecRule, Rec, RecSeq, StartsAt, LegalDateTime;
    var c := pos + |from|;
    StartsBound(data, c + 1, to);
    DateTimeMatches(g, data, pos, from);
    DateTimeMatches(g, data, c + 1, to);
    WinDateTimeIs(g, data, pos);
    WinDateTimeIs(g, data, c + 1);
    CharAt(g, data, TILDA, '~', c);
    var es := Body(DATE_WINDOW).es;
    ListParts(g, DATE_WINDOW);
    RuleIs(g, data, DATE_WINDOW, pos);
    SeqIs(g, data, es, pos);
    RefPart(g, data, es, 0, WIN_DATE_TIME, pos);
    RefPart(g, data, es, 1, TILDA, c);
    RefPart(g, data, es, 2, WIN_DATE_TIME, c + 1);
    SeqEnd(g, data, es, c + 1 + |to|);
  }

  /** A number in front of a tilde is no date and time. */
  lemma DateWindowFails(g: Grammar, data: string, pos: nat, end: nat)
    requires Q(g) && pos <= end && Is(data, end, '~') && forall k | pos <= k < end :: NumberChar(data[k])
    ensures RecRule(g, data, DATE_WINDOW, pos) == None
  {
    hide RecRule, Rec, RecSeq;
    DateTimeShape(g, data, pos);
    WinDateTimeIs(g, data, pos);
    assert !NumberChar(data[end]) && (pos + 10 < end ==> NumberChar(data[pos + 10]));
    RuleIs(g, data, DATE_WINDOW, pos);
    RuleIs(g, data, WIN_DATE_TIME, pos);
    ListParts(g, DATE_WINDOW);
    SeqFails(g, data, Body(DATE_WINDOW).es, pos);
  }

  lemma WinNumberMatches(g: Grammar, data: string, pos: nat, t: string)
    requires Q(g) && LegalNumber(t) && StartsAt(data, pos, t)
    requires pos + |t| < |data| ==> !NumberChar(data[pos + |t|])
    ensures RecRule(g, data, WIN_NUMBER, pos) == Some(pos + |t|)
  {
    hide RecRule, LegalNumber, StartsAt;
    NumberSpan(data, pos, t);
    NumberSeq(g, data, pos, pos + |t|);
    RuleIs(g, data, WIN_NUMBER, pos);
  }

  /** The number at the end of a window, behind its dash if there is one. */
  lemma EndSplit(data: string, pos: nat, to: string)
    requires LegalEnd(to) && StartsAt(data, pos, to)
    ensures var dash := to != "" && to[0] == '-'; var n := if dash then to[1..] else to; var p := if dash then pos + 1 else pos;
            && pos < |data| && (data[pos] == '-' <==> dash) && LegalNumber(n) && StartsAt(data, p, n) && p + |n| == pos + |to|
  {
    hide StartsAt, LegalNumber;
    EndStart(to);
    StartsChar(data, pos, to, 0);
    StartsBound(data, pos, to);
    if to[0] == '-' {
      assert to == "-" + to[1..];
      StartsSplit(data, pos, "-", to[1..]);
    }
  }

  lemma EndStart(to: string)
    requires LegalEnd(to)
    ensures to != ""
  {
  }

  /** The end of a number window: the dash goes to the window. */
  lemma EndMatches(g: Grammar, data: string, es: seq<Expr>, pos: nat, to: string)
    requires Q(g) && (forall k | 0 <= k < |es| :: ExprOk(g, es[k])) && es == Body(NUMBER_WINDOW).es
    requires LegalEnd(to) && StartsAt(data, pos, to) && (pos + |to| < |data| ==> !NumberChar(data[pos + |to|]))
    ensures pos <= |data| && RecSeq(g, data, es, 2, pos) == Some(pos + |to|)
  {
    hide RecRule, Rec, RecSeq, LegalNumber, StartsAt, LegalEnd, NumberChar;
    EndSplit(data, pos, to);
    var dash := to != "" && to[0] == '-';
    var p := if dash then pos + 1 else pos;
    WinNumberMatches(g, data, p, if dash then to[1..] else to);
    EndSeq(g, data, es, pos, p, pos + |to|);
  }

  lemma EndSeq(g: Grammar, data: string, es: seq<Expr>, pos: nat, p: nat, end: nat)
    requires Q(g) && (forall k | 0 <= k < |es| :: ExprOk(g, es[k])) && es == Body(NUMBER_WINDOW).es
    requires pos < |data| && p <= |data| && p == if data[pos] == '-' then pos + 1 else pos
    requires RecRule(g, data, WIN_NUMBER, p) == Some(end) && end <= |data|
    ensures RecSeq(g, data, es, 2, pos) == Some(end)
  {
    hide RecRule, Rec, RecSeq;
    CharAt(g, data, DASH, '-', pos);
    OptIs(g, data, Ref(DASH), pos);
    RuleIs(g, data, DASH, pos);
    OptPart(g, data, es, 2, pos);
    RefPart(g, data, es, 3, WIN_NUMBER, p);
    SeqEnd(g, data, es, end);
  }

  lemma OptPart(g: Grammar, data: string, es: seq<Expr>, i: nat, pos: nat)
    requires Q(g) && (forall k | 0 <= k < |es| :: ExprOk(g, es[k])) && i < |es| && es[i].Opt? && pos <= |data|
    ensures Rec(g, data, es[i], pos).Some?
    ensures RecSeq(g, data, es, i, pos) == RecSeq(g, data, es, i + 1, Rec(g, data, es[i], pos).value)
  {
  }

  lemma NumberWindowMatches(g: Grammar, data: string, pos: nat, from: string, to: string)
    requires Q(g) && LegalNumber(from) && LegalEnd(to)
    requires var c := pos + |from|; StartsAt(data, pos, from) && Is(data, c, '~') && StartsAt(data, c + 1, to)
    requires var e := pos + |from| + 1 + |to|; e < |data| ==> !NumberChar(data[e])
    ensures RecRule(g, data, NUMBER_WINDOW, pos) == Some(pos + |from| + 1 + |to|)
  {
    hide RecRule, Rec, RecSeq, StartsAt, LegalNumber, LegalEnd;
    var c := pos + |from|;
    CharAt(g, data, TILDA, '~', c);
    WinNumberMatches(g, data, pos, from);
    var es := Body(NUMBER_WINDOW).es;
    ListParts(g, NUMBER_WINDOW);
    RuleIs(g, data, NUMBER_WINDOW, pos);
    SeqIs(g, data, es, pos);
    RefPart(g, data, es, 0, WIN_NUMBER, pos);
    RefPart(g, data, es, 1, TILDA, c);
    EndMatches(g, data, es, c + 1, to);
  }

  lemma RangeMatches(g: Grammar, data: string, pos: nat, from: string, to: string)
    requires Q(g) && LegalRange(from, to)
    requires var c := pos + |from|; StartsAt(data, pos, from) && Is(data, c, '~') && StartsAt(data, c + 1, to)
    requires var e := pos + |from| + 1 + |to|; e < |data| ==> !NumberChar(data[e])
    ensures RecRule(g, data, WINDOW_RANGE, pos) == Some(pos + |from| + 1 + |to|)
  {
    hide RecRule, Rec, StartsAt, LegalNumber, LegalEnd, LegalDateTime;
    if LegalDateTime(from) && LegalDateTime(to) {
      DateWindowMatches(g, data, pos, from, to);
    } else {
      NumberSpan(data, pos, from);
      DateWindowFails(g, data, pos, pos + |from|);
      NumberWindowMatches(g, data, pos, from, to);
    }
    RuleIs(g, data, DATE_WINDOW, pos);
    RuleIs(g, data, NUMBER_WINDOW, pos);
    RuleIs(g, data, WINDOW_RANGE, pos);
    Choice2(g, data, Ref(DATE_WINDOW), Ref(NUMBER_WINDOW), pos);
  }

  /** A window is matched as a whole. */
  lemma WindowMatches(g: Grammar, data: string, pos: nat, v: ValText)
    requires Q(g) && v.WindowText? && LegalVal(v) && StartsAt(data, pos, TextOf(v))
    ensures RecRule(g, data, WINDOW, pos) == Some(pos + |TextOf(v)|)
  {
    hide RecRule, TextOf, LegalRange;
    WindowParts(data, pos, v);
    var b := pos + 1 + |v.open|;
    var e := b + |v.from| + 1 + |v.to|;
    WindowGaps(data, pos + 1, v);
    hide LegalVal, StartsAt;
    RangeMatches(g, data, b, v.from, v.to);
    WindowSeq(g, data, pos, b, e, e + |v.close|);
  }

  lemma WindowSeq(g: Grammar, data: string, pos: nat, b: nat, e: nat, f: nat)
    requires Q(g) && pos < b <= e <= f && Is(data, pos, '[') && Is(data, f, ']')
    requires AllWs(data[pos + 1..b]) && !WsAt(data, b) && AllWs(data[e..f]) && !WsAt(data, f)
    requires RecRule(g, data, WINDOW_RANGE, b) == Some(e)
    ensures RecRule(g, data, WINDOW, pos) == Some(f + 1)
  {
    hide RecRule, Rec, RecSeq, AllWs, WsAt;
    CharAt(g, data, OPEN_BRACKET, '[', pos);
    CharAt(g, data, CLOSE_BRACKET, ']', f);
    var es := Body(WINDOW).e.es;
    RuleIs(g, data, WINDOW, pos);
    SeqIs(g, data, es, pos);
    RefPart(g, data, es, 0, OPEN_BRACKET, pos);
    SeqOptWs(g, data, es, 1, pos + 1, b);
    RefPart(g, data, es, 2, WINDOW_RANGE, b);
    SeqOptWs(g, data, es, 3, e, f);
    RefPart(g, data, es, 4, CLOSE_BRACKET, f);
    SeqEnd(g, data, es, f + 1);
  }

  /** The whitespace inside the brackets and what ends it. */
  lemma WindowGaps(data: string, pos: nat, v: ValText)
    requires v.WindowText? && LegalVal(v)
    requires var b := pos + |v.open|; var c := b + |v.from|; var e := c + 1 + |v.to|; var f := e + |v.close|;
             && f < |data| && StartsAt(data, pos, v.open) && StartsAt(data, b, v.from) && StartsAt(data, e, v.close) && Is(data, f, ']')
    ensures var b := pos + |v.open|; var e := b + |v.from| + 1 + |v.to|; var f := e + |v.close|;
            && AllWs(data[pos..b]) && !WsAt(data, b) && AllWs(data[e..f]) && !WsAt(data, f) && !NumberChar(data[e])
  {
    hide LegalRange, StartsAt;
    var b, e := pos + |v.open|, pos + |v.open| + |v.from| + 1 + |v.to|;
    RangeStart(v.from, v.to);
    StartsBound(data, pos, v.open);
    StartsBound(data, e, v.close);
    StartsChar(data, b, v.from, 0);
    if v.close != "" { StartsChar(data, e, v.close, 0); }
  }

  lemma RangeStart(from: string, to: string)
    requires LegalRange(from, to)
    ensures from != "" && !IsWs(from[0])
  {
    if LegalDateTime(from) { assert IsDigit(from[0]); }
  }
}

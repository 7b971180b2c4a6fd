/** A reader of JSON texts (RFC 8259) without escapes in strings. */
module Json {
  import opened Wrappers
  import opened Decimal
  import opened Texts

  datatype Json = Object(members: seq<(string, Json)>) | Array(elems: seq<Json>) | Text(s: string) | Number(v: real)

  /** A character that stands for itself between quotes. */
  predicate PlainChar(c: char) {
    c >= ' ' && c != '"' && c != '\\'
  }

  predicate Plain(s: string) {
    forall i | 0 <= i < |s| :: PlainChar(s[i])
  }

  predicate NumberChar(c: char) {
    IsDigit(c) || c == '+' || c == '-' || c == '.' || c == 'e' || c == 'E'
  }

  predicate IsSpace(c: char) {
    c == ' ' || c == '\t' || c == '\r' || c == '\n'
  }

  function Skip(s: string, i: nat): (j: nat)
    requires i <= |s|
    ensures i <= j <= |s|
    decreases |s| - i
  {
    if i < |s| && IsSpace(s[i]) then Skip(s, i + 1) else i
  }

  /** The end of the run of plain characters from `i`. */
  function PlainRun(s: string, i: nat): (j: nat)
    requires i <= |s|
    ensures i <= j <= |s|
    decreases |s| - i
  {
    if i < |s| && PlainChar(s[i]) then PlainRun(s, i + 1) else i
  }

  function NumberRun(s: string, i: nat): (j: nat)
    requires i <= |s|
    ensures i <= j <= |s|
    decreases |s| - i
  {
    if i < |s| && NumberChar(s[i]) then NumberRun(s, i + 1) else i
  }

  /** A string that starts with the quote at `i`. */
  function ReadText(s: string, i: nat): (r: Option<(string, nat)>)
    requires i < |s| && s[i] == '"'
    ensures r.Some? ==> i < r.value.1 <= |s|
  {
    var j := PlainRun(s, i + 1);
    if j < |s| && s[j] == '"' then Some((s[i + 1..j], j + 1)) else None
  }

  function ReadValue(s: string, at: nat): (r: Option<(Json, nat)>)
    requires at <= |s|
    ensures r.Some? ==> at < r.value.1 <= |s|
    decreases |s| - at, 2
  {
    var i := Skip(s, at);
    if i == |s| then None
    else if s[i] == '"' then
      var t := ReadText(s, i);
      if t.None? then None else Some((Text(t.value.0), t.value.1))
    else if s[i] == '{' then
      var k := Skip(s, i + 1);
      if k < |s| && s[k] == '}' then Some((Object([]), k + 1))
      else
        var m := ReadMembers(s, i + 1);
        if m.None? then None else Some((Object(m.value.0), m.value.1))
    else if s[i] == '[' then
      var k := Skip(s, i + 1);
      if k < |s| && s[k] == ']' then Some((Array([]), k + 1))
      else
        var m := ReadElems(s, i + 1);
        if m.None? then None else Some((Array(m.value.0), m.value.1))
    else
      var j := NumberRun(s, i);
      var v := ParseFloat(s[i..j]);
      if v.None? || j == i then None else Some((Number(v.value), j))
  }

  /** The members of an object, up to and including its closing brace. */
  function ReadMembers(s: string, at: nat): (r: Option<(seq<(string, Json)>, nat)>)
    requires at <= |s|
    ensures r.Some? ==> at < r.value.1 <= |s|
    decreases |s| - at, 1
  {
    var i := Skip(s, at);
    if i == |s| || s[i] != '"' then None
    else
      var key := ReadText(s, i);
      if key.None? then None
      else
        var colon := Skip(s, key.value.1);
        if colon == |s| || s[colon] != ':' then None
        else
          var v := ReadValue(s, colon + 1);
          if v.None? then None
          else
            var e := Skip(s, v.value.1);
            if e == |s| then None
            else if s[e] == '}' then Some(([(key.value.0, v.value.0)], e + 1))
            else if s[e] != ',' then None
            else
              var rest := ReadMembers(s, e + 1);
              if rest.None? then None else Some(([(key.value.0, v.value.0)] + rest.value.0, rest.value.1))
  }

  /** The elements of an array, up to and including its closing bracket. */
  function ReadElems(s: string, at: nat): (r: Option<(seq<Json>, nat)>)
    requires at <= |s|
    ensures r.Some? ==> at < r.value.1 <= |s|
    decreases |s| - at, 3
  {
    var v := ReadValue(s, at);
    if v.None? then None
    else
      var e := Skip(s, v.value.1);
      if e == |s| then None
      else if s[e] == ']' then Some(([v.value.0], e + 1))
      else if s[e] != ',' then None
      else
        var rest := ReadElems(s, e + 1);
        if rest.None? then None else Some(([v.value.0] + rest.value.0, rest.value.1))
  }

  /** The whole text is one value. */
  function Read(s: string): Option<Json> {
    var r := ReadValue(s, 0);
    if r.Some? && Skip(s, r.value.1) == |s| then Some(r.value.0) else None
  }

  function Quote(t: string): string {
    "\"" + (t + "\"")
  }

  /** An object with the single member `k`, whose value has the text `t`. */
  function Member(k: string, t: string): string {
    "{" + (Quote(k) + (":" + (" " + (t + "}"))))
  }

  lemma {:induction false} PlainRunIs(s: string, i: nat, j: nat)
    requires i <= j < |s| && !PlainChar(s[j]) && forall k | i <= k < j :: PlainChar(s[k])
    ensures PlainRun(s, i) == j
    decreases j - i
  {
    if i < j { PlainRunIs(s, i + 1, j); }
  }

  lemma {:induction false} NumberRunIs(s: string, i: nat, j: nat)
    requires i <= j <= |s| && (j < |s| ==> !NumberChar(s[j])) && forall k | i <= k < j :: NumberChar(s[k])
    ensures NumberRun(s, i) == j
    decreases j - i
  {
    if i < j { NumberRunIs(s, i + 1, j); }
  }

  lemma QuoteParts(s: string, i: nat, t: string)
    requires StartsAt(s, i, Quote(t))
    ensures i + |t| + 2 <= |s| && s[i] == '"' && s[i + |t| + 1] == '"' && StartsAt(s, i + 1, t)
  {
    hide StartsAt;
    StartsSplit(s, i, "\"", t + "\"");
    StartsSplit(s, i + 1, t, "\"");
    StartsOne(s, i, '"');
    StartsOne(s, i + 1 + |t|, '"');
  }

  lemma PlainAt(s: string, i: nat, t: string)
    requires StartsAt(s, i, t) && Plain(t) && i + |t| < |s| && s[i + |t|] == '"'
    ensures PlainRun(s, i) == i + |t|
  {
    assert forall k | 0 <= k < |t| :: s[i + k] == s[i..i + |t|][k] == t[k];
    assert forall k | i <= k < i + |t| :: s[k] == t[k - i];
    PlainRunIs(s, i, i + |t|);
  }

  /** A quoted plain text reads as itself. */
  lemma TextReads(s: string, i: nat, t: string)
    requires StartsAt(s, i, Quote(t)) && Plain(t)
    ensures i < |s| && s[i] == '"' && ReadText(s, i) == Some((t, i + |t| + 2))
    ensures ReadValue(s, i) == Some((Text(t), i + |t| + 2))
  {
    QuoteParts(s, i, t);
    PlainAt(s, i + 1, t);
    ReadsText(s, i, t);
    hide PlainRun, ReadText, ReadMembers, ReadElems, StartsAt, Plain, NumberRun, ParseFloat, Quote;
  }

  lemma ReadsText(s: string, i: nat, t: string)
    requires StartsAt(s, i + 1, t) && i + |t| + 2 <= |s| && s[i] == '"' && s[i + |t| + 1] == '"'
    requires PlainRun(s, i + 1) == i + 1 + |t|
    ensures ReadText(s, i) == Some((t, i + |t| + 2))
  {
    hide PlainRun;
  }

  /** A number text reads as its value when no character of a number follows. */
  lemma NumberReads(s: string, i: nat, t: string)
    requires StartsAt(s, i, t) && t != "" && ParseFloat(t).Some?
    requires forall k | 0 <= k < |t| :: NumberChar(t[k])
    requires i + |t| < |s| ==> !NumberChar(s[i + |t|])
    ensures ReadValue(s, i) == Some((Number(ParseFloat(t).value), i + |t|))
  {
    hide ParseFloat, ReadMembers, ReadElems, ReadText, NumberRun;
    NumberAt(s, i, t);
    NumberRunIs(s, i, i + |t|);
    StartsBound(s, i, t);
    NumberFirst(s[i]);
    NoSkip(s, i);
  }

  lemma NumberAt(s: string, i: nat, t: string)
    requires StartsAt(s, i, t) && forall k | 0 <= k < |t| :: NumberChar(t[k])
    ensures forall k | i <= k < i + |t| :: NumberChar(s[k])
  {
    hide NumberChar;
    forall k | i <= k < i + |t| ensures NumberChar(s[k]) { StartsChar(s, i, t, k - i); }
  }

  lemma NumberFirst(c: char)
    requires NumberChar(c)
    ensures !IsSpace(c) && c != '"' && c != '{' && c != '['
  {
  }

  lemma SpaceSkips(s: string, i: nat)
    requires i < |s| && s[i] == ' '
    ensures ReadValue(s, i) == ReadValue(s, i + 1)
  {
    hide ReadMembers, ReadElems, ReadText, ParseFloat, NumberRun;
  }

  /** Where the parts of a one-member object stand. */
  lemma MemberParts(s: string, i: nat, k: string, t: string)
    requires StartsAt(s, i, Member(k, t))
    ensures i + |Member(k, t)| <= |s| && |Member(k, t)| == |k| + |t| + 6
    ensures s[i] == '{' && StartsAt(s, i + 1, Quote(k)) && s[i + |k| + 3] == ':' && s[i + |k| + 4] == ' '
    ensures StartsAt(s, i + |k| + 5, t) && s[i + |k| + 5 + |t|] == '}'
  {
    hide StartsAt;
    StartsBound(s, i, Member(k, t));
    StartsSplit(s, i, "{", Quote(k) + (":" + (" " + (t + "}"))));
    StartsSplit(s, i + 1, Quote(k), ":" + (" " + (t + "}")));
    StartsSplit(s, i + |k| + 3, ":", " " + (t + "}"));
    StartsSplit(s, i + |k| + 4, " ", t + "}");
    StartsSplit(s, i + |k| + 5, t, "}");
    StartsOne(s, i, '{');
    StartsOne(s, i + |k| + 3, ':');
    StartsOne(s, i + |k| + 4, ' ');
    StartsOne(s, i + |k| + 5 + |t|, '}');
  }

  lemma NoSkip(s: string, i: nat)
    requires i <= |s| && (i < |s| ==> !IsSpace(s[i]))
    ensures Skip(s, i) == i
  {
  }

  lemma MembersRead(s: string, i: nat, k: string, n: nat, v: Json)
    requires i + |k| + n + 4 < |s| && Skip(s, i) == i && s[i] == '"' && ReadText(s, i) == Some((k, i + |k| + 2))
    requires Skip(s, i + |k| + 2) == i + |k| + 2 && s[i + |k| + 2] == ':'
    requires ReadValue(s, i + |k| + 3) == Some((v, i + |k| + 4 + n))
    requires Skip(s, i + |k| + 4 + n) == i + |k| + 4 + n && s[i + |k| + 4 + n] == '}'
    ensures ReadMembers(s, i) == Some(([(k, v)], i + |k| + n + 5))
  {
    hide ReadValue, ReadText, ReadElems, Skip;
  }

  lemma MemberInside(s: string, i: nat, k: string, t: string, v: Json)
    requires i + |k| + |t| + 4 < |s| && StartsAt(s, i, Quote(k)) && Plain(k)
    requires s[i + |k| + 2] == ':' && s[i + |k| + 3] == ' ' && s[i + |k| + 4 + |t|] == '}'
    requires ReadValue(s, i + |k| + 4) == Some((v, i + |k| + 4 + |t|))
    ensures ReadMembers(s, i) == Some(([(k, v)], i + |k| + |t| + 5))
  {
    hide Skip, ReadText, ReadElems, ReadValue, ReadMembers, ParseFloat, NumberRun, StartsAt, Plain, Quote;
    TextReads(s, i, k);
    SpaceSkips(s, i + |k| + 3);
    NoSkip(s, i);
    NoSkip(s, i + |k| + 2);
    NoSkip(s, i + |k| + 4 + |t|);
    MembersRead(s, i, k, |t|, v);
  }

  lemma ObjectReads(s: string, i: nat, m: seq<(string, Json)>, j: nat)
    requires i + 1 < |s| && s[i] == '{' && s[i + 1] == '"' && ReadMembers(s, i + 1) == Some((m, j))
    ensures ReadValue(s, i) == Some((Object(m), j))
  {
    hide Skip, ReadText, ReadMembers, ReadElems, ParseFloat, NumberRun;
    NoSkip(s, i);
    NoSkip(s, i + 1);
  }

  /** A one-member object reads as one, when its value does. */
  lemma MemberReads(s: string, i: nat, k: string, t: string, v: Json)
    requires StartsAt(s, i, Member(k, t)) && Plain(k)
    requires i + |k| + 5 <= |s| && ReadValue(s, i + |k| + 5) == Some((v, i + |k| + 5 + |t|))
    ensures ReadValue(s, i) == Some((Object([(k, v)]), i + |Member(k, t)|))
  {
    hide Skip, ReadText, ReadElems, ReadValue, ReadMembers, ParseFloat, NumberRun, StartsAt, Plain, Member, Quote;
    MemberParts(s, i, k, t);
    MemberInside(s, i + 1, k, t, v);
    TextReads(s, i + 1, k);
    ObjectReads(s, i, [(k, v)], i + |k| + |t| + 6);
  }

  lemma ElemsSpace(s: string, i: nat)
    requires i < |s| && s[i] == ' '
    ensures ReadElems(s, i) == ReadElems(s, i + 1)
  {
    hide ReadValue, Skip;
    SpaceSkips(s, i);
  }

  /** The last element of an array. */
  lemma LastElem(s: string, i: nat, v: Json, e: nat)
    requires i <= |s| && e < |s| && ReadValue(s, i) == Some((v, e)) && s[e] == ']'
    ensures ReadElems(s, i) == Some(([v], e + 1))
  {
    hide ReadValue, Skip;
    NoSkip(s, e);
  }

  /** An element with more to come, after a comma and a space. */
  lemma NextElem(s: string, i: nat, v: Json, e: nat, vs: seq<Json>, j: nat)
    requires i <= |s| && e + 1 < |s| && ReadValue(s, i) == Some((v, e)) && s[e] == ',' && s[e + 1] == ' '
    requires ReadElems(s, e + 2) == Some((vs, j))
    ensures ReadElems(s, i) == Some(([v] + vs, j))
  {
    hide ReadValue, Skip;
    NoSkip(s, e);
    ElemsSpace(s, e + 1);
  }

  lemma ArrayReads(s: string, i: nat, vs: seq<Json>, j: nat)
    requires i + 1 < |s| && s[i] == '['
    requires if s[i + 1] == ']' then vs == [] && j == i + 2 else s[i + 1] == '{' && ReadElems(s, i + 1) == Some((vs, j))
    ensures ReadValue(s, i) == Some((Array(vs), j))
  {
    hide Skip, ReadText, ReadMembers, ReadElems, ParseFloat, NumberRun;
    NoSkip(s, i);
    NoSkip(s, i + 1);
  }

  // ---- texts that do not read ----

  /** No space, and nothing that may follow the value of a member. */
  predicate Firm(c: char) {
    !IsSpace(c) && c != '}' && c != ','
  }

  /** No member can have the value at `i`. */
  predicate Stuck(s: string, i: nat)
    requires i <= |s|
  {
    var v := ReadValue(s, i);
    v.Some? ==> v.value.1 < |s| && Firm(s[v.value.1])
  }

  /** The next quote from `p` on, if any, comes after plain characters and has a
      firm character behind it. */
  predicate TailAt(s: string, p: nat) {
    p <= |s| && var q := PlainRun(s, p); q == |s| || (s[q] == '"' && q + 1 < |s| && Firm(s[q + 1]))
  }

  /** A quote out of place takes what follows for a string. */
  lemma QuoteStuck(s: string, i: nat)
    requires i < |s| && s[i] == '"' && TailAt(s, i + 1)
    ensures Stuck(s, i)
  {
    hide Skip, ReadMembers, ReadElems, ParseFloat, NumberRun, PlainRun;
    NoSkip(s, i);
  }

  lemma {:induction false} TailBack(s: string, p: nat, q: nat)
    requires p <= q && TailAt(s, q) && forall k | p <= k < q :: PlainChar(s[k])
    ensures TailAt(s, p)
    decreases q - p
  {
    if p < q { TailBack(s, p + 1, q); }
  }

  lemma TailEnd(s: string)
    ensures TailAt(s, |s|)
  {
  }

  lemma TailQuote(s: string, p: nat)
    requires p + 1 < |s| && s[p] == '"' && Firm(s[p + 1])
    ensures TailAt(s, p)
  {
  }

  /** An object whose member has no readable value. */
  lemma MemberFails(s: string, i: nat, k: string, t: string)
    requires StartsAt(s, i, Member(k, t)) && Plain(k)
    requires i + |k| + 5 <= |s| && Stuck(s, i + |k| + 5)
    ensures ReadValue(s, i) == None
  {
    hide Skip, ReadText, ReadElems, ReadValue, ReadMembers, ParseFloat, NumberRun, StartsAt, Plain, Member, Quote, Firm;
    MemberParts(s, i, k, t);
    TextReads(s, i + 1, k);
    SpaceSkips(s, i + |k| + 4);
    NoSkip(s, i + 1);
    NoSkip(s, i + |k| + 3);
    MembersFail(s, i + 1, k);
    ObjectFails(s, i);
  }

  lemma MembersFail(s: string, i: nat, k: string)
    requires i + |k| + 2 < |s| && Skip(s, i) == i && s[i] == '"' && ReadText(s, i) == Some((k, i + |k| + 2))
    requires Skip(s, i + |k| + 2) == i + |k| + 2 && s[i + |k| + 2] == ':' && Stuck(s, i + |k| + 3)
    ensures ReadMembers(s, i) == None
  {
    hide ReadValue, ReadText, ReadElems;
  }

  lemma ObjectFails(s: string, i: nat)
    requires i + 1 < |s| && s[i] == '{' && s[i + 1] == '"' && ReadMembers(s, i + 1) == None
    ensures ReadValue(s, i) == None
  {
    hide Skip, ReadText, ReadMembers, ReadElems, ParseFloat, NumberRun;
    NoSkip(s, i);
    NoSkip(s, i + 1);
  }

  /** An array with an element that does not read, first or later. */
  lemma ElemFails(s: string, i: nat)
    requires i <= |s| && ReadValue(s, i) == None
    ensures ReadElems(s, i) == None
  {
  }

  lemma NextFails(s: string, i: nat, v: Json, e: nat)
    requires i <= |s| && e + 1 < |s| && ReadValue(s, i) == Some((v, e)) && s[e] == ',' && s[e + 1] == ' '
    requires ReadElems(s, e + 2) == None
    ensures ReadElems(s, i) == None
  {
    hide ReadValue, Skip;
    NoSkip(s, e);
    ElemsSpace(s, e + 1);
  }

  lemma ArrayFails(s: string, i: nat)
    requires i + 1 < |s| && s[i] == '[' && s[i + 1] == '{' && ReadElems(s, i + 1) == None
    ensures ReadValue(s, i) == None
  {
    hide Skip, ReadText, ReadMembers, ReadElems, ParseFloat, NumberRun;
    NoSkip(s, i);
    NoSkip(s, i + 1);
  }
}

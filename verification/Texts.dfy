/** Where a text stands within another. */
module Texts {
  predicate StartsAt(data: string, pos: nat, t: string) {
    pos + |t| <= |data| && data[pos..pos + |t|] == t
  }

  lemma StartsSplit(data: string, pos: nat, a: string, b: string)
    ensures StartsAt(data, pos, a + b) <==> StartsAt(data, pos, a) && StartsAt(data, pos + |a|, b)
  {
    if pos + |a| + |b| <= |data| {
      var u, v := data[pos..pos + |a|], data[pos + |a|..pos + |a| + |b|];
      assert data[pos..pos + |a + b|] == u + v;
      assert u == (u + v)[..|a|] && v == (u + v)[|a|..] && a == (a + b)[..|a|] && b == (a + b)[|a|..];
    }
  }

  lemma StartsOne(data: string, pos: nat, c: char)
    ensures StartsAt(data, pos, [c]) <==> pos < |data| && data[pos] == c
  {
    if pos < |data| { assert data[pos..pos + 1] == [data[pos]]; }
  }

  lemma StartsChar(data: string, pos: nat, t: string, i: nat)
    requires StartsAt(data, pos, t) && i < |t|
    ensures data[pos + i] == t[i]
  {
    assert data[pos..pos + |t|][i] == t[i];
  }

  lemma StartsBound(data: string, pos: nat, t: string)
    requires StartsAt(data, pos, t)
    ensures pos + |t| <= |data| && data[pos..pos + |t|] == t
  {
  }
}

/** The rules `Model._convert_batch` applies to every previous-turn span:
    cut just after the first terminator, and (belief span only) map every id
    outside the vocabulary to the unknown id. */
module Spans {

  /** Id of the unknown token (written as the literal 2 in the source). */
  const Unk: int := 2

  /** The ids the vocabulary assigns to the three span terminators. */
  datatype Vocab = Vocab(eosZ1: int, eosZ2: int, split: int)

  /** What the model assumes of the vocabulary: the terminators are distinct
      in-vocabulary ids, none of them the unknown id. */
  predicate Reserved(v: Vocab, vocabSize: int)
  {
    && 0 <= v.eosZ1 < vocabSize && 0 <= v.eosZ2 < vocabSize && 0 <= v.split < vocabSize
    && v.eosZ1 != Unk && v.eosZ2 != Unk && v.split != Unk
    && v.eosZ1 != v.eosZ2
  }

  /** Python's `list.index`: the position of the first occurrence of `t`. */
  function IndexOf(s: seq<int>, t: int): (k: nat)
    requires t in s
    ensures k < |s| && s[k] == t
    ensures t !in s[..k]
  {
    if s[0] == t then 0
    else
      var k' := IndexOf(s[1..], t);
      assert s[..k' + 1] == [s[0]] + s[1..][..k'];
      k' + 1
  }

  /** The guard of the cut: the terminator occurs, and not only as the last element. */
  predicate NeedsCut(s: seq<int>, t: int)
  {
    t in s && IndexOf(s, t) != |s| - 1
  }

  /** The cut applied to one span (the same rule for all four streams). */
  function Truncate(s: seq<int>, t: int): (r: seq<int>)
    ensures r <= s
    ensures t !in s ==> r == s
    ensures t in s ==> r == s[..IndexOf(s, t) + 1]
    ensures t in s ==> r[|r| - 1] == t && t !in r[..|r| - 1]
  {
    if NeedsCut(s, t) then s[..IndexOf(s, t) + 1] else s
  }

  /** The unk remap of one id. */
  function UnkIfUnknown(x: int, vocabSize: int): int
  {
    if x >= vocabSize then Unk else x
  }

  /** The unk remap of a whole span, element by element. */
  function UnkMap(s: seq<int>, vocabSize: int): (r: seq<int>)
    ensures |r| == |s|
    ensures forall j :: 0 <= j < |s| && s[j] < vocabSize ==> r[j] == s[j]
    ensures forall j :: 0 <= j < |s| && s[j] >= vocabSize ==> r[j] == Unk
  {
    if s == [] then [] else [UnkIfUnknown(s[0], vocabSize)] + UnkMap(s[1..], vocabSize)
  }

  /** What the belief-span stream becomes: the cut, then the unk remap. */
  function NormalizeBelief(s: seq<int>, v: Vocab, vocabSize: int): seq<int>
  {
    UnkMap(Truncate(s, v.eosZ2), vocabSize)
  }

  /** `y` is `x` with some of its ids already passed through the unk remap:
      the states a span goes through while the remap loop runs over it. */
  ghost predicate Between(x: seq<int>, y: seq<int>, vocabSize: int)
  {
    |x| == |y| && forall j :: 0 <= j < |x| ==> y[j] == x[j] || y[j] == UnkIfUnknown(x[j], vocabSize)
  }

  /** The cut is needed exactly when the terminator occurs before the
      span's last position. */
  lemma NeedsCutMeaning(s: seq<int>, t: int)
    ensures NeedsCut(s, t) <==> |s| > 0 && t in s[..|s| - 1]
  {
    if t in s {
      var k := IndexOf(s, t);
      if k < |s| - 1 {
        assert s[..|s| - 1][k] == t;
      }
    }
  }

  /** The first position holding `t` is the one `IndexOf` finds. */
  lemma IndexOfIsFirst(s: seq<int>, t: int, k: nat)
    requires k < |s| && s[k] == t
    requires forall i :: 0 <= i < k ==> s[i] != t
    ensures IndexOf(s, t) == k
  {
    var m := IndexOf(s, t);
    forall i | 0 <= i < m ensures s[i] != t {
      assert s[i] == s[..m][i];
    }
  }

  lemma {:induction false} TruncateIdempotent(s: seq<int>, t: int)
    ensures Truncate(Truncate(s, t), t) == Truncate(s, t)
  {
    var r := Truncate(s, t);
    if t in s {
      forall i | 0 <= i < |r| - 1 ensures r[i] != t {
        assert r[i] == r[..|r| - 1][i];
      }
      IndexOfIsFirst(r, t, |r| - 1);
    }
  }

  lemma {:induction false} UnkMapIdempotent(s: seq<int>, vocabSize: int)
    ensures UnkMap(UnkMap(s, vocabSize), vocabSize) == UnkMap(s, vocabSize)
  {
    var r := UnkMap(s, vocabSize);
    var rr := UnkMap(r, vocabSize);
    forall j | 0 <= j < |s| ensures rr[j] == r[j] {
      if s[j] >= vocabSize && Unk >= vocabSize {
        assert r[j] == Unk && rr[j] == Unk;
      }
    }
  }

  /** After the unk remap, every id is in the vocabulary or is the unknown id. */
  lemma UnkMapInVocabulary(s: seq<int>, vocabSize: int, j: int)
    requires 0 <= j < |s|
    ensures UnkMap(s, vocabSize)[j] < vocabSize || UnkMap(s, vocabSize)[j] == Unk
  {
  }

  /** The remap leaves every in-vocabulary id that is not the unknown id
      exactly where it was, so it does not move a terminator. */
  lemma {:induction false} UnkMapKeepsTerminator(s: seq<int>, t: int, vocabSize: int)
    requires t < vocabSize && t != Unk
    ensures t in UnkMap(s, vocabSize) <==> t in s
    ensures t in s ==> IndexOf(UnkMap(s, vocabSize), t) == IndexOf(s, t)
  {
    var r := UnkMap(s, vocabSize);
    assert forall j :: 0 <= j < |s| ==> (r[j] == t <==> s[j] == t);
    SameTerminatorPositions(s, r, t);
  }

  /** Two spans of one length that hold `t` at the same positions contain it
      alike and have the same first occurrence. */
  lemma SameTerminatorPositions(x: seq<int>, y: seq<int>, t: int)
    requires |x| == |y|
    requires forall j :: 0 <= j < |x| ==> (y[j] == t <==> x[j] == t)
    ensures t in y <==> t in x
    ensures t in x ==> IndexOf(y, t) == IndexOf(x, t)
  {
    if t in y {
      assert x[IndexOf(y, t)] == t;
    }
    if t in x {
      var k := IndexOf(x, t);
      forall i | 0 <= i < k ensures x[i] != t {
        assert x[i] == x[..k][i];
      }
      IndexOfIsFirst(y, t, k);
    }
  }

  /** A span that is partly remapped is cut exactly where the original is,
      and ends as the original does. */
  lemma {:induction false} BetweenNormalizesAlike(x: seq<int>, y: seq<int>, v: Vocab, vocabSize: int)
    requires Reserved(v, vocabSize)
    requires Between(x, y, vocabSize)
    ensures NeedsCut(y, v.eosZ2) <==> NeedsCut(x, v.eosZ2)
    ensures NormalizeBelief(y, v, vocabSize) == NormalizeBelief(x, v, vocabSize)
  {
    var t := v.eosZ2;
    assert forall j :: 0 <= j < |x| ==> (y[j] == t <==> x[j] == t);
    SameTerminatorPositions(x, y, t);
    var tx, ty := Truncate(x, t), Truncate(y, t);
    assert |tx| == |ty|;
    var nx, ny := UnkMap(tx, vocabSize), UnkMap(ty, vocabSize);
    forall j | 0 <= j < |tx| ensures nx[j] == ny[j] {
      assert tx[j] == x[j] && ty[j] == y[j];
    }
  }

  /** Running the remap over a partly remapped span finishes the remap. */
  lemma BetweenUnkMap(x: seq<int>, y: seq<int>, vocabSize: int)
    requires Between(x, y, vocabSize)
    ensures Between(x, UnkMap(y, vocabSize), vocabSize)
  {
  }

  /** The default previous spans are already in normal form. */
  lemma DefaultsAreNormal(v: Vocab, vocabSize: int)
    requires Reserved(v, vocabSize)
    ensures NormalizeBelief([v.eosZ1, v.eosZ2], v, vocabSize) == [v.eosZ1, v.eosZ2]
    ensures Truncate([v.eosZ1], v.eosZ1) == [v.eosZ1]
    ensures Truncate([v.eosZ2], v.eosZ2) == [v.eosZ2]
    ensures Truncate([v.split], v.split) == [v.split]
  {
    var d := [v.eosZ1, v.eosZ2];
    assert d[1] == v.eosZ2 && d[..1] == [v.eosZ1];
    assert Truncate(d, v.eosZ2) == d;
    assert [v.eosZ1][..0] == [];
    assert [v.eosZ2][..0] == [];
    assert [v.split][..0] == [];
  }

  /** The belief-span rule element by element: the span is cut just after its
      first EOS_Z2 (kept whole when there is none), and every kept id at or
      above the vocabulary size becomes the unknown id. */
  lemma NormalizeBeliefMeaning(s: seq<int>, v: Vocab, vocabSize: int)
    ensures var r := NormalizeBelief(s, v, vocabSize);
      && |r| <= |s|
      && (v.eosZ2 !in s ==> |r| == |s|)
      && (v.eosZ2 in s ==> |r| == IndexOf(s, v.eosZ2) + 1)
      && (forall j :: 0 <= j < |r| && s[j] < vocabSize ==> r[j] == s[j])
      && (forall j :: 0 <= j < |r| && s[j] >= vocabSize ==> r[j] == Unk)
  {
  }

  /** Applying the belief-span rule to its own result changes nothing. */
  lemma {:induction false} NormalizeBeliefIdempotent(s: seq<int>, v: Vocab, vocabSize: int)
    requires Reserved(v, vocabSize)
    ensures NormalizeBelief(NormalizeBelief(s, v, vocabSize), v, vocabSize) == NormalizeBelief(s, v, vocabSize)
  {
    var t := v.eosZ2;
    var c := Truncate(s, t);
    var r := UnkMap(c, vocabSize);
    TruncateIdempotent(s, t);
    UnkMapKeepsTerminator(c, t, vocabSize);
    if t in c {
      assert !NeedsCut(c, t);
      assert !NeedsCut(r, t);
    }
    assert Truncate(r, t) == r;
    UnkMapIdempotent(c, vocabSize);
  }
}

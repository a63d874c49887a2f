/** `Model._convert_batch`: default previous spans, the terminator cut of the
    four previous-span streams, done in place on the caller's lists, the unk
    remap of the belief-span stream, and the lengths reported to the network.
    A previous-span argument is a list of lists: here an `array<array<int>>`
    whose items may be one shared array, as `[[...]] * n` makes them. */
module BatchEncoder {
  import opened Spans
  import opened Options

  /** One turn of a dialogue batch as the reader yields it; every field is a
      list with one entry per dialogue in the batch. */
  datatype TurnBatch = TurnBatch(
    user: seq<seq<int>>, uLen: seq<int>,
    bspan: seq<seq<int>>, constraint: seq<seq<int>>,
    userTag: seq<seq<int>>, system: seq<seq<int>>,
    response: seq<seq<int>>, mLen: seq<int>,
    degree: seq<seq<real>>, dialId: seq<int>)

  /** What the conversion hands to the network, before padding and tensor
      conversion: the four previous-span streams with their lengths, the
      current-turn inputs and the extra keyword entries. */
  datatype Encoded = Encoded(
    prevZ: seq<seq<int>>, prevZLen: seq<int>,
    prevZ1: seq<seq<int>>, prevZ1Len: seq<int>,
    prevZ2: seq<seq<int>>, prevZ2Len: seq<int>,
    prevZ3: seq<seq<int>>, prevZ3Len: seq<int>,
    uInput: seq<seq<int>>, uLen: seq<int>,
    zInput: seq<seq<int>>, z1Input: seq<seq<int>>,
    z2Input: seq<seq<int>>, z3Input: seq<seq<int>>,
    mInput: seq<seq<int>>, mLen: seq<int>,
    degree: seq<seq<real>>,
    constraint: seq<seq<int>>, userTag: seq<seq<int>>, system: seq<seq<int>>)

  /** `[span] * n` as a value. */
  function Repeat(span: seq<int>, n: nat): (r: seq<seq<int>>)
    ensures |r| == n && forall k {:trigger r[k]} :: 0 <= k < n ==> r[k] == span
  {
    seq(n, _ => span)
  }

  function Lengths(spans: seq<seq<int>>): (r: seq<int>)
    ensures |r| == |spans| && forall k {:trigger r[k]} :: 0 <= k < |spans| ==> r[k] == |spans[k]|
  {
    seq(|spans|, k requires 0 <= k < |spans| => |spans[k]|)
  }

  function NormalizeAll(spans: seq<seq<int>>, v: Vocab, vocabSize: int): (r: seq<seq<int>>)
    ensures |r| == |spans| && forall k {:trigger r[k]} :: 0 <= k < |spans| ==> r[k] == NormalizeBelief(spans[k], v, vocabSize)
  {
    seq(|spans|, k requires 0 <= k < |spans| => NormalizeBelief(spans[k], v, vocabSize))
  }

  function TruncateAll(spans: seq<seq<int>>, t: int): (r: seq<seq<int>>)
    ensures |r| == |spans| && forall k {:trigger r[k]} :: 0 <= k < |spans| ==> r[k] == Truncate(spans[k], t)
  {
    seq(|spans|, k requires 0 <= k < |spans| => Truncate(spans[k], t))
  }

  /** The conversion as a value: what the network receives when the four
      previous-span streams hold `z`, `z1`, `z2` and `z3` (after defaulting). */
  function Encode(v: Vocab, vocabSize: int, batch: TurnBatch,
                  z: seq<seq<int>>, z1: seq<seq<int>>, z2: seq<seq<int>>, z3: seq<seq<int>>): Encoded
  {
    var nz, nz1, nz2, nz3 := NormalizeAll(z, v, vocabSize), TruncateAll(z1, v.eosZ1),
                             TruncateAll(z2, v.eosZ2), TruncateAll(z3, v.split);
    Encoded(nz, Lengths(nz), nz1, Lengths(nz1), nz2, Lengths(nz2), nz3, Lengths(nz3),
            batch.user, batch.uLen,
            batch.bspan, batch.bspan, batch.userTag, batch.system,
            batch.response, batch.mLen, batch.degree,
            batch.constraint, batch.user, batch.system)
  }

  /** What the network receives for each previous-span stream: every span
      is a prefix of the given one, cut after its stream's first terminator
      (kept whole when the terminator is absent); only the belief span is
      unk-remapped; every reported length is the length of the cut span. */
  lemma EncodeStreams(v: Vocab, vocabSize: int, batch: TurnBatch,
                      z: seq<seq<int>>, z1: seq<seq<int>>, z2: seq<seq<int>>, z3: seq<seq<int>>)
    ensures var e := Encode(v, vocabSize, batch, z, z1, z2, z3);
      && |e.prevZ| == |e.prevZLen| == |z| && |e.prevZ1| == |e.prevZ1Len| == |z1|
      && |e.prevZ2| == |e.prevZ2Len| == |z2| && |e.prevZ3| == |e.prevZ3Len| == |z3|
      && (forall k :: 0 <= k < |z| ==>
            e.prevZLen[k] == |e.prevZ[k]| == |Truncate(z[k], v.eosZ2)|
            && e.prevZ[k] == UnkMap(Truncate(z[k], v.eosZ2), vocabSize))
      && (forall k :: 0 <= k < |z1| ==>
            e.prevZ1Len[k] == |e.prevZ1[k]| && e.prevZ1[k] <= z1[k] && e.prevZ1[k] == Truncate(z1[k], v.eosZ1))
      && (forall k :: 0 <= k < |z2| ==>
            e.prevZ2Len[k] == |e.prevZ2[k]| && e.prevZ2[k] <= z2[k] && e.prevZ2[k] == Truncate(z2[k], v.eosZ2))
      && (forall k :: 0 <= k < |z3| ==>
            e.prevZ3Len[k] == |e.prevZ3[k]| && e.prevZ3[k] <= z3[k] && e.prevZ3[k] == Truncate(z3[k], v.split))
  {
  }

  /** The belief-span and act inputs the network receives for the current
      turn: the `z1` input is built from the belief span, not from the
      constraint field, and the `user_tag` keyword entry is the user utterance. */
  lemma EncodeCurrentTurn(v: Vocab, vocabSize: int, batch: TurnBatch,
                          z: seq<seq<int>>, z1: seq<seq<int>>, z2: seq<seq<int>>, z3: seq<seq<int>>)
    ensures var e := Encode(v, vocabSize, batch, z, z1, z2, z3);
      && e.zInput == batch.bspan && e.z1Input == batch.bspan
      && e.z2Input == batch.userTag && e.z3Input == batch.system
      && e.constraint == batch.constraint && e.userTag == batch.user && e.system == batch.system
      && e.uInput == batch.user && e.mInput == batch.response
  {
  }

  /** Converting the spans the network received once more changes none of
      them: the cut and the remap are idempotent. */
  lemma {:induction false} EncodeIdempotent(v: Vocab, vocabSize: int, batch: TurnBatch, other: TurnBatch,
                                            z: seq<seq<int>>, z1: seq<seq<int>>, z2: seq<seq<int>>, z3: seq<seq<int>>)
    requires Reserved(v, vocabSize)
    ensures var e := Encode(v, vocabSize, batch, z, z1, z2, z3);
      var e' := Encode(v, vocabSize, other, e.prevZ, e.prevZ1, e.prevZ2, e.prevZ3);
      e'.prevZ == e.prevZ && e'.prevZ1 == e.prevZ1 && e'.prevZ2 == e.prevZ2 && e'.prevZ3 == e.prevZ3
      && e'.prevZLen == e.prevZLen
  {
    var e := Encode(v, vocabSize, batch, z, z1, z2, z3);
    forall k | 0 <= k < |z| ensures NormalizeBelief(e.prevZ[k], v, vocabSize) == e.prevZ[k] {
      NormalizeBeliefIdempotent(z[k], v, vocabSize);
    }
    forall k | 0 <= k < |z1| ensures Truncate(e.prevZ1[k], v.eosZ1) == e.prevZ1[k] {
      TruncateIdempotent(z1[k], v.eosZ1);
    }
    forall k | 0 <= k < |z2| ensures Truncate(e.prevZ2[k], v.eosZ2) == e.prevZ2[k] {
      TruncateIdempotent(z2[k], v.eosZ2);
    }
    forall k | 0 <= k < |z3| ensures Truncate(e.prevZ3[k], v.split) == e.prevZ3[k] {
      TruncateIdempotent(z3[k], v.split);
    }
  }

  /** With every previous span defaulted, the network receives `n` copies of
      each default span, `n` taken from the matching batch field. */
  lemma {:induction false} EncodeDefaults(v: Vocab, vocabSize: int, batch: TurnBatch)
    requires Reserved(v, vocabSize)
    ensures var e := Encode(v, vocabSize, batch,
                            Repeat([v.eosZ1, v.eosZ2], |batch.bspan|), Repeat([v.eosZ1], |batch.constraint|),
                            Repeat([v.eosZ2], |batch.userTag|), Repeat([v.split], |batch.system|));
      && e.prevZ == Repeat([v.eosZ1, v.eosZ2], |batch.bspan|)
      && e.prevZ1 == Repeat([v.eosZ1], |batch.constraint|)
      && e.prevZ2 == Repeat([v.eosZ2], |batch.userTag|)
      && e.prevZ3 == Repeat([v.split], |batch.system|)
  {
    DefaultsAreNormal(v, vocabSize);
  }

  /** The streams the network receives, before defaulting: the given lists, or
      `n` copies of the default span when the argument is `None`. */
  function Given(o: Option<array<array<int>>>, default: seq<int>, n: nat): seq<seq<int>>
    reads Outer(o), Items(o)
  {
    if o.None? then Repeat(default, n) else Contents(o.value)
  }

  function Outer(o: Option<array<array<int>>>): set<object>
  {
    if o.Some? then {o.value} else {}
  }

  function Items(o: Option<array<array<int>>>): set<object>
    reads Outer(o)
  {
    if o.Some? then set k | 0 <= k < o.value.Length :: o.value[k] as object else {}
  }

  /** The default spans are left as they are by their stream's cut. */
  lemma DefaultsUncut(v: Vocab, vocabSize: int, n1: nat, n2: nat, n3: nat)
    requires Reserved(v, vocabSize)
    ensures TruncateAll(Repeat([v.eosZ1], n1), v.eosZ1) == Repeat([v.eosZ1], n1)
    ensures TruncateAll(Repeat([v.eosZ2], n2), v.eosZ2) == Repeat([v.eosZ2], n2)
    ensures TruncateAll(Repeat([v.split], n3), v.split) == Repeat([v.split], n3)
  {
    DefaultsAreNormal(v, vocabSize);
  }

  /** The current contents of a list of lists. */
  function Contents(spans: array<array<int>>): (r: seq<seq<int>>)
    reads spans, set k | 0 <= k < spans.Length :: spans[k]
    ensures |r| == spans.Length && forall k :: 0 <= k < spans.Length ==> r[k] == spans[k][..]
  {
    seq(spans.Length, k requires 0 <= k < spans.Length reads spans, set j | 0 <= j < spans.Length :: spans[j] => spans[k][..])
  }

  /** The belief-span list and another stream's list share no list object. */
  ghost predicate Apart(a: Option<array<array<int>>>, b: Option<array<array<int>>>)
    reads Outer(a), Outer(b)
  {
    a.Some? && b.Some? ==>
      && a.value != b.value
      && forall k, m :: 0 <= k < a.value.Length && 0 <= m < b.value.Length ==> a.value[k] != b.value[m]
  }

  /** Two streams' outer lists are different objects. */
  predicate OuterDistinct(a: Option<array<array<int>>>, b: Option<array<array<int>>>)
  {
    a.Some? && b.Some? ==> a.value != b.value
  }

  /** `list[:n]`: a new list holding the first `n` items. */
  method Slice(a: array<int>, n: nat) returns (b: array<int>)
    requires n <= a.Length
    ensures fresh(b) && b[..] == a[..n]
  {
    b := new int[n](j requires 0 <= j < a.Length reads a => a[j]);
  }

  /** `[span] * n`: a new outer list whose `n` items are one shared list. */
  method DefaultSpans(span: seq<int>, n: nat) returns (spans: array<array<int>>)
    ensures fresh(spans) && spans.Length == n
    ensures forall k :: 0 <= k < n ==> fresh(spans[k]) && spans[k][..] == span
    ensures forall k, m :: 0 <= k < n && 0 <= m < n ==> spans[k] == spans[m]
    ensures Contents(spans) == Repeat(span, n)
  {
    var item := new int[|span|](j requires 0 <= j < |span| => span[j]);
    spans := new array<int>[n](_ => item);
  }

  /** The remap loop over one list, writing into that list. */
  method UnkInPlace(a: array<int>, vocabSize: int)
    modifies a
    ensures a[..] == UnkMap(old(a[..]), vocabSize)
  {
    for j := 0 to a.Length
      invariant forall m :: 0 <= m < j ==> a[m] == UnkIfUnknown(old(a[m]), vocabSize)
      invariant forall m :: j <= m < a.Length ==> a[m] == old(a[m])
    {
      if a[j] >= vocabSize {
        a[j] := Unk;
      }
    }
  }

  /** The cut of one of the constraint, user-act and system-act streams:
      an item that needs the cut is rebound to a new list, the others keep
      their list object. */
  method TruncateStream(spans: array<array<int>>, t: int)
    modifies spans
    ensures forall k :: 0 <= k < spans.Length ==> spans[k][..] == Truncate(old(spans[k][..]), t)
    ensures forall k :: 0 <= k < spans.Length ==>
      if NeedsCut(old(spans[k][..]), t) then fresh(spans[k]) else spans[k] == old(spans[k])
  {
    for i := 0 to spans.Length
      invariant forall k :: 0 <= k < i ==> spans[k][..] == Truncate(old(spans[k][..]), t)
      invariant forall k :: 0 <= k < i ==>
        if NeedsCut(old(spans[k][..]), t) then fresh(spans[k]) else spans[k] == old(spans[k])
      invariant forall k :: i <= k < spans.Length ==> spans[k] == old(spans[k])
    {
      if t in spans[i][..] && IndexOf(spans[i][..], t) != spans[i].Length - 1 {
        var idx := IndexOf(spans[i][..], t);
        spans[i] := Slice(spans[i], idx + 1);
      }
    }
  }

  /** The contents of a sequence of lists. */
  function ArrContents(arrs: seq<array<int>>): (r: seq<seq<int>>)
    reads set k | 0 <= k < |arrs| :: arrs[k]
    ensures |r| == |arrs| && forall k :: 0 <= k < |arrs| ==> r[k] == arrs[k][..]
  {
    seq(|arrs|, k requires 0 <= k < |arrs| reads set j | 0 <= j < |arrs| :: arrs[j] => arrs[k][..])
  }

  /** The state of the belief-span loop before item `i`, on a snapshot: `cont`
      and `refs` are the items' contents and list objects, `arrCont` the
      contents of the list objects `arrs` the caller passed in, whose contents
      were `orig`. Items before `i` are done; later ones still hold their own
      list object and are at most partly remapped (through a list they share
      with a done item); no caller's list whose item needs the cut has been
      written; one list object has one content. */
  ghost predicate ProgressOn(cont: seq<seq<int>>, refs: seq<array<int>>, arrCont: seq<seq<int>>,
                             orig: seq<seq<int>>, arrs: seq<array<int>>, i: int, v: Vocab, vocabSize: int)
  {
    && |cont| == |refs| == |arrCont| == |orig| == |arrs| && 0 <= i <= |orig|
    && (forall k :: 0 <= k < i ==> cont[k] == NormalizeBelief(orig[k], v, vocabSize))
    && (forall k :: 0 <= k < i && !NeedsCut(orig[k], v.eosZ2) ==> refs[k] == arrs[k])
    && (forall k :: i <= k < |orig| ==> refs[k] == arrs[k] && Between(orig[k], cont[k], vocabSize))
    && (forall k :: 0 <= k < |orig| && NeedsCut(orig[k], v.eosZ2) ==> arrCont[k] == orig[k])
    && (forall k, m :: 0 <= k < |refs| && 0 <= m < |arrs| && refs[k] == arrs[m] ==> cont[k] == arrCont[m])
  }

  ghost predicate BeliefProgress(spans: array<array<int>>, orig: seq<seq<int>>, arrs: seq<array<int>>,
                                 i: int, v: Vocab, vocabSize: int)
    reads spans, set k | 0 <= k < spans.Length :: spans[k], set k | 0 <= k < |arrs| :: arrs[k]
  {
    ProgressOn(Contents(spans), spans[..], ArrContents(arrs), orig, arrs, i, v, vocabSize)
  }

  /** One pass of the belief-span loop on snapshots: the cut of item `i`
      (state 0 to state 1), then the remap loop writing into list `cur`
      (state 1 to state 2). */
  lemma {:induction false} NormalizeItemStep(
    cont0: seq<seq<int>>, refs0: seq<array<int>>, arrCont0: seq<seq<int>>,
    refs1: seq<array<int>>, cont2: seq<seq<int>>, arrCont2: seq<seq<int>>,
    orig: seq<seq<int>>, arrs: seq<array<int>>, i: int, cur: array<int>, v: Vocab, vocabSize: int)
    requires Reserved(v, vocabSize)
    requires ProgressOn(cont0, refs0, arrCont0, orig, arrs, i, v, vocabSize) && i < |orig|
    requires NeedsCut(cont0[i], v.eosZ2) ==>
      && refs1 == refs0[i := cur]
      && (forall m :: 0 <= m < |arrs| ==> arrs[m] != cur)
      && (forall k :: 0 <= k < |refs0| ==> refs0[k] != cur)
    requires !NeedsCut(cont0[i], v.eosZ2) ==> refs1 == refs0 && cur == refs0[i]
    requires |cont2| == |cont0| && |arrCont2| == |arrs|
    requires forall k :: 0 <= k < |cont2| ==>
      cont2[k] == if refs1[k] == cur then UnkMap(cont0[i := Truncate(cont0[i], v.eosZ2)][k], vocabSize)
                  else cont0[i := Truncate(cont0[i], v.eosZ2)][k]
    requires forall m :: 0 <= m < |arrs| ==>
      arrCont2[m] == if arrs[m] == cur then UnkMap(arrCont0[m], vocabSize) else arrCont0[m]
    ensures ProgressOn(cont2, refs1, arrCont2, orig, arrs, i + 1, v, vocabSize)
  {
    var t := v.eosZ2;
    var c := cont0[i];
    BetweenNormalizesAlike(orig[i], c, v, vocabSize);
    var cont1 := cont0[i := Truncate(c, t)];
    assert !NeedsCut(c, t) ==> cont1 == cont0;
    forall m | 0 <= m < |arrs| && arrs[m] == refs0[i] ensures arrCont0[m] == c {
    }
    forall k | 0 <= k < i + 1
      ensures cont2[k] == NormalizeBelief(orig[k], v, vocabSize)
    {
      if k < i {
        UnkMapIdempotent(Truncate(orig[k], t), vocabSize);
      }
    }
    forall k | i + 1 <= k < |orig|
      ensures Between(orig[k], cont2[k], vocabSize)
    {
      BetweenUnkMap(orig[k], cont0[k], vocabSize);
    }
  }

  /** The cut of item `i` alone: rebind it to `list[:idx + 1]` when needed. */
  method CutItem(spans: array<array<int>>, i: int, t: int) returns (cur: array<int>)
    requires 0 <= i < spans.Length
    modifies spans
    ensures spans[..] == old(spans[..])[i := cur]
    ensures cur[..] == Truncate(old(spans[i][..]), t)
    ensures if NeedsCut(old(spans[i][..]), t) then fresh(cur) else cur == old(spans[i])
  {
    cur := spans[i];
    if t in cur[..] && IndexOf(cur[..], t) != cur.Length - 1 {
      var idx := IndexOf(cur[..], t);
      cur := Slice(cur, idx + 1);
      spans[i] := cur;
    }
  }

  /** One pass of the belief-span loop: the cut of item `i`, then the remap
      loop over the list it then holds. */
  method NormalizeItem(spans: array<array<int>>, i: int, ghost orig: seq<seq<int>>, ghost arrs: seq<array<int>>,
                       v: Vocab, vocabSize: int)
    requires Reserved(v, vocabSize)
    requires BeliefProgress(spans, orig, arrs, i, v, vocabSize) && i < spans.Length
    modifies spans, set k | 0 <= k < |arrs| :: arrs[k]
    ensures BeliefProgress(spans, orig, arrs, i + 1, v, vocabSize)
    ensures spans[..] == old(spans[..])[i := spans[i]]
    ensures if NeedsCut(orig[i], v.eosZ2) then fresh(spans[i]) else spans[i] == arrs[i]
  {
    var t := v.eosZ2;
    ghost var cont0, refs0, arrCont0 := Contents(spans), spans[..], ArrContents(arrs);
    assert ProgressOn(cont0, refs0, arrCont0, orig, arrs, i, v, vocabSize);
    BetweenNormalizesAlike(orig[i], cont0[i], v, vocabSize);
    var cur := CutItem(spans, i, t);
    ghost var refs1, cont1 := spans[..], Contents(spans);
    assert cont1 == cont0[i := Truncate(cont0[i], t)] by {
      forall k | 0 <= k < spans.Length ensures cont1[k] == cont0[i := Truncate(cont0[i], t)][k] {
        if k != i { assert spans[k] == refs0[k]; }
      }
    }
    assert NeedsCut(cont0[i], t) ==>
      && (forall m :: 0 <= m < |arrs| ==> arrs[m] != cur)
      && (forall k :: 0 <= k < |refs0| ==> refs0[k] != cur);
    UnkInPlace(cur, vocabSize);
    ghost var cont2, arrCont2 := Contents(spans), ArrContents(arrs);
    assert forall k :: 0 <= k < |cont2| ==>
      cont2[k] == if refs1[k] == cur then UnkMap(cont1[k], vocabSize) else cont1[k];
    assert forall m :: 0 <= m < |arrs| ==>
      arrCont2[m] == if arrs[m] == cur then UnkMap(arrCont0[m], vocabSize) else arrCont0[m];
    NormalizeItemStep(cont0, refs0, arrCont0, refs1, cont2, arrCont2, orig, arrs, i, cur, v, vocabSize);
    assert spans[..] == refs1;
  }

  /** The cut and unk remap of the belief-span stream. An item that needs the
      cut is rebound to a new list (the caller's list for it is left as it
      was); any other item keeps its list object, and the remap writes into
      that object, so the caller's list is remapped in place. Items that share
      one list object (as the defaults do) end alike. */
  method TruncateBeliefStream(spans: array<array<int>>, v: Vocab, vocabSize: int)
    requires Reserved(v, vocabSize)
    modifies spans, set k | 0 <= k < spans.Length :: spans[k]
    ensures forall k :: 0 <= k < spans.Length ==>
      spans[k][..] == NormalizeBelief(old(spans[k][..]), v, vocabSize)
    ensures forall k :: 0 <= k < spans.Length ==>
      if NeedsCut(old(spans[k][..]), v.eosZ2) then fresh(spans[k]) && old(spans[k])[..] == old(spans[k][..])
      else spans[k] == old(spans[k])
  {
    ghost var orig := Contents(spans);
    ghost var arrs := spans[..];
    var i := 0;
    while i < spans.Length
      invariant BeliefProgress(spans, orig, arrs, i, v, vocabSize)
      invariant forall k :: 0 <= k < i && NeedsCut(orig[k], v.eosZ2) ==> fresh(spans[k])
    {
      NormalizeItem(spans, i, orig, arrs, v, vocabSize);
      i := i + 1;
    }
  }

  /** The belief-span stream as a whole list: the per-item contract of
      `TruncateBeliefStream` restated as the list's `Contents`, the form the
      conversion composes. It is a separate step so that the loop's proof
      does not carry `Contents` and `NormalizeAll`. */
  method NormalizeBeliefList(z: array<array<int>>, v: Vocab, vocabSize: int)
    requires Reserved(v, vocabSize)
    modifies z, set k | 0 <= k < z.Length :: z[k]
    ensures Contents(z) == NormalizeAll(old(Contents(z)), v, vocabSize)
    ensures forall k :: 0 <= k < z.Length ==>
      if NeedsCut(old(z[k][..]), v.eosZ2) then old(z[k])[..] == old(z[k][..]) else z[k] == old(z[k])
  {
    TruncateBeliefStream(z, v, vocabSize);
  }

  /** One of the other three streams as a whole list: the per-item
      contract of `TruncateStream` restated as the list's `Contents`, kept
      apart from the loop for the same reason. */
  method TruncateList(z: array<array<int>>, t: int)
    modifies z
    ensures Contents(z) == TruncateAll(old(Contents(z)), t)
  {
    TruncateStream(z, t);
  }

  /** A previous-span argument, or `n` copies of the default span as a new
      list whose items are one shared list (`[[...]] * n`) when it is `None`. */
  method Resolve(o: Option<array<array<int>>>, default: seq<int>, n: nat) returns (spans: array<array<int>>)
    ensures o.Some? ==> spans == o.value
    ensures o.None? ==> fresh(spans) && forall k :: 0 <= k < spans.Length ==> fresh(spans[k])
    ensures Contents(spans) == Given(o, default, n)
  {
    if o.None? {
      spans := DefaultSpans(default, n);
    } else {
      spans := o.value;
    }
  }

  /** The cut of the constraint, user-act and system-act streams, in that order. */
  method TruncateOthers(z1: array<array<int>>, z2: array<array<int>>, z3: array<array<int>>, v: Vocab)
      returns (cz1: seq<seq<int>>, cz2: seq<seq<int>>, cz3: seq<seq<int>>)
    requires z1 != z2 && z1 != z3 && z2 != z3
    modifies z1, z2, z3
    ensures cz1 == TruncateAll(old(Contents(z1)), v.eosZ1) && Contents(z1) == cz1
    ensures cz2 == TruncateAll(old(Contents(z2)), v.eosZ2) && Contents(z2) == cz2
    ensures cz3 == TruncateAll(old(Contents(z3)), v.split) && Contents(z3) == cz3
  {
    label Start:
    TruncateList(z1, v.eosZ1);
    cz1 := Contents(z1);
    label First:
    assert unchanged@Start(z2) && unchanged@Start(set k | 0 <= k < z2.Length :: z2[k]);
    TruncateList(z2, v.eosZ2);
    cz2 := Contents(z2);
    label Second:
    assert unchanged@Start(z3) && unchanged@Start(set k | 0 <= k < z3.Length :: z3[k]);
    TruncateList(z3, v.split);
    cz3 := Contents(z3);
    assert unchanged@First(z1) && unchanged@First(set k | 0 <= k < z1.Length :: z1[k]);
    assert unchanged@Second(z2) && unchanged@Second(set k | 0 <= k < z2.Length :: z2[k]);
  }

  /** The four streams' lists are different objects, and no list item of the
      belief-span stream is an item of another stream. */
  ghost predicate Separated(z: array<array<int>>, z1: array<array<int>>, z2: array<array<int>>, z3: array<array<int>>)
    reads z, z1, z2, z3
  {
    && z != z1 && z != z2 && z != z3 && z1 != z2 && z1 != z3 && z2 != z3
    && (forall k, m :: 0 <= k < z.Length && 0 <= m < z1.Length ==> z[k] != z1[m])
    && (forall k, m :: 0 <= k < z.Length && 0 <= m < z2.Length ==> z[k] != z2[m])
    && (forall k, m :: 0 <= k < z.Length && 0 <= m < z3.Length ==> z[k] != z3[m])
  }

  /** The cut and remap of the four streams once defaults are in place. */
  method ProcessResolved(z: array<array<int>>, z1: array<array<int>>, z2: array<array<int>>, z3: array<array<int>>,
                         v: Vocab, vocabSize: int)
      returns (cz: seq<seq<int>>, cz1: seq<seq<int>>, cz2: seq<seq<int>>, cz3: seq<seq<int>>)
    requires Reserved(v, vocabSize)
    requires Separated(z, z1, z2, z3)
    modifies z, set k | 0 <= k < z.Length :: z[k], z1, z2, z3
    ensures cz == NormalizeAll(old(Contents(z)), v, vocabSize) && Contents(z) == cz
    ensures cz1 == TruncateAll(old(Contents(z1)), v.eosZ1) && Contents(z1) == cz1
    ensures cz2 == TruncateAll(old(Contents(z2)), v.eosZ2) && Contents(z2) == cz2
    ensures cz3 == TruncateAll(old(Contents(z3)), v.split) && Contents(z3) == cz3
    ensures forall k :: 0 <= k < z.Length ==>
      if NeedsCut(old(z[k][..]), v.eosZ2) then old(z[k])[..] == old(z[k][..]) else z[k] == old(z[k])
  {
    label Start:
    NormalizeBeliefList(z, v, vocabSize);
    cz := Contents(z);
    assert unchanged@Start(z1) && unchanged@Start(set k | 0 <= k < z1.Length :: z1[k]);
    assert unchanged@Start(z2) && unchanged@Start(set k | 0 <= k < z2.Length :: z2[k]);
    assert unchanged@Start(z3) && unchanged@Start(set k | 0 <= k < z3.Length :: z3[k]);
    label Belief:
    cz1, cz2, cz3 := TruncateOthers(z1, z2, z3, v);
    assert unchanged@Belief(z) && unchanged@Belief(set k | 0 <= k < z.Length :: z[k]);
  }

  /** Defaulting of the four previous-span streams. */
  method ResolveAll(v: Vocab, batch: TurnBatch,
                    prevZ: Option<array<array<int>>>, prevZ1: Option<array<array<int>>>,
                    prevZ2: Option<array<array<int>>>, prevZ3: Option<array<array<int>>>)
      returns (z: array<array<int>>, z1: array<array<int>>, z2: array<array<int>>, z3: array<array<int>>)
    requires Apart(prevZ, prevZ1) && Apart(prevZ, prevZ2) && Apart(prevZ, prevZ3)
    requires OuterDistinct(prevZ1, prevZ2) && OuterDistinct(prevZ1, prevZ3) && OuterDistinct(prevZ2, prevZ3)
    ensures Separated(z, z1, z2, z3)
    ensures prevZ.Some? ==> z == prevZ.value
    ensures prevZ.None? ==> fresh(z) && forall k :: 0 <= k < z.Length ==> fresh(z[k])
    ensures prevZ1.Some? ==> z1 == prevZ1.value
    ensures prevZ1.None? ==> fresh(z1)
    ensures prevZ2.Some? ==> z2 == prevZ2.value
    ensures prevZ2.None? ==> fresh(z2)
    ensures prevZ3.Some? ==> z3 == prevZ3.value
    ensures prevZ3.None? ==> fresh(z3)
    ensures Contents(z) == Given(prevZ, [v.eosZ1, v.eosZ2], |batch.bspan|)
    ensures Contents(z1) == Given(prevZ1, [v.eosZ1], |batch.constraint|)
    ensures Contents(z2) == Given(prevZ2, [v.eosZ2], |batch.userTag|)
    ensures Contents(z3) == Given(prevZ3, [v.split], |batch.system|)
  {
    z := Resolve(prevZ, [v.eosZ1, v.eosZ2], |batch.bspan|);
    z1 := Resolve(prevZ1, [v.eosZ1], |batch.constraint|);
    z2 := Resolve(prevZ2, [v.eosZ2], |batch.userTag|);
    z3 := Resolve(prevZ3, [v.split], |batch.system|);
  }

  /** Defaulting and the cut and remap of the four previous-span streams;
      returns their contents as the network receives them. */
  method PrepareStreams(v: Vocab, vocabSize: int, batch: TurnBatch,
                        prevZ: Option<array<array<int>>>, prevZ1: Option<array<array<int>>>,
                        prevZ2: Option<array<array<int>>>, prevZ3: Option<array<array<int>>>)
      returns (cz: seq<seq<int>>, cz1: seq<seq<int>>, cz2: seq<seq<int>>, cz3: seq<seq<int>>)
    requires Reserved(v, vocabSize)
    requires Apart(prevZ, prevZ1) && Apart(prevZ, prevZ2) && Apart(prevZ, prevZ3)
    requires OuterDistinct(prevZ1, prevZ2) && OuterDistinct(prevZ1, prevZ3) && OuterDistinct(prevZ2, prevZ3)
    modifies Outer(prevZ), Items(prevZ), Outer(prevZ1), Outer(prevZ2), Outer(prevZ3)
    ensures cz == NormalizeAll(old(Given(prevZ, [v.eosZ1, v.eosZ2], |batch.bspan|)), v, vocabSize)
    ensures cz1 == TruncateAll(old(Given(prevZ1, [v.eosZ1], |batch.constraint|)), v.eosZ1)
    ensures cz2 == TruncateAll(old(Given(prevZ2, [v.eosZ2], |batch.userTag|)), v.eosZ2)
    ensures cz3 == TruncateAll(old(Given(prevZ3, [v.split], |batch.system|)), v.split)
    ensures prevZ.Some? ==> Contents(prevZ.value) == cz
    ensures prevZ1.Some? ==> Contents(prevZ1.value) == cz1
    ensures prevZ2.Some? ==> Contents(prevZ2.value) == cz2
    ensures prevZ3.Some? ==> Contents(prevZ3.value) == cz3
    ensures prevZ.Some? ==> forall k :: 0 <= k < prevZ.value.Length ==>
      if NeedsCut(old(prevZ.value[k][..]), v.eosZ2) then old(prevZ.value[k])[..] == old(prevZ.value[k][..])
      else prevZ.value[k] == old(prevZ.value[k])
  {
    var z, z1, z2, z3 := ResolveAll(v, batch, prevZ, prevZ1, prevZ2, prevZ3);
    cz, cz1, cz2, cz3 := ProcessResolved(z, z1, z2, z3, v, vocabSize);
  }

  /** `Model._convert_batch` up to the padding: defaults for the missing
      previous spans (sized by the matching batch field), the cut of all four
      streams, the unk remap of the belief-span stream, and the lengths of the
      spans as cut. The caller's lists are changed in place: they end holding
      the spans the network receives. */
  method ConvertBatch(v: Vocab, vocabSize: int, batch: TurnBatch,
                      prevZ: Option<array<array<int>>>, prevZ1: Option<array<array<int>>>,
                      prevZ2: Option<array<array<int>>>, prevZ3: Option<array<array<int>>>)
      returns (enc: Encoded)
    requires Reserved(v, vocabSize)
    requires Apart(prevZ, prevZ1) && Apart(prevZ, prevZ2) && Apart(prevZ, prevZ3)
    requires OuterDistinct(prevZ1, prevZ2) && OuterDistinct(prevZ1, prevZ3) && OuterDistinct(prevZ2, prevZ3)
    modifies Outer(prevZ), Items(prevZ), Outer(prevZ1), Outer(prevZ2), Outer(prevZ3)
    ensures enc == Encode(v, vocabSize, batch,
      old(Given(prevZ, [v.eosZ1, v.eosZ2], |batch.bspan|)),
      old(Given(prevZ1, [v.eosZ1], |batch.constraint|)),
      old(Given(prevZ2, [v.eosZ2], |batch.userTag|)),
      old(Given(prevZ3, [v.split], |batch.system|)))
    ensures prevZ.Some? ==> Contents(prevZ.value) == enc.prevZ
    ensures prevZ1.Some? ==> Contents(prevZ1.value) == enc.prevZ1
    ensures prevZ2.Some? ==> Contents(prevZ2.value) == enc.prevZ2
    ensures prevZ3.Some? ==> Contents(prevZ3.value) == enc.prevZ3
    ensures prevZ.Some? ==> forall k :: 0 <= k < prevZ.value.Length ==>
      if NeedsCut(old(prevZ.value[k][..]), v.eosZ2) then old(prevZ.value[k])[..] == old(prevZ.value[k][..])
      else prevZ.value[k] == old(prevZ.value[k])
  {
    var cz, cz1, cz2, cz3 := PrepareStreams(v, vocabSize, batch, prevZ, prevZ1, prevZ2, prevZ3);
    enc := Encoded(cz, Lengths(cz), cz1, Lengths(cz1), cz2, Lengths(cz2), cz3, Lengths(cz3),
                   batch.user, batch.uLen,
                   batch.bspan, batch.bspan, batch.userTag, batch.system,
                   batch.response, batch.mLen, batch.degree,
                   batch.constraint, batch.user, batch.system);
  }
}

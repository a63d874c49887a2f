/** What the turn loops of `train`, `validate`, `eval` and `reinforce_tune`
    share: the turn states, the conversion of a turn as they call it, and
    the copy of a span list that becomes the next turn's context. */
module TurnCommon {
  import opened Spans
  import opened Options
  import opened BatchEncoder

  /** The network's recurrent state dictionary, opaque to the loops. */
  type TurnStates = map<string, seq<real>>

  /** The network's answer in training mode: the total loss and the new turn states. */
  datatype TrainResult = TrainResult(loss: real, states: TurnStates)

  /** A new list of new lists holding `spans` (a turn batch's `bspan`, or a
      decoded stream, as the next turn's previous span). */
  method FromSpans(spans: seq<seq<int>>) returns (a: array<array<int>>)
    ensures fresh(a) && forall k :: 0 <= k < a.Length ==> fresh(a[k])
    ensures Contents(a) == spans
  {
    var empty := new int[0];
    a := new array<int>[|spans|](_ => empty);
    for k := 0 to |spans|
      invariant forall j :: 0 <= j < k ==> fresh(a[j]) && a[j][..] == spans[j]
    {
      var item := new int[|spans[k]|](j requires 0 <= j < |spans[k]| => spans[k][j]);
      a[k] := item;
    }
  }

  /** The belief-span context of teacher-forced turn `t`: the default at the
      first turn, then the previous turn's ground truth. */
  function TeacherContext(v: Vocab, dial: seq<TurnBatch>, t: nat): seq<seq<int>>
    requires t < |dial|
  {
    if t == 0 then Repeat([v.eosZ1, v.eosZ2], |dial[0].bspan|) else dial[t - 1].bspan
  }

  /** The conversion as a function value, of a turn batch and the four
      previous-span streams. */
  type Conversion = (TurnBatch, seq<seq<int>>, seq<seq<int>>, seq<seq<int>>, seq<seq<int>>) -> Encoded

  /** `f` agrees with `Encode` on one input. */
  ghost predicate ConvertsAt(v: Vocab, vocabSize: int, f: Conversion, batch: TurnBatch,
                             z: seq<seq<int>>, z1: seq<seq<int>>, z2: seq<seq<int>>, z3: seq<seq<int>>)
  {
    f(batch, z, z1, z2, z3) == Encode(v, vocabSize, batch, z, z1, z2, z3)
  }

  /** `f` is `Encode`. A proof draws the equation for one input from this
      only by naming that input, so the loops reason about whole runs
      without unfolding the conversion of every turn. */
  ghost predicate IsConversion(v: Vocab, vocabSize: int, f: Conversion)
  {
    forall batch, z, z1, z2, z3 {:trigger ConvertsAt(v, vocabSize, f, batch, z, z1, z2, z3)} ::
      ConvertsAt(v, vocabSize, f, batch, z, z1, z2, z3)
  }

  lemma ConversionExists(v: Vocab, vocabSize: int)
    ensures exists f :: IsConversion(v, vocabSize, f)
  {
    var f: Conversion := (batch, z, z1, z2, z3) => Encode(v, vocabSize, batch, z, z1, z2, z3);
    assert IsConversion(v, vocabSize, f);
  }

  /** `Encode` for vocabulary `v` as a function value. */
  ghost function Converter(v: Vocab, vocabSize: int): (f: Conversion)
    ensures IsConversion(v, vocabSize, f)
  {
    ConversionExists(v, vocabSize);
    var f :| IsConversion(v, vocabSize, f); f
  }

  /** What a turn converts when the three other streams are not passed, so
      that the conversion defaults them from the current turn's batch. */
  ghost function FreshDefaultsEncoding(v: Vocab, vocabSize: int, batch: TurnBatch, z: seq<seq<int>>): Encoded
  {
    Converter(v, vocabSize)(batch, z, Repeat([v.eosZ1], |batch.constraint|), Repeat([v.eosZ2], |batch.userTag|),
                            Repeat([v.split], |batch.system|))
  }

  /** The conversion with only the belief span passed, as `Encode` computes it. */
  lemma FreshDefaultsEncodingIsEncode(v: Vocab, vocabSize: int, batch: TurnBatch, z: seq<seq<int>>)
    ensures FreshDefaultsEncoding(v, vocabSize, batch, z)
      == Encode(v, vocabSize, batch, z, Repeat([v.eosZ1], |batch.constraint|), Repeat([v.eosZ2], |batch.userTag|),
                Repeat([v.split], |batch.system|))
  {
    assert ConvertsAt(v, vocabSize, Converter(v, vocabSize), batch, z, Repeat([v.eosZ1], |batch.constraint|),
                      Repeat([v.eosZ2], |batch.userTag|), Repeat([v.split], |batch.system|));
  }

  /** The conversion of a turn whose only previous-span argument is the
      belief span (`None` at a turn that passes none): the three other
      streams are defaulted by the conversion itself. */
  method ConvertAlone(v: Vocab, vocabSize: int, batch: TurnBatch, prevZ: Option<array<array<int>>>,
                      ghost ctx: seq<seq<int>>)
      returns (enc: Encoded)
    requires Reserved(v, vocabSize)
    requires prevZ.None? ==> ctx == Repeat([v.eosZ1, v.eosZ2], |batch.bspan|)
    requires prevZ.Some? ==> Contents(prevZ.value) == ctx
    modifies Outer(prevZ), Items(prevZ)
    ensures enc == FreshDefaultsEncoding(v, vocabSize, batch, ctx)
    ensures prevZ.Some? ==> Contents(prevZ.value) == enc.prevZ
  {
    assert Given(prevZ, [v.eosZ1, v.eosZ2], |batch.bspan|) == ctx;
    enc := ConvertBatch(v, vocabSize, batch, prevZ, None, None, None);
    FreshDefaultsEncodingIsEncode(v, vocabSize, batch, ctx);
  }
}

/** The turn loop of `eval` over one dialogue batch: the first turn passes
    no previous span, every later turn passes only the belief span, which is
    the previous turn's ground truth or the network's decoded `z1_idx`. */
module EvalLoop {
  import opened Spans
  import opened Options
  import opened BatchEncoder
  import opened TurnCommon

  /** The network's answer in test mode: the decoded `m_idx`, `z_idx`,
      `z1_idx`, `z2_idx` and `z3_idx`, and the new turn states. */
  datatype Decoded = Decoded(m: seq<seq<int>>, z: seq<seq<int>>, z1: seq<seq<int>>,
                             z2: seq<seq<int>>, z3: seq<seq<int>>, states: TurnStates)

  /** The decoding mode `eval` asks for. */
  datatype DecodeMode = Test | PretrainTest

  /** The network as `eval` calls it, also given the turn's dialogue ids. */
  type DecodeNet = (DecodeMode, Encoded, seq<int>, TurnStates) -> Decoded

  /** One evaluation turn, with the previous span handed to the result
      writer (`None` at the first turn). */
  datatype EvalCall = EvalCall(enc: Encoded, states: TurnStates, decoded: Decoded,
                               written: Option<seq<seq<int>>>)

  /** The decoding mode `eval` picks: `pretrain_test` while pretraining, else `test`. */
  function ModeFor(pretrain: bool): (m: DecodeMode)
    ensures m == PretrainTest <==> pretrain
  {
    if pretrain then PretrainTest else Test
  }

  /** Evaluation turn `t`, given the turn states the turn before left and the
      previous belief span (`None` before the first turn). */
  ghost function EvalCallAt(v: Vocab, vocabSize: int, dial: seq<TurnBatch>, net: DecodeNet, mode: DecodeMode,
                            t: nat, states: TurnStates, prev: Option<seq<seq<int>>>): EvalCall
    requires t < |dial|
  {
    var enc := FreshDefaultsEncoding(v, vocabSize, dial[t], prev.GetOr(Repeat([v.eosZ1, v.eosZ2], |dial[t].bspan|)));
    EvalCall(enc, states, net(mode, enc, dial[t].dialId, states), if prev.None? then None else Some(enc.prevZ))
  }

  /** The belief span the turn after call `c` (turn `t`) receives. */
  function EvalNext(dial: seq<TurnBatch>, groundTruth: bool, t: nat, c: EvalCall): Option<seq<seq<int>>>
    requires t < |dial|
  {
    Some(if groundTruth then dial[t].bspan else c.decoded.z1)
  }

  /** Where `eval` stands before a turn of a dialogue batch: the turn states
      and the previous belief span (`None` before the first turn). */
  datatype EvalBefore = EvalBefore(states: TurnStates, prev: Option<seq<seq<int>>>)

  /** Where `eval` stands before turn `t` of a dialogue batch. */
  ghost function EvalState(v: Vocab, vocabSize: int, dial: seq<TurnBatch>, net: DecodeNet, mode: DecodeMode,
                           groundTruth: bool, t: nat): EvalBefore
    requires t <= |dial|
    decreases t, 0
  {
    if t == 0 then EvalBefore(map[], None)
    else
      var c := EvalTurnCall(v, vocabSize, dial, net, mode, groundTruth, t - 1);
      EvalBefore(c.decoded.states, EvalNext(dial, groundTruth, t - 1, c))
  }

  /** Turn `t` of a dialogue batch of `eval`. */
  ghost function EvalTurnCall(v: Vocab, vocabSize: int, dial: seq<TurnBatch>, net: DecodeNet, mode: DecodeMode,
                              groundTruth: bool, t: nat): EvalCall
    requires t < |dial|
    decreases t, 1
  {
    var b := EvalState(v, vocabSize, dial, net, mode, groundTruth, t);
    EvalCallAt(v, vocabSize, dial, net, mode, t, b.states, b.prev)
  }

  /** The first `n` turns `eval` makes over a dialogue batch. */
  ghost function EvalRun(v: Vocab, vocabSize: int, dial: seq<TurnBatch>, net: DecodeNet, mode: DecodeMode,
                         groundTruth: bool, n: nat): (r: seq<EvalCall>)
    requires n <= |dial|
    ensures |r| == n
  {
    if n == 0 then []
    else EvalRun(v, vocabSize, dial, net, mode, groundTruth, n - 1) + [EvalTurnCall(v, vocabSize, dial, net, mode, groundTruth, n - 1)]
  }

  /** Call `t` of the run is turn `t`'s call. */
  lemma {:induction false} EvalRunAt(v: Vocab, vocabSize: int, dial: seq<TurnBatch>, net: DecodeNet,
                                     mode: DecodeMode, groundTruth: bool, n: nat, t: nat)
    requires t < n <= |dial|
    ensures EvalRun(v, vocabSize, dial, net, mode, groundTruth, n)[t] == EvalTurnCall(v, vocabSize, dial, net, mode, groundTruth, t)
    decreases n
  {
    if t < n - 1 {
      EvalRunAt(v, vocabSize, dial, net, mode, groundTruth, n - 1, t);
    }
  }

  /** Turn `t` of `eval` after the first: the network receives the turn
      states the turn before returned and the conversion whose belief-span
      context is the previous turn's ground truth when evaluating with ground
      truth, and otherwise the decoded `z1_idx` of the previous turn; the
      result writer receives that context as the
      conversion normalized it. */
  lemma EvalRunTurn(v: Vocab, vocabSize: int, dial: seq<TurnBatch>, net: DecodeNet,
                    mode: DecodeMode, groundTruth: bool, t: nat)
    requires 0 < t < |dial|
    ensures var r := EvalRun(v, vocabSize, dial, net, mode, groundTruth, |dial|);
      var ctx := if groundTruth then dial[t - 1].bspan else r[t - 1].decoded.z1;
      && r[t].enc == Encode(v, vocabSize, dial[t], ctx, Repeat([v.eosZ1], |dial[t].constraint|),
                            Repeat([v.eosZ2], |dial[t].userTag|), Repeat([v.split], |dial[t].system|))
      && r[t].states == r[t - 1].decoded.states
      && r[t].decoded == net(mode, r[t].enc, dial[t].dialId, r[t].states)
      && r[t].written == Some(r[t].enc.prevZ)
  {
    var r := EvalRun(v, vocabSize, dial, net, mode, groundTruth, |dial|);
    EvalRunAt(v, vocabSize, dial, net, mode, groundTruth, |dial|, t);
    EvalRunAt(v, vocabSize, dial, net, mode, groundTruth, |dial|, t - 1);
    FreshDefaultsEncodingIsEncode(v, vocabSize, dial[t], if groundTruth then dial[t - 1].bspan else r[t - 1].decoded.z1);
  }

  /** The first turn of `eval`: no previous span is passed, so the belief
      span is defaulted, the turn states are empty and the result writer
      receives no previous span. */
  lemma EvalFirstTurn(v: Vocab, vocabSize: int, dial: seq<TurnBatch>, net: DecodeNet,
                      mode: DecodeMode, groundTruth: bool)
    requires 0 < |dial|
    ensures var r := EvalRun(v, vocabSize, dial, net, mode, groundTruth, |dial|);
      && r[0].enc == Encode(v, vocabSize, dial[0], Repeat([v.eosZ1, v.eosZ2], |dial[0].bspan|),
                            Repeat([v.eosZ1], |dial[0].constraint|), Repeat([v.eosZ2], |dial[0].userTag|),
                            Repeat([v.split], |dial[0].system|))
      && r[0].states == map[] && r[0].decoded == net(mode, r[0].enc, dial[0].dialId, map[]) && r[0].written.None?
  {
    EvalRunAt(v, vocabSize, dial, net, mode, groundTruth, |dial|, 0);
    FreshDefaultsEncodingIsEncode(v, vocabSize, dial[0], Repeat([v.eosZ1, v.eosZ2], |dial[0].bspan|));
  }

  /** One turn of `eval`: convert, decode, hand the previous belief span to
      the result writer, and pick the next context. */
  method EvalTurn(v: Vocab, vocabSize: int, dial: seq<TurnBatch>, net: DecodeNet, mode: DecodeMode,
                  groundTruth: bool, t: nat, states: TurnStates,
                  prevZ: Option<array<array<int>>>, ghost prev: Option<seq<seq<int>>>)
      returns (call: EvalCall, next: array<array<int>>)
    requires Reserved(v, vocabSize) && t < |dial|
    requires prevZ.None? <==> prev.None?
    requires prevZ.Some? ==> Contents(prevZ.value) == prev.value
    modifies Outer(prevZ), Items(prevZ)
    ensures call == EvalCallAt(v, vocabSize, dial, net, mode, t, states, prev)
    ensures Some(Contents(next)) == EvalNext(dial, groundTruth, t, call)
    ensures fresh(next) && forall k :: 0 <= k < next.Length ==> fresh(next[k])
  {
    var enc := ConvertAlone(v, vocabSize, dial[t], prevZ, prev.GetOr(Repeat([v.eosZ1, v.eosZ2], |dial[t].bspan|)));
    var decoded := net(mode, enc, dial[t].dialId, states);
    var written: Option<seq<seq<int>>> := None;
    if prevZ.Some? {
      written := Some(Contents(prevZ.value));
    }
    call := EvalCall(enc, states, decoded, written);
    if groundTruth {
      next := FromSpans(dial[t].bspan);
    } else {
      next := FromSpans(decoded.z1);
    }
  }

  /** Where the turn loop of `eval` stands before turn `t`: the calls made
      so far are the run's first `t` calls, and the turn states and previous
      belief span are those turn `t` receives. */
  ghost predicate EvalTrace(v: Vocab, vocabSize: int, dial: seq<TurnBatch>, net: DecodeNet, mode: DecodeMode,
                            groundTruth: bool, t: nat, calls: seq<EvalCall>, states: TurnStates,
                            prev: Option<seq<seq<int>>>)
  {
    t <= |dial| && calls == EvalRun(v, vocabSize, dial, net, mode, groundTruth, t)
      && EvalState(v, vocabSize, dial, net, mode, groundTruth, t) == EvalBefore(states, prev)
  }

  /** One pass of the turn loop of `eval`. */
  method EvalStep(v: Vocab, vocabSize: int, dial: seq<TurnBatch>, net: DecodeNet, mode: DecodeMode,
                  groundTruth: bool, t: nat, calls: seq<EvalCall>, states: TurnStates,
                  prevZ: Option<array<array<int>>>, ghost prev: Option<seq<seq<int>>>)
      returns (calls': seq<EvalCall>, states': TurnStates, next: array<array<int>>)
    requires Reserved(v, vocabSize) && t < |dial|
    requires EvalTrace(v, vocabSize, dial, net, mode, groundTruth, t, calls, states, prev)
    requires prevZ.None? <==> prev.None?
    requires prevZ.Some? ==> Contents(prevZ.value) == prev.value
    modifies Outer(prevZ), Items(prevZ)
    ensures EvalTrace(v, vocabSize, dial, net, mode, groundTruth, t + 1, calls', states', Some(Contents(next)))
    ensures fresh(next) && forall k :: 0 <= k < next.Length ==> fresh(next[k])
  {
    var call;
    call, next := EvalTurn(v, vocabSize, dial, net, mode, groundTruth, t, states, prevZ, prev);
    calls' := calls + [call];
    states' := call.decoded.states;
  }

  /** The turn loop of `eval` over one dialogue batch: the turn states
      start empty and no previous span is held. */
  method EvalDialogue(v: Vocab, vocabSize: int, dial: seq<TurnBatch>, net: DecodeNet, pretrain: bool, groundTruth: bool)
      returns (calls: seq<EvalCall>)
    requires Reserved(v, vocabSize)
    ensures calls == EvalRun(v, vocabSize, dial, net, ModeFor(pretrain), groundTruth, |dial|)
  {
    var mode := ModeFor(pretrain);
    var states: TurnStates := map[];
    var prevZ: Option<array<array<int>>> := None;
    ghost var prev: Option<seq<seq<int>>> := None;
    calls := [];
    for t := 0 to |dial|
      invariant EvalTrace(v, vocabSize, dial, net, mode, groundTruth, t, calls, states, prev)
      invariant prevZ.None? <==> prev.None?
      invariant prevZ.Some? ==> Contents(prevZ.value) == prev.value
      invariant prevZ.Some? ==> fresh(prevZ.value) && forall k :: 0 <= k < prevZ.value.Length ==> fresh(prevZ.value[k])
    {
      var next;
      calls, states, next := EvalStep(v, vocabSize, dial, net, mode, groundTruth, t, calls, states, prevZ, prev);
      prevZ := Some(next);
      prev := Some(Contents(next));
    }
  }
}

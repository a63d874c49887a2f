/** The turn loop of `validate` over one dialogue batch: teacher-forced
    belief-span contexts, the three other streams never passed, and the
    losses summed with no optimizer step. */
module ValidLoop {
  import opened Spans
  import opened Options
  import opened BatchEncoder
  import opened TurnCommon

  /** The network as `validate` calls it: weights fixed, training-mode losses. */
  type ValidNet = (Encoded, TurnStates) -> TrainResult

  /** One validation turn: what the network was given and returned. */
  datatype ValidCall = ValidCall(enc: Encoded, states: TurnStates, result: TrainResult)

  /** Validation turn `t`, given the turn states the turn before left. */
  ghost function ValidCallAt(v: Vocab, vocabSize: int, dial: seq<TurnBatch>, net: ValidNet,
                             t: nat, states: TurnStates): ValidCall
    requires t < |dial|
  {
    var enc := FreshDefaultsEncoding(v, vocabSize, dial[t], TeacherContext(v, dial, t));
    ValidCall(enc, states, net(enc, states))
  }

  /** The turn states `validate` holds before turn `t` of a dialogue batch:
      empty at the first turn, then those the turn before returned. */
  ghost function ValidState(v: Vocab, vocabSize: int, dial: seq<TurnBatch>, net: ValidNet, t: nat): TurnStates
    requires t <= |dial|
    decreases t, 0
  {
    if t == 0 then map[] else ValidTurnCall(v, vocabSize, dial, net, t - 1).result.states
  }

  /** Turn `t` of a dialogue batch of `validate`. */
  ghost function ValidTurnCall(v: Vocab, vocabSize: int, dial: seq<TurnBatch>, net: ValidNet, t: nat): ValidCall
    requires t < |dial|
    decreases t, 1
  {
    ValidCallAt(v, vocabSize, dial, net, t, ValidState(v, vocabSize, dial, net, t))
  }

  /** The first `n` turns `validate` makes over a dialogue batch. */
  ghost function ValidRun(v: Vocab, vocabSize: int, dial: seq<TurnBatch>, net: ValidNet, n: nat): (r: seq<ValidCall>)
    requires n <= |dial|
    ensures |r| == n
  {
    if n == 0 then [] else ValidRun(v, vocabSize, dial, net, n - 1) + [ValidTurnCall(v, vocabSize, dial, net, n - 1)]
  }

  /** Call `t` of the run is turn `t`'s call. */
  lemma {:induction false} ValidRunAt(v: Vocab, vocabSize: int, dial: seq<TurnBatch>, net: ValidNet, n: nat, t: nat)
    requires t < n <= |dial|
    ensures ValidRun(v, vocabSize, dial, net, n)[t] == ValidTurnCall(v, vocabSize, dial, net, t)
    decreases n
  {
    if t < n - 1 {
      ValidRunAt(v, vocabSize, dial, net, n - 1, t);
    }
  }

  /** Turn `t` of `validate`: the network receives the turn's conversion,
      with the previous ground-truth belief span (the default at the first
      turn) and the three other streams defaulted from this turn's batch, and
      the turn states returned by the turn before (empty at the first turn). */
  lemma ValidRunTurn(v: Vocab, vocabSize: int, dial: seq<TurnBatch>, net: ValidNet, t: nat)
    requires t < |dial|
    ensures var r := ValidRun(v, vocabSize, dial, net, |dial|);
      && r[t].enc == Encode(v, vocabSize, dial[t], TeacherContext(v, dial, t),
                            Repeat([v.eosZ1], |dial[t].constraint|), Repeat([v.eosZ2], |dial[t].userTag|),
                            Repeat([v.split], |dial[t].system|))
      && r[t].result == net(r[t].enc, r[t].states)
      && r[t].states == if t == 0 then map[] else r[t - 1].result.states
  {
    ValidRunAt(v, vocabSize, dial, net, |dial|, t);
    if t > 0 {
      ValidRunAt(v, vocabSize, dial, net, |dial|, t - 1);
    }
    FreshDefaultsEncodingIsEncode(v, vocabSize, dial[t], TeacherContext(v, dial, t));
  }

  /** The sum of the losses of validation turns. */
  function ValidLoss(calls: seq<ValidCall>): real
  {
    if calls == [] then 0.0 else ValidLoss(calls[..|calls| - 1]) + calls[|calls| - 1].result.loss
  }

  lemma ValidLossStep(calls: seq<ValidCall>, c: ValidCall)
    ensures ValidLoss(calls + [c]) == ValidLoss(calls) + c.result.loss
  {
    assert (calls + [c])[..|calls|] == calls;
  }

  /** One turn of `validate`: default the belief span at the first turn,
      convert, call the network, and take the turn's ground-truth belief span
      as the next context. */
  method ValidTurn(v: Vocab, vocabSize: int, dial: seq<TurnBatch>, net: ValidNet, t: nat, states: TurnStates,
                   prevZ: Option<array<array<int>>>)
      returns (call: ValidCall, next: array<array<int>>)
    requires Reserved(v, vocabSize) && t < |dial|
    requires t == 0 ==> prevZ.None?
    requires t > 0 ==> prevZ.Some? && Contents(prevZ.value) == dial[t - 1].bspan
    modifies Outer(prevZ), Items(prevZ)
    ensures call == ValidCallAt(v, vocabSize, dial, net, t, states)
    ensures fresh(next) && (forall k :: 0 <= k < next.Length ==> fresh(next[k])) && Contents(next) == dial[t].bspan
  {
    var z := prevZ;
    if z.None? {
      var d := DefaultSpans([v.eosZ1, v.eosZ2], |dial[t].bspan|);
      z := Some(d);
    }
    var enc := ConvertAlone(v, vocabSize, dial[t], z, TeacherContext(v, dial, t));
    var result := net(enc, states);
    call := ValidCall(enc, states, result);
    next := FromSpans(dial[t].bspan);
  }

  /** Where the turn loop of `validate` stands before turn `t`: the calls
      made so far are the run's first `t` calls, the turn states are those
      turn `t` receives, the loss sum adds up the calls' losses and the count
      is `t` more. */
  ghost predicate ValidProgress(v: Vocab, vocabSize: int, dial: seq<TurnBatch>, net: ValidNet, loss0: real, cnt0: nat,
                                t: nat, calls: seq<ValidCall>, states: TurnStates, loss: real, cnt: nat)
  {
    && t <= |dial| && |calls| == t
    && calls == ValidRun(v, vocabSize, dial, net, t) && states == ValidState(v, vocabSize, dial, net, t)
    && loss == loss0 + ValidLoss(calls) && cnt == cnt0 + t
  }

  /** A turn of the run moves the loop to the next turn. */
  lemma ValidProgressStep(v: Vocab, vocabSize: int, dial: seq<TurnBatch>, net: ValidNet, loss0: real, cnt0: nat,
                          t: nat, calls: seq<ValidCall>, states: TurnStates, loss: real, cnt: nat, call: ValidCall)
    requires t < |dial| && ValidProgress(v, vocabSize, dial, net, loss0, cnt0, t, calls, states, loss, cnt)
    requires call == ValidCallAt(v, vocabSize, dial, net, t, states)
    ensures ValidProgress(v, vocabSize, dial, net, loss0, cnt0, t + 1, calls + [call], call.result.states,
                          loss + call.result.loss, cnt + 1)
  {
    ValidLossStep(calls, call);
  }

  /** One pass of the turn loop of `validate`. */
  method ValidStep(v: Vocab, vocabSize: int, dial: seq<TurnBatch>, net: ValidNet, loss0: real, cnt0: nat,
                   t: nat, calls: seq<ValidCall>, states: TurnStates, loss: real, cnt: nat,
                   prevZ: Option<array<array<int>>>)
      returns (calls': seq<ValidCall>, states': TurnStates, loss': real, cnt': nat, next: array<array<int>>)
    requires Reserved(v, vocabSize) && t < |dial|
    requires ValidProgress(v, vocabSize, dial, net, loss0, cnt0, t, calls, states, loss, cnt)
    requires t == 0 ==> prevZ.None?
    requires t > 0 ==> prevZ.Some? && Contents(prevZ.value) == dial[t - 1].bspan
    modifies Outer(prevZ), Items(prevZ)
    ensures ValidProgress(v, vocabSize, dial, net, loss0, cnt0, t + 1, calls', states', loss', cnt')
    ensures fresh(next) && (forall k :: 0 <= k < next.Length ==> fresh(next[k])) && Contents(next) == dial[t].bspan
  {
    var call;
    call, next := ValidTurn(v, vocabSize, dial, net, t, states, prevZ);
    ValidProgressStep(v, vocabSize, dial, net, loss0, cnt0, t, calls, states, loss, cnt, call);
    calls' := calls + [call];
    loss' := loss + call.result.loss;
    cnt' := cnt + 1;
    states' := call.result.states;
  }

  /** The turn loop of `validate` over one dialogue batch, adding to the
      running loss sum and turn count. */
  method ValidDialogue(v: Vocab, vocabSize: int, dial: seq<TurnBatch>, net: ValidNet, loss0: real, cnt0: nat)
      returns (calls: seq<ValidCall>, loss: real, cnt: nat)
    requires Reserved(v, vocabSize)
    ensures calls == ValidRun(v, vocabSize, dial, net, |dial|)
    ensures loss == loss0 + ValidLoss(calls) && cnt == cnt0 + |dial|
  {
    var states: TurnStates := map[];
    var prevZ: Option<array<array<int>>> := None;
    calls, loss, cnt := [], loss0, cnt0;
    for t := 0 to |dial|
      invariant ValidProgress(v, vocabSize, dial, net, loss0, cnt0, t, calls, states, loss, cnt)
      invariant t == 0 ==> prevZ.None?
      invariant t > 0 ==> prevZ.Some? && Contents(prevZ.value) == dial[t - 1].bspan
      invariant t > 0 ==> fresh(prevZ.value) && forall k :: 0 <= k < prevZ.value.Length ==> fresh(prevZ.value[k])
    {
      var next;
      calls, states, loss, cnt, next := ValidStep(v, vocabSize, dial, net, loss0, cnt0, t, calls, states, loss, cnt, prevZ);
      prevZ := Some(next);
    }
  }
}

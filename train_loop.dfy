/** The turn loop of `train` over one dialogue batch: how the previous spans
    and the network's turn states are threaded from one turn to the next.
    The network is a parameter: a function of the optimizer steps taken, the
    converted turn and the turn states. */
module TrainLoop {
  import opened Spans
  import opened Options
  import opened BatchEncoder
  import opened TurnCommon

  /** The network in training mode, given how many optimizer steps have been
      taken (its weights depend on them), the converted turn and the turn states. */
  type TrainNet = (nat, Encoded, TurnStates) -> TrainResult

  /** One training turn: the optimizer steps taken before it, what the
      network was given and returned, and whether the backward pass kept the graph. */
  datatype TrainCall = TrainCall(updates: nat, enc: Encoded, states: TurnStates, retainGraph: bool, result: TrainResult)

  /** What training turn `t` converts: the belief-span context, and the three
      other streams still at the defaults built at the first turn. */
  ghost function TrainEncoding(v: Vocab, vocabSize: int, dial: seq<TurnBatch>, t: nat): Encoded
    requires t < |dial|
  {
    Converter(v, vocabSize)(dial[t], TeacherContext(v, dial, t), Repeat([v.eosZ1], |dial[0].constraint|),
                            Repeat([v.eosZ2], |dial[0].userTag|), Repeat([v.split], |dial[0].system|))
  }

  /** A training turn's conversion, as `Encode` computes it. */
  lemma TrainEncodingIsEncode(v: Vocab, vocabSize: int, dial: seq<TurnBatch>, t: nat)
    requires t < |dial|
    ensures TrainEncoding(v, vocabSize, dial, t)
      == Encode(v, vocabSize, dial[t], TeacherContext(v, dial, t), Repeat([v.eosZ1], |dial[0].constraint|),
                Repeat([v.eosZ2], |dial[0].userTag|), Repeat([v.split], |dial[0].system|))
  {
    assert ConvertsAt(v, vocabSize, Converter(v, vocabSize), dial[t], TeacherContext(v, dial, t),
                      Repeat([v.eosZ1], |dial[0].constraint|), Repeat([v.eosZ2], |dial[0].userTag|),
                      Repeat([v.split], |dial[0].system|));
  }

  /** The lists a turn loop holds between turns: the belief-span context and
      the three other streams, with their contents, sharing no list object
      with one another. */
  ghost predicate Held(z: array<array<int>>, z1: array<array<int>>, z2: array<array<int>>, z3: array<array<int>>,
                       cz: seq<seq<int>>, cz1: seq<seq<int>>, cz2: seq<seq<int>>, cz3: seq<seq<int>>)
    reads z, z1, z2, z3, set k | 0 <= k < z.Length :: z[k], set k | 0 <= k < z1.Length :: z1[k],
      set k | 0 <= k < z2.Length :: z2[k], set k | 0 <= k < z3.Length :: z3[k]
  {
    && Apart(Some(z), Some(z1)) && Apart(Some(z), Some(z2)) && Apart(Some(z), Some(z3))
    && z1 != z2 && z1 != z3 && z2 != z3
    && Contents(z) == cz && Contents(z1) == cz1 && Contents(z2) == cz2 && Contents(z3) == cz3
  }

  /** The lists `train` holds before turn `t`: the previous turn's ground-truth
      belief span and the three other streams at their first-turn defaults. */
  ghost predicate TrainHeld(v: Vocab, dial: seq<TurnBatch>, t: nat, z: Option<array<array<int>>>,
                            z1: Option<array<array<int>>>, z2: Option<array<array<int>>>, z3: Option<array<array<int>>>)
    reads Outer(z), Items(z), Outer(z1), Items(z1), Outer(z2), Items(z2), Outer(z3), Items(z3)
  {
    && 0 < t <= |dial| && z.Some? && z1.Some? && z2.Some? && z3.Some?
    && Held(z.value, z1.value, z2.value, z3.value, dial[t - 1].bspan,
            Repeat([v.eosZ1], |dial[0].constraint|), Repeat([v.eosZ2], |dial[0].userTag|),
            Repeat([v.split], |dial[0].system|))
  }

  /** Training turn `t`, given the turn states the turn before left: `t`
      optimizer steps precede it (one per earlier turn), and the graph is
      kept for every turn but the last. */
  ghost function TrainCallAt(v: Vocab, vocabSize: int, dial: seq<TurnBatch>, net: TrainNet, updates0: nat,
                             t: nat, states: TurnStates): TrainCall
    requires t < |dial|
  {
    var enc := TrainEncoding(v, vocabSize, dial, t);
    TrainCall(updates0 + t, enc, states, t != |dial| - 1, net(updates0 + t, enc, states))
  }

  /** The turn states `train` holds before turn `t` of a dialogue batch:
      empty at the first turn, then those the turn before returned. */
  ghost function TrainState(v: Vocab, vocabSize: int, dial: seq<TurnBatch>, net: TrainNet, updates0: nat, t: nat): TurnStates
    requires t <= |dial|
    decreases t, 0
  {
    if t == 0 then map[] else TrainTurnCall(v, vocabSize, dial, net, updates0, t - 1).result.states
  }

  /** Turn `t` of a dialogue batch of `train`, `updates0` optimizer steps
      into training. */
  ghost function TrainTurnCall(v: Vocab, vocabSize: int, dial: seq<TurnBatch>, net: TrainNet, updates0: nat, t: nat): TrainCall
    requires t < |dial|
    decreases t, 1
  {
    TrainCallAt(v, vocabSize, dial, net, updates0, t, TrainState(v, vocabSize, dial, net, updates0, t))
  }

  /** The first `n` turns `train` makes over a dialogue batch. */
  ghost function TrainRun(v: Vocab, vocabSize: int, dial: seq<TurnBatch>, net: TrainNet, updates0: nat, n: nat): (r: seq<TrainCall>)
    requires n <= |dial|
    ensures |r| == n
  {
    if n == 0 then [] else TrainRun(v, vocabSize, dial, net, updates0, n - 1) + [TrainTurnCall(v, vocabSize, dial, net, updates0, n - 1)]
  }

  /** Call `t` of the run is turn `t`'s call. */
  lemma {:induction false} TrainRunAt(v: Vocab, vocabSize: int, dial: seq<TurnBatch>, net: TrainNet,
                                      updates0: nat, n: nat, t: nat)
    requires t < n <= |dial|
    ensures TrainRun(v, vocabSize, dial, net, updates0, n)[t] == TrainTurnCall(v, vocabSize, dial, net, updates0, t)
    decreases n
  {
    if t < n - 1 {
      TrainRunAt(v, vocabSize, dial, net, updates0, n - 1, t);
    }
  }

  /** Turn `t` of `train`: the network receives the turn's conversion (the
      previous ground-truth belief span, the other streams at their first-turn
      defaults) and the turn states returned by the turn before (empty at the
      first turn); `t` optimizer steps precede it, one per earlier turn, and
      the graph is kept for every turn but the last. */
  lemma TrainRunTurn(v: Vocab, vocabSize: int, dial: seq<TurnBatch>, net: TrainNet, updates0: nat, t: nat)
    requires t < |dial|
    ensures var r := TrainRun(v, vocabSize, dial, net, updates0, |dial|);
      && r[t].enc == Encode(v, vocabSize, dial[t], TeacherContext(v, dial, t),
                            Repeat([v.eosZ1], |dial[0].constraint|), Repeat([v.eosZ2], |dial[0].userTag|),
                            Repeat([v.split], |dial[0].system|))
      && r[t].updates == updates0 + t
      && r[t].retainGraph == (t != |dial| - 1)
      && r[t].result == net(updates0 + t, r[t].enc, r[t].states)
      && r[t].states == if t == 0 then map[] else r[t - 1].result.states
  {
    TrainRunAt(v, vocabSize, dial, net, updates0, |dial|, t);
    if t > 0 {
      TrainRunAt(v, vocabSize, dial, net, updates0, |dial|, t - 1);
    }
    TrainEncodingIsEncode(v, vocabSize, dial, t);
  }

  /** The conversion of turn `t` of `train`, defaulting at the first turn
      every previous span, and reusing the held lists afterwards. */
  method TrainConvert(v: Vocab, vocabSize: int, dial: seq<TurnBatch>, t: nat,
                      prevZ: Option<array<array<int>>>, prevZ1: Option<array<array<int>>>,
                      prevZ2: Option<array<array<int>>>, prevZ3: Option<array<array<int>>>)
      returns (enc: Encoded, z1: array<array<int>>, z2: array<array<int>>, z3: array<array<int>>)
    requires Reserved(v, vocabSize) && t < |dial|
    requires t == 0 ==> prevZ.None? && prevZ1.None? && prevZ2.None? && prevZ3.None?
    requires t > 0 ==> TrainHeld(v, dial, t, prevZ, prevZ1, prevZ2, prevZ3)
    modifies Outer(prevZ), Items(prevZ), Outer(prevZ1), Outer(prevZ2), Outer(prevZ3)
    ensures enc == TrainEncoding(v, vocabSize, dial, t)
    ensures z1 != z2 && z1 != z3 && z2 != z3
    ensures Contents(z1) == Repeat([v.eosZ1], |dial[0].constraint|)
    ensures Contents(z2) == Repeat([v.eosZ2], |dial[0].userTag|)
    ensures Contents(z3) == Repeat([v.split], |dial[0].system|)
    ensures t == 0 ==> fresh(z1) && fresh(z2) && fresh(z3)
    ensures t > 0 ==> z1 == prevZ1.value && z2 == prevZ2.value && z3 == prevZ3.value
  {
    var batch := dial[t];
    ghost var c, c1, c2, c3 := TeacherContext(v, dial, t), Repeat([v.eosZ1], |dial[0].constraint|),
                               Repeat([v.eosZ2], |dial[0].userTag|), Repeat([v.split], |dial[0].system|);
    var z := prevZ;
    if t == 0 {
      var d := DefaultSpans([v.eosZ1, v.eosZ2], |batch.bspan|);
      z := Some(d);
      z1 := DefaultSpans([v.eosZ1], |batch.constraint|);
      z2 := DefaultSpans([v.eosZ2], |batch.userTag|);
      z3 := DefaultSpans([v.split], |batch.system|);
    } else {
      z1, z2, z3 := prevZ1.value, prevZ2.value, prevZ3.value;
    }
    assert Given(z, [v.eosZ1, v.eosZ2], |batch.bspan|) == c;
    assert Given(Some(z1), [v.eosZ1], |batch.constraint|) == c1;
    assert Given(Some(z2), [v.eosZ2], |batch.userTag|) == c2;
    assert Given(Some(z3), [v.split], |batch.system|) == c3;
    enc := ConvertBatch(v, vocabSize, batch, z, Some(z1), Some(z2), Some(z3));
    DefaultsUncut(v, vocabSize, |c1|, |c2|, |c3|);
    TrainEncodingIsEncode(v, vocabSize, dial, t);
  }

  /** One turn of `train`: the conversion, the network call with the turn
      states, and the turn's ground-truth belief span as the next context. */
  method TrainTurn(v: Vocab, vocabSize: int, dial: seq<TurnBatch>, net: TrainNet, updates0: nat,
                   t: nat, states: TurnStates,
                   prevZ: Option<array<array<int>>>, prevZ1: Option<array<array<int>>>,
                   prevZ2: Option<array<array<int>>>, prevZ3: Option<array<array<int>>>)
      returns (call: TrainCall, next: array<array<int>>, z1: array<array<int>>, z2: array<array<int>>, z3: array<array<int>>)
    requires Reserved(v, vocabSize) && t < |dial|
    requires t == 0 ==> prevZ.None? && prevZ1.None? && prevZ2.None? && prevZ3.None?
    requires t > 0 ==> TrainHeld(v, dial, t, prevZ, prevZ1, prevZ2, prevZ3)
    modifies Outer(prevZ), Items(prevZ), Outer(prevZ1), Outer(prevZ2), Outer(prevZ3)
    ensures call == TrainCallAt(v, vocabSize, dial, net, updates0, t, states)
    ensures TrainHeld(v, dial, t + 1, Some(next), Some(z1), Some(z2), Some(z3))
    ensures fresh(next) && forall k :: 0 <= k < next.Length ==> fresh(next[k])
    ensures t == 0 ==> fresh(z1) && fresh(z2) && fresh(z3)
    ensures t > 0 ==> z1 == prevZ1.value && z2 == prevZ2.value && z3 == prevZ3.value
  {
    var enc;
    enc, z1, z2, z3 := TrainConvert(v, vocabSize, dial, t, prevZ, prevZ1, prevZ2, prevZ3);
    var result := net(updates0 + t, enc, states);
    call := TrainCall(updates0 + t, enc, states, t != |dial| - 1, result);
    next := FromSpans(dial[t].bspan);
  }

  /** Where the turn loop of `train` stands before turn `t`: the calls made
      so far are the run's first `t` calls, and the turn states are those
      turn `t` receives. */
  ghost predicate TrainTrace(v: Vocab, vocabSize: int, dial: seq<TurnBatch>, net: TrainNet, updates0: nat,
                             t: nat, calls: seq<TrainCall>, states: TurnStates)
  {
    t <= |dial| && calls == TrainRun(v, vocabSize, dial, net, updates0, t)
      && states == TrainState(v, vocabSize, dial, net, updates0, t)
  }

  /** One pass of the turn loop of `train`. */
  method TrainStep(v: Vocab, vocabSize: int, dial: seq<TurnBatch>, net: TrainNet, updates0: nat,
                   t: nat, calls: seq<TrainCall>, states: TurnStates,
                   prevZ: Option<array<array<int>>>, prevZ1: Option<array<array<int>>>,
                   prevZ2: Option<array<array<int>>>, prevZ3: Option<array<array<int>>>)
      returns (calls': seq<TrainCall>, states': TurnStates,
               next: array<array<int>>, z1: array<array<int>>, z2: array<array<int>>, z3: array<array<int>>)
    requires Reserved(v, vocabSize) && t < |dial|
    requires TrainTrace(v, vocabSize, dial, net, updates0, t, calls, states)
    requires t == 0 ==> prevZ.None? && prevZ1.None? && prevZ2.None? && prevZ3.None?
    requires t > 0 ==> TrainHeld(v, dial, t, prevZ, prevZ1, prevZ2, prevZ3)
    modifies Outer(prevZ), Items(prevZ), Outer(prevZ1), Outer(prevZ2), Outer(prevZ3)
    ensures TrainTrace(v, vocabSize, dial, net, updates0, t + 1, calls', states')
    ensures TrainHeld(v, dial, t + 1, Some(next), Some(z1), Some(z2), Some(z3))
    ensures fresh(next) && forall k :: 0 <= k < next.Length ==> fresh(next[k])
    ensures t == 0 ==> fresh(z1) && fresh(z2) && fresh(z3)
    ensures t > 0 ==> z1 == prevZ1.value && z2 == prevZ2.value && z3 == prevZ3.value
  {
    var call;
    call, next, z1, z2, z3 := TrainTurn(v, vocabSize, dial, net, updates0, t, states, prevZ, prevZ1, prevZ2, prevZ3);
    calls' := calls + [call];
    states' := call.result.states;
  }

  /** The turn loop of `train` over one dialogue batch, `updates0` optimizer
      steps into training; the turn states start empty. */
  method TrainDialogue(v: Vocab, vocabSize: int, dial: seq<TurnBatch>, net: TrainNet, updates0: nat)
      returns (calls: seq<TrainCall>)
    requires Reserved(v, vocabSize)
    ensures calls == TrainRun(v, vocabSize, dial, net, updates0, |dial|)
  {
    var states: TurnStates := map[];
    var prevZ: Option<array<array<int>>> := None;
    var prevZ1: Option<array<array<int>>> := None;
    var prevZ2: Option<array<array<int>>> := None;
    var prevZ3: Option<array<array<int>>> := None;
    calls := [];
    for t := 0 to |dial|
      invariant TrainTrace(v, vocabSize, dial, net, updates0, t, calls, states)
      invariant t == 0 ==> prevZ.None? && prevZ1.None? && prevZ2.None? && prevZ3.None?
      invariant t > 0 ==> TrainHeld(v, dial, t, prevZ, prevZ1, prevZ2, prevZ3)
      invariant t > 0 ==>
        && fresh(prevZ.value) && fresh(prevZ1.value) && fresh(prevZ2.value) && fresh(prevZ3.value)
        && (forall k :: 0 <= k < prevZ.value.Length ==> fresh(prevZ.value[k]))
    {
      var next, z1, z2, z3;
      calls, states, next, z1, z2, z3 := TrainStep(v, vocabSize, dial, net, updates0, t, calls, states,
                                                   prevZ, prevZ1, prevZ2, prevZ3);
      prevZ, prevZ1, prevZ2, prevZ3 := Some(next), Some(z1), Some(z2), Some(z3);
    }
  }
}

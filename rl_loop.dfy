/** The turn loop of `reinforce_tune` over one dialogue batch: teacher-forced
    belief-span contexts, and a backward pass and optimizer step only after
    a turn for which the network gives a loss. */
module RlLoop {
  import opened Spans
  import opened Options
  import opened BatchEncoder
  import opened TurnCommon

  /** The network in reinforcement mode, given the optimizer steps taken,
      the converted turn, the turn's dialogue ids and the turn states: a
      loss, or none when the turn gives nothing to learn from. It returns
      no turn states, so the loop never rebinds the empty dictionary it
      starts each dialogue batch with. */
  type RlNet = (nat, Encoded, seq<int>, TurnStates) -> Option<real>

  /** One reinforcement turn: the optimizer steps taken before it, the
      conversion the network was given and the loss it returned. */
  datatype RlCall = RlCall(updates: nat, enc: Encoded, loss: Option<real>)

  /** The optimizer steps a reinforcement turn with loss `loss` adds: one
      when the network gave a loss, none otherwise. */
  function StepsOf(loss: Option<real>): nat
  {
    if loss.Some? then 1 else 0
  }

  /** Reinforcement turn `t`, given the optimizer steps taken so far; the
      turn states passed are always the empty dictionary. */
  ghost function RlCallAt(v: Vocab, vocabSize: int, dial: seq<TurnBatch>, net: RlNet,
                          t: nat, updates: nat): RlCall
    requires t < |dial|
  {
    var enc := FreshDefaultsEncoding(v, vocabSize, dial[t], TeacherContext(v, dial, t));
    RlCall(updates, enc, net(updates, enc, dial[t].dialId, map[]))
  }

  /** The optimizer steps taken after call `c`: one more only when it gave
      a loss. */
  function RlAfter(c: RlCall): nat
  {
    c.updates + StepsOf(c.loss)
  }

  /** The optimizer steps taken before turn `t` of a dialogue batch of
      `reinforce_tune` entered `updates0` steps in. */
  ghost function RlState(v: Vocab, vocabSize: int, dial: seq<TurnBatch>, net: RlNet, updates0: nat, t: nat): nat
    requires t <= |dial|
    decreases t, 0
  {
    if t == 0 then updates0 else RlAfter(RlTurnCall(v, vocabSize, dial, net, updates0, t - 1))
  }

  /** Turn `t` of such a dialogue batch. */
  ghost function RlTurnCall(v: Vocab, vocabSize: int, dial: seq<TurnBatch>, net: RlNet, updates0: nat, t: nat): RlCall
    requires t < |dial|
    decreases t, 1
  {
    RlCallAt(v, vocabSize, dial, net, t, RlState(v, vocabSize, dial, net, updates0, t))
  }

  /** The first `n` turns `reinforce_tune` makes over a dialogue batch. */
  ghost function RlRun(v: Vocab, vocabSize: int, dial: seq<TurnBatch>, net: RlNet, updates0: nat, n: nat): (r: seq<RlCall>)
    requires n <= |dial|
    ensures |r| == n
  {
    if n == 0 then [] else RlRun(v, vocabSize, dial, net, updates0, n - 1) + [RlTurnCall(v, vocabSize, dial, net, updates0, n - 1)]
  }

  /** Call `t` of the run is turn `t`'s call. */
  lemma {:induction false} RlRunAt(v: Vocab, vocabSize: int, dial: seq<TurnBatch>, net: RlNet,
                                   updates0: nat, n: nat, t: nat)
    requires t < n <= |dial|
    ensures RlRun(v, vocabSize, dial, net, updates0, n)[t] == RlTurnCall(v, vocabSize, dial, net, updates0, t)
    decreases n
  {
    if t < n - 1 {
      RlRunAt(v, vocabSize, dial, net, updates0, n - 1, t);
    }
  }

  /** Turn `t` of `reinforce_tune`: the network receives the turn's
      conversion and the empty turn states of the batch at every turn; the
      optimizer steps before it are those before the turn before, plus one
      only when that turn gave a loss, so a turn without a loss leaves the
      network's weights as they were. */
  lemma RlRunTurn(v: Vocab, vocabSize: int, dial: seq<TurnBatch>, net: RlNet, updates0: nat, t: nat)
    requires t < |dial|
    ensures var r := RlRun(v, vocabSize, dial, net, updates0, |dial|);
      && r[t].enc == Encode(v, vocabSize, dial[t], TeacherContext(v, dial, t),
                            Repeat([v.eosZ1], |dial[t].constraint|), Repeat([v.eosZ2], |dial[t].userTag|),
                            Repeat([v.split], |dial[t].system|))
      && r[t].loss == net(r[t].updates, r[t].enc, dial[t].dialId, map[])
      && r[t].updates == (if t == 0 then updates0 else r[t - 1].updates + StepsOf(r[t - 1].loss))
  {
    RlRunAt(v, vocabSize, dial, net, updates0, |dial|, t);
    if t > 0 {
      RlRunAt(v, vocabSize, dial, net, updates0, |dial|, t - 1);
    }
    FreshDefaultsEncodingIsEncode(v, vocabSize, dial[t], TeacherContext(v, dial, t));
  }

  /** The losses that were backpropagated, in turn order: one per turn that
      gave a loss. */
  function Stepped(calls: seq<RlCall>): (r: seq<real>)
    ensures |r| <= |calls|
  {
    if calls == [] then []
    else
      var last := calls[|calls| - 1];
      Stepped(calls[..|calls| - 1]) + (if last.loss.Some? then [last.loss.value] else [])
  }

  function Sum(xs: seq<real>): real
  {
    if xs == [] then 0.0 else Sum(xs[..|xs| - 1]) + xs[|xs| - 1]
  }

  lemma SteppedStep(calls: seq<RlCall>, c: RlCall)
    ensures c.loss.None? ==> Stepped(calls + [c]) == Stepped(calls)
    ensures c.loss.Some? ==> Stepped(calls + [c]) == Stepped(calls) + [c.loss.value]
    ensures |Stepped(calls + [c])| == |Stepped(calls)| + StepsOf(c.loss)
  {
    assert (calls + [c])[..|calls|] == calls;
    assert Stepped(calls) + [] == Stepped(calls);
  }

  lemma SumStep(xs: seq<real>, x: real)
    ensures Sum(xs + [x]) == Sum(xs) + x
  {
    assert (xs + [x])[..|xs|] == xs;
  }

  /** One turn of `reinforce_tune`: convert, call the network, and take the
      turn's ground-truth belief span as the next context whatever the loss. */
  method RlTurn(v: Vocab, vocabSize: int, dial: seq<TurnBatch>, net: RlNet, t: nat, updates: nat,
                prevZ: Option<array<array<int>>>)
      returns (call: RlCall, next: array<array<int>>)
    requires Reserved(v, vocabSize) && t < |dial|
    requires t == 0 ==> prevZ.None?
    requires t > 0 ==> prevZ.Some? && Contents(prevZ.value) == dial[t - 1].bspan
    modifies Outer(prevZ), Items(prevZ)
    ensures call == RlCallAt(v, vocabSize, dial, net, t, updates)
    ensures fresh(next) && (forall k :: 0 <= k < next.Length ==> fresh(next[k])) && Contents(next) == dial[t].bspan
  {
    var enc := ConvertAlone(v, vocabSize, dial[t], prevZ, TeacherContext(v, dial, t));
    var loss := net(updates, enc, dial[t].dialId, map[]);
    call := RlCall(updates, enc, loss);
    next := FromSpans(dial[t].bspan);
  }

  /** Where the turn loop of `reinforce_tune` stands before turn `t`: the
      calls made so far are the run's first `t` calls, and the loss sum, the
      count and the optimizer steps add up only the turns that gave a loss. */
  ghost predicate RlProgress(v: Vocab, vocabSize: int, dial: seq<TurnBatch>, net: RlNet,
                             updates0: nat, loss0: real, cnt0: nat,
                             t: nat, calls: seq<RlCall>, updates: nat, loss: real, cnt: nat)
  {
    && t <= |dial| && calls == RlRun(v, vocabSize, dial, net, updates0, t)
    && RlState(v, vocabSize, dial, net, updates0, t) == updates
    && cnt == cnt0 + |Stepped(calls)| && updates == updates0 + |Stepped(calls)|
    && loss == loss0 + Sum(Stepped(calls))
  }

  /** The loss a turn adds to the epoch sum: its own when it gave one. */
  function LossOf(loss: Option<real>): real
  {
    if loss.Some? then loss.value else 0.0
  }

  /** A turn of the run, with the gate applied to the sums, moves the loop
      to the next turn. */
  lemma RlProgressStep(v: Vocab, vocabSize: int, dial: seq<TurnBatch>, net: RlNet,
                       updates0: nat, loss0: real, cnt0: nat,
                       t: nat, calls: seq<RlCall>, updates: nat, loss: real, cnt: nat,
                       call: RlCall)
    requires t < |dial|
    requires RlProgress(v, vocabSize, dial, net, updates0, loss0, cnt0, t, calls, updates, loss, cnt)
    requires call == RlCallAt(v, vocabSize, dial, net, t, updates)
    ensures RlProgress(v, vocabSize, dial, net, updates0, loss0, cnt0, t + 1, calls + [call],
                       updates + StepsOf(call.loss), loss + LossOf(call.loss), cnt + StepsOf(call.loss))
  {
    SteppedStep(calls, call);
    if call.loss.Some? {
      SumStep(Stepped(calls), call.loss.value);
    }
  }

  /** One pass of the turn loop of `reinforce_tune`: backpropagation, the
      optimizer step and the sums happen only when the turn gave a loss. */
  method RlStep(v: Vocab, vocabSize: int, dial: seq<TurnBatch>, net: RlNet,
                updates0: nat, loss0: real, cnt0: nat,
                t: nat, calls: seq<RlCall>, updates: nat, loss: real, cnt: nat,
                prevZ: Option<array<array<int>>>)
      returns (calls': seq<RlCall>, updates': nat, loss': real, cnt': nat, next: array<array<int>>)
    requires Reserved(v, vocabSize) && t < |dial|
    requires RlProgress(v, vocabSize, dial, net, updates0, loss0, cnt0, t, calls, updates, loss, cnt)
    requires t == 0 ==> prevZ.None?
    requires t > 0 ==> prevZ.Some? && Contents(prevZ.value) == dial[t - 1].bspan
    modifies Outer(prevZ), Items(prevZ)
    ensures RlProgress(v, vocabSize, dial, net, updates0, loss0, cnt0, t + 1, calls', updates', loss', cnt')
    ensures calls'[..|calls|] == calls && |calls'| == |calls| + 1
    ensures calls'[|calls|].loss.None? ==> updates' == updates && loss' == loss && cnt' == cnt
    ensures fresh(next) && (forall k :: 0 <= k < next.Length ==> fresh(next[k])) && Contents(next) == dial[t].bspan
  {
    var call;
    call, next := RlTurn(v, vocabSize, dial, net, t, updates, prevZ);
    RlProgressStep(v, vocabSize, dial, net, updates0, loss0, cnt0, t, calls, updates, loss, cnt, call);
    updates', loss', cnt' := updates, loss, cnt;
    if call.loss.Some? {
      loss' := loss + call.loss.value;
      cnt' := cnt + 1;
      updates' := updates + 1;
    }
    calls' := calls + [call];
  }

  /** The turn loop of `reinforce_tune` over one dialogue batch: the loss
      sum, the count of turns that gave a loss and the optimizer steps change
      only on such turns. */
  method RlDialogue(v: Vocab, vocabSize: int, dial: seq<TurnBatch>, net: RlNet,
                    updates0: nat, loss0: real, cnt0: nat)
      returns (calls: seq<RlCall>, updates: nat, loss: real, cnt: nat)
    requires Reserved(v, vocabSize)
    ensures calls == RlRun(v, vocabSize, dial, net, updates0, |dial|)
    ensures cnt == cnt0 + |Stepped(calls)| && updates == updates0 + |Stepped(calls)|
    ensures loss == loss0 + Sum(Stepped(calls))
  {
    var prevZ: Option<array<array<int>>> := None;
    calls, updates, loss, cnt := [], updates0, loss0, cnt0;
    for t := 0 to |dial|
      invariant RlProgress(v, vocabSize, dial, net, updates0, loss0, cnt0, t, calls, updates, loss, cnt)
      invariant t == 0 ==> prevZ.None?
      invariant t > 0 ==> prevZ.Some? && Contents(prevZ.value) == dial[t - 1].bspan
      invariant t > 0 ==> fresh(prevZ.value) && forall k :: 0 <= k < prevZ.value.Length ==> fresh(prevZ.value[k])
    {
      var next;
      calls, updates, loss, cnt, next :=
        RlStep(v, vocabSize, dial, net, updates0, loss0, cnt0, t, calls, updates, loss, cnt, prevZ);
      prevZ := Some(next);
    }
  }
}

/** The epoch loops of `train` and `reinforce_tune`: resuming after the
    stored epoch, keeping the best validation loss, saving, counting down to
    an early stop and decaying the learning rate. The validation loss of
    each epoch is a parameter, since it comes from the network. */
module Schedule {
  import opened Options

  /** The configuration values the epoch loops read. */
  datatype Config = Config(lr: real, lrDecay: real, earlyStopCount: int, epochNum: int, rlEpochNum: int)

  /** The best loss an epoch loop starts from: `1 << 30`. */
  const InitialBest: real := 1073741824.0

  /** The early-stop state kept between epochs: the best validation loss so
      far, the countdown and the learning rate. */
  datatype EarlyStop = EarlyStop(best: real, count: int, lr: real)

  /** What one epoch's validation loss does to the early-stop state. */
  datatype Outcome = Outcome(next: EarlyStop, improved: bool, stop: bool)

  /** The early-stop state before the first epoch. */
  function Start(cfg: Config): EarlyStop
  {
    EarlyStop(InitialBest, cfg.earlyStopCount, cfg.lr)
  }

  function Min(a: real, b: real): real
  {
    if a <= b then a else b
  }

  /** The end of an epoch's loop body: a loss no worse than the best becomes
      the best; any other loss counts down once and decays the learning
      rate, and the loop stops when the countdown reaches zero. */
  function AfterEpoch(cfg: Config, s: EarlyStop, validLoss: real): (o: Outcome)
    ensures o.improved <==> validLoss <= s.best
    ensures o.next.best == Min(s.best, validLoss)
    ensures o.next.count == if o.improved then s.count else s.count - 1
    ensures o.next.lr == if o.improved then s.lr else s.lr * cfg.lrDecay
    ensures o.stop <==> !o.improved && o.next.count == 0
  {
    if validLoss <= s.best then Outcome(EarlyStop(validLoss, s.count, s.lr), true, false)
    else
      var count := s.count - 1;
      Outcome(EarlyStop(s.best, count, s.lr * cfg.lrDecay), false, count == 0)
  }

  /** Which of the two epoch loops: `train`, which saves every epoch and
      rebuilds its optimizer with the decayed rate, or `reinforce_tune`,
      which saves only on improvement and keeps its optimizer. */
  datatype Phase = Supervised | Reinforce

  /** One past the last epoch the loop may reach. */
  function End(cfg: Config, phase: Phase, base: int): int
  {
    if phase == Supervised then cfg.epochNum else base + cfg.rlEpochNum + 1
  }

  /** The first epoch that is not skipped. */
  function First(base: int): nat
  {
    if base + 1 < 0 then 0 else base + 1
  }

  /** Where an epoch loop stands: the early-stop state, the learning rate of
      the optimizer in use, the epochs saved in order, the epochs run, and
      whether it stopped early. */
  datatype Epochs = Epochs(state: EarlyStop, optimLr: real, saves: seq<int>, ran: seq<int>, stopped: bool)

  /** The saves epoch `e` makes: `train` saves every epoch, and both loops
      save again when the epoch improved on the best loss. */
  function SavedAt(phase: Phase, e: int, improved: bool): seq<int>
  {
    (if phase == Supervised then [e] else []) + (if improved then [e] else [])
  }

  /** Epoch `e` run with validation loss `validLoss`: `train` saves first,
      both loops save again on improvement, and `train` rebuilds its
      optimizer with the decayed rate when the loop goes on. */
  function Step(cfg: Config, phase: Phase, acc: Epochs, e: int, validLoss: real): Epochs
  {
    var o := AfterEpoch(cfg, acc.state, validLoss);
    var saves := acc.saves + SavedAt(phase, e, o.improved);
    var optimLr := if phase == Supervised && !o.improved && !o.stop then o.next.lr else acc.optimLr;
    Epochs(o.next, optimLr, saves, acc.ran + [e], o.stop)
  }

  /** One epoch loop: its configuration and phase, the epoch it resumes
      after, each epoch's validation loss, and the learning rate of the
      optimizer and the saves it starts from. */
  datatype Loop = Loop(cfg: Config, phase: Phase, base: int, loss: int -> real, optimLr0: real, saves0: seq<int>)
  {
    /** The first epoch run. */
    function Lo(): nat
    {
      First(base)
    }

    /** One past the last epoch the loop may reach. */
    function Hi(): int
    {
      End(cfg, phase, base)
    }
  }

  /** The epoch loop after the epochs below `k`: epochs up to `base` are
      skipped, and once an epoch has stopped the loop nothing more runs. */
  function EpochsUpTo(l: Loop, k: int): Epochs
    decreases k
  {
    if k <= 0 then Epochs(Start(l.cfg), l.optimLr0, l.saves0, [], false)
    else
      var prev := EpochsUpTo(l, k - 1);
      if prev.stopped || k - 1 <= l.base then prev else Step(l.cfg, l.phase, prev, k - 1, l.loss(k - 1))
  }

  /** A whole epoch loop: every epoch below `End`. */
  function Run(l: Loop): Epochs
  {
    EpochsUpTo(l, l.Hi())
  }

  /** The epochs from `lo` up to `hi`, excluded. */
  function Range(lo: int, hi: int): (r: seq<int>)
    ensures |r| == if hi <= lo then 0 else hi - lo
    decreases hi - lo
  {
    if hi <= lo then [] else Range(lo, hi - 1) + [hi - 1]
  }

  /** The best loss after the epochs from `lo` up to `hi`, excluded. */
  function Best(loss: int -> real, lo: int, hi: int): real
    decreases hi - lo
  {
    if hi <= lo then InitialBest else Min(Best(loss, lo, hi - 1), loss(hi - 1))
  }

  /** Whether epoch `e`, run after the epochs from `lo`, brought no
      improvement. */
  predicate Missed(loss: int -> real, lo: int, e: int)
  {
    loss(e) > Best(loss, lo, e)
  }

  /** How many of the epochs from `lo` up to `hi` brought no improvement. */
  function Misses(loss: int -> real, lo: int, hi: int): nat
    decreases hi - lo
  {
    if hi <= lo then 0 else Misses(loss, lo, hi - 1) + (if Missed(loss, lo, hi - 1) then 1 else 0)
  }

  /** The saves made before the epochs from `lo` up to `hi`, followed by
      the saves those epochs make, in order. */
  function SavesAfter(saves0: seq<int>, phase: Phase, loss: int -> real, lo: int, hi: int): seq<int>
    decreases hi - lo
  {
    if hi <= lo then saves0 else SavesAfter(saves0, phase, loss, lo, hi - 1) + SavedAt(phase, hi - 1, !Missed(loss, lo, hi - 1))
  }

  /** The learning rate `lr` decayed `n` times by `decay`. */
  function LrAfter(lr: real, decay: real, n: nat): real
  {
    if n == 0 then lr else LrAfter(lr, decay, n - 1) * decay
  }

  /** The learning rate of the optimizer in use after `m` non-improving
      epochs, none of which stopped the loop. */
  function OptimLr(cfg: Config, phase: Phase, optimLr0: real, m: nat): real
  {
    if phase == Reinforce || m == 0 then optimLr0 else LrAfter(cfg.lr, cfg.lrDecay, m)
  }

  /** A loop's state after `m` non-improving epochs with best loss `best`,
      the saves `saves` and the epochs `ran`: the optimizer is the one in use
      after those epochs, or, when the last of them stopped the loop, the
      one before it. */
  function Account(cfg: Config, phase: Phase, optimLr0: real, best: real, m: nat, saves: seq<int>, ran: seq<int>,
                   stopped: bool): Epochs
  {
    var optimLr := OptimLr(cfg, phase, optimLr0, if stopped && m > 0 then m - 1 else m);
    Epochs(EarlyStop(best, cfg.earlyStopCount - m, LrAfter(cfg.lr, cfg.lrDecay, m)), optimLr, saves, ran, stopped)
  }

  /** The state the epochs from `l.Lo()` up to `hi` account for. */
  function Accounted(l: Loop, hi: int, stopped: bool): Epochs
  {
    Account(l.cfg, l.phase, l.optimLr0, Best(l.loss, l.Lo(), hi), Misses(l.loss, l.Lo(), hi),
            SavesAfter(l.saves0, l.phase, l.loss, l.Lo(), hi), Range(l.Lo(), hi), stopped)
  }

  /** The two facts about a loop the proofs carry from epoch to epoch. */
  datatype Fact = Running | Ended

  /** What holds of an epoch loop after the epochs below `k`: while it runs,
      everything follows from the epochs run and the countdown has not
      reached zero; once it has ended, it either stopped at epoch `k - 1`,
      which brought no improvement and brought the countdown to zero, or it
      ran every epoch not skipped. */
  ghost predicate Means(f: Fact, l: Loop, k: int, r: Epochs)
  {
    match f
    case Running =>
      && 0 <= k && (k <= l.Hi() || k == 0)
      && r == Accounted(l, k, false)
      && (l.cfg.earlyStopCount > 0 ==> Misses(l.loss, l.Lo(), k) < l.cfg.earlyStopCount)
    case Ended =>
      && r == Accounted(l, k, r.stopped)
      && (r.stopped ==> && l.Lo() < k <= l.Hi() && Missed(l.loss, l.Lo(), k - 1) && r.state.count == 0)
      && (!r.stopped ==> k == (if l.Hi() <= l.Lo() then l.Lo() else l.Hi()))
  }

  /** A stand-in for `Means` whose definition is used only where a proof
      asks for it, so that the proofs about the loop stay small. */
  type Judge = (Fact, Loop, int, Epochs) -> bool

  ghost predicate JudgesAt(j: Judge, f: Fact, l: Loop, k: int, r: Epochs)
  {
    j(f, l, k, r) == Means(f, l, k, r)
  }

  ghost predicate Sound(j: Judge)
  {
    forall f, l, k, r {:trigger JudgesAt(j, f, l, k, r)} :: JudgesAt(j, f, l, k, r)
  }

  lemma SoundExists()
    ensures exists j :: Sound(j)
  {
    var j: Judge := (f, l, k, r) => Means(f, l, k, r);
    assert Sound(j);
  }

  ghost function TheJudge(): (j: Judge)
    ensures Sound(j)
  {
    SoundExists();
    var j :| Sound(j); j
  }

  /** `Means(f, l, k, r)`, unfolded only through `Unfold`. */
  ghost predicate Holds(f: Fact, l: Loop, k: int, r: Epochs)
  {
    TheJudge()(f, l, k, r)
  }

  lemma Unfold(f: Fact, l: Loop, k: int, r: Epochs)
    ensures Holds(f, l, k, r) == Means(f, l, k, r)
  {
    assert JudgesAt(TheJudge(), f, l, k, r);
  }

  /** Where an epoch loop stands after the epochs below `k`: running, or
      ended once it has stopped. */
  ghost predicate Reached(l: Loop, k: int, r: Epochs)
  {
    && (!r.stopped ==> Holds(Running, l, k, r))
    && (r.stopped ==> Holds(Ended, l, l.Lo() + |r.ran|, r))
  }

  /** Epoch `e` run from an early-stop state that counts `m` non-improving
      epochs and holds the best loss `best`. */
  lemma StepOnState(cfg: Config, phase: Phase, optimLr0: real, best: real, m: nat, saves: seq<int>, ran: seq<int>,
                    e: int, validLoss: real)
    requires cfg.earlyStopCount > 0 ==> m < cfg.earlyStopCount
    ensures var n := Step(cfg, phase, Account(cfg, phase, optimLr0, best, m, saves, ran, false), e, validLoss);
      var m' := m + (if validLoss > best then 1 else 0);
      && n == Account(cfg, phase, optimLr0, Min(best, validLoss), m', saves + SavedAt(phase, e, validLoss <= best),
                      ran + [e], n.stopped)
      && (n.stopped <==> validLoss > best && m' == cfg.earlyStopCount)
      && (!n.stopped ==> cfg.earlyStopCount > 0 ==> m' < cfg.earlyStopCount)
  {
  }

  /** The epochs from `lo` up to `e + 1` are those up to `e` and then `e`. */
  lemma OneMore(l: Loop, e: int, stopped: bool)
    requires l.Lo() <= e
    ensures var lo := l.Lo();
      Accounted(l, e + 1, stopped)
      == Account(l.cfg, l.phase, l.optimLr0, Min(Best(l.loss, lo, e), l.loss(e)),
                 Misses(l.loss, lo, e) + (if l.loss(e) > Best(l.loss, lo, e) then 1 else 0),
                 SavesAfter(l.saves0, l.phase, l.loss, lo, e) + SavedAt(l.phase, e, l.loss(e) <= Best(l.loss, lo, e)),
                 Range(lo, e) + [e], stopped)
  {
  }

  /** Epoch `e`, not skipped, run from a running loop: the result accounts
      for the epochs up to `e + 1`. */
  lemma EpochAccounted(l: Loop, e: int, acc: Epochs)
    requires acc == Accounted(l, e, false)
    requires l.cfg.earlyStopCount > 0 ==> Misses(l.loss, l.Lo(), e) < l.cfg.earlyStopCount
    requires 0 <= e && l.base < e
    ensures var n := Step(l.cfg, l.phase, acc, e, l.loss(e));
      && n == Accounted(l, e + 1, n.stopped)
      && (n.stopped <==> Missed(l.loss, l.Lo(), e) && n.state.count == 0)
      && (!n.stopped ==> l.cfg.earlyStopCount > 0 ==> Misses(l.loss, l.Lo(), e + 1) < l.cfg.earlyStopCount)
  {
    var lo := l.Lo();
    StepOnState(l.cfg, l.phase, l.optimLr0, Best(l.loss, lo, e), Misses(l.loss, lo, e),
                SavesAfter(l.saves0, l.phase, l.loss, lo, e), Range(lo, e), e, l.loss(e));
    OneMore(l, e, Step(l.cfg, l.phase, acc, e, l.loss(e)).stopped);
  }

  /** One more epoch keeps a loop running or ends it. */
  lemma ReachedStep(l: Loop, k: int)
    requires 0 < k && k <= l.Hi()
    requires Reached(l, k - 1, EpochsUpTo(l, k - 1))
    ensures Reached(l, k, EpochsUpTo(l, k))
  {
    var prev := EpochsUpTo(l, k - 1);
    if !prev.stopped {
      Unfold(Running, l, k - 1, prev);
      var r := EpochsUpTo(l, k);
      if k - 1 <= l.base {
        assert Range(l.Lo(), k) == Range(l.Lo(), k - 1);
        Unfold(Running, l, k, r);
      } else {
        EpochAccounted(l, k - 1, prev);
        if r.stopped {
          Unfold(Ended, l, l.Lo() + |r.ran|, r);
        } else {
          Unfold(Running, l, k, r);
        }
      }
    }
  }

  /** Every prefix of the epoch loop is running or has ended. */
  lemma {:induction false} EpochsUpToMeaning(l: Loop, k: int)
    requires 0 <= k && (k <= l.Hi() || k == 0)
    ensures Reached(l, k, EpochsUpTo(l, k))
  {
    if k == 0 {
      Unfold(Running, l, 0, EpochsUpTo(l, 0));
    } else {
      EpochsUpToMeaning(l, k - 1);
      ReachedStep(l, k);
    }
  }

  /** Once an epoch has stopped the loop, later epochs change nothing. */
  lemma {:induction false} StoppedStays(l: Loop, k: int, k': int)
    requires k <= k'
    requires EpochsUpTo(l, k).stopped
    ensures EpochsUpTo(l, k') == EpochsUpTo(l, k)
    decreases k' - k
  {
    if k < k' {
      StoppedStays(l, k, k' - 1);
    }
  }

  /** The whole loop is the loop after its last epoch. */
  lemma RunAt(l: Loop, k: int)
    requires 0 <= k && (k <= l.Hi() || k == 0) && k >= l.Hi()
    ensures Run(l) == EpochsUpTo(l, k)
  {
  }

  /** A whole epoch loop: the best loss is the smallest validation loss of
      the epochs run (or `1 << 30`), the countdown has dropped once per epoch
      that brought no improvement and the learning rate has decayed as
      often, and the saves are those of the epochs run. The loop stops early
      exactly when an epoch brought no improvement and the countdown reached
      zero, and otherwise runs every epoch after `base`. */
  lemma RunMeaning(l: Loop)
    ensures var r := Run(l);
      var hi := l.Lo() + |r.ran|;
      var m := Misses(l.loss, l.Lo(), hi);
      && r.ran == Range(l.Lo(), hi)
      && r.state == EarlyStop(Best(l.loss, l.Lo(), hi), l.cfg.earlyStopCount - m, LrAfter(l.cfg.lr, l.cfg.lrDecay, m))
      && r.saves == SavesAfter(l.saves0, l.phase, l.loss, l.Lo(), hi)
      && (r.stopped ==> && l.Lo() < hi <= l.Hi() && Missed(l.loss, l.Lo(), hi - 1) && r.state.count == 0
                        && m >= 1 && r.optimLr == OptimLr(l.cfg, l.phase, l.optimLr0, m - 1))
      && (!r.stopped ==> r.ran == Range(l.Lo(), l.Hi()) && r.optimLr == OptimLr(l.cfg, l.phase, l.optimLr0, m))
      && (!r.stopped && l.cfg.earlyStopCount > 0 ==> m < l.cfg.earlyStopCount)
  {
    var k := if l.Hi() < 0 then 0 else l.Hi();
    EpochsUpToMeaning(l, k);
    var r := EpochsUpTo(l, k);
    assert r == Run(l);
    if r.stopped {
      Unfold(Ended, l, l.Lo() + |r.ran|, r);
    } else {
      Unfold(Running, l, k, r);
    }
  }

  /** The best loss is never above the initial best nor above the loss of
      any epoch run, and it is one of them. */
  lemma {:induction false} BestIsSmallest(loss: int -> real, lo: int, hi: int)
    ensures Best(loss, lo, hi) <= InitialBest
    ensures forall e :: lo <= e < hi ==> Best(loss, lo, hi) <= loss(e)
    ensures Best(loss, lo, hi) == InitialBest || exists e :: lo <= e < hi && Best(loss, lo, hi) == loss(e)
    decreases hi - lo
  {
    if lo < hi {
      BestIsSmallest(loss, lo, hi - 1);
    }
  }

  /** With a countdown that starts at zero or below, the loop never stops
      early: the countdown only goes further below zero. */
  lemma NoCountdownNoStop(l: Loop)
    requires l.cfg.earlyStopCount <= 0
    ensures !Run(l).stopped && Run(l).ran == Range(l.Lo(), l.Hi())
  {
    RunMeaning(l);
  }

  /** `reinforce_tune` runs at most `rl_epoch_num` epochs, whatever epoch it
      resumes from, all after `base`, and its optimizer keeps the learning
      rate it started with. */
  lemma ReinforceBound(cfg: Config, base: int, loss: int -> real, saves0: seq<int>)
    requires base >= -1
    ensures var r := Run(Loop(cfg, Reinforce, base, loss, cfg.lr, saves0));
      && |r.ran| <= (if cfg.rlEpochNum < 0 then 0 else cfg.rlEpochNum)
      && (forall i :: 0 <= i < |r.ran| ==> base < r.ran[i] <= base + cfg.rlEpochNum)
      && r.optimLr == cfg.lr
  {
    var l := Loop(cfg, Reinforce, base, loss, cfg.lr, saves0);
    RunMeaning(l);
    RangeBounds(l.Lo(), l.Lo() + |Run(l).ran|);
  }

  /** Every epoch in `Range(lo, hi)` lies between the two. */
  lemma {:induction false} RangeBounds(lo: int, hi: int)
    ensures forall i :: 0 <= i < |Range(lo, hi)| ==> lo <= Range(lo, hi)[i] < hi
    decreases hi - lo
  {
    if lo < hi {
      RangeBounds(lo, hi - 1);
      var r := Range(lo, hi);
      forall i | 0 <= i < |r| ensures lo <= r[i] < hi {
        if i < |r| - 1 {
          assert r[i] == Range(lo, hi - 1)[i];
        }
      }
    }
  }

  /** The example of a countdown of 2: losses 3, 4, 5 over three epochs
      from scratch keep 3 as the best, count down at the second and third
      epoch and stop after the third, with the learning rate decayed twice;
      `train` has saved epoch 0 twice and epochs 1 and 2 once, and runs its
      optimizer at the once-decayed rate. */
  lemma TwoMissesStop(lr: real, decay: real)
    ensures var l := Loop(Config(lr, decay, 2, 10, 10), Supervised, -1, (e: int) => 3.0 + e as real, lr, []);
      var r := Run(l);
      && r.stopped && r.ran == [0, 1, 2] && r.saves == [0, 0, 1, 2]
      && r.state == EarlyStop(3.0, 0, lr * decay * decay) && r.optimLr == lr * decay
  {
    var l := Loop(Config(lr, decay, 2, 10, 10), Supervised, -1, (e: int) => 3.0 + e as real, lr, []);
    var a1 := Epochs(EarlyStop(3.0, 2, lr), lr, [0, 0], [0], false);
    var a2 := Epochs(EarlyStop(3.0, 1, lr * decay), lr * decay, [0, 0, 1], [0, 1], false);
    var a3 := Epochs(EarlyStop(3.0, 0, lr * decay * decay), lr * decay, [0, 0, 1, 2], [0, 1, 2], true);
    assert l.loss(0) == 3.0 && l.loss(1) == 4.0 && l.loss(2) == 5.0;
    assert EpochsUpTo(l, 1) == a1 by {
      assert SavedAt(Supervised, 0, true) == [0, 0];
    }
    assert EpochsUpTo(l, 2) == a2 by {
      assert SavedAt(Supervised, 1, false) == [1];
    }
    assert EpochsUpTo(l, 3) == a3 by {
      assert SavedAt(Supervised, 2, false) == [2];
    }
    StoppedStays(l, 3, 10);
  }

  /** The trainer's state across epoch loops: the epoch training resumes
      after, the learning rate of its optimizer, and the epochs it saved. */
  class Trainer {
    var baseEpoch: int
    var optimLr: real
    var saves: seq<int>

    /** A new trainer has an optimizer at the configured rate and resumes
        from no epoch. */
    constructor(cfg: Config)
      ensures baseEpoch == -1 && optimLr == cfg.lr && saves == []
    {
      baseEpoch := -1;
      optimLr := cfg.lr;
      saves := [];
    }

    /** Loading a checkpoint resumes after its stored epoch, or after epoch
        0 when it stores none. */
    method LoadModel(stored: Option<int>)
      modifies this
      ensures baseEpoch == stored.GetOr(0)
      ensures optimLr == old(optimLr) && saves == old(saves)
    {
      baseEpoch := stored.GetOr(0);
    }

    /** Saving a checkpoint of epoch `epoch`. */
    method SaveModel(epoch: int)
      modifies this
      ensures saves == old(saves) + [epoch]
      ensures baseEpoch == old(baseEpoch) && optimLr == old(optimLr)
    {
      saves := saves + [epoch];
    }

    /** The epoch loop of `train`, given each epoch's validation loss. */
    method Train(cfg: Config, loss: int -> real) returns (final: EarlyStop, ran: seq<int>, stopped: bool)
      modifies this
      ensures var r := Run(Loop(cfg, Supervised, baseEpoch, loss, old(optimLr), old(saves)));
        && baseEpoch == old(baseEpoch) && optimLr == r.optimLr && saves == r.saves
        && final == r.state && ran == r.ran && stopped == r.stopped
    {
      ghost var l := Loop(cfg, Supervised, baseEpoch, loss, optimLr, saves);
      var lr := cfg.lr;
      var prevMinLoss, earlyStopCount := InitialBest, cfg.earlyStopCount;
      ran, stopped := [], false;
      var epoch := 0;
      while epoch < cfg.epochNum
        invariant baseEpoch == old(baseEpoch) && !stopped
        invariant 0 <= epoch && (epoch <= cfg.epochNum || epoch == 0)
        invariant Epochs(EarlyStop(prevMinLoss, earlyStopCount, lr), optimLr, saves, ran, false)
                  == EpochsUpTo(l, epoch)
        decreases cfg.epochNum - epoch
      {
        if epoch > baseEpoch {
          ghost var next := Step(cfg, Supervised, Epochs(EarlyStop(prevMinLoss, earlyStopCount, lr), optimLr, saves, ran, false),
                                 epoch, loss(epoch));
          var validLoss := loss(epoch);
          SaveModel(epoch);
          if validLoss <= prevMinLoss {
            SaveModel(epoch);
            prevMinLoss := validLoss;
          } else {
            earlyStopCount := earlyStopCount - 1;
            lr := lr * cfg.lrDecay;
            if earlyStopCount == 0 {
              ran, stopped := ran + [epoch], true;
              assert next == Epochs(EarlyStop(prevMinLoss, earlyStopCount, lr), optimLr, saves, ran, true);
              StoppedStays(l, epoch + 1, l.Hi());
              break;
            }
            optimLr := lr;
          }
          ran := ran + [epoch];
          assert next == Epochs(EarlyStop(prevMinLoss, earlyStopCount, lr), optimLr, saves, ran, false);
        }
        epoch := epoch + 1;
      }
      final := EarlyStop(prevMinLoss, earlyStopCount, lr);
      if !stopped {
        RunAt(l, epoch);
      }
    }

    /** The epoch loop of `reinforce_tune`, given each epoch's validation
        loss: a new optimizer at the configured rate, kept to the end. */
    method ReinforceTune(cfg: Config, loss: int -> real) returns (final: EarlyStop, ran: seq<int>, stopped: bool)
      modifies this
      ensures var r := Run(Loop(cfg, Reinforce, baseEpoch, loss, cfg.lr, old(saves)));
        && baseEpoch == old(baseEpoch) && optimLr == r.optimLr && saves == r.saves
        && final == r.state && ran == r.ran && stopped == r.stopped
    {
      ghost var l := Loop(cfg, Reinforce, baseEpoch, loss, cfg.lr, saves);
      var lr := cfg.lr;
      optimLr := cfg.lr;
      var prevMinLoss, earlyStopCount := InitialBest, cfg.earlyStopCount;
      ran, stopped := [], false;
      var epoch := 0;
      while epoch < baseEpoch + cfg.rlEpochNum + 1
        invariant baseEpoch == old(baseEpoch) && !stopped
        invariant 0 <= epoch && (epoch <= baseEpoch + cfg.rlEpochNum + 1 || epoch == 0)
        invariant Epochs(EarlyStop(prevMinLoss, earlyStopCount, lr), optimLr, saves, ran, false)
                  == EpochsUpTo(l, epoch)
        decreases baseEpoch + cfg.rlEpochNum + 1 - epoch
      {
        if epoch > baseEpoch {
          ghost var next := Step(cfg, Reinforce, Epochs(EarlyStop(prevMinLoss, earlyStopCount, lr), optimLr, saves, ran, false),
                                 epoch, loss(epoch));
          var validLoss := loss(epoch);
          if validLoss <= prevMinLoss {
            SaveModel(epoch);
            prevMinLoss := validLoss;
          } else {
            earlyStopCount := earlyStopCount - 1;
            lr := lr * cfg.lrDecay;
            if earlyStopCount == 0 {
              ran, stopped := ran + [epoch], true;
              assert next == Epochs(EarlyStop(prevMinLoss, earlyStopCount, lr), optimLr, saves, ran, true);
              StoppedStays(l, epoch + 1, l.Hi());
              break;
            }
          }
          ran := ran + [epoch];
          assert next == Epochs(EarlyStop(prevMinLoss, earlyStopCount, lr), optimLr, saves, ran, false);
        }
        epoch := epoch + 1;
      }
      final := EarlyStop(prevMinLoss, earlyStopCount, lr);
      if !stopped {
        RunAt(l, epoch);
      }
    }
  }
}

# Dialogue-state trainer control loop, modelled in Dafny

This project models the control logic of `Model` in `model.py`, a trainer for
a belief-span dialogue model. The neural network itself is not modelled. The
model covers:

- **Turn conversion (`_convert_batch`).**
  - Four previous-span streams are modelled: belief span, constraint, user act and system act.
  - A missing stream gets a default span. The default is repeated once per dialogue, and all copies share one list.
  - Each span is cut just after its stream's first terminator: `EOS_Z2`, `EOS_Z1`, `EOS_Z2` and `<split>` respectively.
  - On the belief-span stream only, every id at or above the vocabulary size becomes the unknown id 2.
  - The length of every cut span is reported.
  - The cut and the remap are done in place on the caller's lists. This is modelled over `array<array<int>>`, including lists shared between dialogues.
- **Per-turn threading** in `train`, `validate`, `eval` and `reinforce_tune`.
  - What each turn converts: the belief-span context (ground truth, or the network's decode in `eval`) and which other streams are passed.
  - The turn states each turn receives.
  - How many optimizer steps precede each turn.
  - Whether the backward pass keeps the graph.
  - The loss sums and turn counts of `validate` and `reinforce_tune`.
- **The reinforcement gate.** A turn without a loss has no backward pass, no optimizer step and no effect on the sums.
- **The epoch state machine** of `train` and `reinforce_tune`.
  - Resuming after `base_epoch`.
  - The best validation loss, starting from `1 << 30`.
  - The early-stop countdown and learning-rate decay.
  - The optimizer rebuilt at the decayed rate, in `train` only.
  - Checkpoint saves. `train` saves every epoch and again on improvement; `reinforce_tune` saves only on improvement.
  - `load_model` restoring the resume epoch, with 0 when the checkpoint stores none.

The network is a parameter: a function of the optimizer steps taken so far,
the converted turn and the turn states. In `eval` and `reinforce_tune` it also
receives the turn's dialogue ids (`dial_id`). Each epoch's validation loss is a
parameter of the epoch loops.

Modules:

- `Spans`: the cut and unk rules on one span.
- `BatchEncoder`: the conversion in place, and `Encode`, its value-level specification.
- `TurnCommon`: what the four turn loops share.
- `TrainLoop`, `ValidLoop`, `EvalLoop` and `RlLoop`: the four turn loops.
- `Schedule`: the epoch loops and the `Trainer` class.

Each turn loop is a method proved against a ghost function (`TrainRun`,
`ValidRun`, `EvalRun`, `RlRun`). That function builds the run turn by turn.
The `...RunTurn` lemmas then state what every turn of the run receives.

The epoch loops are methods of `Trainer`, proved against `Schedule.Run`.
`RunMeaning` states what `Run` computes in terms of the validation losses alone.

What the code does that a reader may not expect:

- `train` saves a checkpoint every epoch (line 240), and a second time when the epoch improved on the best loss (line 243).
- In greedy mode, `eval` feeds back `z1_idx` (line 293), not `z_idx`. The `z1` input is the belief span (line 132).
- `reinforce_tune` decays its learning rate but never rebuilds its optimizer, so the decayed rate is never used.
- After a turn, only the belief-span stream is replaced.
  - In `train`, the other three streams stay the lists defaulted at the first turn of the dialogue batch.
  - In `validate`, `eval` and `reinforce_tune`, the other three streams are never passed.
- The network's `z1` input is built from the belief span. The `user_tag` keyword entry is the user utterance (lines 132 and 154).
- An early-stop count of zero or less never stops the loop. The count only goes further negative, and `not early_stop_count` is never true.
- A non-finite loss is not detected anywhere.

## Model

| member | source | states |
|---|---|---|
| Spans.IndexOf | model.py:71-72 | `list.index`: the result is a position holding the terminator, and no earlier position holds it |
| Spans.IndexOfIsFirst | model.py:71-72 | the first position holding the terminator is the one `list.index` returns |
| Spans.NeedsCut | model.py:71 | definition: the guard of the cut, the terminator occurs and its first occurrence is not the last element |
| Spans.NeedsCutMeaning | model.py:71 | the guard holds exactly when the terminator occurs before the span's last position |
| Spans.Truncate | model.py:69-93 | the cut span is a prefix of the original: the whole span when the terminator is absent, otherwise the span up to and including its first terminator, which is its last element |
| Spans.TruncateIdempotent | model.py:69-93 | cutting a span that is already cut changes nothing |
| Spans.UnkIfUnknown | model.py:75-76 | definition: the remap of one id, the unknown id 2 for an id at or above the vocabulary size, the id itself otherwise |
| Spans.UnkMap | model.py:74-76 | the remap keeps the length, keeps every id below the vocabulary size and replaces every other id with the unknown id |
| Spans.UnkMapIdempotent | model.py:74-76 | remapping twice is remapping once |
| Spans.UnkMapInVocabulary | model.py:74-76 | after the remap, every id is in the vocabulary or is the unknown id |
| Spans.UnkMapKeepsTerminator | model.py:69-76 | the remap neither adds, removes nor moves an in-vocabulary terminator other than the unknown id |
| Spans.BetweenNormalizesAlike | model.py:69-76 | a belief span partly remapped through a list it shares with an earlier dialogue is cut where the original is and ends identical to it |
| Spans.DefaultsAreNormal | model.py:52-61 | the four default spans are left unchanged by their stream's cut and, for the belief span, by the remap |
| Spans.NormalizeBelief | model.py:69-76 | definition: the belief-span rule, the cut after the first `EOS_Z2` followed by the unk remap |
| Spans.NormalizeBeliefMeaning | model.py:69-76 | the belief-span rule element by element: length at most the original's, exactly the original's without `EOS_Z2`, one past the first `EOS_Z2` otherwise; in-vocabulary ids kept and all others unknown |
| Spans.NormalizeBeliefIdempotent | model.py:69-76 | applying the belief-span rule to its own result changes nothing |
| BatchEncoder.Repeat | model.py:53 | `[span] * n`: `n` items, each equal to `span` |
| BatchEncoder.Lengths | model.py:98 | the reported lengths: one per span, each the length of that span (also lines 107, 114 and 121) |
| BatchEncoder.Encode | model.py:50-158 | definition, the reference every loop lemma uses: the four streams cut (belief span also remapped) with their lengths, and the current-turn fields taken from the batch |
| BatchEncoder.EncodeStreams | model.py:69-125 | every previous span the network receives is its stream's cut of the given span (belief span also remapped), one per dialogue, and each reported length is the length of the span as cut |
| BatchEncoder.EncodeCurrentTurn | model.py:127-155 | the current-turn inputs: `z` and `z1` from the belief span, `z2` from the user act, `z3` from the system act; the `constraint`, `user_tag` and `system` entries are the batch's constraint, user utterance and system act |
| BatchEncoder.EncodeIdempotent | model.py:69-93 | converting the previous spans the network received once more leaves all four streams and the belief lengths unchanged |
| BatchEncoder.EncodeDefaults | model.py:52-61 | with no previous span passed, the network receives `n` copies of each default span, `n` being the size of the matching batch field |
| BatchEncoder.DefaultsUncut | model.py:56-61 | the default constraint, user-act and system-act lists are left unchanged by their cut |
| BatchEncoder.Slice | model.py:73 | `list[:idx + 1]` is a new list holding the first `idx + 1` ids |
| BatchEncoder.DefaultSpans | model.py:53 | `[[...]] * n` is a new outer list whose `n` items are one shared list holding the default span |
| BatchEncoder.UnkInPlace | model.py:74-76 | the remap loop leaves the list it writes into equal to the remap of its old contents |
| BatchEncoder.TruncateStream | model.py:77-93 | every item ends cut; an item that needs the cut is rebound to a new list, and every other item keeps its list object |
| BatchEncoder.CutItem | model.py:71-73 | item `i` alone is rebound to its cut when the cut is needed, and is left as it was otherwise |
| BatchEncoder.NormalizeItem | model.py:69-76 | one pass of the belief-span loop keeps the loop's invariant for the next item: done items normalized, later items at most partly remapped, and the caller's lists that need the cut untouched |
| BatchEncoder.TruncateBeliefStream | model.py:69-76 | every belief-span item ends normalized, even when items share a list; an item that needs the cut is rebound to a new list and leaves the caller's list unchanged; any other item keeps its list, remapped in place |
| BatchEncoder.NormalizeBeliefList | model.py:69-76 | the belief-span list's contents become the belief-span rule applied item by item |
| BatchEncoder.TruncateList | model.py:77-93 | the list's contents become its stream's cut applied item by item |
| BatchEncoder.Resolve | model.py:52-61 | a passed stream is used as it is; a missing one becomes a new list of shared default lists |
| BatchEncoder.TruncateOthers | model.py:77-93 | the constraint, user-act and system-act streams are each cut at their own terminator without disturbing one another |
| BatchEncoder.ProcessResolved | model.py:69-93 | the four defaulted streams end normalized (belief span) or cut (the others), and their contents are what is returned |
| BatchEncoder.ResolveAll | model.py:52-61 | the four streams after defaulting: the caller's lists, or new default lists sized by the matching batch field, with no list shared between the belief span and another stream |
| BatchEncoder.PrepareStreams | model.py:50-93 | the four streams as the network receives them are the rules applied to the given or default spans, and the caller's lists end holding them |
| BatchEncoder.ConvertBatch | model.py:50-158 | the conversion in place equals `Encode` of the given or default spans; each caller's list ends holding the spans the network receives, and a belief-span list that needed the cut is left as it was |
| TurnCommon.FromSpans | model.py:229 | the next turn's belief-span context is a list of lists holding the turn's ground-truth belief span |
| TurnCommon.TeacherContext | model.py:181-182 | definition: the belief-span context of a teacher-forced turn, the default `[EOS_Z1, EOS_Z2]` per dialogue at the first turn and the previous turn's ground-truth belief span afterwards (line 229) |
| TurnCommon.FreshDefaultsEncodingIsEncode | model.py:52-61 | a conversion passed only the belief span defaults the other three streams from the current turn's batch |
| TurnCommon.ConvertAlone | model.py:325 | converting with only the belief span passed yields that conversion, and the passed list ends holding the span the network received |
| TrainLoop.TrainEncodingIsEncode | model.py:180-196 | a training turn converts the belief-span context with the other three streams at the defaults made at the first turn |
| TrainLoop.TrainRun | model.py:180-229 | the run of a dialogue batch has one call per turn |
| TrainLoop.TrainRunTurn | model.py:180-229 | turn `t` of `train` receives the previous turn's ground-truth belief span (the default at turn 0), the first-turn defaults for the other streams, and the turn states returned by the turn before (empty at turn 0); `t` optimizer steps precede it; the graph is kept for every turn but the last |
| TrainLoop.TrainConvert | model.py:181-196 | the first turn defaults all four streams, and later turns reuse the held lists; the conversion is the training turn's conversion |
| TrainLoop.TrainTurn | model.py:180-229 | one training turn is that turn's call of the run, and it leaves the turn's ground truth and the three default lists held for the next turn |
| TrainLoop.TrainStep | model.py:180-229 | one pass of the turn loop extends the calls made by the run's next call and moves the turn states on |
| TrainLoop.TrainDialogue | model.py:174-229 | the turn loop of `train` over a dialogue batch makes exactly the calls of the run |
| ValidLoop.ValidRun | model.py:316-337 | the run of a dialogue batch has one call per turn |
| ValidLoop.ValidRunTurn | model.py:319-337 | turn `t` of `validate` receives the previous ground-truth belief span (the default at turn 0), the other streams defaulted from the current batch, and the turn states returned by the turn before |
| ValidLoop.ValidLossStep | model.py:333 | each validation turn adds its loss to the sum |
| ValidLoop.ValidTurn | model.py:319-337 | one validation turn is that turn's call of the run, and it holds the turn's ground truth for the next turn |
| ValidLoop.ValidProgressStep | model.py:333-334 | a turn adds its loss to the sum and one to the count |
| ValidLoop.ValidStep | model.py:319-337 | one pass of the turn loop keeps calls, states, loss sum and count in step with the run |
| ValidLoop.ValidDialogue | model.py:316-337 | the turn loop of `validate` makes the calls of the run, adds their losses to the sum and adds one per turn to the count |
| EvalLoop.ModeFor | model.py:259 | the decoding mode is `pretrain_test` exactly when pretraining |
| EvalLoop.EvalNext | model.py:298-305 | definition: the next turn's context, the turn's ground-truth belief span when evaluating with ground truth and the decoded `z1_idx` otherwise |
| EvalLoop.EvalRun | model.py:260-305 | the run of a dialogue batch has one call per turn |
| EvalLoop.EvalFirstTurn | model.py:261-275 | the first turn of `eval` defaults every previous span, starts from empty turn states, and hands no previous span to the result writer |
| EvalLoop.EvalRunTurn | model.py:266-305 | a later turn of `eval` receives the previous turn's ground-truth belief span in ground-truth mode, and otherwise the previous turn's decoded `z1_idx`, plus the turn states that turn returned and the turn's dialogue ids; the result writer receives that context as converted |
| EvalLoop.EvalTurn | model.py:266-305 | one evaluation turn is that turn's call of the run, and it holds the context the mode picks for the next turn |
| EvalLoop.EvalStep | model.py:266-305 | one pass of the turn loop extends the calls made by the run's next call and moves the states and context on |
| EvalLoop.EvalDialogue | model.py:259-305 | the turn loop of `eval` over a dialogue batch makes exactly the calls of the run, in the mode `cfg.pretrain` selects |
| RlLoop.RlRun | model.py:357-386 | the run of a dialogue batch has one call per turn |
| RlLoop.RlRunTurn | model.py:363-386 | turn `t` of `reinforce_tune` receives the previous ground-truth belief span, the other streams defaulted from the current batch, the turn's dialogue ids and the empty turn states of the batch; it is preceded by the steps before the turn before, plus one only if that turn gave a loss |
| RlLoop.Stepped | model.py:377-383 | at most one backpropagated loss per turn |
| RlLoop.SteppedStep | model.py:377-383 | a turn without a loss is not backpropagated; a turn with one adds exactly its loss |
| RlLoop.SumStep | model.py:382 | adding a loss to the epoch sum |
| RlLoop.RlTurn | model.py:364-386 | one reinforcement turn is that turn's call of the run, and the turn's ground truth is held for the next turn whatever the loss |
| RlLoop.RlProgressStep | model.py:377-383 | a turn with a loss adds it to the sum and one to both the count and the optimizer steps; a turn without one adds nothing |
| RlLoop.RlStep | model.py:363-386 | one pass of the turn loop: when the network gives no loss, the sum, the count and the optimizer steps are unchanged |
| RlLoop.RlDialogue | model.py:357-386 | the turn loop of `reinforce_tune` makes the calls of the run; the loss sum, the count and the optimizer steps grow by exactly the losses given, and only by them |
| Schedule.AfterEpoch | model.py:242-249 | an epoch improves exactly when its loss is no worse than the best; the best becomes the smaller of the two; a miss counts down once and decays the rate once; the loop stops exactly on a miss that brings the count to zero |
| Schedule.SavedAt | model.py:240-243 | definition: the saves an epoch makes, one unconditional save in `train` and one more on improvement in both loops (line 398) |
| Schedule.Step | model.py:240-252 | definition: one epoch run, the early-stop update, its saves, the epoch recorded, and `train`'s optimizer rebuilt at the decayed rate when the loop goes on |
| Schedule.EpochsUpTo | model.py:164-167 | definition: the loop after the epochs below `k`, skipping epochs up to `base_epoch` and running nothing after an early stop |
| Schedule.Run | model.py:350-353 | definition: the whole loop, every epoch below `epoch_num` for `train` and below `base_epoch + rl_epoch_num + 1` for `reinforce_tune` |
| Schedule.StepOnState | model.py:240-251 | an epoch run from a loop that has seen `m` misses leaves a loop that has seen one more exactly when the epoch missed, with the saves of that epoch appended |
| Schedule.EpochAccounted | model.py:236-251 | an epoch run from a loop that accounts for the epochs before it accounts for one epoch more, and stops exactly on a miss that brings the count to zero |
| Schedule.ReachedStep | model.py:164-252 | one more epoch keeps the loop running or ends it as stopped |
| Schedule.EpochsUpToMeaning | model.py:164-252 | after any prefix of the epochs, the loop is running or stopped as described by the losses alone |
| Schedule.StoppedStays | model.py:248-249 | once an epoch has stopped the loop, later epochs change nothing |
| Schedule.RunMeaning | model.py:161-252 | after the loop: the epochs run are consecutive from `base_epoch + 1`; the best is the least of their losses; the countdown dropped and the rate decayed once per miss; the saves are those of the epochs run; the loop stopped early exactly when a miss brought the count to zero, and otherwise ran every epoch |
| Schedule.BestIsSmallest | model.py:242-244 | the best loss is at most `1 << 30` and at most each loss run, and is `1 << 30` or one of those losses |
| Schedule.NoCountdownNoStop | model.py:246-249 | with an early-stop count of zero or less, the loop never stops early and runs every epoch |
| Schedule.ReinforceBound | model.py:346-353 | `reinforce_tune` runs at most `rl_epoch_num` epochs, all in `base_epoch + 1 .. base_epoch + rl_epoch_num`, and its optimizer keeps the configured rate |
| Schedule.TwoMissesStop | model.py:240-251 | with a count of 2 and losses 3, 4, 5: the best stays 3, the loop stops after the third epoch with the rate decayed twice, `train` has saved epochs 0, 0, 1, 2 and uses the once-decayed rate |
| Schedule.Trainer.constructor | model.py:47-48 | a new trainer has an optimizer at the configured rate and resumes after epoch -1 |
| Schedule.Trainer.LoadModel | model.py:417-422 | loading resumes after the stored epoch, or after epoch 0 when none is stored, and changes nothing else |
| Schedule.Trainer.SaveModel | model.py:407-415 | saving records the epoch and changes nothing else |
| Schedule.Trainer.Train | model.py:160-252 | the epoch loop of `train` ends in `Run` of its loop: the final early-stop state, the epochs run, whether it stopped, the saves and the optimizer's rate |
| Schedule.Trainer.ReinforceTune | model.py:346-405 | the epoch loop of `reinforce_tune` ends in `Run` of its loop, starting from a new optimizer at the configured rate |

## Left out

- Padding, transposition and tensor conversion (`pad_sequences`, `cuda_`, `Variable`). The model stops at the spans and lengths handed to them. The `max_ts` pre-truncation is not modelled.
- The network's numerics. Each mode of the network is an uninterpreted function parameter. Backpropagation, gradient clipping and `optim.zero_grad` are not modelled; an optimizer step counts as one more update seen by the network.
- Floating-point behaviour. Losses are `real`. The epoch means (`sup_loss / (sup_cnt + 1e-8)`) are not modelled. `validate`'s unsupervised loss is always 0 in the source and is not modelled.
- Logging, timing, `print`, `training_adjust` and `self_adjust`. None of them changes the modelled state.
- `torch.save` and `torch.load`. A save is recorded as its epoch. A load is modelled only for the epoch it restores, and a corrupt checkpoint is not modelled.
- `validate`'s call to `eval` and the metric evaluator (`EV`, `run_metrics`). `wrap_result` is modelled only as receiving the previous span.
- The network's mutation of the turn-state dictionary in place. `reinforce_tune` never rebinds `turn_states`, so the model passes the empty dictionary every turn. The other loops use the states the network returns.
- The aliasing of the next turn's context. In `train`, `validate`, `reinforce_tune` and ground-truth `eval`, the context is `turn_batch['bspan']`. In greedy `eval`, it is the decoded `z1_idx`. The model hands the next turn a new copy of either (TurnCommon.FromSpans). In the source, the next conversion cuts and remaps the very lists it was handed, in place.
  - The reader's own batch lists are changed this way. `EncodeIdempotent` shows that converting them once more yields the same previous spans.
  - In greedy `eval`, so is the decoded list that `wrap_result` received at line 275. The model does not capture that later in-place change to what the result writer holds.
- The loss sum and count of `train` (`sup_loss`, `sup_cnt`, lines 210-211). They feed only the logged epoch mean, so the train turn loop records the calls and not the sums.
- Spans.Reserved: the model assumes `EOS_Z1`, `EOS_Z2` and `<split>` are in-vocabulary ids other than the unknown id 2, with `EOS_Z1 != EOS_Z2`. The vocabulary is not part of this model.
- The validation loss of each epoch is a parameter of `Schedule.Trainer.Train` and `Schedule.Trainer.ReinforceTune`. How it is computed is what the turn loops model.
- GloVe loading, parameter freezing, `count_params`, argument parsing and `main`. They are outside the trainer's control loop.
- EvalLoop.EvalDialogue: `cfg.eval_with_ground_truth is True` is modelled as a boolean. A truthy value other than `True` selects greedy mode in the source.

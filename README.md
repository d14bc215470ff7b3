# Join-channel selection for the fixed channel plans (US915/AU915)

This project models the join-channel selector of the `lorawan-device` crate
(`lorawan-device/src/region/fixed_channel_plans/join_channels.rs`) and proves its behaviour.
Every join request is sent on the channel the selector picks. The plan has 72 channels:
banks 0-7 (subbands 1-8) of eight 125 kHz channels each, and bank 8 of eight 500 kHz channels.

The selector has two parts:

- `JoinChannels`, the bias controller.
  - While a preferred subband is set and fewer than `max_retries` biased attempts have been
    made, a request gets a random channel of that subband.
  - The last biased attempt hands its channel to the pool as the previous pick, with its mask
    bit cleared.
  - Every other request goes to the pool.
- `AvailableChannels`, the pool. It holds a mask of the channels not tried yet in the current
  cycle, and the previous pick.
  - A first pick is the low 6 bits of a random draw.
  - A later pick steps `+8 mod 72`, which keeps the lane and moves to the next bank.
  - When that step lands on a used channel, the pool searches the landing bank at random,
    using 3-bit slices of one 32-bit draw.
  - An exhausted mask is reset before the pick.

## Structure

- `wrappers.dfy`: the `Option` datatype.
- `channel_mask.dfy`: the `ChannelMask<9>` as 72 flags. Its operations are bank, lane, the
  all-enabled default and the all-zero test.
- `entropy.dfy`: the random generator as a class holding the finite stream of values it will
  produce. `NextU32` returns `None` once the stream is spent.
- `available_channels.dfy`: the pool.
  - The operations as pure functions over `PoolState`: `Search`, `Fallback`, `Candidate`,
    `Restarted` and `Pick`.
  - The class `AvailableChannels`, whose methods are proved equal to those functions.
- `walk.dfy`: the invariant behind the comment at `join_channels.rs:94-98`.
  - A cycle walks one lane through all nine banks from an origin bank.
  - It then opens a new lane in the origin bank.
  - `Pick` keeps this shape and never repeats a channel of the cycle.
- `join_channels.dfy`: the controller.
  - `NextChannel` over `JoinState`, its invariant `JoinInv`, and the class `JoinChannels`.
- `join_sequences.dfy`: runs of requests (`Run`) and the sequences the file's tests check.
  - `Requests` is the imperative driver proved equal to `Run`.

The RNG is an input. Each function receives the values still to be drawn (`rest`) and returns
what is left of them. Each method reads them from an `Rng` object. A result of `None` means
only that the supplied stream ran out, which the real generator never does. So every "Some"
result is a partial-correctness statement about the real program. This covers the fallback
loop too. While the walk invariant holds, the loop ends once the random values name an enabled
channel of the landing bank, and such a channel exists. Outside the invariant the loop can
run forever for every stream of draws (see "Notes on the source").

The controller invariant `JoinInv` holds after `reset` (`ResetEstablishesInv`). It is kept by
`get_next_channel` (`NextChannelPreservesInv`) and by `clear_join_bias`
(`ClearJoinBiasKeepsInv`). `set_join_bias` keeps it when the pool is fresh or when the
biased branch does not switch on (`SetJoinBiasKeepsInv`). The pool is fresh after
construction, after `reset`, and after biased attempts that were not the last. The biased
branch stays off when `max_retries` is at most `num_retries`. So a call sequence keeps the
invariant if it sets a bias only in those situations.

The bit operations are on unsigned values, so they are written as arithmetic:
`& 0b111` is `% 8`, `& 0b111111` is `% 64` and `>>= 3` is `/ 8`.

## Model

| member | source | states |
|---|---|---|
| ChannelMask.ChannelAt | lorawan-device/src/region/fixed_channel_plans/join_channels.rs:101 | `lane + bank * 8` is the channel of that lane in that bank |
| ChannelPool.Default | lorawan-device/src/region/fixed_channel_plans/join_channels.rs:55-60 | the default pool has no previous pick and every channel enabled |
| ChannelPool.NextInWalk | lorawan-device/src/region/fixed_channel_plans/join_channels.rs:89 | `(previous + 8) % 72` keeps the lane and moves to the next bank; the 500 kHz bank wraps to bank 0 |
| ChannelPool.Search | lorawan-device/src/region/fixed_channel_plans/join_channels.rs:103-116 | a channel found by the fallback loop is enabled and lies in the searched bank; the loop draws no more values than the stream holds |
| ChannelPool.SearchDrawsFromFront | lorawan-device/src/region/fixed_channel_plans/join_channels.rs:108-111 | the values the loop leaves over are a suffix of the stream, so it takes values only from the front, one per refill |
| ChannelPool.SearchFailsOnClearedBank | lorawan-device/src/region/fixed_channel_plans/join_channels.rs:103-116 | in a bank whose byte is zero the fallback loop returns nothing, whatever is drawn |
| ChannelPool.Fallback | lorawan-device/src/region/fixed_channel_plans/join_channels.rs:99-116 | the fallback search draws at least one value; any channel it returns is enabled and in the landing bank |
| ChannelPool.FallbackDrawsFromFront | lorawan-device/src/region/fixed_channel_plans/join_channels.rs:100-111 | the whole fallback search, its first draw included, takes its values from the front of the stream |
| ChannelPool.Candidate | lorawan-device/src/region/fixed_channel_plans/join_channels.rs:86-123 | with no previous pick there is a candidate exactly when a value can be drawn; with a previous pick, every candidate is enabled (more in `FreshPickIsNarrow`, `PairedStep` and `WalkPickIsEnabled`) |
| ChannelPool.Restarted | lorawan-device/src/region/fixed_channel_plans/join_channels.rs:74-77 | an exhausted pool is replaced by the default one, and any other pool is kept; afterwards some channel is enabled, which is the guarantee the comment at line 74 gives |
| ChannelPool.Pick | lorawan-device/src/region/fixed_channel_plans/join_channels.rs:73-84 | the pick becomes the previous channel and is disabled (the full frame is in `GetNextBookkeeping`) |
| ChannelPool.FreshPickIsNarrow | lorawan-device/src/region/fixed_channel_plans/join_channels.rs:118-122 | with no previous channel, the candidate is the next draw `% 64`, so below 64 (never a 500 kHz channel), and one value is drawn |
| ChannelPool.PairedStep | lorawan-device/src/region/fixed_channel_plans/join_channels.rs:87-92 | if `(previous + 8) % 72` is enabled it is the candidate, and nothing is drawn |
| ChannelPool.WalkPickIsEnabled | lorawan-device/src/region/fixed_channel_plans/join_channels.rs:86-117 | with a previous channel, every candidate is enabled; when the `+8` step is disabled, the candidate lies in the bank the step landed in |
| ChannelPool.GetNextBookkeeping | lorawan-device/src/region/fixed_channel_plans/join_channels.rs:73-84 | after `get_next` the pick is the previous channel and is disabled; every other flag is as before, or enabled if the mask was exhausted |
| ChannelPool.ExhaustedPoolRestarts | lorawan-device/src/region/fixed_channel_plans/join_channels.rs:74-79 | an exhausted pool starts a fresh cycle: the pick is the next draw `% 64`, and the pool becomes the default one with only that channel cleared |
| Entropy.Rng.NextU32 | lorawan-device/src/region/fixed_channel_plans/join_channels.rs:100 | `next_u32`: returns the first value of the stream and removes it, or `None` when the stream is spent |
| ChannelPool.AvailableChannels.constructor | lorawan-device/src/region/fixed_channel_plans/join_channels.rs:55-60 | a new pool is the default pool |
| ChannelPool.AvailableChannels.IsExhausted | lorawan-device/src/region/fixed_channel_plans/join_channels.rs:63-71 | the byte-by-byte scan answers true exactly when no channel is enabled |
| ChannelPool.AvailableChannels.Reset | lorawan-device/src/region/fixed_channel_plans/join_channels.rs:125-128 | the pool becomes the default pool |
| ChannelPool.AvailableChannels.GetNextChannelInner | lorawan-device/src/region/fixed_channel_plans/join_channels.rs:86-123 | the result and the values drawn are those of `Candidate` on the current pool; only the generator changes |
| ChannelPool.AvailableChannels.SearchBank | lorawan-device/src/region/fixed_channel_plans/join_channels.rs:99-116 | the loop keeps `entropy_used` in 1..10 and the candidate equal to the low 3 bits of `entropy` in the bank; its result and draws are those of `Fallback` |
| ChannelPool.AvailableChannels.GetNext | lorawan-device/src/region/fixed_channel_plans/join_channels.rs:73-84 | result and new pool are those of `Pick`; the pick becomes the previous channel and is disabled; every other flag is as before, or enabled after an exhaustion reset |
| Walk.DistStep | lorawan-device/src/region/fixed_channel_plans/join_channels.rs:89 | each `+8` step moves one bank further from the origin bank, and the step after the ninth bank returns to it |
| Walk.FreshPickStartsWalk | lorawan-device/src/region/fixed_channel_plans/join_channels.rs:79-82 | a first pick from a full mask starts a walk in its own bank with no finished lanes |
| Walk.PairedStepExtendsWalk | lorawan-device/src/region/fixed_channel_plans/join_channels.rs:89-92 | before the lane has visited all nine banks, the `+8` step is enabled and taking it extends the walk by one bank |
| Walk.WrapLandsOnOrigin | lorawan-device/src/region/fixed_channel_plans/join_channels.rs:94-95 | after the ninth bank, the `+8` step lands on the used channel of the origin bank |
| Walk.FallbackBankHasChannel | lorawan-device/src/region/fixed_channel_plans/join_channels.rs:94-98 | when the `+8` step is disabled and the mask is not exhausted, the landing bank still has an enabled channel |
| Walk.FallbackStartsNewLane | lorawan-device/src/region/fixed_channel_plans/join_channels.rs:99-116 | a fallback pick in the origin bank lies on a lane not walked yet; the finished lane is added to the done set and the walk continues from the pick |
| Walk.PickPreservesWalk | lorawan-device/src/region/fixed_channel_plans/join_channels.rs:73-116 | from a reachable pool, `get_next` picks a channel not yet used in the cycle (enabled in the mask it picks from), and the pool stays reachable |
| Walk.ExhaustedIffAllLanesWalked | lorawan-device/src/region/fixed_channel_plans/join_channels.rs:63-77 | the mask of a walk is exhausted iff the current lane has visited all nine banks and all seven other lanes are finished |
| Walk.StalledPool | lorawan-device/src/region/fixed_channel_plans/join_channels.rs:94-116 | outside the walk invariant, in a pool whose `+8` step lands in a cleared bank 0 while lane 0 of banks 2-8 is still enabled, the mask is not exhausted and `get_next` returns for no stream of draws |
| JoinChannels.Initial | lorawan-device/src/region/fixed_channel_plans/join_channels.rs:4-15 | the default controller has no bias, no retries and a default pool |
| JoinChannels.WithBias | lorawan-device/src/region/fixed_channel_plans/join_channels.rs:18-21 | sets the subband and `max_retries`; keeps `num_retries` and the pool |
| JoinChannels.WithoutBias | lorawan-device/src/region/fixed_channel_plans/join_channels.rs:23-26 | sets the subband to `None` and `max_retries` to 0, so the biased branch is off; keeps `num_retries` and the pool |
| JoinChannels.ResetState | lorawan-device/src/region/fixed_channel_plans/join_channels.rs:29-32 | sets `num_retries` to 0 and the pool to the default one; keeps the bias |
| JoinChannels.HandOver | lorawan-device/src/region/fixed_channel_plans/join_channels.rs:45-46 | the channel becomes the pool's previous pick and is disabled; every other flag is kept |
| JoinChannels.NextChannel | lorawan-device/src/region/fixed_channel_plans/join_channels.rs:34-52 | no contract of its own; what it promises is stated by `BiasedAttempt` (the biased branch) and `UnbiasedDelegates` (the rest), and the class method `GetNextChannel` is proved equal to it |
| JoinChannels.BiasedAttempt | lorawan-device/src/region/fixed_channel_plans/join_channels.rs:35-49 | in the biased branch: the channel is `draw % 8 + (sb - 1) * 8`, inside subband `sb`; `num_retries` goes up by one; the bias is kept; the last biased attempt makes the channel the pool's disabled previous pick and changes no other flag; earlier attempts leave the pool unchanged |
| JoinChannels.UnbiasedDelegates | lorawan-device/src/region/fixed_channel_plans/join_channels.rs:50 | outside the biased branch the request is the pool's `get_next`, and the retry and bias fields are untouched |
| JoinChannels.ResetEstablishesInv | lorawan-device/src/region/fixed_channel_plans/join_channels.rs:28-32 | after `reset` the controller invariant holds, whatever the state before |
| JoinChannels.SetJoinBiasKeepsInv | lorawan-device/src/region/fixed_channel_plans/join_channels.rs:18-21 | `set_join_bias` keeps the invariant on a fresh pool, or when it does not switch the biased branch on |
| JoinChannels.ClearJoinBiasKeepsInv | lorawan-device/src/region/fixed_channel_plans/join_channels.rs:23-26 | `clear_join_bias` always keeps the invariant |
| JoinChannels.MidWalkBiasLeavesPoolUnreachable | lorawan-device/src/region/fixed_channel_plans/join_channels.rs:35-47 | picks 0 and 8 from the default controller, then a bias on subband 1 for one attempt that draws channel 7: the pool handed over is reachable by no walk |
| JoinChannels.NextChannelPreservesInv | lorawan-device/src/region/fixed_channel_plans/join_channels.rs:34-52 | `get_next_channel` keeps the controller invariant; a pool pick is never a channel used in the cycle; the last biased attempt starts a walk from the subband |
| JoinChannels.JoinChannels.constructor | lorawan-device/src/region/fixed_channel_plans/join_channels.rs:4-15 | a new controller is `JoinChannels::default()` |
| JoinChannels.JoinChannels.SetJoinBias | lorawan-device/src/region/fixed_channel_plans/join_channels.rs:18-21 | sets the preferred subband and `max_retries`; `num_retries` and the pool are unchanged |
| JoinChannels.JoinChannels.ClearJoinBias | lorawan-device/src/region/fixed_channel_plans/join_channels.rs:23-26 | sets the subband to `None` and `max_retries` to 0; `num_retries` and the pool are unchanged |
| JoinChannels.JoinChannels.Reset | lorawan-device/src/region/fixed_channel_plans/join_channels.rs:29-32 | sets `num_retries` to 0 and restores the default pool; keeps the subband and `max_retries` |
| JoinChannels.JoinChannels.GetNextChannel | lorawan-device/src/region/fixed_channel_plans/join_channels.rs:34-52 | result and new state are those of `NextChannel`; `num_retries` goes up by one exactly in the biased branch; the bias fields are kept; the pool is unchanged by a biased attempt that is not the last |
| JoinSequences.UnbiasedPairedStep | lorawan-device/src/region/fixed_channel_plans/join_channels.rs:87-92 | an unbiased request in the middle of a lane answers the `+8` step, draws nothing and extends the walk |
| JoinSequences.RunWalk | lorawan-device/src/region/fixed_channel_plans/join_channels.rs:87-92 | while the lane has banks left, consecutive unbiased requests answer the successive `+8` steps, draw nothing and keep the walk |
| JoinSequences.FallbackReturnsToOrigin | lorawan-device/src/region/fixed_channel_plans/join_channels.rs:94-116 | the request after a lane has visited all nine banks lands in the origin bank, on a lane not walked yet |
| JoinSequences.FirstLaneLeavesChannels | lorawan-device/src/region/fixed_channel_plans/join_channels.rs:94-98 | while the first lane of a cycle is walked, the mask is not exhausted |
| JoinSequences.EightStepsAfterFirstPick | lorawan-device/src/region/fixed_channel_plans/join_channels.rs:196-201 | after a first pick `c`, the next eight requests are `(c + 8 * k) % 72` for k = 1..8, draw nothing and leave the mask not exhausted |
| JoinSequences.NinthAfterFirstPick | lorawan-device/src/region/fixed_channel_plans/join_channels.rs:203-205 | the ninth request after a first pick `c` lands in the bank of `c` on another channel |
| JoinSequences.AfterFirstPick | lorawan-device/src/region/fixed_channel_plans/join_channels.rs:193-205 | combines the two lemmas above for the nine requests after a first pick |
| JoinSequences.TenRequestsFromFirstPick | lorawan-device/src/region/fixed_channel_plans/join_channels.rs:190-205 | ten requests whose first hands over a walk from `c` have the join sequence shape, starting from `c` |
| JoinSequences.StandardJoinSequence | lorawan-device/src/region/fixed_channel_plans/join_channels.rs:185-207 | from the default controller: the first channel is the first draw `% 64`; the second is the first plus 8; the first nine are the `+8` steps from the first; the tenth is in the first channel's bank and differs from it |
| JoinSequences.BiasedJoinSequence | lorawan-device/src/region/fixed_channel_plans/join_channels.rs:229-253 | with the bias on `sb` for one attempt: the first channel is in subband `sb`; the rest of the sequence has the same shape as the standard one |
| JoinSequences.BiasedRetries | lorawan-device/src/region/fixed_channel_plans/join_channels.rs:36-47 | with the bias on `sb` for `max` attempts, the first `max` requests are in subband `sb`, one draw each; the pool stays default until the last, which hands its channel to the pool |
| JoinSequences.HandOverContinuesWalk | lorawan-device/src/region/fixed_channel_plans/join_channels.rs:41-47 | the request after the last biased one answers the last biased channel plus 8 |
| JoinSequences.ClearedAndResetPicksFresh | lorawan-device/src/region/fixed_channel_plans/join_channels.rs:23-32 | after `clear_join_bias` and `reset`, the next request is unbiased and is the next draw `% 64` |
| JoinSequences.Requests | lorawan-device/src/region/fixed_channel_plans/join_channels.rs:34-52 | calling `get_next_channel` `n` times yields the picks of `Run` |
| JoinSequences.StandardJoinTest | lorawan-device/src/region/fixed_channel_plans/join_channels.rs:185-207 | `test_join_channels_standard` for any non-empty stream of draws, on the classes |
| JoinSequences.BiasedJoinTest | lorawan-device/src/region/fixed_channel_plans/join_channels.rs:229-253 | `test_join_channels_biased` for any subband and any non-empty stream of draws, on the classes |

Every pick has type `Channel` (0 to 71). This gives the range `< 72` that the tests check on
every request, including the 6000 requests of `test_join_channels_standard_exhausted`
(lines 210-226).

## Left out

- The distribution of `RngCore::next_u32` and every probabilistic claim: uniformity, and the
  termination of the fallback loop at lines 103-116. The generator is a finite stream supplied
  by the caller. A run that exhausts the stream returns `None`. Results are partial
  correctness: if the program returns, its result is as stated.
- `ChannelMask` internals: `ChannelMask<9>` is not part of this model beyond 72 flags with
  read, clear, the all-enabled default and a per-byte zero test (`ByteIsZero` is
  `*byte == 0` on the flags of one bank, so `!ByteIsZero` is the `*byte != 0` test at line 66).
- The `impl_join_bias!` macro and its US915/AU915 expansions (lines 131-178). They forward to
  this code; `set_join_bias(sb)` is `SetJoinBias(sb, 1)`, as `BiasedJoinTest` uses it.
- The serde derives (lines 5 and 56).
- The mapping from channel index to frequency and data rate, which lives elsewhere.
- JoinChannels.JoinChannels.Reset: the source assigns a new default `AvailableChannels`; the
  model resets the one pool object in place, which gives the same value but not a new object.
- JoinChannels.JoinChannels.GetNextChannel: `num_retries += 1` on `usize` cannot overflow in
  the model (`nat`); the source would need `max_retries` at `usize::MAX` to reach it.
- `test_join_channels_standard_exhausted` beyond the range: the model proves that every pick
  is in range and that an exhausted pool starts a new cycle, not the 6000-step run itself.

## Notes on the source

- The test comment says the channel after the seven middle requests is "ninth" and that the
  pool is back at the first bank "after 8 tries". By count it is the tenth call of the run:
  the first, `first + 8`, seven more, and then the return. The lemmas follow the code: nine
  channels walk the nine banks, and the tenth is in the first bank.
- Biased attempts do not consult the mask. With `max_retries` above 1, they can repeat a
  channel. Only the last biased channel is cleared in the pool.
- After the fallback loop refills `entropy` with a new draw, it shifts before taking a slice.
  So bits 0-2 of every refilled draw are never used. This affects only which random bits
  are used, and the model follows it exactly (`Search` divides the new draw by 8).
- `set_join_bias` in the middle of a walk can make `get_next_channel` hang. Take the default
  controller and make two requests, getting 0 and then 8. Now call `set_join_bias(1, 1)`.
  Suppose the biased request gets channel 7. It hands the pool a previous pick 7 with
  channels 0, 7 and 8 used. By `MidWalkBiasLeavesPoolUnreachable`, no walk reaches this pool.
  From there the code walks lane 7 through banks 1-8 and then falls back into bank 0. Each
  fallback can only open one of lanes 1-6, which is then walked through all nine banks. Once
  those lanes are done, channels 0-7 are all used, but lane 0 of banks 2-8 is still enabled.
  So `is_exhausted` is false, and the next step lands in bank 0. By `StalledPool` and
  `SearchFailsOnClearedBank`, the fallback loop at lines 103-116 then returns for no sequence
  of draws. The step-by-step run from the handover to the stall is not derived in the model.
  The call sequences that keep the invariant are listed above.
- `max_retries` can be set below `num_retries` at any time. Then the biased branch is simply
  not taken; the model does not assume `num_retries <= max_retries`.

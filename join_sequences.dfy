/**
  Sequences of join requests, as the tests of `join_channels.rs` make them: from a fresh
  `JoinChannels` (with or without a bias), the first pick, the paired `+8` steps through the
  nine banks and the return to the first bank on the tenth request.
*/
module JoinSequences {
  import opened Wrappers
  import opened ChannelMask
  import opened Entropy
  import opened ChannelPool
  import opened Walk
  import opened JoinChannels

  /** The channels picked by a run of requests, the state afterwards and the values left undrawn. */
  datatype Trace = Trace(picks: seq<Channel>, state: JoinState, rest: seq<U32>)

  /** `n` calls of `get_next_channel` from `j`, stopping at the first one the stream cannot serve. */
  function Run(j: JoinState, rest: seq<U32>, n: nat): (t: Trace)
    ensures |t.picks| <= n
  {
    if n == 0 then Trace([], j, rest)
    else
      var t := Run(j, rest, n - 1);
      if |t.picks| < n - 1 then t
      else match NextChannel(t.state, t.rest)
        case None => t
        case Some((c, j', rest')) => Trace(t.picks + [c], j', rest')
  }

  /** One more request after a run that has not stopped. */
  lemma RunStep(j: JoinState, rest: seq<U32>, i: nat)
    requires |Run(j, rest, i).picks| == i
    ensures var t := Run(j, rest, i);
            match NextChannel(t.state, t.rest)
            case None => Run(j, rest, i + 1) == t
            case Some((c, j', rest')) => Run(j, rest, i + 1) == Trace(t.picks + [c], j', rest')
  {
  }

  /** A run that stopped early stays stopped. */
  lemma {:induction false} RunStaysStopped(j: JoinState, rest: seq<U32>, i: nat, n: nat)
    requires i <= n && |Run(j, rest, i).picks| < i
    ensures Run(j, rest, n) == Run(j, rest, i)
    decreases n - i
  {
    if i < n {
      RunStaysStopped(j, rest, i + 1, n);
    }
  }

  /** A run of `n + 1` requests is its first request followed by a run of `n`. */
  lemma {:induction false} RunCons(j: JoinState, rest: seq<U32>, n: nat)
    requires NextChannel(j, rest).Some?
    ensures var (c, j1, rest1) := NextChannel(j, rest).value;
            var t1 := Run(j1, rest1, n);
            Run(j, rest, n + 1) == Trace([c] + t1.picks, t1.state, t1.rest)
  {
    var (c, j1, rest1) := NextChannel(j, rest).value;
    if n > 0 {
      RunCons(j, rest, n - 1);
      var t0 := Run(j1, rest1, n - 1);
      match NextChannel(t0.state, t0.rest)
      case None =>
      case Some((d, j2, rest2)) =>
        assert [c] + t0.picks + [d] == [c] + (t0.picks + [d]);
    }
  }

  /** The channel reached from `p` by `k` steps of `+8`. */
  function Walked(p: Channel, k: nat): (c: Channel)
  {
    if k == 0 then p else NextInWalk(Walked(p, k - 1))
  }

  /** Steps of `+8` stay in one lane. */
  lemma {:induction false} WalkedKeepsLane(p: Channel, k: nat)
    ensures Lane(Walked(p, k)) == Lane(p)
  {
    if k > 0 {
      WalkedKeepsLane(p, k - 1);
    }
  }

  /** Up to nine steps of `+8` add `8 * k`, modulo the 72 channels. */
  lemma {:induction false} WalkedIsModular(p: Channel, k: nat)
    requires k <= 9
    ensures Walked(p, k) as int == (p as int + 8 * k) % 72
  {
    if k > 0 {
      WalkedIsModular(p, k - 1);
      StepIsModular(Walked(p, k - 1), p as int + 8 * (k - 1));
    }
  }

  /** One `+8` step from the channel `a % 72` reaches `(a + 8) % 72`. */
  lemma StepIsModular(q: Channel, a: int)
    requires 0 <= a < 136 && q as int == a % 72
    ensures NextInWalk(q) as int == (a + 8) % 72
  {
    if a < 72 {
      assert q as int == a;
    } else {
      assert q as int == a - 72;
    }
  }

  /**
    `t` is `j` after `i` unbiased requests answered by the paired `+8` steps from `p`: the picks
    are the first `i` steps, nothing was drawn, the walk from `origin` went `i` banks further and
    only the pool changed.
  */
  ghost predicate WalkedFor(j: JoinState, p: Channel, origin: nat, done: set<nat>, rest: seq<U32>, i: nat, t: Trace)
  {
    && origin < 9 && |t.picks| == i && t.rest == rest
    && (forall k :: 0 <= k < i ==> t.picks[k] == Walked(p, k + 1))
    && t.state.pool.previous == Some(Walked(p, i))
    && WalkState(t.state.pool.mask, Walked(p, i), origin, done)
    && Dist(origin, Bank(Walked(p, i))) == Dist(origin, Bank(p)) + i
    && t.state.maxRetries == j.maxRetries && t.state.numRetries == j.numRetries
    && t.state.preferredSubband == j.preferredSubband
  }

  /**
    Unbiased requests from a walk that has `8 - Dist` banks of its lane left are answered by
    the paired `+8` steps, without drawing anything.
  */
  lemma {:induction false} RunWalk(j: JoinState, p: Channel, origin: nat, done: set<nat>, rest: seq<U32>, i: nat)
    requires !Biased(j) && j.pool.previous == Some(p) && WalkState(j.pool.mask, p, origin, done)
    requires i + Dist(origin, Bank(p)) <= 8
    ensures WalkedFor(j, p, origin, done, rest, i, Run(j, rest, i))
  {
    if i > 0 {
      RunWalk(j, p, origin, done, rest, i - 1);
      RunStep(j, rest, i - 1);
      WalkedForStep(j, p, origin, done, rest, i, Run(j, rest, i - 1));
    }
  }

  /** The inductive step of `RunWalk`: the next request is answered by the next `+8` step. */
  lemma WalkedForStep(j: JoinState, p: Channel, origin: nat, done: set<nat>, rest: seq<U32>, i: nat, t: Trace)
    requires !Biased(j) && origin < 9 && 0 < i && i + Dist(origin, Bank(p)) <= 8
    requires WalkedFor(j, p, origin, done, rest, i - 1, t)
    ensures match NextChannel(t.state, t.rest)
            case None => false
            case Some((c, j', rest')) => WalkedFor(j, p, origin, done, rest, i, Trace(t.picks + [c], j', rest'))
  {
    var q := Walked(p, i - 1);
    UnbiasedPairedStep(t.state, q, origin, done, rest);
    var n := NextInWalk(q);
    var t' := Trace(t.picks + [n], t.state.(pool := PoolState(t.state.pool.mask[n := false], Some(n))), rest);
    assert forall k :: 0 <= k < i - 1 ==> t'.picks[k] == t.picks[k];
  }

  /** One unbiased request in the middle of a lane: the `+8` step, nothing drawn. */
  lemma UnbiasedPairedStep(j: JoinState, q: Channel, origin: nat, done: set<nat>, rest: seq<U32>)
    requires !Biased(j) && j.pool.previous == Some(q) && WalkState(j.pool.mask, q, origin, done)
    requires Dist(origin, Bank(q)) < 8
    ensures var n := NextInWalk(q);
            && NextChannel(j, rest) == Some((n, j.(pool := PoolState(j.pool.mask[n := false], Some(n))), rest))
            && WalkState(j.pool.mask[n := false], n, origin, done)
            && Dist(origin, Bank(n)) == Dist(origin, Bank(q)) + 1
  {
    PairedStepExtendsWalk(j.pool.mask, q, origin, done);
  }

  /**
    The request after a lane has been walked through all nine banks goes back to the bank the
    cycle started in, on a lane not walked yet.
  */
  lemma FallbackReturnsToOrigin(j: JoinState, p: Channel, origin: nat, done: set<nat>, rest: seq<U32>)
    requires !Biased(j) && j.pool.previous == Some(p) && WalkState(j.pool.mask, p, origin, done)
    requires Dist(origin, Bank(p)) == 8 && !AllZero(j.pool.mask)
    requires NextChannel(j, rest).Some?
    ensures var c := NextChannel(j, rest).value.0;
            Bank(c) == origin && Lane(c) != Lane(p) && Lane(c) !in done
  {
    var c := NextChannel(j, rest).value.0;
    WrapLandsOnOrigin(j.pool.mask, p, origin, done);
    WalkPickIsEnabled(j.pool, rest);
    FallbackStartsNewLane(j.pool.mask, p, origin, done, c);
  }

  /**
    From the state right after a first pick `c` (the pool walking from `c`, no bias left), the
    next eight requests are `+8` steps that draw nothing, and the mask is not exhausted after them.
  */
  lemma EightStepsAfterFirstPick(j: JoinState, c: Channel, rest: seq<U32>)
    requires !Biased(j) && j.pool == PoolState(Full()[c := false], Some(c))
    ensures var t := Run(j, rest, 8);
            && |t.picks| == 8 && t.rest == rest && !Biased(t.state)
            && (forall k :: 0 <= k < 8 ==> t.picks[k] as int == (c as int + 8 * (k + 1)) % 72)
            && t.state.pool.previous == Some(Walked(c, 8))
            && WalkState(t.state.pool.mask, Walked(c, 8), Bank(c), {})
            && Dist(Bank(c), Bank(Walked(c, 8))) == 8
            && !AllZero(t.state.pool.mask)
  {
    FreshPickStartsWalk(Full(), c);
    RunWalk(j, c, Bank(c), {}, rest, 8);
    var t := Run(j, rest, 8);
    WalkedPicksAreModular(c, t.picks);
    FirstLaneLeavesChannels(t.state.pool.mask, Walked(c, 8), Bank(c));
  }

  /** Picks that are the first `+8` steps from `c`, as offsets of `8 * (k + 1)` modulo 72. */
  lemma WalkedPicksAreModular(c: Channel, picks: seq<Channel>)
    requires |picks| <= 8 && forall k :: 0 <= k < |picks| ==> picks[k] == Walked(c, k + 1)
    ensures forall k :: 0 <= k < |picks| ==> picks[k] as int == (c as int + 8 * (k + 1)) % 72
  {
    forall k | 0 <= k < |picks|
      ensures picks[k] as int == (c as int + 8 * (k + 1)) % 72
    {
      WalkedIsModular(c, k + 1);
    }
  }

  /** While the first lane of a cycle is walked, some other lane is still enabled. */
  lemma FirstLaneLeavesChannels(m: Mask, q: Channel, origin: nat)
    requires WalkState(m, q, origin, {})
    ensures !AllZero(m)
  {
    var x := ChannelAt(0, if Lane(q) == 0 then 1 else 0);
    assert m[x] == OpenInWalk(x, q, origin, {});
  }

  /**
    ... and the ninth request lands in the bank of `c`, on another channel.
  */
  lemma NinthAfterFirstPick(j: JoinState, c: Channel, rest: seq<U32>)
    requires !Biased(j) && j.pool == PoolState(Full()[c := false], Some(c))
    ensures var t := Run(j, rest, 9);
            && |t.picks| >= 8 && t.picks[..8] == Run(j, rest, 8).picks
            && (|t.picks| == 9 ==> Bank(t.picks[8]) == Bank(c) && t.picks[8] != c)
  {
    EightStepsAfterFirstPick(j, c, rest);
    var t8 := Run(j, rest, 8);
    var q := Walked(c, 8);
    var r := NextChannel(t8.state, t8.rest);
    if r.Some? {
      assert Run(j, rest, 9) == Trace(t8.picks + [r.value.0], r.value.1, r.value.2);
      FallbackReturnsToOrigin(t8.state, q, Bank(c), {}, t8.rest);
      WalkedKeepsLane(c, 8);
    } else {
      assert Run(j, rest, 9) == t8;
    }
  }

  /**
    From the state right after a first pick `c` (the pool walking from `c`, no bias left), the
    next eight requests step `+8` and the ninth lands in the bank of `c` on another channel.
  */
  lemma AfterFirstPick(j: JoinState, c: Channel, rest: seq<U32>)
    requires !Biased(j) && j.pool == PoolState(Full()[c := false], Some(c))
    ensures var t := Run(j, rest, 9);
            && |t.picks| >= 8
            && (forall k :: 0 <= k < 8 ==> t.picks[k] as int == (c as int + 8 * (k + 1)) % 72)
            && (|t.picks| == 9 ==> Bank(t.picks[8]) == Bank(c) && t.picks[8] != c)
  {
    EightStepsAfterFirstPick(j, c, rest);
    NinthAfterFirstPick(j, c, rest);
    var t := Run(j, rest, 9);
    forall k | 0 <= k < 8
      ensures t.picks[k] == Run(j, rest, 8).picks[k]
    {
      assert t.picks[k] == t.picks[..8][k];
    }
  }

  /**
    The shape of a join sequence from a first channel below 64: at least nine picks, the first
    nine being the first channel and its `+8` steps (so the second is exactly eight above the
    first), and a tenth, when there is one, in the bank of the first on another channel.
  */
  ghost predicate JoinSequenceShape(picks: seq<Channel>)
  {
    && |picks| >= 9 && picks[0] < 64
    && picks[1] as int == picks[0] as int + 8
    && (forall k :: 0 <= k < 9 ==> picks[k] as int == (picks[0] as int + 8 * k) % 72)
    && (|picks| == 10 ==> Bank(picks[9]) == Bank(picks[0]) && picks[9] != picks[0])
  }

  /**
    Ten requests whose first one picks a channel `c` below 64 and hands the pool over walking
    from `c`: the first nine are `c` and its `+8` steps, the tenth is in the bank of `c`.
  */
  lemma TenRequestsFromFirstPick(j: JoinState, rest: seq<U32>)
    requires NextChannel(j, rest).Some?
    requires var (c, j1, _) := NextChannel(j, rest).value;
             c < 64 && !Biased(j1) && j1.pool == PoolState(Full()[c := false], Some(c))
    ensures var t := Run(j, rest, 10);
            JoinSequenceShape(t.picks) && t.picks[0] == NextChannel(j, rest).value.0
  {
    var (c, j1, rest1) := NextChannel(j, rest).value;
    RunCons(j, rest, 9);
    AfterFirstPick(j1, c, rest1);
    PrependFirstPick(c, Run(j1, rest1, 9).picks);
  }

  /** The picks of the ten requests, from those of the nine after the first. */
  lemma PrependFirstPick(c: Channel, later: seq<Channel>)
    requires c < 64 && 8 <= |later| <= 9
    requires forall k :: 0 <= k < 8 ==> later[k] as int == (c as int + 8 * (k + 1)) % 72
    requires |later| == 9 ==> Bank(later[8]) == Bank(c) && later[8] != c
    ensures JoinSequenceShape([c] + later) && ([c] + later)[0] == c
  {
    var picks := [c] + later;
    forall k | 0 <= k < 9
      ensures picks[k] as int == (c as int + 8 * k) % 72
    {
      if k > 0 {
        assert picks[k] == later[k - 1];
      }
    }
  }

  /**
    The standard join sequence (tested in `test_join_channels_standard`): without a bias, the
    first channel is the low 6 bits of the first draw, so below 64; the next eight are `+8`
    steps, the first of them exactly `first + 8`; the tenth is in the first channel's bank and
    is not the first channel.
  */
  lemma StandardJoinSequence(rest: seq<U32>)
    requires rest != []
    ensures var t := Run(Initial(), rest, 10);
            JoinSequenceShape(t.picks) && t.picks[0] == rest[0] % 64
  {
    var (c, j1, rest1) := NextChannel(Initial(), rest).value;
    assert c == rest[0] % 64 && j1.pool == PoolState(Full()[c := false], Some(c));
    TenRequestsFromFirstPick(Initial(), rest);
  }

  /**
    The compliant biased join sequence (tested in `test_join_channels_biased`): with the bias
    set to `sb` for one attempt, the first channel is in subband `sb`, the next is `first + 8`,
    and the tenth is back in subband `sb` on another channel.
  */
  lemma BiasedJoinSequence(sb: Subband, rest: seq<U32>)
    requires rest != []
    ensures var t := Run(WithBias(Initial(), sb, 1), rest, 10);
            JoinSequenceShape(t.picks) && (sb - 1) * 8 <= t.picks[0] <= (sb - 1) * 8 + 7
  {
    var j0 := WithBias(Initial(), sb, 1);
    var (c, j1, rest1) := NextChannel(j0, rest).value;
    assert (sb - 1) * 8 <= c <= (sb - 1) * 8 + 7;
    assert j1.pool == PoolState(Full()[c := false], Some(c));
    TenRequestsFromFirstPick(j0, rest);
  }

  /**
    The non-compliant mode: with the bias set to `sb` for `max` attempts, the first `max`
    requests are all in subband `sb` and leave the pool untouched until the last, which hands
    its channel over to the pool as a used previous pick.
  */
  lemma {:induction false} BiasedRetries(sb: Subband, max: nat, rest: seq<U32>, i: nat)
    requires 1 <= i <= max && i <= |rest|
    ensures var t := Run(WithBias(Initial(), sb, max), rest, i);
            && |t.picks| == i && t.rest == rest[i..]
            && (forall k :: 0 <= k < i ==> (sb - 1) * 8 <= t.picks[k] <= (sb - 1) * 8 + 7)
            && t.state.numRetries == i && t.state.maxRetries == max && t.state.preferredSubband == Some(sb)
            && t.state.pool == if i < max then Default() else HandOver(Default(), t.picks[i - 1])
  {
    var j0 := WithBias(Initial(), sb, max);
    if i > 1 {
      BiasedRetries(sb, max, rest, i - 1);
      var t := Run(j0, rest, i - 1);
      assert t.rest[1..] == rest[i..];
    } else {
      assert Run(j0, rest, 0) == Trace([], j0, rest);
    }
  }

  /**
    Handover on the last biased attempt: the request after the `max` biased ones continues the
    standard walk from the last biased channel, answering `last + 8`.
  */
  lemma HandOverContinuesWalk(sb: Subband, max: nat, rest: seq<U32>)
    requires 1 <= max <= |rest|
    ensures var t := Run(WithBias(Initial(), sb, max), rest, max + 1);
            && |t.picks| == max + 1
            && t.picks[max] as int == t.picks[max - 1] as int + 8
  {
    var j0 := WithBias(Initial(), sb, max);
    BiasedRetries(sb, max, rest, max);
    var t := Run(j0, rest, max);
    var c := t.picks[max - 1];
    assert t.state.pool == PoolState(Full()[c := false], Some(c));
    assert Full()[c := false][c + 8];
  }

  /**
    `clear_join_bias` followed by `reset` brings back the unbiased first pick: the low 6 bits
    of the next draw, never a 500 kHz channel, whatever the state before.
  */
  lemma ClearedAndResetPicksFresh(j: JoinState, rest: seq<U32>)
    requires rest != []
    ensures var j' := ResetState(WithoutBias(j));
            && !Biased(j')
            && NextChannel(j', rest).Some?
            && NextChannel(j', rest).value.0 == rest[0] % 64 < 64
  {
  }

  /** Makes `n` requests on `jc`, stopping at the first one the stream cannot serve. */
  method Requests(jc: JoinChannels, rng: Rng, n: nat) returns (picks: seq<Channel>)
    modifies jc, jc.availableChannels, rng
    ensures Run(old(jc.State()), old(rng.pending), n).picks == picks
  {
    ghost var j0, rest0 := jc.State(), rng.pending;
    picks := [];
    var i := 0;
    while i < n
      invariant i <= n && |picks| == i
      invariant Run(j0, rest0, i) == Trace(picks, jc.State(), rng.pending)
    {
      var r := jc.GetNextChannel(rng);
      RunStep(j0, rest0, i);
      if r.None? {
        RunStaysStopped(j0, rest0, i + 1, n);
        return;
      }
      picks := picks + [r.value];
      i := i + 1;
    }
  }

  /** `test_join_channels_standard`, for any stream of draws. */
  method StandardJoinTest(draws: seq<U32>) returns (picks: seq<Channel>)
    ensures draws != [] ==> JoinSequenceShape(picks) && picks[0] == draws[0] % 64
  {
    var rng := new Rng(draws);
    var jc := new JoinChannels();
    picks := Requests(jc, rng, 10);
    if draws != [] {
      StandardJoinSequence(draws);
    }
  }

  /** `test_join_channels_biased`, for any subband and any stream of draws. */
  method BiasedJoinTest(sb: Subband, draws: seq<U32>) returns (picks: seq<Channel>)
    ensures draws != [] ==> JoinSequenceShape(picks) && (sb - 1) * 8 <= picks[0] < sb * 8
  {
    var rng := new Rng(draws);
    var jc := new JoinChannels();
    jc.SetJoinBias(sb, 1);
    picks := Requests(jc, rng, 10);
    if draws != [] {
      BiasedJoinSequence(sb, draws);
    }
  }
}

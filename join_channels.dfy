/**
  `JoinChannels`, the join bias controller: while a preferred subband is set and fewer than
  `max_retries` biased attempts have been made, a join request gets a random channel of that
  subband; on the last such attempt the channel is handed to the pool as its previous pick, so
  that the standard walk continues from it. Every other request goes to the pool.
*/
module JoinChannels {
  import opened Wrappers
  import opened ChannelMask
  import opened Entropy
  import opened ChannelPool
  import opened Walk

  /** `Subband`: one of the eight banks of 125 kHz channels, numbered 1 to 8. */
  type Subband = sb: int | 1 <= sb <= 8 witness 1

  /** The value of a `JoinChannels`. */
  datatype JoinState = JoinState(
    maxRetries: nat,
    numRetries: nat,
    preferredSubband: Option<Subband>,
    pool: PoolState)

  /** `JoinChannels::default()`: no bias and a fresh pool. */
  function Initial(): (j: JoinState)
    ensures j.preferredSubband == None && j.numRetries == 0 && j.maxRetries == 0
    ensures j.pool == Default()
  {
    JoinState(0, 0, None, Default())
  }

  /** `set_join_bias`: prefer `sb` for the next `max` attempts. */
  function WithBias(j: JoinState, sb: Subband, max: nat): (j': JoinState)
    ensures j'.preferredSubband == Some(sb) && j'.maxRetries == max
    ensures j'.numRetries == j.numRetries && j'.pool == j.pool
  {
    j.(preferredSubband := Some(sb), maxRetries := max)
  }

  /** `clear_join_bias`. */
  function WithoutBias(j: JoinState): (j': JoinState)
    ensures j'.preferredSubband == None && j'.maxRetries == 0 && !Biased(j')
    ensures j'.numRetries == j.numRetries && j'.pool == j.pool
  {
    j.(preferredSubband := None, maxRetries := 0)
  }

  /** `reset`, after a join accept: no attempts made and a fresh pool; the bias is kept. */
  function ResetState(j: JoinState): (j': JoinState)
    ensures j'.numRetries == 0 && j'.pool == Default()
    ensures j'.preferredSubband == j.preferredSubband && j'.maxRetries == j.maxRetries
  {
    j.(numRetries := 0, pool := Default())
  }

  /** The biased branch of `get_next_channel` is taken. */
  predicate Biased(j: JoinState) {
    j.preferredSubband.Some? && j.numRetries < j.maxRetries
  }

  /** The pool after a biased attempt that made `numRetries` equal to `maxRetries`. */
  function HandOver(s: PoolState, c: Channel): (s': PoolState)
    ensures s'.previous == Some(c) && !s'.mask[c]
    ensures forall d: Channel :: d != c ==> s'.mask[d] == s.mask[d]
  {
    PoolState(s.mask[c := false], Some(c))
  }

  /** `get_next_channel`: the channel, the state afterwards and the values left undrawn. */
  function NextChannel(j: JoinState, rest: seq<U32>): (r: Option<(Channel, JoinState, seq<U32>)>)
  {
    if Biased(j) then
      if rest == [] then None
      else
        var c := rest[0] % 8 + (j.preferredSubband.value - 1) * 8;
        var j' := j.(numRetries := j.numRetries + 1);
        var pool := if j'.numRetries == j'.maxRetries then HandOver(j.pool, c) else j.pool;
        Some((c, j'.(pool := pool), rest[1..]))
    else
      match Pick(j.pool, rest)
      case None => None
      case Some((c, pool, rest')) => Some((c, j.(pool := pool), rest'))
  }

  /**
    The biased branch: the channel is one of the preferred subband's eight channels, the retry
    count goes up by exactly one, the bias is unchanged, and the pool is unchanged unless this
    was the last biased attempt, in which case the channel becomes its disabled previous pick.
  */
  lemma BiasedAttempt(j: JoinState, rest: seq<U32>)
    requires Biased(j) && rest != []
    ensures NextChannel(j, rest).Some?
    ensures var (c, j', rest') := NextChannel(j, rest).value;
            var sb := j.preferredSubband.value;
            && (sb - 1) * 8 <= c <= (sb - 1) * 8 + 7 && Bank(c) == sb - 1
            && c == rest[0] % 8 + (sb - 1) * 8 && rest' == rest[1..]
            && j'.numRetries == j.numRetries + 1
            && j'.maxRetries == j.maxRetries && j'.preferredSubband == j.preferredSubband
            && (j'.numRetries == j'.maxRetries ==>
                  && j'.pool.previous == Some(c) && !j'.pool.mask[c]
                  && forall d: Channel :: d != c ==> j'.pool.mask[d] == j.pool.mask[d])
            && (j'.numRetries < j'.maxRetries ==> j'.pool == j.pool)
  {
  }

  /** Otherwise the request goes to the pool and the bias state is untouched. */
  lemma UnbiasedDelegates(j: JoinState, rest: seq<U32>)
    requires !Biased(j)
    ensures NextChannel(j, rest).Some? <==> Pick(j.pool, rest).Some?
    ensures NextChannel(j, rest).Some? ==>
              var (c, j', rest') := NextChannel(j, rest).value;
              && Pick(j.pool, rest) == Some((c, j'.pool, rest'))
              && j'.numRetries == j.numRetries && j'.maxRetries == j.maxRetries
              && j'.preferredSubband == j.preferredSubband
  {
  }

  /**
    The controller's invariant: the pool is reachable, and it is fresh while biased attempts
    remain (biased attempts happen before the walk starts, as after `reset`).
  */
  ghost predicate JoinInv(j: JoinState, origin: nat, done: set<nat>)
  {
    && origin < 9
    && Reachable(j.pool, origin, done)
    && (Biased(j) ==> j.pool == Default())
  }

  /** The walk parameters after `get_next_channel` returned `c`. */
  ghost function JoinNextWalk(j: JoinState, origin: nat, done: set<nat>, c: Channel): (nat, set<nat>)
    requires origin < 9
  {
    if Biased(j) then
      if j.numRetries + 1 == j.maxRetries then (Bank(c), {}) else (origin, done)
    else NextWalk(j.pool, origin, done, c)
  }

  /** `reset` establishes the invariant, whatever the state before. */
  lemma ResetEstablishesInv(j: JoinState)
    ensures JoinInv(ResetState(j), 0, {})
  {
  }

  /**
    `get_next_channel` keeps the invariant, and a pick made by the pool is never a channel used
    in the current cycle; the last biased attempt puts the pool into a walk from the subband.
  */
  lemma NextChannelPreservesInv(j: JoinState, origin: nat, done: set<nat>, rest: seq<U32>)
    requires JoinInv(j, origin, done) && NextChannel(j, rest).Some?
    ensures var (c, j', _) := NextChannel(j, rest).value;
            && (!Biased(j) ==> Restarted(j.pool).mask[c])
            && var (origin', done') := JoinNextWalk(j, origin, done, c);
               JoinInv(j', origin', done')
  {
    var (c, j', _) := NextChannel(j, rest).value;
    if Biased(j) {
      if j.numRetries + 1 == j.maxRetries {
        FreshPickStartsWalk(j.pool.mask, c);
        assert j'.pool == PoolState(j.pool.mask[c := false], Some(c));
      }
    } else {
      PickPreservesWalk(j.pool, origin, done, rest);
    }
  }

  /**
    `set_join_bias` keeps the invariant when the pool is fresh (after construction, `reset`, or
    biased attempts that were not the last) or when it does not switch the biased branch on.
  */
  lemma SetJoinBiasKeepsInv(j: JoinState, sb: Subband, max: nat, origin: nat, done: set<nat>)
    requires JoinInv(j, origin, done)
    requires j.pool == Default() || j.numRetries >= max
    ensures JoinInv(WithBias(j, sb, max), origin, done)
  {
  }

  /** `clear_join_bias` always keeps the invariant. */
  lemma ClearJoinBiasKeepsInv(j: JoinState, origin: nat, done: set<nat>)
    requires JoinInv(j, origin, done)
    ensures JoinInv(WithoutBias(j), origin, done)
  {
  }

  /**
    `set_join_bias` in the middle of a walk breaks the invariant: from the default controller,
    a first pick 0 and its `+8` step 8, then a bias on subband 1 for one attempt whose draw gives
    channel 7, the pool handed over (channels 0, 8 and 7 used, previous 7) is no walk at all.
  */
  lemma MidWalkBiasLeavesPoolUnreachable(origin: nat, done: set<nat>)
    ensures var r1 := NextChannel(Initial(), [0]);
            && r1.Some? && r1.value.0 == 0 && r1.value.2 == []
            && var r2 := NextChannel(r1.value.1, []);
               && r2.Some? && r2.value.0 == 8
               && var r3 := NextChannel(WithBias(r2.value.1, 1, 1), [7]);
                  && r3.Some? && r3.value.0 == 7
                  && !Reachable(r3.value.1.pool, origin, done)
  {
    var r1 := NextChannel(Initial(), [0]);
    assert r1.value.1.pool == PoolState(Full()[0 := false], Some(0));
    var r2 := NextChannel(r1.value.1, []);
    assert Full()[0 := false][8];
    assert r2.value.1.pool == PoolState(Full()[0 := false][8 := false], Some(8));
    var r3 := NextChannel(WithBias(r2.value.1, 1, 1), [7]);
    var m := r3.value.1.pool.mask;
    assert m == Full()[0 := false][8 := false][7 := false];
    assert !m[0] && m[16];
    if origin < 9 {
      assert OpenInWalk(0, 7, origin, done) == OpenInWalk(16, 7, origin, done);
    }
  }

  class JoinChannels {
    /** How many join attempts may use the preferred subband. */
    var maxRetries: nat
    /** How many join attempts have used the preferred subband. */
    var numRetries: nat
    /** The preferred subband, if any. */
    var preferredSubband: Option<Subband>
    /** The channel pool. */
    const availableChannels: AvailableChannels

    ghost function State(): JoinState
      reads this, availableChannels
    {
      JoinState(maxRetries, numRetries, preferredSubband, availableChannels.State())
    }

    /** `JoinChannels::default()`. */
    constructor ()
      ensures State() == Initial() && fresh(availableChannels)
    {
      maxRetries := 0;
      numRetries := 0;
      preferredSubband := None;
      availableChannels := new AvailableChannels();
    }

    /** `set_join_bias`; only the bias fields change. */
    method SetJoinBias(subband: Subband, max: nat)
      modifies this
      ensures preferredSubband == Some(subband) && maxRetries == max
      ensures numRetries == old(numRetries) && unchanged(availableChannels)
      ensures State() == WithBias(old(State()), subband, max)
    {
      preferredSubband := Some(subband);
      maxRetries := max;
    }

    /** `clear_join_bias`; only the bias fields change. */
    method ClearJoinBias()
      modifies this
      ensures preferredSubband == None && maxRetries == 0
      ensures numRetries == old(numRetries) && unchanged(availableChannels)
      ensures State() == WithoutBias(old(State()))
    {
      preferredSubband := None;
      maxRetries := 0;
    }

    /**
      `reset`: no biased attempts made and the pool back to its default (the source assigns a
      default pool; the model resets the one pool object in place, which gives the same value).
    */
    method Reset()
      modifies this, availableChannels
      ensures numRetries == 0 && availableChannels.State() == Default()
      ensures preferredSubband == old(preferredSubband) && maxRetries == old(maxRetries)
      ensures State() == ResetState(old(State()))
    {
      numRetries := 0;
      availableChannels.Reset();
    }

    /**
      `get_next_channel`. `None` when the supplied stream ran out; otherwise the result and the
      new state are those of `NextChannel`.
    */
    method GetNextChannel(rng: Rng) returns (r: Option<Channel>)
      modifies this, availableChannels, rng
      ensures r.Some? <==> NextChannel(old(State()), old(rng.pending)).Some?
      ensures r.Some? ==> NextChannel(old(State()), old(rng.pending)) == Some((r.value, State(), rng.pending))
      ensures numRetries == if Biased(old(State())) then old(numRetries) + 1 else old(numRetries)
      ensures maxRetries == old(maxRetries) && preferredSubband == old(preferredSubband)
      ensures Biased(old(State())) && numRetries < maxRetries ==> unchanged(availableChannels)
    {
      if preferredSubband.Some? && numRetries < maxRetries {
        numRetries := numRetries + 1;
        var draw := rng.NextU32();
        if draw.None? {
          return None;
        }
        var channel := (draw.value % 8) + (preferredSubband.value - 1) * 8;
        if numRetries == maxRetries {
          availableChannels.previous := Some(channel);
          availableChannels.data := availableChannels.data[channel := false];
        }
        r := Some(channel);
      } else {
        r := availableChannels.GetNext(rng);
      }
    }
  }
}

/**
  The invariant behind the comment in `get_next_channel_inner` that the fallback search always
  finds a channel: a cycle of picks starts in some bank (its origin) and walks one lane through
  all nine banks, one `+8` step at a time; the step after the ninth lands back on the origin,
  whose channel in that lane is used, and the search there opens a new lane in the origin bank.
  `WalkState` names this shape; `Pick` keeps it, never returns a channel already used in the
  cycle, and the origin bank keeps an enabled channel until the whole mask is exhausted.
*/
module Walk {
  import opened Wrappers
  import opened ChannelMask
  import opened Entropy
  import opened ChannelPool

  /** How many `+8` steps lead from bank `from` to bank `to`, banks cycling 0, 1, ..., 8, 0. */
  function Dist(from: nat, to: nat): (d: nat)
    requires from < 9 && to < 9
    ensures d < 9
  {
    if from <= to then to - from else to + 9 - from
  }

  /** One `+8` step goes one bank further from the origin, or back to it after the ninth bank. */
  lemma DistStep(origin: nat, p: Channel)
    requires origin < 9
    ensures Dist(origin, Bank(NextInWalk(p))) == if Dist(origin, Bank(p)) < 8 then Dist(origin, Bank(p)) + 1 else 0
  {
  }

  /** Banks at the same distance from the origin are the same bank. */
  lemma DistInjective(origin: nat, a: nat, b: nat)
    requires origin < 9 && a < 9 && b < 9 && Dist(origin, a) == Dist(origin, b)
    ensures a == b
  {
  }

  /** Whether channel `c` is still enabled in the walk described by `p`, `origin` and `done`. */
  ghost predicate OpenInWalk(c: Channel, p: Channel, origin: nat, done: set<nat>)
    requires origin < 9
  {
    if Lane(c) == Lane(p) then Dist(origin, Bank(c)) > Dist(origin, Bank(p))
    else Lane(c) !in done
  }

  /**
    The mask `m` of a cycle that started in bank `origin`, has walked the lanes in `done`
    through all nine banks, and has walked the lane of the previous pick `p` from `origin` up to
    `Bank(p)`; every other channel is enabled.
  */
  ghost predicate WalkState(m: Mask, p: Channel, origin: nat, done: set<nat>)
  {
    && origin < 9
    && Lane(p) !in done
    && (forall c: Channel :: m[c] == OpenInWalk(c, p, origin, done))
  }

  /** The pool invariant: fresh (no previous pick and every channel enabled), or walking. */
  ghost predicate Reachable(s: PoolState, origin: nat, done: set<nat>)
  {
    match s.previous
    case None => forall c: Channel :: s.mask[c]
    case Some(p) => WalkState(s.mask, p, origin, done)
  }

  /** The walk parameters after `c` has been picked from `s`. */
  ghost function NextWalk(s: PoolState, origin: nat, done: set<nat>, c: Channel): (nat, set<nat>)
    requires origin < 9
  {
    match Restarted(s).previous
    case None => (Bank(c), {})
    case Some(p) =>
      if Dist(origin, Bank(p)) < 8 then (origin, done) else (origin, done + {Lane(p)})
  }

  /** The first pick of a cycle starts a walk in its own bank. */
  lemma FreshPickStartsWalk(m: Mask, c: Channel)
    requires forall d: Channel :: m[d]
    ensures WalkState(m[c := false], c, Bank(c), {})
  {
    forall d: Channel
      ensures m[c := false][d] == OpenInWalk(d, c, Bank(c), {})
    {
      if Lane(d) == Lane(c) && Bank(d) == Bank(c) {
        ChannelOfBankLane(c, d);
      }
    }
  }

  /** Before the lane is walked through, the `+8` step is enabled and extends the walk by one bank. */
  lemma PairedStepExtendsWalk(m: Mask, p: Channel, origin: nat, done: set<nat>)
    requires WalkState(m, p, origin, done) && Dist(origin, Bank(p)) < 8
    ensures m[NextInWalk(p)]
    ensures Dist(origin, Bank(NextInWalk(p))) == Dist(origin, Bank(p)) + 1
    ensures WalkState(m[NextInWalk(p) := false], NextInWalk(p), origin, done)
  {
    var n := NextInWalk(p);
    DistStep(origin, p);
    forall c: Channel
      ensures m[n := false][c] == OpenInWalk(c, n, origin, done)
    {
      if Lane(c) == Lane(p) && Dist(origin, Bank(c)) == Dist(origin, Bank(n)) {
        DistInjective(origin, Bank(c), Bank(n));
        ChannelOfBankLane(c, n);
      }
    }
  }

  /** After the ninth bank of the lane, the `+8` step lands on the used channel of the origin bank. */
  lemma WrapLandsOnOrigin(m: Mask, p: Channel, origin: nat, done: set<nat>)
    requires WalkState(m, p, origin, done) && Dist(origin, Bank(p)) == 8
    ensures !m[NextInWalk(p)] && Bank(NextInWalk(p)) == origin
  {
    DistStep(origin, p);
    assert m[NextInWalk(p)] == OpenInWalk(NextInWalk(p), p, origin, done);
  }

  /**
    The comment of `get_next_channel_inner` made precise: when the `+8` step is disabled and the
    mask is not exhausted, the bank the step landed in still has an enabled channel.
  */
  lemma FallbackBankHasChannel(m: Mask, p: Channel, origin: nat, done: set<nat>)
    requires WalkState(m, p, origin, done) && !AllZero(m) && !m[NextInWalk(p)]
    ensures exists lane :: 0 <= lane < 8 && m[ChannelAt(Bank(NextInWalk(p)), lane)]
  {
    var n := NextInWalk(p);
    DistStep(origin, p);
    assert m[n] == OpenInWalk(n, p, origin, done);
    assert Dist(origin, Bank(p)) == 8;
    var w: Channel :| m[w];
    assert m[w] == OpenInWalk(w, p, origin, done);
    var x := ChannelAt(Bank(n), Lane(w));
    assert m[x] == OpenInWalk(x, p, origin, done);
  }

  /** The fallback pick opens a new lane in the origin bank; the finished lane joins `done`. */
  lemma FallbackStartsNewLane(m: Mask, p: Channel, origin: nat, done: set<nat>, c: Channel)
    requires WalkState(m, p, origin, done) && Dist(origin, Bank(p)) == 8
    requires m[c] && Bank(c) == origin
    ensures Lane(c) != Lane(p) && Lane(c) !in done
    ensures WalkState(m[c := false], c, origin, done + {Lane(p)})
  {
    assert m[c] == OpenInWalk(c, p, origin, done);
    forall d: Channel
      ensures m[c := false][d] == OpenInWalk(d, c, origin, done + {Lane(p)})
    {
      assert m[d] == OpenInWalk(d, p, origin, done);
      if Lane(d) == Lane(c) && Bank(d) == Bank(c) {
        ChannelOfBankLane(c, d);
      }
    }
  }

  /**
    Never repeating: from a reachable pool, `get_next` picks a channel not used yet in the cycle
    (enabled in the mask it picks from), and the pool stays reachable.
  */
  lemma PickPreservesWalk(s: PoolState, origin: nat, done: set<nat>, rest: seq<U32>)
    requires origin < 9 && Reachable(s, origin, done) && Pick(s, rest).Some?
    ensures var (c, s', _) := Pick(s, rest).value;
            && Restarted(s).mask[c]
            && var (origin', done') := NextWalk(s, origin, done, c);
               Reachable(s', origin', done')
  {
    var t := Restarted(s);
    var (c, s', _) := Pick(s, rest).value;
    match t.previous
    case None =>
      FreshPickStartsWalk(t.mask, c);
    case Some(p) =>
      WalkPickIsEnabled(t, rest);
      if Dist(origin, Bank(p)) < 8 {
        PairedStepExtendsWalk(t.mask, p, origin, done);
      } else {
        WrapLandsOnOrigin(t.mask, p, origin, done);
        FallbackStartsNewLane(t.mask, p, origin, done, c);
      }
  }

  /**
    A cycle ends exactly when every lane has been walked through all nine banks: the mask of a
    walk is exhausted iff the current lane is complete and all seven other lanes are in `done`.
  */
  lemma ExhaustedIffAllLanesWalked(m: Mask, p: Channel, origin: nat, done: set<nat>)
    requires WalkState(m, p, origin, done)
    ensures AllZero(m) <==> Dist(origin, Bank(p)) == 8 && forall o :: 0 <= o < 8 && o != Lane(p) ==> o in done
  {
    if AllZero(m) {
      var n := NextInWalk(p);
      DistStep(origin, p);
      assert m[n] == OpenInWalk(n, p, origin, done);
      forall o | 0 <= o < 8 && o != Lane(p)
        ensures o in done
      {
        var x := ChannelAt(0, o);
        assert m[x] == OpenInWalk(x, p, origin, done);
      }
    } else if Dist(origin, Bank(p)) == 8 && forall o :: 0 <= o < 8 && o != Lane(p) ==> o in done {
      var w: Channel :| m[w];
      assert m[w] == OpenInWalk(w, p, origin, done);
    }
  }

  /**
    Outside the walk invariant the fallback search can stall: in a pool whose previous pick `p`
    in the 500 kHz bank steps to the cleared bank 0 while lane 0 of banks 2-8 is still enabled,
    the mask is not exhausted, so no reset happens, and no stream of draws lets `get_next` return.
  */
  lemma StalledPool(p: Channel, rest: seq<U32>)
    requires Bank(p) == 8
    ensures var s := PoolState(seq(72, c => c % 8 == 0 && c >= 16), Some(p));
            !AllZero(s.mask) && Pick(s, rest) == None
  {
    var s := PoolState(seq(72, c => c % 8 == 0 && c >= 16), Some(p));
    assert s.mask[16];
    assert !s.mask[NextInWalk(p)];
    if rest != [] {
      SearchFailsOnClearedBank(s.mask, 0, rest[0], 1, rest[1..]);
    }
  }
}

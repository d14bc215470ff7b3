/**
  `AvailableChannels`, the channel pool of the join-channel selector: the mask of channels not yet
  tried in the current cycle and the channel handed out last. Each pick after the first walks
  `+8 mod 72` (same lane, next bank); when that lands on a used channel it searches the landing
  bank at random, taking 3-bit slices of one 32-bit draw; an exhausted mask starts a new cycle.

  The pure functions below give the value semantics of each operation over `PoolState`; the class
  `AvailableChannels` is the in-place version, and each of its methods is proved equal to them.
  The values still to be drawn are passed as `rest`, and every result carries what is left of it.
*/
module ChannelPool {
  import opened Wrappers
  import opened ChannelMask
  import opened Entropy

  /** The value of an `AvailableChannels`: its mask and the channel picked last. */
  datatype PoolState = PoolState(mask: Mask, previous: Option<Channel>)

  /** `AvailableChannels::default()`: every channel enabled, no previous pick. */
  function Default(): (s: PoolState)
    ensures s.previous == None && forall c: Channel :: s.mask[c]
  {
    PoolState(Full(), None)
  }

  /** The `+8` step of the walk: the same lane of the next bank, the 500 kHz bank wrapping to bank 0. */
  function NextInWalk(p: Channel): (n: Channel)
    ensures Lane(n) == Lane(p)
    ensures Bank(n) == if Bank(p) == 8 then 0 else Bank(p) + 1
  {
    (p + 8) % 72
  }

  /**
    The fallback loop of `get_next_channel_inner`. `entropy` is what is left of the cached draw,
    `used` how many 3-bit slices of it have been taken; the candidate is the lowest 3 bits of
    `entropy` in `bank`. A disabled candidate shifts the cache by 3 bits; after 10 slices a fresh
    draw replaces the cache before that shift. `None`: the supplied stream ran out first.
  */
  function Search(m: Mask, bank: nat, entropy: U32, used: nat, rest: seq<U32>): (r: Option<(Channel, seq<U32>)>)
    requires bank < 9 && 1 <= used <= 10
    ensures r.Some? ==> m[r.value.0] && Bank(r.value.0) == bank
    ensures r.Some? ==> |r.value.1| <= |rest|
    decreases |rest|, 10 - used
  {
    var channel := ChannelAt(bank, entropy % 8);
    if m[channel] then
      Some((channel, rest))
    else if used == 10 then
      if rest == [] then None else Search(m, bank, rest[0] / 8, 1, rest[1..])
    else
      Search(m, bank, entropy / 8, used + 1, rest)
  }

  /** The fallback loop takes its values from the front of the stream: what is left is a suffix. */
  lemma {:induction false} SearchDrawsFromFront(m: Mask, bank: nat, entropy: U32, used: nat, rest: seq<U32>)
    requires bank < 9 && 1 <= used <= 10
    ensures var r := Search(m, bank, entropy, used, rest);
            r.Some? ==> r.value.1 == rest[|rest| - |r.value.1|..]
    decreases |rest|, 10 - used
  {
    if !m[ChannelAt(bank, entropy % 8)] {
      if used == 10 {
        if rest != [] {
          SearchDrawsFromFront(m, bank, rest[0] / 8, 1, rest[1..]);
          var r := Search(m, bank, rest[0] / 8, 1, rest[1..]);
          if r.Some? {
            assert rest[1..][|rest| - 1 - |r.value.1|..] == rest[|rest| - |r.value.1|..];
          }
        }
      } else {
        SearchDrawsFromFront(m, bank, entropy / 8, used + 1, rest);
      }
    }
  }

  /** So does the whole fallback search, which starts with one draw of its own. */
  lemma FallbackDrawsFromFront(m: Mask, bank: nat, rest: seq<U32>)
    requires bank < 9
    ensures var r := Fallback(m, bank, rest);
            r.Some? ==> r.value.1 == rest[|rest| - |r.value.1|..]
  {
    if rest != [] {
      SearchDrawsFromFront(m, bank, rest[0], 1, rest[1..]);
      var r := Search(m, bank, rest[0], 1, rest[1..]);
      if r.Some? {
        assert rest[1..][|rest| - 1 - |r.value.1|..] == rest[|rest| - |r.value.1|..];
      }
    }
  }

  /** In a bank whose byte is zero the fallback loop finds nothing, whatever is drawn. */
  lemma {:induction false} SearchFailsOnClearedBank(m: Mask, bank: nat, entropy: U32, used: nat, rest: seq<U32>)
    requires bank < 9 && 1 <= used <= 10 && ByteIsZero(m, bank)
    ensures Search(m, bank, entropy, used, rest) == None
    decreases |rest|, 10 - used
  {
    if used == 10 {
      if rest != [] {
        SearchFailsOnClearedBank(m, bank, rest[0] / 8, 1, rest[1..]);
      }
    } else {
      SearchFailsOnClearedBank(m, bank, entropy / 8, used + 1, rest);
    }
  }

  /** The fallback search of `get_next_channel_inner` in `bank`, starting with a fresh draw. */
  function Fallback(m: Mask, bank: nat, rest: seq<U32>): (r: Option<(Channel, seq<U32>)>)
    requires bank < 9
    ensures r.Some? ==> m[r.value.0] && Bank(r.value.0) == bank && |r.value.1| < |rest|
    ensures rest == [] ==> r == None
  {
    if rest == [] then None else Search(m, bank, rest[0], 1, rest[1..])
  }

  /** `get_next_channel_inner`: the candidate for the next pick and the values left undrawn. */
  function Candidate(s: PoolState, rest: seq<U32>): (r: Option<(Channel, seq<U32>)>)
    ensures s.previous.None? ==> (r.Some? <==> rest != [])
    ensures s.previous.Some? && r.Some? ==> s.mask[r.value.0]
  {
    match s.previous
    case None =>
      if rest == [] then None else Some((rest[0] % 64, rest[1..]))
    case Some(p) =>
      var next := NextInWalk(p);
      if s.mask[next] then Some((next, rest))
      else Fallback(s.mask, Bank(next), rest)
  }

  /** The pool `get_next` works on: the default one when the mask is exhausted, else `s` itself. */
  function Restarted(s: PoolState): (t: PoolState)
    ensures AllZero(s.mask) ==> t == Default()
    ensures !AllZero(s.mask) ==> t == s
    ensures !AllZero(t.mask)
  {
    if AllZero(s.mask) then
      assert Default().mask[0];
      Default()
    else s
  }

  /** `get_next`: the channel picked, the pool afterwards and the values left undrawn. */
  function Pick(s: PoolState, rest: seq<U32>): (r: Option<(Channel, PoolState, seq<U32>)>)
    ensures r.Some? ==> r.value.1.previous == Some(r.value.0) && !r.value.1.mask[r.value.0]
  {
    var t := Restarted(s);
    match Candidate(t, rest)
    case None => None
    case Some((c, rest')) => Some((c, PoolState(t.mask[c := false], Some(c)), rest'))
  }

  /** A first pick (no previous channel) is the low 6 bits of one draw, so never a 500 kHz channel. */
  lemma FreshPickIsNarrow(s: PoolState, rest: seq<U32>)
    requires s.previous == None && rest != []
    ensures Candidate(s, rest) == Some((rest[0] % 64, rest[1..]))
    ensures Candidate(s, rest).value.0 < 64
  {
  }

  /** Whenever `(previous + 8) % 72` is still enabled, it is picked and nothing is drawn. */
  lemma PairedStep(s: PoolState, rest: seq<U32>)
    requires s.previous.Some? && s.mask[(s.previous.value + 8) % 72]
    ensures Candidate(s, rest) == Some(((s.previous.value + 8) % 72, rest))
  {
  }

  /**
    Once a previous channel is set, every pick is a channel still enabled in the mask, and a pick
    other than the `+8` step lies in the bank the step landed in.
  */
  lemma WalkPickIsEnabled(s: PoolState, rest: seq<U32>)
    requires s.previous.Some? && Candidate(s, rest).Some?
    ensures s.mask[Candidate(s, rest).value.0]
    ensures var next := (s.previous.value + 8) % 72;
            !s.mask[next] ==> Bank(Candidate(s, rest).value.0) == Bank(next)
  {
  }

  /**
    Bookkeeping of `get_next`: an exhausted mask is first reset to the default; afterwards the
    picked channel is disabled and is the previous channel, and every other flag is as before
    (as after the reset, when there was one).
  */
  lemma GetNextBookkeeping(s: PoolState, rest: seq<U32>)
    requires Pick(s, rest).Some?
    ensures var (c, s', _) := Pick(s, rest).value;
            && s'.previous == Some(c) && !s'.mask[c]
            && (forall d: Channel :: d != c ==> s'.mask[d] == (AllZero(s.mask) || s.mask[d]))
  {
  }

  /** An exhausted pool starts a fresh cycle: the pick is the low 6 bits of the next draw. */
  lemma ExhaustedPoolRestarts(s: PoolState, rest: seq<U32>)
    requires AllZero(s.mask) && rest != []
    ensures Pick(s, rest).Some?
    ensures var (c, s', rest') := Pick(s, rest).value;
            && c == rest[0] % 64 && c < 64 && rest' == rest[1..]
            && s' == PoolState(Full()[c := false], Some(c))
  {
  }

  class AvailableChannels {
    /** The channels not tried yet in this cycle. */
    var data: Mask
    /** The channel handed out last, if any. */
    var previous: Option<Channel>

    ghost function State(): PoolState
      reads this
    {
      PoolState(data, previous)
    }

    /** `AvailableChannels::default()`. */
    constructor ()
      ensures State() == Default()
    {
      data := Full();
      previous := None;
    }

    /** `is_exhausted`: scans the mask byte by byte for a set bit. */
    method IsExhausted() returns (b: bool)
      ensures b <==> forall c: Channel :: !data[c]
    {
      for i := 0 to 9
        invariant forall c: Channel :: Bank(c) < i ==> !data[c]
      {
        if !ByteIsZero(data, i) {
          return false;
        }
        assert forall c: Channel :: Bank(c) == i ==> c == ChannelAt(i, Lane(c));
      }
      return true;
    }

    /** `reset`: back to the default pool. */
    method Reset()
      modifies this
      ensures State() == Default()
    {
      data := Full();
      previous := None;
    }

    /**
      `get_next_channel_inner`: the candidate for the next pick; changes only the generator.
      `None` when the supplied stream ran out before a candidate was found.
    */
    method GetNextChannelInner(rng: Rng) returns (r: Option<Channel>)
      modifies rng
      ensures r.Some? <==> Candidate(State(), old(rng.pending)).Some?
      ensures r.Some? ==> Candidate(State(), old(rng.pending)) == Some((r.value, rng.pending))
    {
      if previous.Some? {
        var next := (previous.value + 8) % 72;
        assert next == NextInWalk(previous.value);
        if data[next] {
          return Some(next);
        }
        r := SearchBank(next / 8, rng);
      } else {
        var draw := rng.NextU32();
        if draw.None? {
          return None;
        }
        return Some(draw.value % 64);
      }
    }

    /**
      The fallback loop of `get_next_channel_inner`: draws until a 3-bit slice of the cached draw
      names an enabled channel of `bank`; changes only the generator. `None` when the supplied
      stream ran out first.
    */
    method SearchBank(bank: nat, rng: Rng) returns (r: Option<Channel>)
      requires bank < 9
      modifies rng
      ensures r.Some? <==> Fallback(data, bank, old(rng.pending)).Some?
      ensures r.Some? ==> Fallback(data, bank, old(rng.pending)) == Some((r.value, rng.pending))
    {
      ghost var goal := Fallback(data, bank, rng.pending);
      var draw := rng.NextU32();
      if draw.None? {
        return None;
      }
      var entropy: U32 := draw.value;
      var channel := (entropy % 8) + bank * 8;
      var used := 1;
      while !data[channel]
        invariant 1 <= used <= 10
        invariant channel == ChannelAt(bank, entropy % 8)
        invariant Search(data, bank, entropy, used, rng.pending) == goal
        decreases |rng.pending|, 10 - used
      {
        if used == 10 {
          draw := rng.NextU32();
          if draw.None? {
            return None;
          }
          entropy := draw.value;
          used := 0;
        }
        entropy := entropy / 8;
        used := used + 1;
        channel := (entropy % 8) + bank * 8;
      }
      return Some(channel);
    }

    /**
      `get_next`: resets an exhausted pool, picks the next channel, disables it and records it as
      the previous channel.
    */
    method GetNext(rng: Rng) returns (r: Option<Channel>)
      modifies this, rng
      ensures r.Some? <==> Pick(old(State()), old(rng.pending)).Some?
      ensures r.Some? ==> Pick(old(State()), old(rng.pending)) == Some((r.value, State(), rng.pending))
      ensures r.Some? ==> previous == r && !data[r.value]
      ensures r.Some? ==> forall d: Channel :: d != r.value ==> data[d] == (AllZero(old(data)) || old(data)[d])
    {
      var exhausted := IsExhausted();
      if exhausted {
        Reset();
      }
      r := GetNextChannelInner(rng);
      if r.Some? {
        data := data[r.value := false];
        previous := r;
      }
    }
  }
}

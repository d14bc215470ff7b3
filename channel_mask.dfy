/**
  The 72-slot channel mask of the fixed channel plans (US915/AU915). Channels 0-63 are the
  eight banks (subbands 1-8) of 125 kHz channels, channels 64-71 the bank of 500 kHz channels.
  The mask stands for `ChannelMask<9>`: nine bytes, one bit per channel, a set bit meaning the
  channel may still be chosen. Only what the selector uses of it is modelled: reading a bit,
  clearing a bit (`m[c := false]`), the all-enabled default and the bytes as they are scanned.
*/
module ChannelMask {

  /** A channel index of the plan. */
  type Channel = c: int | 0 <= c < 72

  /** One flag per channel, `true` = enabled. */
  type Mask = m: seq<bool> | |m| == 72 witness seq(72, _ => true)

  /** The bank of eight channels a channel is in: 0-7 are subbands 1-8, 8 is the 500 kHz bank. */
  function Bank(c: Channel): (b: nat)
    ensures b < 9
  {
    c / 8
  }

  /** The position of a channel inside its bank; channels with one lane and 9 banks form a walk. */
  function Lane(c: Channel): (o: nat)
    ensures o < 8
  {
    c % 8
  }

  /** The channel at a given lane of a given bank, `lane + bank * 8`. */
  function ChannelAt(bank: nat, lane: nat): (c: Channel)
    requires bank < 9 && lane < 8
    ensures Bank(c) == bank && Lane(c) == lane
  {
    lane + bank * 8
  }

  /** A channel is determined by its bank and lane. */
  lemma ChannelOfBankLane(c: Channel, d: Channel)
    requires Bank(c) == Bank(d) && Lane(c) == Lane(d)
    ensures c == d
  {
  }

  /** `ChannelMask::default()`: every channel enabled. */
  function Full(): (m: Mask)
    ensures forall c: Channel :: m[c]
  {
    seq(72, _ => true)
  }

  /** No channel is enabled any more. */
  predicate AllZero(m: Mask) {
    forall c: Channel :: !m[c]
  }

  /** Byte `i` of the mask (holding the flags of bank `i`) is zero. */
  predicate ByteIsZero(m: Mask, i: nat)
    requires i < 9
  {
    forall j | 0 <= j < 8 :: !m[ChannelAt(i, j)]
  }
}

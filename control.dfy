/**
 * The control word a peer writes to the `control` characteristic, and its
 * fixed bit layout (bit 0 is the least significant):
 *
 *   bits  0-15  notify interval in milliseconds
 *   bits 16-23  notify prefix
 *   bits 24-39  indicate interval in milliseconds
 *   bits 40-47  indicate prefix
 *   bits 48-63  ignored
 *
 * Rust's `u8`, `u16` and `u64` are modelled as bit-vectors of the same width,
 * so shifts, masks, truncating casts and wrapping additions keep their meaning.
 */
module Control {
  type U8 = bv8
  type U16 = bv16
  type U64 = bv64

  /** The tunable shape of one stream: a tag byte and the emission interval. */
  datatype StreamConfig = StreamConfig(prefix: U8, intervalMs: U16)

  /** What one control word carries: one configuration per stream. */
  datatype Decoded = Decoded(notify: StreamConfig, indicate: StreamConfig)

  const NotifyDefault := StreamConfig(0x28, 100)
  const IndicateDefault := StreamConfig(0x28, 1000)

  /** The 48 bits of a control word that carry data. */
  const PayloadMask: U64 := 0x0000_FFFF_FFFF_FFFF

  /** The word a peer writes to ask for `d`, with the ignored bits zero. */
  function Encode(d: Decoded): U64
  {
    (d.notify.intervalMs as U64)
    | ((d.notify.prefix as U64) << 16)
    | ((d.indicate.intervalMs as U64) << 24)
    | ((d.indicate.prefix as U64) << 40)
  }

  /**
   * The field extraction of `handle_control_write`. Every control word
   * decodes, and the result is the one pair of configurations whose encoding
   * is the word's 48 data bits.
   */
  function Decode(value: U64): (d: Decoded)
    ensures Encode(d) == value & PayloadMask
  {
    Decoded(
      StreamConfig(((value >> 16) & 0xFF) as U8, (value & 0xFFFF) as U16),
      StreamConfig(((value >> 40) & 0xFF) as U8, ((value >> 24) & 0xFFFF) as U16))
  }

  /** Decoding recovers every pair of configurations a peer can encode. */
  lemma DecodeEncode(d: Decoded)
    ensures Decode(Encode(d)) == d
  {
  }

  /** Bits 48-63 never affect the result. */
  lemma ReservedBitsIgnored(v: U64, w: U64)
    requires v & PayloadMask == w & PayloadMask
    ensures Decode(v) == Decode(w)
  {
    DecodeEncode(Decode(v));
    DecodeEncode(Decode(w));
  }

  /** An example control word: notify {0x28, 100 ms} and indicate {0x28, 200 ms}. */
  lemma DecodeExample()
    ensures Decode(0x0000_2800_C828_0064)
         == Decoded(StreamConfig(0x28, 100), StreamConfig(0x28, 200))
  {
  }
}

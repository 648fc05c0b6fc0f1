// Unpacking of Go's userspace device numbers (libdevice/number.go).  A Go
// `int` device number is its 64-bit two's-complement pattern, and the
// results are kept as bit patterns too.  Go shifts arithmetically, but every
// bit that differs from a logical shift is masked off, so logical shifts on
// `bv64` give the same results.
module DevNumber {
  import opened DeviceTypes

  /** `Major`: bits 8..19 of the device number. */
  function Major(dev: bv64): (r: bv64)
    ensures r < 0x1000
    ensures r == (dev & 0xf_ff00) >> 8
  {
    (dev >> 8) & 0xfff
  }

  /** `Minor`: bits 0..7, followed by bits 20..31 moved down to 8..19. */
  function Minor(dev: bv64): (r: bv64)
    ensures r < 0x10_0000
    ensures r == (dev & 0xff) | ((dev & 0xfff0_0000) >> 12)
  {
    (dev & 0xff) | ((dev >> 12) & 0xf_ff00)
  }

  /** Unpacking what `Mkdev` packed gives back both numbers, for a major
    * number below 4096 and a minor number below 2^20. */
  lemma MkdevRoundTrip(d: Device)
    requires IsInt64(d.major) && IsInt64(d.minor)
    requires ToBits(d.major) < 0x1000 && ToBits(d.minor) < 0x10_0000
    ensures Major(Mkdev(d)) == ToBits(d.major)
    ensures Minor(Mkdev(d)) == ToBits(d.minor)
  {
    PackUnpack(ToBits(d.major), ToBits(d.minor));
  }

  lemma PackUnpack(M: bv64, m: bv64)
    requires M < 0x1000 && m < 0x10_0000
    ensures var dev := (M << 8) | (m & 0xff) | ((m & 0xf_ff00) << 12);
      Major(dev) == M && Minor(dev) == m
  {
  }

  /** `Major` depends only on bits 8..19 ... */
  lemma MajorBits(x: bv64, y: bv64)
    requires x & 0xf_ff00 == y & 0xf_ff00
    ensures Major(x) == Major(y)
  {
  }

  /** ... and `Minor` only on bits 0..7 and 20..31, so the two read disjoint
    * ranges: rewriting the major bits of a number leaves its minor alone. */
  lemma MinorIgnoresMajorBits(x: bv64, major: bv64)
    requires major < 0x1000
    ensures Minor((x & !0xf_ff00) | (major << 8)) == Minor(x)
    ensures Major((x & !0xf_ff00) | (major << 8)) == major
  {
  }
}

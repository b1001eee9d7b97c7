/** The port writer of the 7-segment display driver. A segment mask is split over two
    8-bit output registers: mask bits 0-1 drive PORTB bits 0-1 (PB0-1) and mask bits 2-7
    drive PORTD bits 2-7 (PD2-7). Every other register bit belongs to something else (PD0-1
    are the serial port's TX and RX pins) and must keep its value. */
module PortWriter {
  import opened SegmentTable

  /** A C `char`: signed, 8 bits. */
  newtype int8 = x: int | -128 <= x < 128

  /** A C `uint8_t`. */
  newtype uint8 = x: int | 0 <= x < 256

  /** The PORTB bits that drive segments. */
  const PortBPins: bv8 := 0x03

  /** The PORTD bits that drive segments. */
  const PortDPins: bv8 := 0xFC

  /** The two output registers, as a value. */
  datatype PortState = PortState(portB: bv8, portD: bv8)

  /** Register reg after its pins bits are cleared and then set from mask. */
  function Merge(reg: bv8, mask: bv8, pins: bv8): (r: bv8)
    ensures r & pins == mask & pins
    ensures r & !pins == reg & !pins
  {
    (reg & !pins) | (mask & pins)
  }

  /** The registers after mask is shown on the display. */
  function Write(s: PortState, mask: bv8): (r: PortState)
    ensures r.portB & PortBPins == mask & PortBPins
    ensures r.portD & PortDPins == mask & PortDPins
    ensures r.portB & !PortBPins == s.portB & !PortBPins
    ensures r.portD & !PortDPins == s.portD & !PortDPins
  {
    PortState(Merge(s.portB, mask, PortBPins), Merge(s.portD, mask, PortDPins))
  }

  /** The mask the registers currently show: PORTB bits 0-1 and PORTD bits 2-7 put together.
      It is the one mask whose Write leaves the registers as they are. */
  function Shown(s: PortState): (m: bv8)
    ensures Write(s, m) == s
    ensures forall other: bv8 :: Write(s, other) == s ==> other == m
  {
    (s.portB & PortBPins) | (s.portD & PortDPins)
  }

  /** Splitting a mask over the two registers loses nothing: the mask can be read back. */
  lemma WriteLossless(s: PortState, mask: bv8)
    ensures Shown(Write(s, mask)) == mask
  {
  }

  /** The glyph of 'H' lands as PB1 set, PB0 clear and PD2-7 = 110101. */
  lemma ShowH(s: PortState)
    ensures Ascii['H' as int] == 0xD6
    ensures Write(s, Ascii['H' as int]).portB & PortBPins == 0x02
    ensures Write(s, Ascii['H' as int]).portD & PortDPins == 0xD4
  {
  }

  /** Showing a mask is determined by the mask and the non-segment bits alone: whatever the
      segment bits were before, they are overwritten. */
  lemma WriteForgetsSegments(s: PortState, t: PortState, mask: bv8)
    requires s.portB & !PortBPins == t.portB & !PortBPins
    requires s.portD & !PortDPins == t.portD & !PortDPins
    ensures Write(s, mask) == Write(t, mask)
  {
  }

  /** Showing the same mask twice leaves the registers as showing it once. */
  lemma WriteIdempotent(s: PortState, mask: bv8)
    ensures Write(Write(s, mask), mask) == Write(s, mask)
  {
  }

  /** The last mask shown wins. */
  lemma WriteLastWins(s: PortState, first: bv8, second: bv8)
    ensures Write(Write(s, first), second) == Write(s, second)
  {
  }

  /** Different masks leave different register states. */
  lemma WriteInjective(s: PortState, m1: bv8, m2: bv8)
    requires Write(s, m1) == Write(s, m2)
    ensures m1 == m2
  {
  }

  /** The registers after the masks are shown one after another, as a caller that prints
      a run of glyphs or animation frames leaves them. */
  function WriteAll(s: PortState, masks: seq<bv8>): (r: PortState)
    ensures r.portB & !PortBPins == s.portB & !PortBPins
    ensures r.portD & !PortDPins == s.portD & !PortDPins
    ensures masks == [] ==> r == s
    ensures masks != [] ==> Shown(r) == masks[|masks| - 1]
    decreases |masks|
  {
    if masks == [] then s else WriteAll(Write(s, masks[0]), masks[1..])
  }

  /** However many masks were shown before, only the last one matters. */
  lemma WriteAllLastWins(s: PortState, masks: seq<bv8>)
    requires masks != []
    ensures WriteAll(s, masks) == Write(s, masks[|masks| - 1])
  {
  }

  /** PORTB and PORTD of the microcontroller, updated in place by the four print routines. */
  class Ports {
    var portB: bv8
    var portD: bv8

    function State(): PortState
      reads this
    {
      PortState(portB, portD)
    }

    constructor (b: bv8, d: bv8)
      ensures State() == PortState(b, d)
    {
      portB, portD := b, d;
    }

    /** Shows the glyph of ASCII character chr. */
    method PrintChar(chr: int8)
      requires 0 <= chr as int < AsciiLen
      modifies this
      ensures State() == Write(old(State()), Ascii[chr as int])
    {
      var pdreg := Ascii[chr as int];
      portB := portB & 0xFC;
      portD := portD & 0x03;
      portB := portB | (pdreg & 0x03);
      portD := portD | (pdreg & 0xFC);
    }

    /** Shows decimal digit num; any num above 9 leaves both registers alone. */
    method PrintDigit(num: uint8)
      modifies this
      ensures num <= 9 ==> State() == Write(old(State()), Ascii['0' as int + num as int])
      ensures num > 9 ==> State() == old(State())
    {
      if 0 <= num <= 9 {
        var pdreg := Ascii['0' as int + num as int];
        portB := portB & 0xFC;
        portD := portD & 0x03;
        portB := portB | (pdreg & 0x03);
        portD := portD | (pdreg & 0xFC);
      }
    }

    /** Shows table entry idx, whatever character it stands for. */
    method PrintIndex(idx: uint8)
      requires idx as int < AsciiLen
      modifies this
      ensures State() == Write(old(State()), Ascii[idx as int])
    {
      var pdreg := Ascii[idx as int];
      portB := portB & 0xFC;
      portD := portD & 0x03;
      portB := portB | (pdreg & 0x03);
      portD := portD | (pdreg & 0xFC);
    }

    /** Shows frame idx of the snake animation. */
    method PrintSnake(idx: uint8)
      requires idx as int < SnakeLen
      modifies this
      ensures State() == Write(old(State()), Snake[idx as int])
    {
      var pdreg := Snake[idx as int];
      portB := portB & 0xFC;
      portD := portD & 0x03;
      portB := portB | (pdreg & 0x03);
      portD := portD | (pdreg & 0xFC);
    }
  }
}

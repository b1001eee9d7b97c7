# 7-segment display driver (bmp7seg.h)

This project models the 7-segment LED display driver in `fun-christmas-projects/bmp7seg.h`.
The driver has two parts.

- **Constant glyph tables.** `bmpAscii` gives an 8-bit segment mask for each ASCII code 0..126.
  A character with no 7-segment shape gets the sentinel `NOTDEF`, which is the decimal point
  alone (0x20). `bmpSnake` holds the six frames of a one-segment "snake" animation.
- **Port writer.** `printChar`, `printDigit`, `printIndex` and `printSnake` each look up a mask.
  Each then does a read-modify-write on the two output registers. Mask bits 0-1 go to PORTB
  bits 0-1, and mask bits 2-7 go to PORTD bits 2-7. Every other register bit keeps its value.
  PD0-1 are the serial port's TX and RX pins.

Module `SegmentTable` (SegmentTable.dfy) holds the tables as constant `seq<bv8>` values. The
ASCII table is written as seven rows of sixteen codes and a last row of fifteen, like an ASCII
chart. `HasGlyph` is an independent definition of which characters the display can draw. The
lemmas tie the table to it.

Module `PortWriter` (PortWriter.dfy) holds the port writer. `Write` is the specification of one
read-modify-write on a `PortState` value. `Shown` is its inverse: the mask the registers show.
The class `Ports` holds the registers as the `bv8` fields `portB` and `portD`. Each of its four
methods performs the source's four assignments in order: clear, clear, OR in, OR in. Each is
proved to leave `Write(old(State()), mask)` for the mask it looks up.

The C parameter types are modelled as newtypes. `char` becomes `int8` (signed) and `uint8_t`
becomes `uint8`. The C source reads out of bounds when `printChar`, `printIndex` or `printSnake`
gets an index past the end of its table. That is undefined behaviour, so it appears here as a
`requires` bound. `printDigit` has a real guard: for `num > 9` it does nothing, and the model
does the same.

Facts about the tables that are easy to get wrong:

- The ASCII table has 127 entries (codes 0..126). There is no entry for DEL (127).
- The snake frames light bits 3,4,1,0,7,2, in that order (`SnakeOrder`).
- 'H' is 0xD6 (11010110). 0xD4 (11010100) is the glyph of 'h'. `ShowH` states how 0xD6 is
  split over the registers.

## Model

| member | source | states |
|---|---|---|
| SegmentTable.TableLengths | fun-christmas-projects/bmp7seg.h:156-178 | `AsciiLen` (`bmpAsciiLen`, :156) is 127 and `SnakeLen` (`bmpSnakeLen`, :178) is 6 |
| SegmentTable.ControlCodesUndefined | fun-christmas-projects/bmp7seg.h:28-59 | every code 0..31 maps to the sentinel |
| SegmentTable.SentinelIsDecimalPoint | fun-christmas-projects/bmp7seg.h:26-74 | `NotDef` (`NOTDEF`, :26) is 0x20, the same mask as the glyph of '.' (`Ascii[46]`, :74) |
| SegmentTable.SentinelPositions | fun-christmas-projects/bmp7seg.h:26-155 | for every code below 127, the entry of `Ascii` (`bmpAscii`, :27-155) is `NotDef` (:26) if and only if the character has no glyph (by the independent `HasGlyph`) or is '.' |
| SegmentTable.DigitsHaveGlyphs | fun-christmas-projects/bmp7seg.h:76-85 | no digit '0'..'9' shows the sentinel |
| SegmentTable.SnakeFramesOneHot | fun-christmas-projects/bmp7seg.h:170-177 | frame i of `Snake` (`bmpSnake`, :170-177) has bit `SnakeOrder[i]` set and no other bit, with `SnakeOrder` = 3,4,1,0,7,2 |
| SegmentTable.SnakeFramesDistinct | fun-christmas-projects/bmp7seg.h:170-177 | the six frames, and the bits they light, are pairwise distinct |
| PortWriter.Merge | fun-christmas-projects/bmp7seg.h:184-187 | after clearing and OR-ing one register, its pin bits equal the mask's and its other bits equal the old register's |
| PortWriter.Write | fun-christmas-projects/bmp7seg.h:180-187 | PORTB bits 0-1 and PORTD bits 2-7 come from the mask; PORTB bits 2-7 and PORTD bits 0-1 keep their old values |
| PortWriter.Shown | fun-christmas-projects/bmp7seg.h:180-187 | the mask read back from the registers is the one mask whose write leaves them as they are |
| PortWriter.WriteLossless | fun-christmas-projects/bmp7seg.h:186-187 | the mask read back after a write is the mask written |
| PortWriter.WriteForgetsSegments | fun-christmas-projects/bmp7seg.h:184-187 | two states that agree on the non-segment bits are equal after the same write |
| PortWriter.WriteIdempotent | fun-christmas-projects/bmp7seg.h:184-187 | writing the same mask twice leaves the state of writing it once |
| PortWriter.WriteLastWins | fun-christmas-projects/bmp7seg.h:184-187 | writing a then b leaves the state of writing b alone |
| PortWriter.WriteInjective | fun-christmas-projects/bmp7seg.h:186-187 | different masks leave different register states |
| PortWriter.WriteAll | fun-christmas-projects/bmp7seg.h:184-187 | after any run of writes, PORTB bits 2-7 and PORTD bits 0-1 still hold their original values, and the registers show the last mask (an empty run changes nothing) |
| PortWriter.WriteAllLastWins | fun-christmas-projects/bmp7seg.h:184-187 | a non-empty run of writes leaves the state of writing its last mask alone |
| PortWriter.ShowH | fun-christmas-projects/bmp7seg.h:100 | 'H' is 0xD6; after it is written, PORTB bits 0-1 are 10 and PORTD bits 2-7 are 110101 |
| PortWriter.Ports.PrintChar | fun-christmas-projects/bmp7seg.h:182-188 | for 0 <= chr < 127 the registers become `Write(old, Ascii[chr])` |
| PortWriter.Ports.PrintDigit | fun-christmas-projects/bmp7seg.h:192-200 | for num <= 9 the registers become `Write(old, Ascii['0' + num])`, which is `PrintChar('0' + num)`; for num > 9 both registers are unchanged |
| PortWriter.Ports.PrintIndex | fun-christmas-projects/bmp7seg.h:204-210 | for idx < 127 the registers become `Write(old, Ascii[idx])`, which is `PrintChar(idx)` |
| PortWriter.Ports.PrintSnake | fun-christmas-projects/bmp7seg.h:214-220 | for idx < 6 the registers become `Write(old, Snake[idx])` |

## Left out

- `PROGMEM` and `pgm_read_byte` (AVR flash-memory access): the tables are ordinary constant sequences.
- The pin and segment wiring diagram in the header comment: it documents hardware, not behaviour.
- The commented-out "double snake" table: it is not compiled.
- Atomicity of the read-modify-write against interrupts: there is no concurrency in the model.
- Out-of-bounds reads (a `char` of 127 or more, a negative `char`, a snake index of 6 or more):
  undefined behaviour in C, excluded by `requires` bounds.
- Hardware side effects of a register write (the LEDs lighting up): the registers are plain fields.

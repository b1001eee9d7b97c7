/** The constant glyph tables of the 7-segment display driver.
    A glyph is an 8-bit segment mask: bit k of the mask lights the segment wired
    to port bit k (bits 0-1 on PORTB, bits 2-7 on PORTD). */
module SegmentTable {

  /** The mask shown for a character that has no 7-segment shape: the decimal point alone. */
  const NotDef: bv8 := 0x20

  /** Glyph of every ASCII code 0..126, indexed by code. There is no entry for DEL (127).
      The table is written as rows of sixteen codes, as in an ASCII chart. */
  const Ascii: seq<bv8> := ((Row00 + Row10) + (Row20 + Row30)) + ((Row40 + Row50) + (Row60 + Row70))

  /** Codes 0x00..0x0F: control codes. */
  const Row00: seq<bv8> := [
    NotDef, NotDef, NotDef, NotDef, NotDef, NotDef, NotDef, NotDef,
    NotDef, NotDef, NotDef, NotDef, NotDef, NotDef, NotDef, NotDef
  ]

  /** Codes 0x10..0x1F: control codes. */
  const Row10: seq<bv8> := [
    NotDef, NotDef, NotDef, NotDef, NotDef, NotDef, NotDef, NotDef,
    NotDef, NotDef, NotDef, NotDef, NotDef, NotDef, NotDef, NotDef
  ]

  /** Codes 0x20..0x2F. */
  const Row20: seq<bv8> := [
    0x00,   //  32 space
    NotDef, //  33 !
    NotDef, //  34 "
    NotDef, //  35 #
    NotDef, //  36 $
    NotDef, //  37 %
    NotDef, //  38 &
    NotDef, //  39 '
    NotDef, //  40 (
    NotDef, //  41 )
    NotDef, //  42 *
    NotDef, //  43 +
    NotDef, //  44 ,
    0x40,   //  45 -
    0x20,   //  46 .
    NotDef  //  47 /
  ]

  /** Codes 0x30..0x3F. */
  const Row30: seq<bv8> := [
    0x9F,   //  48 0
    0x12,   //  49 1
    0x4F,   //  50 2
    0x5B,   //  51 3
    0xD2,   //  52 4
    0xD9,   //  53 5
    0xDD,   //  54 6
    0x13,   //  55 7
    0xDF,   //  56 8
    0xDB,   //  57 9
    NotDef, //  58 :
    NotDef, //  59 ;
    NotDef, //  60 <
    0x48,   //  61 =
    NotDef, //  62 >
    NotDef  //  63 ?
  ]

  /** Codes 0x40..0x4F. */
  const Row40: seq<bv8> := [
    NotDef, //  64 @
    0xD7,   //  65 A
    0xDC,   //  66 B
    0x8D,   //  67 C
    0x5E,   //  68 D
    0xCD,   //  69 E
    0xC5,   //  70 F
    0xDB,   //  71 G
    0xD6,   //  72 H
    0x84,   //  73 I
    0x1E,   //  74 J
    NotDef, //  75 K
    0x8C,   //  76 L
    NotDef, //  77 M
    0x97,   //  78 N
    0x9F    //  79 O
  ]

  /** Codes 0x50..0x5F. */
  const Row50: seq<bv8> := [
    0xC7,   //  80 P
    NotDef, //  81 Q
    0x44,   //  82 R
    0xD9,   //  83 S
    0x85,   //  84 T
    0x9E,   //  85 U
    NotDef, //  86 V
    NotDef, //  87 W
    NotDef, //  88 X
    0xDA,   //  89 Y
    NotDef, //  90 Z
    0x8D,   //  91 [
    NotDef, //  92 backslash
    0x1B,   //  93 ]
    NotDef, //  94 ^
    0x08    //  95 _
  ]

  /** Codes 0x60..0x6F. */
  const Row60: seq<bv8> := [
    NotDef, //  96 `
    0xD7,   //  97 a
    0xDC,   //  98 b
    0x4C,   //  99 c
    0x5E,   // 100 d
    0xCF,   // 101 e
    0xC5,   // 102 f
    0xDB,   // 103 g
    0xD4,   // 104 h
    0x04,   // 105 i
    0x1E,   // 106 j
    NotDef, // 107 k
    0x84,   // 108 l
    NotDef, // 109 m
    0x54,   // 110 n
    0x5C    // 111 o
  ]

  /** Codes 0x70..0x7E. */
  const Row70: seq<bv8> := [
    0xC7,   // 112 p
    NotDef, // 113 q
    0x44,   // 114 r
    0xD9,   // 115 s
    0xC4,   // 116 t
    0x1C,   // 117 u
    NotDef, // 118 v
    NotDef, // 119 w
    NotDef, // 120 x
    0xDA,   // 121 y
    NotDef, // 122 z
    0x8D,   // 123 {
    0x84,   // 124 |
    0x1B,   // 125 }
    NotDef  // 126 ~
  ]

  /** Number of entries in Ascii. */
  const AsciiLen: nat := |Ascii|

  /** Frames of the single-segment "snake" animation, one lit segment each. */
  const Snake: seq<bv8> := [0x08, 0x10, 0x02, 0x01, 0x80, 0x04]

  /** Number of frames in Snake. */
  const SnakeLen: nat := |Snake|

  /** Bit position lit by each snake frame, in frame order. */
  const SnakeOrder: seq<nat> := [3, 4, 1, 0, 7, 2]

  /** True when bit k of mask m is set. */
  predicate Bit(m: bv8, k: nat)
    requires k < 8
  {
    (m >> k) & 1 == 1
  }

  /** The characters the display can draw: digits, letters other than K, M, Q, V, W, X and Z
      (in either case), and space - . = _ [ ] { } |. Every other code shows NotDef. */
  predicate HasGlyph(c: int) {
    || ('0' as int <= c <= '9' as int)
    || ('A' as int <= c <= 'Z' as int && c !in UndrawableLetters)
    || ('a' as int <= c <= 'z' as int && c - 32 !in UndrawableLetters)
    || c in DrawableMarks
  }

  /** Upper-case letters that need diagonal strokes and have no glyph. */
  const UndrawableLetters: set<int> :=
    {'K' as int, 'M' as int, 'Q' as int, 'V' as int, 'W' as int, 'X' as int, 'Z' as int}

  /** Non-alphanumeric characters that have a glyph. */
  const DrawableMarks: set<int> :=
    {' ' as int, '-' as int, '.' as int, '=' as int, '_' as int,
     '[' as int, ']' as int, '{' as int, '}' as int, '|' as int}

  /** The ASCII table stops at '~' (126); the animation has six frames. */
  lemma TableLengths()
    ensures AsciiLen == 127 && SnakeLen == 6
  {
  }

  /** No control code has a glyph. */
  lemma ControlCodesUndefined()
    ensures forall c :: 0 <= c < 32 ==> Ascii[c] == NotDef
  {
  }

  /** The sentinel cannot be told apart from the glyph of '.'. */
  lemma SentinelIsDecimalPoint()
    ensures NotDef == Ascii['.' as int] == 0x20
  {
  }

  /** The sentinel shows up exactly for the characters without a glyph, and for '.'. */
  lemma SentinelPositions()
    ensures forall c :: 0 <= c < AsciiLen ==> (Ascii[c] == NotDef <==> !HasGlyph(c) || c == '.' as int)
  {
    forall c | 0 <= c < AsciiLen
      ensures Ascii[c] == NotDef <==> !HasGlyph(c) || c == '.' as int
    {
      if c < 0x10 { Row00Sentinels(); assert Ascii[c] == Row00[c - 0x00]; }
      else if c < 0x20 { Row10Sentinels(); assert Ascii[c] == Row10[c - 0x10]; }
      else if c < 0x30 { Row20Sentinels(); assert Ascii[c] == Row20[c - 0x20]; }
      else if c < 0x40 { Row30Sentinels(); assert Ascii[c] == Row30[c - 0x30]; }
      else if c < 0x50 { Row40Sentinels(); assert Ascii[c] == Row40[c - 0x40]; }
      else if c < 0x60 { Row50Sentinels(); assert Ascii[c] == Row50[c - 0x50]; }
      else if c < 0x70 { Row60Sentinels(); assert Ascii[c] == Row60[c - 0x60]; }
      else { Row70Sentinels(); assert Ascii[c] == Row70[c - 0x70]; }
    }
  }

  /** The sentinel sits in row, which starts at code base, exactly where HasGlyph says. */
  ghost predicate RowSentinels(row: seq<bv8>, base: int) {
    forall j :: 0 <= j < |row| ==> (row[j] == NotDef <==> !HasGlyph(base + j) || base + j == '.' as int)
  }

  // One check per row of the chart, used by SentinelPositions.
  lemma Row00Sentinels() ensures RowSentinels(Row00, 0x00) { }
  lemma Row10Sentinels() ensures RowSentinels(Row10, 0x10) { }
  lemma Row20Sentinels() ensures RowSentinels(Row20, 0x20) { }
  lemma Row30Sentinels() ensures RowSentinels(Row30, 0x30) { }
  lemma Row40Sentinels() ensures RowSentinels(Row40, 0x40) { }
  lemma Row50Sentinels() ensures RowSentinels(Row50, 0x50) { }
  lemma Row60Sentinels() ensures RowSentinels(Row60, 0x60) { }
  lemma Row70Sentinels() ensures RowSentinels(Row70, 0x70) { }

  /** Every decimal digit has a glyph of its own: none shows the sentinel. */
  lemma DigitsHaveGlyphs()
    ensures forall c :: '0' as int <= c <= '9' as int ==> Ascii[c] != NotDef
  {
  }

  /** Each snake frame lights exactly one segment: bit SnakeOrder[i] and no other. */
  lemma SnakeFramesOneHot()
    ensures forall i, k :: 0 <= i < SnakeLen && 0 <= k < 8 ==> (Bit(Snake[i], k) <==> k == SnakeOrder[i])
  {
  }

  /** No two snake frames light the same segment. */
  lemma SnakeFramesDistinct()
    ensures forall i, j :: 0 <= i < j < SnakeLen ==> Snake[i] != Snake[j] && SnakeOrder[i] != SnakeOrder[j]
  {
  }
}

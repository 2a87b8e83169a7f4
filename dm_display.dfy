/*
 * The frame-buffer engine of the game's two dot-matrix displays
 * (ProjectSource/DM_DisplayStarter.c). Each display is a chain of four
 * MAX7219 modules driven over SPI; the engine keeps one 8-row buffer of
 * 32-bit rows per display, edits those buffers (put, clear, shift, add a font
 * character) and copies them to the hardware one row per call, or runs the
 * 7-step initialisation one step per call.
 *
 * The words handed to the SPI send primitives are recorded, in order, in
 * `spi`; the font lookup is a parameter of the engine.
 *
 * Each 8-row buffer is modelled as 9 cells: cell 8 stands for the word just
 * past the array, which DM_TakeDisplayUpdateStep reads (row 8) and
 * DM_AddChar2DisplayBuffer ORs into (font line 7) out of bounds.
 */
module DotMatrix {
  import opened Framework

  const NumModules := 8
  const NumRows := 8

  /** MAX7219 command words. */
  const StartShutdownCmd: bv16 := 0x0C00
  const EndShutdownCmd: bv16 := 0x0C01
  const DisableCodeBCmd: bv16 := 0x0900
  const EnableScanCmd: bv16 := 0x0B07

  /** DM_SET_BRIGHTNESS(level): the intensity register 0x0A with the low nibble of level. */
  function SetBrightnessCmd(level: bv16): (w: bv16)
    ensures w >> 8 == 0x0A && w & 0xF0 == 0 && w & 0x0F == level & 0x0F
  {
    0x0A00 | (level & 0x0F)
  }

  /** getFontLine(Char2Display, WhichRow): one line of a character's bitmap. */
  type Font = (uint8, uint8) -> bv8

  /** A word handed to SPIOperate_SPI1_Send16 or, for the last word, to SPIOperate_SPI1_Send16Wait. */
  datatype SpiWord = Send(word: bv16) | SendWait(word: bv16)

  /** The register address (high byte) and the data (low byte) of a MAX7219 word. */
  function AddressByte(w: bv16): bv8 { (w >> 8) as bv8 }
  function DataByte(w: bv16): bv8 { (w & 0xFF) as bv8 }

  /*------------------------------- bit reversal -----------------------------*/

  /** Bit i of a byte. */
  predicate Bit(b: bv8, i: nat)
    requires i < 8
  {
    (b >> i) & 1 == 1
  }

  /** The reference bit reversal: bit 7 of b becomes bit 0, bit 6 bit 1, and so on. */
  function ReverseBits(b: bv8): bv8
  {
    ((b & 0x01) << 7) | ((b & 0x02) << 5) | ((b & 0x04) << 3) | ((b & 0x08) << 1) |
    ((b & 0x10) >> 1) | ((b & 0x20) >> 3) | ((b & 0x40) >> 5) | ((b & 0x80) >> 7)
  }

  /** Bit i of the reversed byte is bit 7 - i of the byte. */
  lemma ReverseBitsMirrors(b: bv8)
    ensures forall i: nat | i < 8 :: Bit(ReverseBits(b), i) == Bit(b, 7 - i)
  {
  }

  /**
   * BitReverseTable256, entry for entry, kept as the source lays it out: 16
   * lines of 16 entries; entry x is on line x / 16 at column x % 16.
   */
  const BitReverseLines: seq<seq<bv8>> := [
    [0x00, 0x80, 0x40, 0xC0, 0x20, 0xA0, 0x60, 0xE0, 0x10, 0x90, 0x50, 0xD0, 0x30, 0xB0, 0x70, 0xF0],
    [0x08, 0x88, 0x48, 0xC8, 0x28, 0xA8, 0x68, 0xE8, 0x18, 0x98, 0x58, 0xD8, 0x38, 0xB8, 0x78, 0xF8],
    [0x04, 0x84, 0x44, 0xC4, 0x24, 0xA4, 0x64, 0xE4, 0x14, 0x94, 0x54, 0xD4, 0x34, 0xB4, 0x74, 0xF4],
    [0x0C, 0x8C, 0x4C, 0xCC, 0x2C, 0xAC, 0x6C, 0xEC, 0x1C, 0x9C, 0x5C, 0xDC, 0x3C, 0xBC, 0x7C, 0xFC],
    [0x02, 0x82, 0x42, 0xC2, 0x22, 0xA2, 0x62, 0xE2, 0x12, 0x92, 0x52, 0xD2, 0x32, 0xB2, 0x72, 0xF2],
    [0x0A, 0x8A, 0x4A, 0xCA, 0x2A, 0xAA, 0x6A, 0xEA, 0x1A, 0x9A, 0x5A, 0xDA, 0x3A, 0xBA, 0x7A, 0xFA],
    [0x06, 0x86, 0x46, 0xC6, 0x26, 0xA6, 0x66, 0xE6, 0x16, 0x96, 0x56, 0xD6, 0x36, 0xB6, 0x76, 0xF6],
    [0x0E, 0x8E, 0x4E, 0xCE, 0x2E, 0xAE, 0x6E, 0xEE, 0x1E, 0x9E, 0x5E, 0xDE, 0x3E, 0xBE, 0x7E, 0xFE],
    [0x01, 0x81, 0x41, 0xC1, 0x21, 0xA1, 0x61, 0xE1, 0x11, 0x91, 0x51, 0xD1, 0x31, 0xB1, 0x71, 0xF1],
    [0x09, 0x89, 0x49, 0xC9, 0x29, 0xA9, 0x69, 0xE9, 0x19, 0x99, 0x59, 0xD9, 0x39, 0xB9, 0x79, 0xF9],
    [0x05, 0x85, 0x45, 0xC5, 0x25, 0xA5, 0x65, 0xE5, 0x15, 0x95, 0x55, 0xD5, 0x35, 0xB5, 0x75, 0xF5],
    [0x0D, 0x8D, 0x4D, 0xCD, 0x2D, 0xAD, 0x6D, 0xED, 0x1D, 0x9D, 0x5D, 0xDD, 0x3D, 0xBD, 0x7D, 0xFD],
    [0x03, 0x83, 0x43, 0xC3, 0x23, 0xA3, 0x63, 0xE3, 0x13, 0x93, 0x53, 0xD3, 0x33, 0xB3, 0x73, 0xF3],
    [0x0B, 0x8B, 0x4B, 0xCB, 0x2B, 0xAB, 0x6B, 0xEB, 0x1B, 0x9B, 0x5B, 0xDB, 0x3B, 0xBB, 0x7B, 0xFB],
    [0x07, 0x87, 0x47, 0xC7, 0x27, 0xA7, 0x67, 0xE7, 0x17, 0x97, 0x57, 0xD7, 0x37, 0xB7, 0x77, 0xF7],
    [0x0F, 0x8F, 0x4F, 0xCF, 0x2F, 0xAF, 0x6F, 0xEF, 0x1F, 0x9F, 0x5F, 0xDF, 0x3F, 0xBF, 0x7F, 0xFF]
  ]

  /** BitReverseTable256[x] */
  function BitReverseTable256(x: bv8): bv8
  {
    BitReverseLines[(x >> 4) as int][(x & 0x0F) as int]
  }

  lemma LineIsReversal0(x: bv8)
    requires x >> 4 == 0
    ensures BitReverseLines[0][(x & 0x0F) as int] == ReverseBits(x)
  {

    if x == 0 {}
    else if x == 1 {}
    else if x == 2 {}
    else if x == 3 {}
    else if x == 4 {}
    else if x == 5 {}
    else if x == 6 {}
    else if x == 7 {}
    else if x == 8 {}
    else if x == 9 {}
    else if x == 10 {}
    else if x == 11 {}
    else if x == 12 {}
    else if x == 13 {}
    else if x == 14 {}
    else {}
  }

  lemma LineIsReversal1(x: bv8)
    requires x >> 4 == 1
    ensures BitReverseLines[1][(x & 0x0F) as int] == ReverseBits(x)
  {

    if x == 16 {}
    else if x == 17 {}
    else if x == 18 {}
    else if x == 19 {}
    else if x == 20 {}
    else if x == 21 {}
    else if x == 22 {}
    else if x == 23 {}
    else if x == 24 {}
    else if x == 25 {}
    else if x == 26 {}
    else if x == 27 {}
    else if x == 28 {}
    else if x == 29 {}
    else if x == 30 {}
    else {}
  }

  lemma LineIsReversal2(x: bv8)
    requires x >> 4 == 2
    ensures BitReverseLines[2][(x & 0x0F) as int] == ReverseBits(x)
  {

    if x == 32 {}
    else if x == 33 {}
    else if x == 34 {}
    else if x == 35 {}
    else if x == 36 {}
    else if x == 37 {}
    else if x == 38 {}
    else if x == 39 {}
    else if x == 40 {}
    else if x == 41 {}
    else if x == 42 {}
    else if x == 43 {}
    else if x == 44 {}
    else if x == 45 {}
    else if x == 46 {}
    else {}
  }

  lemma LineIsReversal3(x: bv8)
    requires x >> 4 == 3
    ensures BitReverseLines[3][(x & 0x0F) as int] == ReverseBits(x)
  {

    if x == 48 {}
    else if x == 49 {}
    else if x == 50 {}
    else if x == 51 {}
    else if x == 52 {}
    else if x == 53 {}
    else if x == 54 {}
    else if x == 55 {}
    else if x == 56 {}
    else if x == 57 {}
    else if x == 58 {}
    else if x == 59 {}
    else if x == 60 {}
    else if x == 61 {}
    else if x == 62 {}
    else {}
  }

  lemma LineIsReversal4(x: bv8)
    requires x >> 4 == 4
    ensures BitReverseLines[4][(x & 0x0F) as int] == ReverseBits(x)
  {

    if x == 64 {}
    else if x == 65 {}
    else if x == 66 {}
    else if x == 67 {}
    else if x == 68 {}
    else if x == 69 {}
    else if x == 70 {}
    else if x == 71 {}
    else if x == 72 {}
    else if x == 73 {}
    else if x == 74 {}
    else if x == 75 {}
    else if x == 76 {}
    else if x == 77 {}
    else if x == 78 {}
    else {}
  }

  lemma LineIsReversal5(x: bv8)
    requires x >> 4 == 5
    ensures BitReverseLines[5][(x & 0x0F) as int] == ReverseBits(x)
  {

    if x == 80 {}
    else if x == 81 {}
    else if x == 82 {}
    else if x == 83 {}
    else if x == 84 {}
    else if x == 85 {}
    else if x == 86 {}
    else if x == 87 {}
    else if x == 88 {}
    else if x == 89 {}
    else if x == 90 {}
    else if x == 91 {}
    else if x == 92 {}
    else if x == 93 {}
    else if x == 94 {}
    else {}
  }

  lemma LineIsReversal6(x: bv8)
    requires x >> 4 == 6
    ensures BitReverseLines[6][(x & 0x0F) as int] == ReverseBits(x)
  {

    if x == 96 {}
    else if x == 97 {}
    else if x == 98 {}
    else if x == 99 {}
    else if x == 100 {}
    else if x == 101 {}
    else if x == 102 {}
    else if x == 103 {}
    else if x == 104 {}
    else if x == 105 {}
    else if x == 106 {}
    else if x == 107 {}
    else if x == 108 {}
    else if x == 109 {}
    else if x == 110 {}
    else {}
  }

  lemma LineIsReversal7(x: bv8)
    requires x >> 4 == 7
    ensures BitReverseLines[7][(x & 0x0F) as int] == ReverseBits(x)
  {

    if x == 112 {}
    else if x == 113 {}
    else if x == 114 {}
    else if x == 115 {}
    else if x == 116 {}
    else if x == 117 {}
    else if x == 118 {}
    else if x == 119 {}
    else if x == 120 {}
    else if x == 121 {}
    else if x == 122 {}
    else if x == 123 {}
    else if x == 124 {}
    else if x == 125 {}
    else if x == 126 {}
    else {}
  }

  lemma LineIsReversal8(x: bv8)
    requires x >> 4 == 8
    ensures BitReverseLines[8][(x & 0x0F) as int] == ReverseBits(x)
  {

    if x == 128 {}
    else if x == 129 {}
    else if x == 130 {}
    else if x == 131 {}
    else if x == 132 {}
    else if x == 133 {}
    else if x == 134 {}
    else if x == 135 {}
    else if x == 136 {}
    else if x == 137 {}
    else if x == 138 {}
    else if x == 139 {}
    else if x == 140 {}
    else if x == 141 {}
    else if x == 142 {}
    else {}
  }

  lemma LineIsReversal9(x: bv8)
    requires x >> 4 == 9
    ensures BitReverseLines[9][(x & 0x0F) as int] == ReverseBits(x)
  {

    if x == 144 {}
    else if x == 145 {}
    else if x == 146 {}
    else if x == 147 {}
    else if x == 148 {}
    else if x == 149 {}
    else if x == 150 {}
    else if x == 151 {}
    else if x == 152 {}
    else if x == 153 {}
    else if x == 154 {}
    else if x == 155 {}
    else if x == 156 {}
    else if x == 157 {}
    else if x == 158 {}
    else {}
  }

  lemma LineIsReversal10(x: bv8)
    requires x >> 4 == 10
    ensures BitReverseLines[10][(x & 0x0F) as int] == ReverseBits(x)
  {

    if x == 160 {}
    else if x == 161 {}
    else if x == 162 {}
    else if x == 163 {}
    else if x == 164 {}
    else if x == 165 {}
    else if x == 166 {}
    else if x == 167 {}
    else if x == 168 {}
    else if x == 169 {}
    else if x == 170 {}
    else if x == 171 {}
    else if x == 172 {}
    else if x == 173 {}
    else if x == 174 {}
    else {}
  }

  lemma LineIsReversal11(x: bv8)
    requires x >> 4 == 11
    ensures BitReverseLines[11][(x & 0x0F) as int] == ReverseBits(x)
  {

    if x == 176 {}
    else if x == 177 {}
    else if x == 178 {}
    else if x == 179 {}
    else if x == 180 {}
    else if x == 181 {}
    else if x == 182 {}
    else if x == 183 {}
    else if x == 184 {}
    else if x == 185 {}
    else if x == 186 {}
    else if x == 187 {}
    else if x == 188 {}
    else if x == 189 {}
    else if x == 190 {}
    else {}
  }

  lemma LineIsReversal12(x: bv8)
    requires x >> 4 == 12
    ensures BitReverseLines[12][(x & 0x0F) as int] == ReverseBits(x)
  {

    if x == 192 {}
    else if x == 193 {}
    else if x == 194 {}
    else if x == 195 {}
    else if x == 196 {}
    else if x == 197 {}
    else if x == 198 {}
    else if x == 199 {}
    else if x == 200 {}
    else if x == 201 {}
    else if x == 202 {}
    else if x == 203 {}
    else if x == 204 {}
    else if x == 205 {}
    else if x == 206 {}
    else {}
  }

  lemma LineIsReversal13(x: bv8)
    requires x >> 4 == 13
    ensures BitReverseLines[13][(x & 0x0F) as int] == ReverseBits(x)
  {

    if x == 208 {}
    else if x == 209 {}
    else if x == 210 {}
    else if x == 211 {}
    else if x == 212 {}
    else if x == 213 {}
    else if x == 214 {}
    else if x == 215 {}
    else if x == 216 {}
    else if x == 217 {}
    else if x == 218 {}
    else if x == 219 {}
    else if x == 220 {}
    else if x == 221 {}
    else if x == 222 {}
    else {}
  }

  lemma LineIsReversal14(x: bv8)
    requires x >> 4 == 14
    ensures BitReverseLines[14][(x & 0x0F) as int] == ReverseBits(x)
  {

    if x == 224 {}
    else if x == 225 {}
    else if x == 226 {}
    else if x == 227 {}
    else if x == 228 {}
    else if x == 229 {}
    else if x == 230 {}
    else if x == 231 {}
    else if x == 232 {}
    else if x == 233 {}
    else if x == 234 {}
    else if x == 235 {}
    else if x == 236 {}
    else if x == 237 {}
    else if x == 238 {}
    else {}
  }

  lemma LineIsReversal15(x: bv8)
    requires x >> 4 == 15
    ensures BitReverseLines[15][(x & 0x0F) as int] == ReverseBits(x)
  {

    if x == 240 {}
    else if x == 241 {}
    else if x == 242 {}
    else if x == 243 {}
    else if x == 244 {}
    else if x == 245 {}
    else if x == 246 {}
    else if x == 247 {}
    else if x == 248 {}
    else if x == 249 {}
    else if x == 250 {}
    else if x == 251 {}
    else if x == 252 {}
    else if x == 253 {}
    else if x == 254 {}
    else {}
  }

  /** Every entry of the table is the bit reversal of its index. */
  lemma BitReverseTableIsReversal(x: bv8)
    ensures BitReverseTable256(x) == ReverseBits(x)
  {
    var line := x >> 4;

    if line == 0 { LineIsReversal0(x); }
    else if line == 1 { LineIsReversal1(x); }
    else if line == 2 { LineIsReversal2(x); }
    else if line == 3 { LineIsReversal3(x); }
    else if line == 4 { LineIsReversal4(x); }
    else if line == 5 { LineIsReversal5(x); }
    else if line == 6 { LineIsReversal6(x); }
    else if line == 7 { LineIsReversal7(x); }
    else if line == 8 { LineIsReversal8(x); }
    else if line == 9 { LineIsReversal9(x); }
    else if line == 10 { LineIsReversal10(x); }
    else if line == 11 { LineIsReversal11(x); }
    else if line == 12 { LineIsReversal12(x); }
    else if line == 13 { LineIsReversal13(x); }
    else if line == 14 { LineIsReversal14(x); }
    else { LineIsReversal15(x); }
  }

  /** Reversing twice gives the byte back. */
  lemma ReverseBitsInvolution(b: bv8)
    ensures ReverseBits(ReverseBits(b)) == b
  {
  }

  /** Looking a byte up twice gives it back. */
  lemma BitReverseTableInvolution(x: bv8)
    ensures BitReverseTable256(BitReverseTable256(x)) == x
  {
    BitReverseTableIsReversal(x);
    BitReverseTableIsReversal(BitReverseTable256(x));
    ReverseBitsInvolution(x);
  }

  /*---------------------------------- rows ----------------------------------*/

  /** ByBytes[k] of a DM_Row_t union: byte k of FullRow, little-endian. */
  function ByteOf(row: bv32, k: nat): bv8
    requires k < 4
  {
    (if k == 0 then row & 0xFF
     else if k == 1 then (row >> 8) & 0xFF
     else if k == 2 then (row >> 16) & 0xFF
     else row >> 24) as bv8
  }

  /**
   * FullRow <<= n on a uint32: the bits shifted past bit 31 are lost. C leaves
   * a count of 32 or more undefined; the model resolves it as 0.
   */
  function ShiftLeft(row: bv32, n: nat): bv32
  {
    if n < 32 then row << n else 0
  }

  /** ByBytes[0] |= b on a row. */
  function OrIntoLowByte(row: bv32, b: bv8): bv32
  {
    row | b as bv32
  }

  /** OrIntoLowByte ORs b into byte 0 and leaves bytes 1 to 3 alone. */
  lemma OrIntoLowByteBytes(row: bv32, b: bv8)
    ensures ByteOf(OrIntoLowByte(row, b), 0) == ByteOf(row, 0) | b
    ensures forall k: nat | 1 <= k < 4 :: ByteOf(OrIntoLowByte(row, b), k) == ByteOf(row, k)
  {
  }

  /*------------------------------ frame buffers -----------------------------*/

  /** DM_Display_1 and DM_Display_2; cell NumRows of each is the word past the array. */
  datatype Frame = Frame(d1: seq<bv32>, d2: seq<bv32>)
  {
    predicate Valid() { |d1| == NumRows + 1 && |d2| == NumRows + 1 }
  }

  const ZeroRows: seq<bv32> := seq(NumRows + 1, _ => 0)

  /** The frame the C statics start with. */
  const BlankFrame := Frame(ZeroRows, ZeroRows)

  /** Rows 0..7 set to zero; the cell past the buffer is kept. */
  function ClearedRows(rows: seq<bv32>): (r: seq<bv32>)
    requires |rows| == NumRows + 1
    ensures |r| == NumRows + 1 && r[NumRows] == rows[NumRows]
    ensures forall i | 0 <= i < NumRows :: r[i] == 0
  {
    seq(NumRows, _ => 0) + [rows[NumRows]]
  }

  /** Rows 0..7 shifted left by n; the cell past the buffer is kept. */
  function ShiftedRows(rows: seq<bv32>, n: nat): (r: seq<bv32>)
    requires |rows| == NumRows + 1
    ensures |r| == NumRows + 1 && r[NumRows] == rows[NumRows]
    ensures forall i | 0 <= i < NumRows :: r[i] == ShiftLeft(rows[i], n)
  {
    seq(NumRows, i requires 0 <= i < NumRows => ShiftLeft(rows[i], n)) + [rows[NumRows]]
  }

  /** DM_ClearDisplayBuffer on a frame. */
  function ClearDisplay(f: Frame, which: uint8): (h: Frame)
    requires f.Valid()
    ensures h.Valid()
    ensures which == 1 ==> h.d2 == f.d2 && h.d1[NumRows] == f.d1[NumRows] &&
                           forall r | 0 <= r < NumRows :: h.d1[r] == 0
    ensures which == 2 ==> h.d1 == f.d1 && h.d2[NumRows] == f.d2[NumRows] &&
                           forall r | 0 <= r < NumRows :: h.d2[r] == 0
    ensures which != 1 && which != 2 ==> h == f
  {
    if which == 1 then Frame(ClearedRows(f.d1), f.d2)
    else if which == 2 then Frame(f.d1, ClearedRows(f.d2))
    else f
  }

  /** DM_ScrollDisplayBuffer on a frame. */
  function ScrollDisplay(f: Frame, n: uint8, which: uint8): (h: Frame)
    requires f.Valid()
    ensures h.Valid()
    ensures which == 1 ==> h.d2 == f.d2 && h.d1[NumRows] == f.d1[NumRows] &&
                           forall r | 0 <= r < NumRows :: h.d1[r] == ShiftLeft(f.d1[r], n)
    ensures which == 2 ==> h.d1 == f.d1 && h.d2[NumRows] == f.d2[NumRows] &&
                           forall r | 0 <= r < NumRows :: h.d2[r] == ShiftLeft(f.d2[r], n)
    ensures which != 1 && which != 2 ==> h == f
  {
    if which == 1 then Frame(ShiftedRows(f.d1, n), f.d2)
    else if which == 2 then Frame(f.d1, ShiftedRows(f.d2, n))
    else f
  }

  /** Cells 1..8 of `rows` with font line k of ch ORed into cell k + 1; cell 0 is kept. */
  function WithGlyph(rows: seq<bv32>, font: Font, ch: uint8): (r: seq<bv32>)
    requires |rows| == NumRows + 1
    ensures |r| == NumRows + 1 && r[0] == rows[0]
    ensures forall k | 0 <= k < NumRows :: r[k + 1] == OrIntoLowByte(rows[k + 1], font(ch, k))
  {
    seq(NumRows + 1, i requires 0 <= i <= NumRows =>
      if i == 0 then rows[0] else OrIntoLowByte(rows[i], font(ch, i - 1)))
  }

  /** Helper: two rows that both carry the glyph over the same old row are equal. */
  lemma GlyphCellsAre(s: seq<bv32>, rows: seq<bv32>, t: seq<bv32>, font: Font, ch: uint8)
    requires |s| == |rows| == |t| == NumRows + 1
    requires s[0] == rows[0] == t[0]
    requires forall i | 1 <= i <= NumRows :: s[i] == OrIntoLowByte(rows[i], font(ch, i - 1))
    requires forall k | 0 <= k < NumRows :: t[k + 1] == OrIntoLowByte(rows[k + 1], font(ch, k))
    ensures s == t
  {
    forall i | 1 <= i <= NumRows
      ensures s[i] == t[i]
    {
      assert t[(i - 1) + 1] == OrIntoLowByte(rows[(i - 1) + 1], font(ch, i - 1));
    }
  }

  /** DM_AddChar2DisplayBuffer on a frame. */
  function AddCharToDisplay(f: Frame, font: Font, ch: uint8, which: uint8): (h: Frame)
    requires f.Valid()
    ensures h.Valid()
    ensures which == 1 ==> h.d2 == f.d2 && h.d1[0] == f.d1[0] &&
                           forall k | 0 <= k < NumRows :: h.d1[k + 1] == OrIntoLowByte(f.d1[k + 1], font(ch, k))
    ensures which == 2 ==> h.d1 == f.d1 && h.d2[0] == f.d2[0] &&
                           forall k | 0 <= k < NumRows :: h.d2[k + 1] == OrIntoLowByte(f.d2[k + 1], font(ch, k))
    ensures which != 1 && which != 2 ==> h == f
  {
    if which == 1 then Frame(WithGlyph(f.d1, font, ch), f.d2)
    else if which == 2 then Frame(f.d1, WithGlyph(f.d2, font, ch))
    else f
  }

  /** DM_PutDataIntoBufferRow on a frame: the new frame and the returned flag. */
  function PutRow(f: Frame, data: bv32, row: uint8, which: uint8): (r: (Frame, bool))
    requires f.Valid()
    ensures r.0.Valid()
    ensures r.1 <==> row < NumRows
    ensures row >= NumRows ==> r.0 == f
    ensures row < NumRows && which == 1 ==> r.0 == Frame(f.d1[row := data], f.d2)
    ensures row < NumRows && which == 2 ==> r.0 == Frame(f.d1, f.d2[row := data])
    ensures which != 1 && which != 2 ==> r.0 == f
  {
    if row < NumRows then
      (if which == 1 then Frame(f.d1[row := data], f.d2)
       else if which == 2 then Frame(f.d1, f.d2[row := data])
       else f, true)
    else (f, false)
  }

  /*------------------------------ word traces -------------------------------*/

  /** sendCmd: the command to each of the eight modules' positions, the last one waiting. */
  function CmdWords(cmd: bv16): (ws: seq<SpiWord>)
    ensures |ws| == NumModules
    ensures forall i | 0 <= i < |ws| :: ws[i].word == cmd
    ensures forall i | 0 <= i < |ws| :: ws[i].SendWait? <==> i == |ws| - 1
  {
    seq(NumModules - 1, _ => Send(cmd)) + [SendWait(cmd)]
  }

  /**
   * The high byte of every word sendRow sends for logical row rowNum: the row
   * is mirrored (RowNum = NUM_ROWS - (RowNum + 1)) and the MAX7219 digit
   * register is that plus one, computed in uint8 and shifted into a uint16.
   */
  function RowAddress(rowNum: bv8): bv16
  {
    var mirrored: bv8 := NumRows as bv8 - (rowNum + 1);
    ((mirrored as bv16) + 1) << 8
  }

  /** One word of sendRow: the row's address and the bit-reversed data byte. */
  function RowWord(rowNum: bv8, data: bv8): bv16
  {
    RowAddress(rowNum) | BitReverseTable256(data) as bv16
  }

  /** The byte sendRow sends in position i: bytes 0..3 of display 2, then of display 1. */
  function RowByteAt(row1: bv32, row2: bv32, i: nat): bv8
    requires i < 8
  {
    if i < 4 then ByteOf(row2, i) else ByteOf(row1, i - 4)
  }

  /** sendRow(rowNum, row1, row2): the eight words it sends, in order. */
  function RowWords(rowNum: bv8, row1: bv32, row2: bv32): (ws: seq<SpiWord>)
    ensures |ws| == NumModules
  {
    seq(NumModules - 1, i requires 0 <= i < NumModules - 1 =>
      Send(RowWord(rowNum, RowByteAt(row1, row2, i)))) +
    [SendWait(RowWord(rowNum, ByteOf(row1, 3)))]
  }

  /** The address byte carries the mirrored register number; the data byte the reversed byte. */
  lemma RowWordFields(rowNum: bv8, data: bv8)
    ensures AddressByte(RowWord(rowNum, data)) == 8 - rowNum
    ensures DataByte(RowWord(rowNum, data)) == BitReverseTable256(data)
  {
  }

  /**
   * What sendRow sends: eight words, all addressed to register 8 - rowNum
   * (logical row r goes to physical row 7 - r, whose MAX7219 register is
   * 8 - r; rowNum 8 gives register 0, the no-op register), carrying the
   * bit-reversed bytes 0..3 of display 2 and then of display 1; only the last
   * word is sent with the wait.
   */
  lemma RowWordsMirror(rowNum: bv8, row1: bv32, row2: bv32)
    ensures var ws := RowWords(rowNum, row1, row2);
      |ws| == 8 &&
      (forall i | 0 <= i < 8 :: AddressByte(ws[i].word) == 8 - rowNum) &&
      (forall i | 0 <= i < 8 :: ReverseBits(DataByte(ws[i].word)) == RowByteAt(row1, row2, i)) &&
      (forall i | 0 <= i < 8 :: ws[i].SendWait? <==> i == 7)
  {
    var ws := RowWords(rowNum, row1, row2);
    forall i | 0 <= i < 8
      ensures AddressByte(ws[i].word) == 8 - rowNum
      ensures ReverseBits(DataByte(ws[i].word)) == RowByteAt(row1, row2, i)
    {
      var b := RowByteAt(row1, row2, i);
      assert ws[i].word == RowWord(rowNum, b);
      RowWordFields(rowNum, b);
      BitReverseTableIsReversal(b);
      ReverseBitsInvolution(b);
    }
  }

  /** A row index 0..8 as the bit pattern sendRow receives. */
  function RowNumber(k: nat): (b: bv8)
    requires k <= NumRows
  {
    [0, 1, 2, 3, 4, 5, 6, 7, 8][k]
  }

  /** A call of one of the two private transfer routines, sendCmd or sendRow. */
  datatype Transfer = CmdCall(cmd: bv16) | RowCall(rowNum: bv8, row1: bv32, row2: bv32)

  /** The words a transfer hands to the SPI send primitives. */
  function TransferWords(t: Transfer): (ws: seq<SpiWord>)
    ensures |ws| == NumModules
  {
    match t
    case CmdCall(cmd) => CmdWords(cmd)
    case RowCall(rowNum, row1, row2) => RowWords(rowNum, row1, row2)
  }

  /** The words of a sequence of transfers, in order. */
  function Words(ts: seq<Transfer>): (ws: seq<SpiWord>)
    ensures |ws| == NumModules * |ts|
  {
    if ts == [] then [] else TransferWords(ts[0]) + Words(ts[1..])
  }

  lemma {:induction false} WordsAppend(a: seq<Transfer>, b: seq<Transfer>)
    ensures Words(a + b) == Words(a) + Words(b)
  {
    if a != [] {
      assert (a + b)[1..] == a[1..] + b;
      WordsAppend(a[1..], b);
    } else {
      assert a + b == b;
    }
  }


  /** The sendRow call that copies row k of both buffers. */
  function RowTransfer(f: Frame, k: nat): Transfer
    requires f.Valid() && k <= NumRows
  {
    RowCall(RowNumber(k), f.d1[k], f.d2[k])
  }

  /** The transfers of the rest of an update pass, from row `from` to row NumRows (the word past the buffer). */
  function PassTransfers(f: Frame, from: nat): (ts: seq<Transfer>)
    requires f.Valid() && from <= NumRows + 1
    ensures |ts| == NumRows + 1 - from
    decreases NumRows + 1 - from
  {
    if from == NumRows + 1 then [] else [RowTransfer(f, from)] + PassTransfers(f, from + 1)
  }

  /** The i-th transfer of a pass from row `from` copies row from + i. */
  lemma {:induction false} PassTransfersAt(f: Frame, from: nat, i: nat)
    requires f.Valid() && from <= NumRows + 1 && i < NumRows + 1 - from
    ensures PassTransfers(f, from)[i] == RowTransfer(f, from + i)
    decreases i
  {
    if i > 0 {
      PassTransfersAt(f, from + 1, i - 1);
    }
  }

  /** n false flags. */
  function Falses(n: nat): (r: seq<bool>)
    ensures |r| == n
  {
    if n == 0 then [] else [false] + Falses(n - 1)
  }

  /** One more false flag before the final true. */
  lemma FalsesThenTrue(n: nat)
    ensures [false] + (Falses(n) + [true]) == Falses(n + 1) + [true]
  {
    assert Falses(n + 1) == [false] + Falses(n);
  }

  /*-------------------------------- engine state ----------------------------*/

  /** InitStep_t. */
  datatype InitStep =
    | StartShutdown | FillBufferZeros | DisableCodeB | EnableScanAll
    | SetBrightness | CopyBuffer2Display | EndShutdown

  /** The module's statics: the two buffers, CurrentInitStep and the WhichRow of the update step. */
  datatype EngineState = EngineState(frame: Frame, initStep: InitStep, whichRow: nat)
  {
    predicate Valid() { frame.Valid() && whichRow <= NumRows }
  }

  /** The result of one step: the new state, the returned flag and the transfers made. */
  datatype StepResult = StepResult(state: EngineState, done: bool, calls: seq<Transfer>)

  /**
   * DM_TakeDisplayUpdateStep: send row WhichRow, and report completion (and
   * start over) once the row just sent was row NumRows.
   */
  function UpdateStep(s: EngineState): (r: StepResult)
    requires s.Valid()
    ensures r.state.Valid()
  {
    var calls := [RowTransfer(s.frame, s.whichRow)];
    if s.whichRow >= NumRows then StepResult(s.(whichRow := 0), true, calls)
    else StepResult(s.(whichRow := s.whichRow + 1), false, calls)
  }

  /** DM_TakeInitDisplayStep. */
  function InitDisplayStep(s: EngineState): (r: StepResult)
    requires s.Valid()
    ensures r.state.Valid()
  {
    match s.initStep
    case StartShutdown =>
      StepResult(s.(initStep := FillBufferZeros), false, [CmdCall(StartShutdownCmd)])
    case FillBufferZeros =>
      StepResult(s.(frame := ClearedFrame(s.frame), initStep := DisableCodeB), false, [])
    case DisableCodeB =>
      StepResult(s.(initStep := EnableScanAll), false, [CmdCall(DisableCodeBCmd)])
    case EnableScanAll =>
      StepResult(s.(initStep := SetBrightness), false, [CmdCall(EnableScanCmd)])
    case SetBrightness =>
      StepResult(s.(initStep := CopyBuffer2Display), false, [CmdCall(SetBrightnessCmd(10))])
    case CopyBuffer2Display =>
      var u := UpdateStep(s);
      StepResult(if u.done then u.state.(initStep := EndShutdown) else u.state, false, u.calls)
    case EndShutdown =>
      StepResult(s.(initStep := StartShutdown), true, [CmdCall(EndShutdownCmd)])
  }

  /** n successive calls: the final state, the flags returned in order, the transfers made in order. */
  datatype Run = Run(state: EngineState, flags: seq<bool>, calls: seq<Transfer>)

  /** n successive calls of DM_TakeDisplayUpdateStep. */
  function UpdateRun(s: EngineState, n: nat): (r: Run)
    requires s.Valid()
    ensures r.state.Valid() && |r.flags| == n
    decreases n
  {
    if n == 0 then Run(s, [], [])
    else
      var u := UpdateStep(s);
      var rest := UpdateRun(u.state, n - 1);
      Run(rest.state, [u.done] + rest.flags, u.calls + rest.calls)
  }

  /** n successive calls of DM_TakeInitDisplayStep. */
  function InitRun(s: EngineState, n: nat): (r: Run)
    requires s.Valid()
    ensures r.state.Valid() && |r.flags| == n
    decreases n
  {
    if n == 0 then Run(s, [], [])
    else
      var u := InitDisplayStep(s);
      var rest := InitRun(u.state, n - 1);
      Run(rest.state, [u.done] + rest.flags, u.calls + rest.calls)
  }

  /**
   * From row k, the update step returns false for rows k..NumRows-1 and true
   * for row NumRows, sends exactly those rows, and leaves the frame alone and
   * WhichRow back at 0.
   */
  lemma {:induction false} UpdateRunFrom(s: EngineState)
    requires s.Valid()
    ensures var r := UpdateRun(s, NumRows + 1 - s.whichRow);
      r.state == s.(whichRow := 0) &&
      r.flags == Falses(NumRows - s.whichRow) + [true] &&
      r.calls == PassTransfers(s.frame, s.whichRow)
    decreases NumRows - s.whichRow
  {
    var k := s.whichRow;
    var w := [RowTransfer(s.frame, k)];
    var r := UpdateRun(s, NumRows + 1 - k);
    if k < NumRows {
      var t := s.(whichRow := k + 1);
      UpdateRunFrom(t);
      var rest := UpdateRun(t, NumRows - k);
      assert UpdateStep(s) == StepResult(t, false, w);
      assert r == Run(rest.state, [false] + rest.flags, w + rest.calls);
      FalsesThenTrue(NumRows - k - 1);
      assert PassTransfers(s.frame, k) == w + PassTransfers(s.frame, k + 1);
    } else {
      assert UpdateStep(s) == StepResult(s.(whichRow := 0), true, w);
      assert UpdateRun(s.(whichRow := 0), 0) == Run(s.(whichRow := 0), [], []);
      assert r == Run(s.(whichRow := 0), [true] + [], w + []);
      assert PassTransfers(s.frame, k) == w + [];
    }
  }

  /** A full refresh: nine calls from row 0, eight false and one true, rows 0..NumRows sent in order. */
  lemma UpdatePass(s: EngineState)
    requires s.Valid() && s.whichRow == 0
    ensures var r := UpdateRun(s, NumRows + 1);
      r.state == s && r.flags == Falses(NumRows) + [true] && r.calls == PassTransfers(s.frame, 0)
  {
    UpdateRunFrom(s);
  }

  /**
   * In the copy step from row k, the init step runs the rest of one update
   * pass, then the end-of-shutdown step reports completion and rewinds.
   */
  lemma {:induction false} InitCopyFrom(s: EngineState)
    requires s.Valid() && s.initStep == CopyBuffer2Display
    ensures var r := InitRun(s, NumRows + 2 - s.whichRow);
      r.state == s.(whichRow := 0, initStep := StartShutdown) &&
      r.flags == Falses(NumRows + 1 - s.whichRow) + [true] &&
      r.calls == PassTransfers(s.frame, s.whichRow) + [CmdCall(EndShutdownCmd)]
    decreases NumRows - s.whichRow
  {
    var k := s.whichRow;
    var w := [RowTransfer(s.frame, k)];
    var r := InitRun(s, NumRows + 2 - k);
    if k < NumRows {
      var t := s.(whichRow := k + 1);
      InitCopyFrom(t);
      var rest := InitRun(t, NumRows + 1 - k);
      assert InitDisplayStep(s) == StepResult(t, false, w);
      assert r == Run(rest.state, [false] + rest.flags, w + rest.calls);
      FalsesThenTrue(NumRows - k);
      assert PassTransfers(s.frame, k) == w + PassTransfers(s.frame, k + 1);
      assert w + (PassTransfers(s.frame, k + 1) + [CmdCall(EndShutdownCmd)])
          == (w + PassTransfers(s.frame, k + 1)) + [CmdCall(EndShutdownCmd)];
    } else {
      var e := s.(whichRow := 0, initStep := EndShutdown);
      var f := e.(initStep := StartShutdown);
      assert InitDisplayStep(s) == StepResult(e, false, w);
      assert InitDisplayStep(e) == StepResult(f, true, [CmdCall(EndShutdownCmd)]);
      assert InitRun(f, 0) == Run(f, [], []);
      assert InitRun(e, 1) == Run(f, [true] + [], [CmdCall(EndShutdownCmd)] + []);
      assert r == Run(f, [false] + [true], w + [CmdCall(EndShutdownCmd)]);
      assert PassTransfers(s.frame, k) == w + [];
    }
  }

  /** The frame after the zero-filling step: rows 0..7 of both displays cleared. */
  function ClearedFrame(f: Frame): (h: Frame)
    requires f.Valid()
    ensures h.Valid()
    ensures forall r | 0 <= r < NumRows :: h.d1[r] == 0 && h.d2[r] == 0
    ensures h.d1[NumRows] == f.d1[NumRows] && h.d2[NumRows] == f.d2[NumRows]
  {
    ClearDisplay(ClearDisplay(f, 1), 2)
  }

  /** One init step that is not the copy step, followed by whatever the next m steps do. */
  lemma InitRunCons(s: EngineState, m: nat)
    requires s.Valid()
    ensures var u := InitDisplayStep(s);
      var rest := InitRun(u.state, m);
      var r := InitRun(s, m + 1);
      r.state == rest.state && r.flags == [u.done] + rest.flags && r.calls == u.calls + rest.calls
  {
  }

  /** The commands the first five init steps send: shutdown, Code-B off, scan all, brightness 10. */
  const SetupTransfers: seq<Transfer> :=
    [CmdCall(StartShutdownCmd), CmdCall(DisableCodeBCmd), CmdCall(EnableScanCmd), CmdCall(SetBrightnessCmd(10))]

  /** The Code-B, scan and brightness steps, followed by whatever the next m steps do. */
  lemma InitConfigure(s: EngineState, m: nat)
    requires s.Valid() && s.initStep == DisableCodeB
    ensures var rest := InitRun(s.(initStep := CopyBuffer2Display), m);
      var r := InitRun(s, m + 3);
      r.state == rest.state && r.flags == [false, false, false] + rest.flags &&
      r.calls == SetupTransfers[1..] + rest.calls
  {
    var s3 := s.(initStep := EnableScanAll);
    var s4 := s.(initStep := SetBrightness);
    var c := s.(initStep := CopyBuffer2Display);
    assert InitDisplayStep(s) == StepResult(s3, false, [CmdCall(DisableCodeBCmd)]);
    assert InitDisplayStep(s3) == StepResult(s4, false, [CmdCall(EnableScanCmd)]);
    assert InitDisplayStep(s4) == StepResult(c, false, [CmdCall(SetBrightnessCmd(10))]);
    InitRunCons(s, m + 2);
    InitRunCons(s3, m + 1);
    InitRunCons(s4, m);
    var rest := InitRun(c, m);
    assert [CmdCall(DisableCodeBCmd)] + ([CmdCall(EnableScanCmd)] + ([CmdCall(SetBrightnessCmd(10))] + rest.calls))
        == SetupTransfers[1..] + rest.calls;
  }

  /** The four command steps and the zero fill, followed by whatever the next m steps do. */
  lemma InitPrefix(s: EngineState, m: nat)
    requires s.Valid() && s.initStep == StartShutdown
    ensures var c := s.(frame := ClearedFrame(s.frame), initStep := CopyBuffer2Display);
      var rest := InitRun(c, m);
      var r := InitRun(s, m + 5);
      r.state == rest.state && r.flags == [false, false, false, false, false] + rest.flags &&
      r.calls == SetupTransfers + rest.calls
  {
    var s1 := s.(initStep := FillBufferZeros);
    var s2 := s.(frame := ClearedFrame(s.frame), initStep := DisableCodeB);
    assert InitDisplayStep(s) == StepResult(s1, false, [CmdCall(StartShutdownCmd)]);
    assert InitDisplayStep(s1) == StepResult(s2, false, []);
    InitRunCons(s, m + 4);
    InitRunCons(s1, m + 3);
    InitConfigure(s2, m);
    var rest := InitRun(s2.(initStep := CopyBuffer2Display), m);
    assert [false] + ([false] + ([false, false, false] + rest.flags)) == [false, false, false, false, false] + rest.flags;
    assert [CmdCall(StartShutdownCmd)] + ([] + (SetupTransfers[1..] + rest.calls)) == SetupTransfers + rest.calls;
  }

  /**
   * The whole initialisation from the first step: shutdown, zero fill, Code-B
   * off, scan all, brightness 10, then the rest of an update pass from the
   * current WhichRow (the whole pass when it is 0), then the end of shutdown;
   * the last call alone returns true and the engine is ready to run the
   * sequence again.
   */
  lemma InitSequence(s: EngineState)
    requires s.Valid() && s.initStep == StartShutdown
    ensures var r := InitRun(s, NumRows + 7 - s.whichRow);
      r.state == EngineState(ClearedFrame(s.frame), StartShutdown, 0) &&
      r.flags == [false, false, false, false, false] + Falses(NumRows + 1 - s.whichRow) + [true] &&
      r.calls == SetupTransfers + PassTransfers(ClearedFrame(s.frame), s.whichRow) + [CmdCall(EndShutdownCmd)]
  {
    var c := s.(frame := ClearedFrame(s.frame), initStep := CopyBuffer2Display);
    var m := NumRows + 2 - s.whichRow;
    InitPrefix(s, m);
    InitCopyFrom(c);
  }

  /*--------------------------------- the engine -----------------------------*/

  /**
   * The module's statics. The buffers are fixed arrays of NumRows + 1 cells
   * (the last standing for the word past each C array); `spi` is the
   * sequence of words handed to the SPI send primitives so far.
   */
  class Engine {
    const display1: array<bv32>
    const display2: array<bv32>
    const font: Font
    var currentInitStep: InitStep
    var whichRow: nat
    var spi: seq<SpiWord>

    ghost predicate Valid()
      reads this
    {
      display1.Length == NumRows + 1 && display2.Length == NumRows + 1 &&
      display1 != display2 && whichRow <= NumRows
    }

    /** The statics as a value, for the step functions above. */
    function State(): (s: EngineState)
      reads this, display1, display2
    {
      EngineState(Frame(display1[..], display2[..]), currentInitStep, whichRow)
    }

    /** Zero-initialised buffers and the first init step, as the C statics start. */
    constructor (font: Font)
      ensures Valid() && fresh(display1) && fresh(display2)
      ensures State() == EngineState(BlankFrame, StartShutdown, 0)
      ensures this.font == font && spi == []
    {
      display1 := new bv32[NumRows + 1](_ => 0);
      display2 := new bv32[NumRows + 1](_ => 0);
      this.font := font;
      currentInitStep := StartShutdown;
      whichRow := 0;
      spi := [];
      new;
      assert display1[..] == ZeroRows && display2[..] == ZeroRows;
    }

    /** DM_ClearDisplayBuffer. */
    method ClearDisplayBuffer(which: uint8)
      requires Valid()
      modifies display1, display2
      ensures Valid()
      ensures State() == old(State()).(frame := ClearDisplay(old(State()).frame, which))
    {
      var row := 0;
      while row < NumRows
        invariant 0 <= row <= NumRows
        invariant forall i | 0 <= i <= NumRows ::
          display1[i] == if which == 1 && i < row then 0 else old(display1[i])
        invariant forall i | 0 <= i <= NumRows ::
          display2[i] == if which == 2 && i < row then 0 else old(display2[i])
      {
        if which == 1 {
          display1[row] := 0;
        } else if which == 2 {
          display2[row] := 0;
        }
        row := row + 1;
      }
      assert display1[..] == ClearDisplay(old(State()).frame, which).d1;
      assert display2[..] == ClearDisplay(old(State()).frame, which).d2;
    }

    /** DM_ScrollDisplayBuffer: every row of one display shifted left by n columns. */
    method ScrollDisplayBuffer(n: uint8, which: uint8)
      requires Valid()
      modifies display1, display2
      ensures Valid()
      ensures State() == old(State()).(frame := ScrollDisplay(old(State()).frame, n, which))
    {
      var row := 0;
      while row < NumRows
        invariant 0 <= row <= NumRows
        invariant forall i | 0 <= i <= NumRows ::
          display1[i] == if which == 1 && i < row then ShiftLeft(old(display1[i]), n) else old(display1[i])
        invariant forall i | 0 <= i <= NumRows ::
          display2[i] == if which == 2 && i < row then ShiftLeft(old(display2[i]), n) else old(display2[i])
      {
        if which == 1 {
          display1[row] := ShiftLeft(display1[row], n);
        } else if which == 2 {
          display2[row] := ShiftLeft(display2[row], n);
        }
        row := row + 1;
      }
      assert display1[..] == ScrollDisplay(old(State()).frame, n, which).d1;
      assert display2[..] == ScrollDisplay(old(State()).frame, n, which).d2;
    }

    /** DM_AddChar2DisplayBuffer: font line k of ch ORed into byte 0 of cell k + 1. */
    method AddChar2DisplayBuffer(ch: uint8, which: uint8)
      requires Valid()
      modifies display1, display2
      ensures Valid()
      ensures State() == old(State()).(frame := AddCharToDisplay(old(State()).frame, font, ch, which))
    {
      var row := 0;
      while row < NumRows
        invariant 0 <= row <= NumRows
        invariant forall i | 0 <= i <= NumRows ::
          display1[i] == if which == 1 && 1 <= i <= row then OrIntoLowByte(old(display1[i]), font(ch, i - 1))
                         else old(display1[i])
        invariant forall i | 0 <= i <= NumRows ::
          display2[i] == if which == 2 && 1 <= i <= row then OrIntoLowByte(old(display2[i]), font(ch, i - 1))
                         else old(display2[i])
      {
        if which == 1 {
          display1[row + 1] := OrIntoLowByte(display1[row + 1], font(ch, row));
        } else if which == 2 {
          display2[row + 1] := OrIntoLowByte(display2[row + 1], font(ch, row));
        }
        row := row + 1;
      }
      ghost var f := old(State()).frame;
      ghost var h := AddCharToDisplay(f, font, ch, which);
      if which == 1 {
        GlyphCellsAre(display1[..], f.d1, h.d1, font, ch);
      } else if which == 2 {
        GlyphCellsAre(display2[..], f.d2, h.d2, font, ch);
      }
    }

    /** DM_PutDataIntoBufferRow. */
    method PutDataIntoBufferRow(data: bv32, row: uint8, which: uint8) returns (ok: bool)
      requires Valid()
      modifies display1, display2
      ensures Valid()
      ensures var r := PutRow(old(State()).frame, data, row, which);
        ok == r.1 && State() == old(State()).(frame := r.0)
    {
      ok := true;
      if row < NumRows {
        if which == 1 {
          display1[row] := data;
        } else if which == 2 {
          display2[row] := data;
        }
      } else {
        ok := false;
      }
      assert display1[..] == PutRow(old(State()).frame, data, row, which).0.d1;
      assert display2[..] == PutRow(old(State()).frame, data, row, which).0.d2;
    }

    /**
     * DM_QueryRowData: a legal row of display 1 is copied out; otherwise the
     * caller's variable keeps its value (passed in as `prior`).
     */
    method QueryRowData(row: uint8, prior: bv32) returns (ok: bool, value: bv32)
      requires Valid()
      ensures ok <==> row < NumRows
      ensures ok ==> value == display1[row]
      ensures !ok ==> value == prior
    {
      ok := true;
      value := prior;
      if row < NumRows {
        value := display1[row];
      } else {
        ok := false;
      }
    }

    /** sendCmd. */
    method SendCmd(cmd: bv16)
      requires Valid()
      modifies this
      ensures Valid() && State() == old(State())
      ensures spi == old(spi) + CmdWords(cmd)
    {
      var index := 0;
      while index <= NumModules - 2
        invariant 0 <= index <= NumModules - 1
        invariant Valid() && State() == old(State())
        invariant spi == old(spi) + CmdWords(cmd)[..index]
      {
        spi := spi + [Send(cmd)];
        index := index + 1;
      }
      spi := spi + [SendWait(cmd)];
      assert CmdWords(cmd) == CmdWords(cmd)[..NumModules - 1] + [SendWait(cmd)];
    }

    /**
     * sendRow: the first seven words as fast as possible (bytes 0..3 of
     * display 2, then bytes 0..2 of display 1), the last (byte 3 of display 1)
     * with the wait; each carries the mirrored row address and the byte looked
     * up in BitReverseTable256.
     */
    method SendRow(rowNum: bv8, row1: bv32, row2: bv32)
      requires Valid()
      modifies this
      ensures Valid() && State() == old(State())
      ensures spi == old(spi) + RowWords(rowNum, row1, row2)
    {
      ghost var ws := RowWords(rowNum, row1, row2);
      var index := 0;
      while index <= NumModules - 2
        invariant 0 <= index <= NumModules - 1
        invariant Valid() && State() == old(State())
        invariant spi == old(spi) + ws[..index]
      {
        var w := RowWord(rowNum, RowByteAt(row1, row2, index));
        assert ws[..index + 1] == ws[..index] + [Send(w)];
        spi := spi + [Send(w)];
        index := index + 1;
      }
      var w := RowWord(rowNum, ByteOf(row1, 3));
      spi := spi + [SendWait(w)];
      assert ws == ws[..NumModules - 1] + [SendWait(w)];
    }

    /** DM_TakeDisplayUpdateStep. */
    method TakeDisplayUpdateStep() returns (done: bool)
      requires Valid()
      modifies this
      ensures Valid()
      ensures var u := UpdateStep(old(State()));
        State() == u.state && done == u.done && spi == old(spi) + Words(u.calls)
    {
      ghost var t := RowTransfer(State().frame, whichRow);
      SendRow(RowNumber(whichRow), display1[whichRow], display2[whichRow]);
      assert Words([t]) == TransferWords(t);
      if whichRow >= NumRows {
        done := true;
        whichRow := 0;
      } else {
        done := false;
        whichRow := whichRow + 1;
      }
    }

    /** DM_TakeInitDisplayStep. */
    method TakeInitDisplayStep() returns (done: bool)
      requires Valid()
      modifies this, display1, display2
      ensures Valid()
      ensures var u := InitDisplayStep(old(State()));
        State() == u.state && done == u.done && spi == old(spi) + Words(u.calls)
    {
      done := false;
      match currentInitStep
      case StartShutdown =>
        SendCmd(StartShutdownCmd);
        currentInitStep := FillBufferZeros;
        assert Words([CmdCall(StartShutdownCmd)]) == CmdWords(StartShutdownCmd);
      case FillBufferZeros =>
        ClearDisplayBuffer(1);
        ClearDisplayBuffer(2);
        currentInitStep := DisableCodeB;
      case DisableCodeB =>
        SendCmd(DisableCodeBCmd);
        currentInitStep := EnableScanAll;
        assert Words([CmdCall(DisableCodeBCmd)]) == CmdWords(DisableCodeBCmd);
      case EnableScanAll =>
        SendCmd(EnableScanCmd);
        currentInitStep := SetBrightness;
        assert Words([CmdCall(EnableScanCmd)]) == CmdWords(EnableScanCmd);
      case SetBrightness =>
        SendCmd(SetBrightnessCmd(10));
        currentInitStep := CopyBuffer2Display;
        assert Words([CmdCall(SetBrightnessCmd(10))]) == CmdWords(SetBrightnessCmd(10));
      case CopyBuffer2Display =>
        var finished := TakeDisplayUpdateStep();
        if finished {
          currentInitStep := EndShutdown;
        }
      case EndShutdown =>
        SendCmd(EndShutdownCmd);
        currentInitStep := StartShutdown;
        done := true;
        assert Words([CmdCall(EndShutdownCmd)]) == CmdWords(EndShutdownCmd);
    }
  }
}

// The video chip (`VIC2`): a line-at-a-time renderer of the 320x200
// visible area. Each call of `RenderNextLine` reads the chip's registers
// through the I/O hook, decides whether the line is a bad line (a new row of
// 40 character codes is fetched), draws the background in one of the text
// or bitmap modes, then draws the eight sprites over it.
//
// Colours are palette indices 0..15: the RGB palette itself is a constant
// table the host turns into texture colours.
//
// `RenderSpec` is the value-level line step; the `Vic2` class is proved
// against it. The closed forms `BackgroundPixel` and `SpriteColumnColour`
// say which colour each pixel of a line gets.
module Vic2 {
  import opened Bits
  import opened IoRegisters
  import opened Memory

  const LinesPerFrame: nat := 312
  const FirstVisibleLine: nat := 50
  const FirstInvisibleLine: nat := 250
  const ScreenWidth: nat := 320
  const ScreenHeight: nat := 200
  const PixelCount: nat := 64000
  const Columns: nat := 40
  const CharRows: nat := 25
  const SpriteHeight: nat := 21

  /** A palette index. */
  type Colour = c: int | 0 <= c < 16

  const Black: Colour := 0

  /** `v & 0xf`. */
  function Nibble(v: byte): Colour { v % 16 }

  // ---- register reads ----

  /** A register read: `ReadIO(addr)`, the hook answering first. */
  function Reg(b: Bus, addr: word): byte
    requires b.Valid()
  {
    BusReadIO(b, addr, true).0
  }

  /** $D011 reads back with bit 7 from the raster line; the chip only uses bits 0..6, which are as stored. */
  lemma ControlBitsAsStored(b: Bus)
    requires b.Valid()
    ensures Reg(b, 0xd011) % 0x80 == b.io[0x11] % 0x80
  {
    if b.hooks.Some? {
      RasterHighBits(b.hooks.value.latch.lineCounter, b.io[0x11]);
    }
  }

  /** What one line's rendering reads from the registers before it draws. */
  datatype Setup = Setup(
    background: Colour, border: Colour, mc1: Colour, mc2: Colour, mc3: Colour,
    yScroll: nat, xScroll: nat, hBorders: bool, vBorders: bool, displayEnable: bool,
    bitmapMode: bool, multiColor: bool, ebcMode: bool,
    videoBank: word, charData: word, bitmapData: word, screen: word)
  {
    predicate Valid() {
      yScroll < 8 && xScroll < 8
    }
  }

  /**
   * The register decoding at the top of `RenderNextLine`: scroll, border,
   * mode and enable bits of $D011 and $D016, the 16 KB bank from the low
   * bits of $DD00 (inverted), and the character, bitmap and screen bases
   * from $D018.
   */
  function SetupOf(b: Bus): (s: Setup)
    requires b.Valid()
    ensures s.Valid()
  {
    DecodeRegisters(Reg(b, 0xd021), Reg(b, 0xd020), Reg(b, 0xd011), Reg(b, 0xd016), Reg(b, 0xdd00),
                    Reg(b, 0xd018), Reg(b, 0xd022), Reg(b, 0xd023), Reg(b, 0xd024))
  }

  /** The decoding of the register values read at the top of the line. */
  function DecodeRegisters(background: byte, border: byte, control: byte, xControl: byte, port: byte,
                           memory: byte, mc1: byte, mc2: byte, mc3: byte): (s: Setup)
    ensures s.Valid()
  {
    var bank := Wrap16(0xc000 - (port as int % 4) * 0x4000);
    Setup(Nibble(background), Nibble(border), Nibble(mc1), Nibble(mc2), Nibble(mc3),
          control % 8, xControl % 8, !Bit(xControl, 8), !Bit(control, 8), Bit(control, 0x10),
          Bit(control, 0x20), Bit(xControl, 0x10), Bit(control, 0x40),
          bank, Wrap16(bank + And(memory, 0xe) * 0x400), Wrap16(bank + And(memory, 8) * 0x400),
          Wrap16(bank + And(memory, 0xf0) * 0x40))
  }

  /** The 16 KB bank is $C000, $8000, $4000 or $0000 for $DD00 bits 0..1 = 0, 1, 2, 3. */
  lemma VideoBanks(background: byte, border: byte, control: byte, xControl: byte, port: byte,
                   memory: byte, mc1: byte, mc2: byte, mc3: byte)
    ensures DecodeRegisters(background, border, control, xControl, port, memory, mc1, mc2, mc3).videoBank ==
      [0xc000, 0x8000, 0x4000, 0][port % 4]
  {
  }

  // ---- the raster position and the character rows ----

  /**
   * `_lineNum` (0 at the first visible line), `_nextBadlineLineNum`,
   * `_currentCharRow` (the row whose codes are latched), `_charRow` (the
   * next row to fetch), `_bitmapRow` and `_idleState`.
   */
  datatype Raster = Raster(lineNum: int, nextBadline: int, currentCharRow: int, charRow: int,
                           bitmapRow: int, idle: bool)
  {
    /**
     * The rows never pass the 25th; the bitmap row is the last fetched
     * row, and a line that is not idle draws from that row.
     */
    predicate Valid() {
      0 <= lineNum && 0 <= bitmapRow <= currentCharRow <= charRow <= CharRows &&
      bitmapRow < CharRows && (!idle ==> currentCharRow == bitmapRow)
    }
  }

  /** The state `BeginFrame` leaves: line 0, no row fetched, idle. */
  const FrameStart: Raster := Raster(0, 0, 0, 0, 0, true)

  /**
   * The bad-line test: on line 0 when the line's low three bits (counted
   * from three lines above) have reached the Y scroll, or whenever they equal
   * it at or after the line the previous bad line scheduled.
   */
  predicate BadLineDue(r: Raster, yScroll: nat) {
    (r.lineNum == 0 && (r.lineNum + 3) % 8 >= yScroll) ||
    ((r.lineNum + 3) % 8 == yScroll && r.lineNum >= r.nextBadline)
  }

  /**
   * `DoBadLine`: latch the next row; past row 24 the chip goes idle,
   * otherwise it leaves idle, the bitmap follows the row, and the next bad
   * line is scheduled 8 lines on.
   */
  function BadLine(r: Raster, yScroll: nat): (r': Raster)
    requires r.Valid()
    ensures r'.Valid() && r'.lineNum == r.lineNum
  {
    var r1 := r.(currentCharRow := r.charRow);
    if r.charRow >= CharRows then r1.(idle := true)
    else r1.(idle := false, bitmapRow := r.charRow, nextBadline := (r.charRow + 1) * 8 + yScroll - 3,
             charRow := r.charRow + 1)
  }

  /** A bad line either fetches the next row and counts it, or, with all 25 fetched, idles. */
  lemma BadLineRows(r: Raster, yScroll: nat)
    requires r.Valid()
    ensures var r' := BadLine(r, yScroll);
      r'.currentCharRow == r.charRow &&
      (r.charRow < CharRows <==> !r'.idle) &&
      (!r'.idle ==> r'.charRow == r.charRow + 1 && r'.bitmapRow == r.charRow &&
                    r'.nextBadline == r.lineNum + 8 + (r.charRow * 8 + yScroll - 3 - r.lineNum)) &&
      (r'.idle ==> r'.charRow == r.charRow && r'.bitmapRow == r.bitmapRow)
  {
  }

  /** `n` bad lines in a frame: the row counter reaches `n`, but never more than 25. */
  function BadLines(r: Raster, yScroll: nat, n: nat): (r': Raster)
    requires r.Valid()
    ensures r'.Valid()
  {
    if n == 0 then r else BadLine(BadLines(r, yScroll, n - 1), yScroll)
  }

  lemma {:induction false} FrameRows(yScroll: nat, n: nat)
    ensures BadLines(FrameStart, yScroll, n).charRow == if n < CharRows then n else CharRows
    ensures n > 0 ==> (BadLines(FrameStart, yScroll, n).idle <==> n > CharRows)
  {
    if n > 0 {
      FrameRows(yScroll, n - 1);
    }
  }

  // ---- the character row ----

  /** The 40 screen codes of a character row: unbanked RAM at the screen base. */
  function ScreenCodes(b: Bus, s: Setup, row: int): (codes: seq<byte>)
    requires b.Valid()
    ensures |codes| == Columns
  {
    seq(Columns, i requires 0 <= i < Columns => b.ram[Wrap16(s.screen + row * Columns + i)])
  }

  /** The 40 colour nibbles of a character row, from the colour RAM at $D800. */
  function ColourCodes(b: Bus, row: int): (colours: seq<Colour>)
    requires b.Valid()
    ensures |colours| == Columns
  {
    seq<Colour>(Columns, i requires 0 <= i < Columns => Nibble(Reg(b, Wrap16(0xd800 + row * Columns + i))))
  }

  /** The colour nibbles of the 25 rows are at $D800..$DBE7, inside the I/O area and clear of the CIA. */
  lemma ColourRamAddress(row: int, i: int)
    requires 0 <= row < CharRows && 0 <= i < Columns
    ensures 0xd800 <= Wrap16(0xd800 + row * Columns + i) < 0xdc00
  {
    assert row * Columns <= 24 * Columns;
  }

  // ---- the background of a line ----

  /** `0x80 << n` for n = 0..7 and the smaller powers: the moving pixel mask. */
  const Masks: seq<nat> := [0x1, 0x2, 0x4, 0x8, 0x10, 0x20, 0x40, 0x80,
                            0x100, 0x200, 0x400, 0x800, 0x1000, 0x2000, 0x4000]

  /**
   * The exponent of the pixel mask at pixel `i`: it starts at 7 + X scroll
   * and counts down; once it has reached 0, it restarts at 7 for the next
   * character.
   */
  function Exponent(i: nat, xScroll: nat): (e: nat)
    requires xScroll < 8
    ensures e < |Masks|
  {
    if i < xScroll then 7 + xScroll - i else 7 - (i - xScroll) % 8
  }

  /** The character the pixel at `i` belongs to: the first X scroll pixels still belong to character 0. */
  function CharIndexOf(i: nat, xScroll: nat): (c: nat)
    requires xScroll < 8
    ensures i < ScreenWidth ==> c < Columns
    ensures c <= i / 8 + 1
  {
    if i < xScroll then 0 else (i - xScroll) / 8
  }

  /** The mask halves at every pixel; when it runs out, the next character starts at bit 7. */
  lemma NextPixel(i: nat, xScroll: nat)
    requires xScroll < 8
    ensures var e := Exponent(i, xScroll);
      (e > 0 ==> Exponent(i + 1, xScroll) == e - 1 && CharIndexOf(i + 1, xScroll) == CharIndexOf(i, xScroll)) &&
      (e == 0 ==> Exponent(i + 1, xScroll) == 7 && CharIndexOf(i + 1, xScroll) == CharIndexOf(i, xScroll) + 1)
  {
    if i >= xScroll {
      var q := i - xScroll;
      DivModOf(q, 8, q / 8, q % 8);
      if q % 8 == 7 {
        DivModOf(q + 1, 8, q / 8 + 1, 0);
      } else {
        DivModOf(q + 1, 8, q / 8, q % 8 + 1);
      }
    }
  }

  lemma MaskSteps(e: nat)
    requires e < |Masks|
    ensures e > 0 ==> Masks[e] / 2 == Masks[e - 1]
    ensures e == 0 ==> Masks[e] / 2 == 0
    ensures Masks[e] > 0x80 <==> e > 7
    ensures e < 8 ==> Masks[e] == BitValues[e]
  {
  }

  /** `0x80 << xScroll` is the mask at pixel 0. */
  lemma FirstMask(xScroll: nat)
    requires xScroll < 8
    ensures 0x80 * BitValues[xScroll] as int == Masks[Exponent(0, xScroll)]
  {
  }

  /** `(x >> (shift & 6)) & 3`: the bit pair holding bit `shift`. */
  function BitPair(x: byte, shift: nat): (pair: nat)
    requires shift < 8
    ensures pair < 4
  {
    (x / BitValues[shift / 2 * 2]) % 4
  }

  /** $D021 and the multicolour registers $D022..$D024, selected by the top two bits of a screen code. */
  function ExtendedBackground(s: Setup, select: nat): Colour
    requires select < 4
  {
    [s.background, s.mc1, s.mc2, s.mc3][select]
  }

  /**
   * The byte behind character `c` on this line: in text modes the glyph
   * row of its screen code (only the low six bits with extended background
   * colour), in bitmap mode the byte of cell `c` in the current bitmap row.
   */
  function CharByteAt(b: Bus, s: Setup, r: Raster, chars: seq<byte>, c: nat): byte
    requires b.Valid() && |chars| == Columns && c < Columns
  {
    var glyphRow := (r.lineNum + 3 - s.yScroll) % 8;
    if !s.bitmapMode then
      var code := if s.ebcMode then chars[c] % 64 else chars[c];
      b.ram[Wrap16(s.charData + code as int * 8 + glyphRow)]
    else b.ram[Wrap16(s.bitmapData + r.bitmapRow * ScreenWidth + c * 8 + glyphRow)]
  }

  /**
   * The colour of a pixel inside the side borders, given the pixel mask
   * `bit`, its bit-pair position `pairShift`, the screen code and colour
   * nibble of its character, and the character's byte. A mask above bit 7
   * (the X-scrolled pixels before the first character) or an empty byte
   * shows the background.
   */
  function PixelColour(s: Setup, code: byte, colour: Colour, bit: nat, pairShift: nat, charByte: byte): Colour
    requires bit > 0 && (bit <= 0x80 ==> pairShift < 8)
  {
    var blank := bit > 0x80 || charByte == 0;
    if !s.bitmapMode && !s.multiColor then
      if blank || !Bit(charByte, bit) then
        if !s.ebcMode then s.background else ExtendedBackground(s, code / 64)
      else colour
    else if !s.bitmapMode then
      if blank then s.background
      else if colour < 8 then (if Bit(charByte, bit) then colour else s.background)
      else
        var pair := BitPair(charByte, pairShift);
        if pair == 0 then s.background else if pair == 1 then s.mc1 else if pair == 2 then s.mc2
        else colour % 8
    else if !s.multiColor then
      if blank then s.background
      else if Bit(charByte, bit) then code / 16 else code % 16
    else
      if blank then s.background
      else
        var pair := BitPair(charByte, pairShift);
        if pair == 0 then s.background else if pair == 1 then code / 16
        else if pair == 2 then code % 16 else colour
  }

  /** With the 38-column side borders on, pixels 0..6 and 311..319 are border. */
  predicate InSideBorder(s: Setup, i: int) {
    s.hBorders && (i < 7 || i >= 311)
  }

  /** The colour of pixel `i` of a text or bitmap line. */
  function BackgroundPixel(b: Bus, s: Setup, r: Raster, chars: seq<byte>, colours: seq<Colour>, i: nat): Colour
    requires b.Valid() && s.Valid() && |chars| == Columns && |colours| == Columns && i < ScreenWidth
  {
    if InSideBorder(s, i) then s.border
    else
      var e := Exponent(i, s.xScroll);
      var c := CharIndexOf(i, s.xScroll);
      MaskSteps(e);
      PixelColour(s, chars[c], colours[c], Masks[e], e, CharByteAt(b, s, r, chars, c))
  }

  /** The display is off, or the line is in the top or bottom border (rows 0..3 and 196..199 with 24 rows). */
  predicate BorderLine(s: Setup, r: Raster) {
    !s.displayEnable || (s.vBorders && (r.lineNum < 4 || r.lineNum >= 196))
  }

  /** Idle, or the invalid combination of extended background colour with multicolour: black. */
  predicate BlackLine(s: Setup, r: Raster) {
    r.idle || (s.ebcMode && s.multiColor)
  }

  function Fill(c: Colour): (row: seq<Colour>)
    ensures |row| == ScreenWidth && forall i :: 0 <= i < ScreenWidth ==> row[i] == c
  {
    seq(ScreenWidth, i => c)
  }

  /** The background of a line, before the sprites. */
  function LineRow(b: Bus, s: Setup, r: Raster, chars: seq<byte>, colours: seq<Colour>): (row: seq<Colour>)
    requires b.Valid() && s.Valid() && |chars| == Columns && |colours| == Columns
    ensures |row| == ScreenWidth
  {
    if BorderLine(s, r) then Fill(s.border)
    else if BlackLine(s, r) then Fill(Black)
    else BackgroundRow(b, s, r, chars, colours)
  }

  function BackgroundRow(b: Bus, s: Setup, r: Raster, chars: seq<byte>, colours: seq<Colour>): (row: seq<Colour>)
    requires b.Valid() && s.Valid() && |chars| == Columns && |colours| == Columns
    ensures |row| == ScreenWidth
  {
    seq(ScreenWidth, i requires 0 <= i < ScreenWidth => BackgroundPixel(b, s, r, chars, colours, i))
  }

  // ---- sprites ----

  /** The sprite registers shared by all eight: enable, multicolour, X bit 8, X expansion, and the two shared colours. */
  datatype SpriteRegs = SpriteRegs(enabled: byte, multi: byte, msb: byte, expand: byte, mc1: Colour, mc2: Colour)

  function SpriteRegsOf(b: Bus): SpriteRegs
    requires b.Valid()
  {
    SpriteRegs(Reg(b, 0xd015), Reg(b, 0xd01c), Reg(b, 0xd010), Reg(b, 0xd01d),
               Nibble(Reg(b, 0xd025)), Nibble(Reg(b, 0xd026)))
  }

  /**
   * A sprite starts on the line 50 above its Y register, or at line 0 if
   * its Y register is 30..49 (so it is already partly down).
   */
  predicate Activates(lineNum: int, y: byte) {
    lineNum == y - 50 || (lineNum == 0 && 30 <= y < 50)
  }

  /** Everything needed to draw one line of one sprite. */
  datatype SpriteDraw = SpriteDraw(startX: int, expand: bool, multi: bool, data: word, colour: Colour,
                                   mc1: Colour, mc2: Colour, hBorders: bool)

  /**
   * Sprite `i` on its row `row`: X from $D000 + 2i plus 256 if its bit is
   * set in $D010; an X-expanded sprite at 480..503 wraps to the left edge;
   * the data block is the pointer at screen + $3F8 + i, times 64, in the
   * video bank, 3 bytes per row.
   */
  function DrawOf(b: Bus, s: Setup, regs: SpriteRegs, i: nat, row: byte): SpriteDraw
    requires b.Valid() && i < 8
  {
    var x := Reg(b, Wrap16(0xd000 + i * 2)) + (if Bit(regs.msb, BitValues[i]) then 256 else 0);
    var expand := Bit(regs.expand, BitValues[i]);
    var startX := if expand && 480 <= x < 504 then x - 504 else x;
    var pointer := b.ram[Wrap16(s.screen + 0x3f8 + i)];
    SpriteDraw(startX, expand, Bit(regs.multi, BitValues[i]),
               Wrap16(s.videoBank + pointer as int * 0x40 + row as int * 3), Nibble(Reg(b, Wrap16(0xd027 + i))),
               regs.mc1, regs.mc2, s.hBorders)
  }

  /** The per-sprite registers of sprites 0..7 lie at $D000..$D02E, clear of the CIA. */
  lemma SpriteRegisterAddresses(i: nat)
    requires i < 8
    ensures Wrap16(0xd000 + i * 2) == 0xd000 + i * 2 && Wrap16(0xd001 + i * 2) == 0xd001 + i * 2
    ensures Wrap16(0xd027 + i) == 0xd027 + i
  {
  }

  /** The byte holding sprite pixel `j` (0..23) of the row. */
  function SpriteByte(b: Bus, p: SpriteDraw, j: nat): byte
    requires b.Valid()
  {
    b.ram[Wrap16(p.data + j / 8)]
  }

  /** The colour of sprite pixel `j` in its byte, None where it is transparent. */
  function SpritePixel(p: SpriteDraw, spriteByte: byte, j: nat): Option<Colour> {
    if p.multi then
      var pair := (spriteByte / BitValues[6 - j % 8 / 2 * 2]) % 4;
      if pair == 1 then Some(p.mc1) else if pair == 2 then Some(p.colour)
      else if pair == 3 then Some(p.mc2) else None
    else if Bit(spriteByte, BitValues[7 - j % 8]) then Some(p.colour)
    else None
  }

  /** The screen column of the first copy of sprite pixel `j` (X coordinates are 24 to the right of pixel 0). */
  function Column(p: SpriteDraw, j: nat): int {
    if p.expand then p.startX + j * 2 - 24 else p.startX + j - 24
  }

  function Copies(p: SpriteDraw): nat {
    if p.expand then 2 else 1
  }

  /**
   * Whether a sprite pixel at column `k` is drawn: inside the line and,
   * with the side borders on, outside them.
   */
  predicate Drawn(k: int, hBorders: bool) {
    0 <= k < ScreenWidth && (!hBorders || (7 <= k && k < 311))
  }

  /** Copy `l` of sprite pixel `j` painted onto the line. */
  function PaintAt(b: Bus, p: SpriteDraw, row: seq<Colour>, j: nat, l: nat): (row': seq<Colour>)
    requires b.Valid() && |row| == ScreenWidth
    ensures |row'| == ScreenWidth
  {
    var k := Column(p, j) + l;
    var spriteByte := SpriteByte(b, p, j);
    if Drawn(k, p.hBorders) && spriteByte != 0 && SpritePixel(p, spriteByte, j).Some? then
      row[k := SpritePixel(p, spriteByte, j).value]
    else row
  }

  /** The first `n` copies of sprite pixel `j`. */
  function PaintCopies(b: Bus, p: SpriteDraw, row: seq<Colour>, j: nat, n: nat): (row': seq<Colour>)
    requires b.Valid() && |row| == ScreenWidth
    ensures |row'| == ScreenWidth
  {
    if n == 0 then row else PaintAt(b, p, PaintCopies(b, p, row, j, n - 1), j, n - 1)
  }

  /** Sprite pixels 0..n-1 of the row, each with its copies. */
  function PaintSprite(b: Bus, p: SpriteDraw, row: seq<Colour>, n: nat): (row': seq<Colour>)
    requires b.Valid() && |row| == ScreenWidth
    ensures |row'| == ScreenWidth
  {
    if n == 0 then row else PaintCopies(b, p, PaintSprite(b, p, row, n - 1), n - 1, Copies(p))
  }

  /** The sprite pixel shown at column `k`, if any: the pixel `j` whose copies cover `k`. */
  function PixelAtColumn(p: SpriteDraw, k: int): Option<nat> {
    var offset := k - Column(p, 0);
    if offset < 0 then None
    else if p.expand then (if offset < 48 then Some(offset / 2) else None)
    else if offset < 24 then Some(offset) else None
  }

  /** The colour a sprite row gives column `k`, None where it leaves the line as it was. */
  function SpriteColumnColour(b: Bus, p: SpriteDraw, k: int): Option<Colour>
    requires b.Valid()
  {
    var j := PixelAtColumn(p, k);
    if j.None? || !Drawn(k, p.hBorders) then None
    else
      var spriteByte := SpriteByte(b, p, j.value);
      if spriteByte == 0 then None else SpritePixel(p, spriteByte, j.value)
  }

  // ---- the line step ----

  /** Everything `RenderNextLine` changes. */
  datatype VicState = VicState(raster: Raster, chars: seq<byte>, colours: seq<Colour>,
                               active: seq<bool>, rows: seq<byte>, pixels: seq<Colour>)
  {
    predicate Valid() {
      raster.Valid() && |chars| == Columns && |colours| == Columns && |active| == 8 && |rows| == 8 &&
      |pixels| == PixelCount
    }
  }

  /** The sprite state and the line being drawn, as the sprite loop goes from sprite 7 down to 0. */
  datatype SpritePass = SpritePass(active: seq<bool>, rows: seq<byte>, line: seq<Colour>)
  {
    predicate Valid() {
      |active| == 8 && |rows| == 8 && |line| == ScreenWidth
    }
  }

  /** An enabled, inactive sprite whose Y register matches the line becomes active at its starting row. */
  function StartSprite(b: Bus, regs: SpriteRegs, lineNum: int, p: SpritePass, i: nat): (q: SpritePass)
    requires b.Valid() && p.Valid() && i < 8
    ensures q.Valid() && q.line == p.line
  {
    var y := Reg(b, Wrap16(0xd001 + i * 2));
    if !p.active[i] && Bit(regs.enabled, BitValues[i]) && Activates(lineNum, y) then
      p.(active := p.active[i := true], rows := p.rows[i := Wrap8(lineNum + 50 - y)])
    else p
  }

  /** An active sprite is drawn (unless the line is border) and moves to its next row, ending after row 20. */
  function AdvanceSprite(b: Bus, s: Setup, regs: SpriteRegs, render: bool, q: SpritePass, i: nat): (p': SpritePass)
    requires b.Valid() && q.Valid() && i < 8
    ensures p'.Valid()
  {
    var line := if render then PaintSprite(b, DrawOf(b, s, regs, i, q.rows[i]), q.line, 24) else q.line;
    var next := Wrap8(q.rows[i] as int + 1);
    SpritePass(q.active[i := next < SpriteHeight], q.rows[i := next], line)
  }

  /** One turn of the sprite loop for sprite `i`: the start test, then, if active, the draw and the row step. */
  function SpriteStep(b: Bus, s: Setup, regs: SpriteRegs, lineNum: int, render: bool, p: SpritePass, i: nat)
    : (p': SpritePass)
    requires b.Valid() && p.Valid() && i < 8
    ensures p'.Valid()
  {
    var q := StartSprite(b, regs, lineNum, p, i);
    if q.active[i] then AdvanceSprite(b, s, regs, render, q, i) else q
  }

  /** The first `n` turns of the sprite loop: sprites 7 down to 8 - n. */
  function Sprites(b: Bus, s: Setup, regs: SpriteRegs, lineNum: int, render: bool, p: SpritePass, n: nat)
    : (p': SpritePass)
    requires b.Valid() && p.Valid() && n <= 8
    ensures p'.Valid()
  {
    if n == 0 then p
    else SpriteStep(b, s, regs, lineNum, render, Sprites(b, s, regs, lineNum, render, p, n - 1), 8 - n)
  }

  /** `pixels` with the `|row|` pixels from `start` replaced by `row`. */
  function Splice(pixels: seq<Colour>, start: nat, row: seq<Colour>): (r: seq<Colour>)
    requires start + |row| <= |pixels|
    ensures |r| == |pixels|
  {
    pixels[..start] + row + pixels[start + |row|..]
  }

  /** The bad-line test and, when not idle, the fetch of the current row's codes and colours. */
  function LatchRow(v: VicState, b: Bus, s: Setup): (u: VicState)
    requires v.Valid() && b.Valid() && s.Valid()
    ensures u.Valid() && u.raster.lineNum == v.raster.lineNum
    ensures u.active == v.active && u.rows == v.rows && u.pixels == v.pixels
  {
    var r := if BadLineDue(v.raster, s.yScroll) then BadLine(v.raster, s.yScroll) else v.raster;
    var chars := if r.idle then v.chars else ScreenCodes(b, s, r.currentCharRow);
    var colours := if r.idle then v.colours else ColourCodes(b, r.currentCharRow);
    v.(raster := r, chars := chars, colours := colours)
  }

  /** The background of the current line written into the screen. */
  function Background(u: VicState, b: Bus, s: Setup): (w: VicState)
    requires u.Valid() && b.Valid() && s.Valid() && u.raster.lineNum < ScreenHeight
    ensures w.Valid() && w.raster == u.raster && w.chars == u.chars && w.colours == u.colours
    ensures w.active == u.active && w.rows == u.rows
  {
    u.(pixels := Splice(u.pixels, u.raster.lineNum * ScreenWidth, LineRow(b, s, u.raster, u.chars, u.colours)))
  }

  /** The sprite loop over the current line of the screen, drawing when `render`. */
  function SpriteLine(u: VicState, b: Bus, s: Setup, render: bool): (w: VicState)
    requires u.Valid() && b.Valid() && u.raster.lineNum < ScreenHeight
    ensures w.Valid() && w.raster == u.raster && w.chars == u.chars && w.colours == u.colours
  {
    var start := u.raster.lineNum * ScreenWidth;
    var p := Sprites(b, s, SpriteRegsOf(b), u.raster.lineNum, render,
                     SpritePass(u.active, u.rows, u.pixels[start..start + ScreenWidth]), 8);
    u.(active := p.active, rows := p.rows, pixels := Splice(u.pixels, start, p.line))
  }

  /** The background of the current line, then the sprite loop over it (drawing unless it is a border line). */
  function PaintLine(u: VicState, b: Bus, s: Setup): (w: VicState)
    requires u.Valid() && b.Valid() && s.Valid() && u.raster.lineNum < ScreenHeight
    ensures w.Valid() && w.raster == u.raster && w.chars == u.chars && w.colours == u.colours
  {
    SpriteLine(Background(u, b, s), b, s, !BorderLine(s, u.raster))
  }

  /**
   * `RenderNextLine`, with the bus as it is during the call (the chip's
   * register reads do not change it). Past line 199 nothing happens.
   */
  function RenderSpec(v: VicState, b: Bus): (v': VicState)
    requires v.Valid() && b.Valid()
    ensures v'.Valid()
  {
    if v.raster.lineNum >= ScreenHeight then v
    else
      var s := SetupOf(b);
      var w := PaintLine(LatchRow(v, b, s), b, s);
      w.(raster := w.raster.(lineNum := w.raster.lineNum + 1))
  }

  // ---- properties of the line step ----

  /** A visible line is the latch, then the paint, then the next line number. */
  lemma RenderSteps(v: VicState, b: Bus)
    requires v.Valid() && b.Valid() && v.raster.lineNum < ScreenHeight
    ensures var w := PaintLine(LatchRow(v, b, SetupOf(b)), b, SetupOf(b));
      RenderSpec(v, b) == w.(raster := w.raster.(lineNum := w.raster.lineNum + 1))
  {
  }

  lemma SpliceUpdate(pixels: seq<Colour>, start: nat, row: seq<Colour>, k: nat, c: Colour)
    requires start + |row| <= |pixels| && k < |row|
    ensures Splice(pixels, start, row)[start + k := c] == Splice(pixels, start, row[k := c])
  {
    assert Splice(pixels, start, row)[start + k := c] == pixels[..start] + row[k := c] + pixels[start + |row|..];
  }

  lemma SpliceSlice(pixels: seq<Colour>, start: nat, row: seq<Colour>)
    requires start + |row| <= |pixels|
    ensures Splice(pixels, start, row)[start..start + |row|] == row
    ensures Splice(pixels, start, pixels[start..start + |row|]) == pixels
    ensures forall row2: seq<Colour> {:trigger Splice(Splice(pixels, start, row), start, row2)} ::
      |row2| == |row| ==> Splice(Splice(pixels, start, row), start, row2) == Splice(pixels, start, row2)
  {
    assert pixels == pixels[..start] + pixels[start..start + |row|] + pixels[start + |row|..];
  }

  /** Writing the pixel just after a spliced prefix extends the prefix. */
  lemma SpliceExtend(pixels: seq<Colour>, start: nat, row: seq<Colour>, c: Colour)
    requires start + |row| < |pixels|
    ensures Splice(pixels, start, row)[start + |row| := c] == Splice(pixels, start, row + [c])
  {
    assert Splice(pixels, start, row)[start + |row| := c] == pixels[..start] + (row + [c]) + pixels[start + |row| + 1..];
  }

  lemma PrefixUpdate<T>(before: seq<T>, target: seq<T>, i: nat)
    requires i < |before| == |target| && before[..i] == target[..i]
    ensures before[i := target[i]][..i + 1] == target[..i + 1]
  {
    assert forall x :: 0 <= x <= i ==> before[i := target[i]][x] == target[x];
  }

  lemma PrefixStep(row: seq<Colour>, i: nat)
    requires i < |row|
    ensures row[..i] + [row[i]] == row[..i + 1]
  {
  }

  /** A buffer that agrees with `row` on the window and with `pixels` elsewhere is the splice. */
  lemma SpliceOf(pixels: seq<Colour>, after: seq<Colour>, start: nat, row: seq<Colour>)
    requires start + |row| <= |pixels| == |after|
    requires forall x :: 0 <= x < |row| ==> after[start + x] == row[x]
    requires forall x :: 0 <= x < |pixels| && !(start <= x < start + |row|) ==> after[x] == pixels[x]
    ensures after == Splice(pixels, start, row)
  {
    var spliced := Splice(pixels, start, row);
    forall x | 0 <= x < |pixels|
      ensures after[x] == spliced[x]
    {
      if start <= x < start + |row| {
        assert after[start + (x - start)] == row[x - start];
      }
    }
  }

  /**
   * A line step draws only its own line: every pixel outside the 320 of
   * line `lineNum` is left as it was, and the line counter moves on by one
   * until it reaches 200.
   */
  lemma RenderOnlyItsLine(v: VicState, b: Bus)
    requires v.Valid() && b.Valid()
    ensures var v' := RenderSpec(v, b);
      var start := v.raster.lineNum * ScreenWidth;
      v'.raster.lineNum == (if v.raster.lineNum < ScreenHeight then v.raster.lineNum + 1 else v.raster.lineNum) &&
      forall x :: 0 <= x < PixelCount && !(v.raster.lineNum < ScreenHeight && start <= x < start + ScreenWidth) ==>
        v'.pixels[x] == v.pixels[x]
  {
    if v.raster.lineNum < ScreenHeight {
      var s := SetupOf(b);
      var u := LatchRow(v, b, s);
      var g := Background(u, b, s);
      var start := v.raster.lineNum * ScreenWidth;
      var p := Sprites(b, s, SpriteRegsOf(b), u.raster.lineNum, !BorderLine(s, u.raster),
                       SpritePass(g.active, g.rows, g.pixels[start..start + ScreenWidth]), 8);
      SpliceKeeps(v.pixels, start, LineRow(b, s, u.raster, u.chars, u.colours));
      SpliceKeeps(g.pixels, start, p.line);
      RenderSteps(v, b);
    }
  }

  /** A splice leaves every pixel outside its window as it was. */
  lemma SpliceKeeps(pixels: seq<Colour>, start: nat, row: seq<Colour>)
    requires start + |row| <= |pixels|
    ensures forall x :: 0 <= x < |pixels| && !(start <= x < start + |row|) ==> Splice(pixels, start, row)[x] == pixels[x]
  {
  }

  /** After `BeginFrame`, the first line is a bad line exactly when the Y scroll is at most 3. */
  lemma FirstBadLine(yScroll: nat)
    ensures BadLineDue(FrameStart, yScroll) <==> yScroll <= 3
  {
  }

  /** A sprite starts at row 0 on the line 50 above its Y, or part-way down (rows 1..20) at line 0. */
  lemma SpriteStartRow(lineNum: int, y: byte)
    requires 0 <= lineNum && Activates(lineNum, y)
    ensures Wrap8(lineNum + 50 - y) < SpriteHeight
    ensures lineNum == y - 50 ==> Wrap8(lineNum + 50 - y) == 0
    ensures lineNum != y - 50 ==> Wrap8(lineNum + 50 - y) == 50 - y
  {
  }

  /**
   * In single-colour text mode, a pixel of character `c` inside the side
   * borders shows the character's colour when its bit in the glyph row is
   * set (bit 7 for the leftmost pixel of the cell), else the background
   * (with extended background colour, one of four selected by the code's
   * top two bits).
   */
  lemma TextPixel(b: Bus, s: Setup, r: Raster, chars: seq<byte>, colours: seq<Colour>, i: nat)
    requires b.Valid() && s.Valid() && |chars| == Columns && |colours| == Columns && i < ScreenWidth
    requires !s.bitmapMode && !s.multiColor && !InSideBorder(s, i) && i >= s.xScroll
    ensures var c := (i - s.xScroll) / 8;
      var lit := BitAt(CharByteAt(b, s, r, chars, c), 7 - (i - s.xScroll) % 8);
      BackgroundPixel(b, s, r, chars, colours, i) ==
        if lit then colours[c] else if !s.ebcMode then s.background else ExtendedBackground(s, chars[c] / 64)
  {
    var e := Exponent(i, s.xScroll);
    var cb := CharByteAt(b, s, r, chars, CharIndexOf(i, s.xScroll));
    MaskSteps(e);
    BitAtMask(cb, e);
    if cb == 0 {
      ZeroHasNoBits(e);
    }
  }

  /**
   * In single-colour bitmap mode a set bit shows the high nibble of the
   * cell's screen code and a clear bit the low nibble, except that a cell
   * byte of zero shows the background colour.
   */
  lemma BitmapPixel(b: Bus, s: Setup, r: Raster, chars: seq<byte>, colours: seq<Colour>, i: nat)
    requires b.Valid() && s.Valid() && |chars| == Columns && |colours| == Columns && i < ScreenWidth
    requires s.bitmapMode && !s.multiColor && !InSideBorder(s, i) && i >= s.xScroll
    ensures var c := (i - s.xScroll) / 8;
      var cb := CharByteAt(b, s, r, chars, c);
      BackgroundPixel(b, s, r, chars, colours, i) ==
        if cb == 0 then s.background
        else if BitAt(cb, 7 - (i - s.xScroll) % 8) then chars[c] / 16 else chars[c] % 16
  {
    var e := Exponent(i, s.xScroll);
    var cb := CharByteAt(b, s, r, chars, CharIndexOf(i, s.xScroll));
    MaskSteps(e);
    BitAtMask(cb, e);
  }

  /**
   * The pixels scrolled in on the left, before the first character, show
   * the background in every mode but extended background colour, where the
   * first character's code selects it.
   */
  lemma ScrolledInPixels(b: Bus, s: Setup, r: Raster, chars: seq<byte>, colours: seq<Colour>, i: nat)
    requires b.Valid() && s.Valid() && |chars| == Columns && |colours| == Columns && i < s.xScroll
    requires !InSideBorder(s, i)
    ensures BackgroundPixel(b, s, r, chars, colours, i) ==
      if !s.bitmapMode && !s.multiColor && s.ebcMode then ExtendedBackground(s, chars[0] / 64)
      else s.background
  {
    MaskSteps(Exponent(i, s.xScroll));
  }

  /** Sprite pixel `j` covers the `Copies` columns from `Column(p, j)`. */
  lemma ColumnCovers(p: SpriteDraw, j: nat, k: int)
    requires j < 24
    ensures Column(p, j) <= k < Column(p, j) + Copies(p) <==> PixelAtColumn(p, k) == Some(j)
  {
    var offset := k - Column(p, 0);
    if p.expand && offset >= 0 {
      DivModOf(offset, 2, offset / 2, offset % 2);
    }
  }

  lemma {:induction false} CopiesAt(b: Bus, p: SpriteDraw, row: seq<Colour>, j: nat, m: nat, k: int)
    requires b.Valid() && |row| == ScreenWidth && 0 <= k < ScreenWidth
    ensures var spriteByte := SpriteByte(b, p, j);
      PaintCopies(b, p, row, j, m)[k] ==
        if Column(p, j) <= k < Column(p, j) + m && Drawn(k, p.hBorders) && spriteByte != 0 &&
           SpritePixel(p, spriteByte, j).Some?
        then SpritePixel(p, spriteByte, j).value else row[k]
  {
    if m > 0 {
      CopiesAt(b, p, row, j, m - 1, k);
    }
  }

  lemma {:induction false} SpriteUpTo(b: Bus, p: SpriteDraw, row: seq<Colour>, n: nat, k: int)
    requires b.Valid() && |row| == ScreenWidth && 0 <= k < ScreenWidth && n <= 24
    ensures var j := PixelAtColumn(p, k);
      PaintSprite(b, p, row, n)[k] ==
        if j.Some? && j.value < n && SpriteColumnColour(b, p, k).Some? then SpriteColumnColour(b, p, k).value
        else row[k]
  {
    if n > 0 {
      SpriteUpTo(b, p, row, n - 1, k);
      CopiesAt(b, p, PaintSprite(b, p, row, n - 1), n - 1, Copies(p), k);
      ColumnCovers(p, n - 1, k);
    }
  }

  /**
   * A drawn sprite row gives each column the colour of the sprite pixel
   * covering it (each pixel twice as wide when X-expanded), where that
   * pixel is not transparent and the column is drawable, and leaves every
   * other column as it was.
   */
  lemma SpriteClosedForm(b: Bus, p: SpriteDraw, row: seq<Colour>, k: int)
    requires b.Valid() && |row| == ScreenWidth && 0 <= k < ScreenWidth
    ensures PaintSprite(b, p, row, 24)[k] ==
      if SpriteColumnColour(b, p, k).Some? then SpriteColumnColour(b, p, k).value else row[k]
  {
    SpriteUpTo(b, p, row, 24, k);
    var j := PixelAtColumn(p, k);
    if j.Some? {
      assert j.value < 24;
    }
  }

  // ---- the sprite guard as written ----

  /**
   * The column test of the sprite loop as the source writes it: column 320,
   * one past the end of the line, passes when the side borders are off.
   */
  predicate SpriteGuardAsWritten(k: int, hBorders: bool) {
    k >= 0 && k <= ScreenWidth && (!hBorders || (k >= 7 && k < 311))
  }

  /**
   * Copy `l` of sprite pixel `j` painted with that test into the whole
   * buffer from `start`; None where the index is past the buffer (the
   * write throws).
   */
  function PaintAtAsWritten(b: Bus, p: SpriteDraw, pixels: seq<Colour>, start: nat, j: nat, l: nat)
    : (r: Option<seq<Colour>>)
    requires b.Valid()
    ensures r.Some? ==> |r.value| == |pixels|
  {
    var k := Column(p, j) + l;
    var spriteByte := SpriteByte(b, p, j);
    if SpriteGuardAsWritten(k, p.hBorders) && spriteByte != 0 && SpritePixel(p, spriteByte, j).Some? then
      if start + k < |pixels| then Some(pixels[start + k := SpritePixel(p, spriteByte, j).value]) else None
    else Some(pixels)
  }

  /**
   * Sprite 0 with X register 88 and its X bit 8 set (X = 344), not
   * expanded, side borders off: its first pixel lands on column 320. On
   * line 199 that write is past the 64000-pixel buffer; on any earlier line
   * it overwrites the first pixel of the next line.
   */
  lemma AsWrittenOverrun(b: Bus, s: Setup, regs: SpriteRegs, row: byte, pixels: seq<Colour>, lineNum: nat)
    requires b.Valid() && |pixels| == PixelCount && lineNum < ScreenHeight
    requires Reg(b, 0xd000) == 88 && Bit(regs.msb, 1) && !Bit(regs.expand, 1) && !Bit(regs.multi, 1)
    requires !s.hBorders && Bit(SpriteByte(b, DrawOf(b, s, regs, 0, row), 0), 0x80)
    ensures var p := DrawOf(b, s, regs, 0, row);
      p.startX == 344 && Column(p, 0) == ScreenWidth && SpriteGuardAsWritten(Column(p, 0), false) &&
      !Drawn(Column(p, 0), false) &&
      (lineNum == ScreenHeight - 1 ==> PaintAtAsWritten(b, p, pixels, lineNum * ScreenWidth, 0, 0).None?) &&
      (lineNum < ScreenHeight - 1 ==>
         PaintAtAsWritten(b, p, pixels, lineNum * ScreenWidth, 0, 0) ==
           Some(pixels[(lineNum + 1) * ScreenWidth := p.colour]))
  {
    var p := DrawOf(b, s, regs, 0, row);
    assert p.startX == 344;
    assert SpritePixel(p, SpriteByte(b, p, 0), 0) == Some(p.colour);
  }

  /** Pixel `i` of the background row, in terms of the mask, character and byte the drawing loop holds there. */
  lemma BackgroundAt(b: Bus, s: Setup, r: Raster, chars: seq<byte>, colours: seq<Colour>, i: nat)
    requires b.Valid() && s.Valid() && |chars| == Columns && |colours| == Columns && i < ScreenWidth
    ensures var e, c := Exponent(i, s.xScroll), CharIndexOf(i, s.xScroll);
      e < 8 ==> Masks[e] <= 0x80
    ensures var e, c := Exponent(i, s.xScroll), CharIndexOf(i, s.xScroll);
      BackgroundRow(b, s, r, chars, colours)[i] ==
        if InSideBorder(s, i) then s.border
        else PixelColour(s, chars[c], colours[c], Masks[e], e, CharByteAt(b, s, r, chars, c))
  {
    MaskSteps(Exponent(i, s.xScroll));
  }

  /** One pixel on: the mask halves, or, having run out, restarts at bit 7 on the next character. */
  lemma MaskAdvance(i: nat, xScroll: nat)
    requires xScroll < 8
    ensures var e := Exponent(i, xScroll);
      (Masks[e] / 2 == 0 ==> Exponent(i + 1, xScroll) == 7 && Masks[7] == 0x80 &&
                              CharIndexOf(i + 1, xScroll) == CharIndexOf(i, xScroll) + 1) &&
      (Masks[e] / 2 != 0 ==> Exponent(i + 1, xScroll) == e - 1 && Masks[e - 1] == Masks[e] / 2 &&
                              CharIndexOf(i + 1, xScroll) == CharIndexOf(i, xScroll))
  {
    NextPixel(i, xScroll);
    MaskSteps(Exponent(i, xScroll));
  }

  // ---- the chip object ----

  class Vic2 {
    const ram: Ram64K
    /** The 320x200 screen, row by row, as palette indices. */
    const pixels: array<Colour>
    /** `_lineChars` and `_lineColors`: the screen codes and colour nibbles of the latched row. */
    const lineChars: array<byte>
    const lineColors: array<Colour>
    const spriteActive: array<bool>
    const spriteRow: array<byte>
    var lineNum: int
    var nextBadlineLineNum: int
    var currentCharRow: int
    var charRow: int
    var bitmapRow: int
    var idleState: bool

    ghost predicate Valid()
      reads this
    {
      ram.Valid() && pixels.Length == PixelCount && lineChars.Length == Columns &&
      lineColors.Length == Columns && spriteActive.Length == 8 && spriteRow.Length == 8 &&
      pixels != lineColors && lineChars != spriteRow &&
      lineChars != ram.ram && lineChars != ram.ioRam && spriteRow != ram.ram && spriteRow != ram.ioRam &&
      RasterState().Valid()
    }

    /** What drawing a line needs of the object, none of it in `pixels`. */
    ghost predicate Latched()
      reads this, lineChars, lineColors
    {
      ram.Valid() && lineChars.Length == Columns && lineColors.Length == Columns &&
      lineChars != ram.ram && 0 <= bitmapRow < CharRows
    }

    function RasterState(): Raster
      reads this
    {
      Raster(lineNum, nextBadlineLineNum, currentCharRow, charRow, bitmapRow, idleState)
    }

    function State(): VicState
      reads this, pixels, lineChars, lineColors, spriteActive, spriteRow
    {
      VicState(RasterState(), lineChars[..], lineColors[..], spriteActive[..], spriteRow[..], pixels[..])
    }

    /** A black screen, all counters zero, not idle, no sprite active. */
    constructor (ram: Ram64K)
      requires ram.Valid()
      ensures Valid() && this.ram == ram
      ensures fresh(pixels) && fresh(lineChars) && fresh(lineColors) && fresh(spriteActive) && fresh(spriteRow)
      ensures RasterState() == Raster(0, 0, 0, 0, 0, false) && pixels[..] == seq(PixelCount, _ => Black)
      ensures lineChars[..] == seq(Columns, _ => 0) && lineColors[..] == seq(Columns, _ => 0)
      ensures spriteActive[..] == seq(8, _ => false) && spriteRow[..] == seq(8, _ => 0)
    {
      var screen := new Colour[PixelCount];
      for i := 0 to PixelCount
        invariant forall x :: 0 <= x < i ==> screen[x] == Black
      {
        screen[i] := Black;
      }
      this.ram := ram;
      pixels := screen;
      lineChars := new byte[Columns](_ => 0);
      lineColors := new Colour[Columns](_ => 0);
      spriteActive := new bool[8](_ => false);
      spriteRow := new byte[8](_ => 0);
      lineNum, nextBadlineLineNum, currentCharRow, charRow, bitmapRow, idleState := 0, 0, 0, 0, 0, false;
    }

    /** Called before the first visible line: line 0, no row fetched, idle, every sprite off. */
    method BeginFrame()
      requires Valid()
      modifies this, spriteActive
      ensures Valid()
      ensures State() == old(State()).(raster := FrameStart, active := seq(8, _ => false))
    {
      lineNum := 0;
      nextBadlineLineNum := 0;
      charRow := 0;
      currentCharRow := 0;
      bitmapRow := 0;
      idleState := true;
      for i := 0 to 8
        modifies spriteActive
        invariant forall x :: 0 <= x < i ==> !spriteActive[x]
        invariant forall x :: i <= x < 8 ==> spriteActive[x] == old(spriteActive[x])
      {
        spriteActive[i] := false;
      }
    }

    method DoBadLine(yScroll: nat)
      requires Valid()
      modifies this
      ensures ram.State() == old(ram.State())
      ensures Valid() && State() == old(State()).(raster := BadLine(old(RasterState()), yScroll))
    {
      currentCharRow := charRow;
      if charRow >= CharRows {
        idleState := true;
        return;
      }
      idleState := false;
      bitmapRow := charRow;
      nextBadlineLineNum := (charRow + 1) * 8 + yScroll - 3;
      charRow := charRow + 1;
    }

    /** `ReadIO(addr)` of one of the chip's registers, which leaves the bus as it was. */
    method Register(addr: word) returns (v: byte)
      requires ram.Valid() && addr != 0xdc0d
      ensures v == Reg(ram.State(), addr)
    {
      v := ram.PeekIO(addr, true);
    }

    method ReadSetup() returns (s: Setup)
      requires ram.Valid()
      ensures s == SetupOf(ram.State())
    {
      var background := Register(0xd021);
      var border := Register(0xd020);
      var control := Register(0xd011);
      var xControl := Register(0xd016);
      var port := Register(0xdd00);
      var memory := Register(0xd018);
      var mc1 := Register(0xd022);
      var mc2 := Register(0xd023);
      var mc3 := Register(0xd024);
      s := DecodeRegisters(background, border, control, xControl, port, memory, mc1, mc2, mc3);
    }

    /** Column `i` of the row: its screen code and its colour nibble. */
    method FetchColumn(s: Setup, i: nat)
      requires Valid() && 0 <= currentCharRow < CharRows && i < Columns
      modifies lineChars, lineColors
      ensures ram.State() == old(ram.State())
      ensures lineChars[..] == old(lineChars[..])[i := ScreenCodes(ram.State(), s, currentCharRow)[i]]
      ensures lineColors[..] == old(lineColors[..])[i := ColourCodes(ram.State(), currentCharRow)[i]]
    {
      ghost var b := ram.State();
      var code := ram.ReadRAM(Wrap16(s.screen + currentCharRow * Columns + i));
      ColourRamAddress(currentCharRow, i);
      var colour := Register(Wrap16(0xd800 + currentCharRow * Columns + i));
      assert code == ScreenCodes(b, s, currentCharRow)[i];
      assert Nibble(colour) == ColourCodes(b, currentCharRow)[i];
      lineChars[i] := code;
      lineColors[i] := Nibble(colour);
    }

    /** The row fetch of a non-idle line: screen codes from RAM, colour nibbles from $D800. */
    method FetchRow(s: Setup)
      requires Valid() && 0 <= currentCharRow < CharRows
      modifies lineChars, lineColors
      ensures ram.State() == old(ram.State())
      ensures lineChars[..] == ScreenCodes(ram.State(), s, currentCharRow)
      ensures lineColors[..] == ColourCodes(ram.State(), currentCharRow)
    {
      ghost var b := ram.State();
      ghost var codes, colours := ScreenCodes(b, s, currentCharRow), ColourCodes(b, currentCharRow);
      for i := 0 to Columns
        invariant forall x :: 0 <= x < i ==> lineChars[x] == codes[x]
        invariant forall x :: 0 <= x < i ==> lineColors[x] == colours[x]
      {
        FetchColumn(s, i);
      }
    }

    method FillLine(start: nat, c: Colour)
      requires pixels.Length == PixelCount && start + ScreenWidth <= PixelCount
      modifies pixels
      ensures pixels[..] == Splice(old(pixels[..]), start, Fill(c))
    {
      for i := 0 to ScreenWidth
        invariant forall x :: start <= x < start + i ==> pixels[x] == c
        invariant forall x :: 0 <= x < PixelCount && !(start <= x < start + i) ==> pixels[x] == old(pixels[x])
      {
        pixels[start + i] := c;
      }
      SpliceOf(old(pixels[..]), pixels[..], start, Fill(c));
    }

    /** The byte of character `c`: its glyph row in text modes, its cell byte in bitmap mode. */
    method FetchCharByte(s: Setup, c: nat) returns (v: byte)
      requires Latched() && s.Valid() && c < Columns
      ensures v == CharByteAt(ram.State(), s, RasterState(), lineChars[..], c)
    {
      var glyphRow := (lineNum + 3 - s.yScroll) % 8;
      if !s.bitmapMode {
        var code := if s.ebcMode then lineChars[c] % 64 else lineChars[c];
        v := ram.ReadRAM(Wrap16(s.charData + code as int * 8 + glyphRow));
      } else {
        v := ram.ReadRAM(Wrap16(s.bitmapData + bitmapRow * ScreenWidth + c * 8 + glyphRow));
      }
    }

    /** The colour choice for pixel `i` inside the drawing loop of the text and bitmap modes. */
    method BackgroundColour(s: Setup, i: nat, charIndex: nat, bit: nat, bitPairShift: nat, charByte: byte,
                            ghost row: seq<Colour>)
      returns (colour: Colour)
      requires Latched() && s.Valid() && i < ScreenWidth
      requires row == BackgroundRow(ram.State(), s, RasterState(), lineChars[..], lineColors[..])
      requires charIndex == CharIndexOf(i, s.xScroll) && bitPairShift == Exponent(i, s.xScroll)
      requires bit == Masks[bitPairShift]
      requires charByte == CharByteAt(ram.State(), s, RasterState(), lineChars[..], charIndex)
      ensures colour == row[i]
    {
      BackgroundAt(ram.State(), s, RasterState(), lineChars[..], lineColors[..], i);
      MaskSteps(bitPairShift);
      if InSideBorder(s, i) {
        colour := s.border;
      } else {
        colour := PixelColour(s, lineChars[charIndex], lineColors[charIndex], bit, bitPairShift, charByte);
      }
    }

    /** Moving on one pixel: the mask halves; once it runs out, bit 7 of the next character's byte. */
    method NextMask(s: Setup, i: nat, bit: nat, bitPairShift: nat, charIndex: nat, charByte: byte)
      returns (bit': nat, bitPairShift': int, charIndex': nat, charByte': byte)
      requires Latched() && s.Valid() && i < ScreenWidth
      requires charIndex == CharIndexOf(i, s.xScroll) && bitPairShift == Exponent(i, s.xScroll)
      requires bit == Masks[bitPairShift]
      ensures charIndex' == CharIndexOf(i + 1, s.xScroll) && bitPairShift' == Exponent(i + 1, s.xScroll)
      ensures bit' == Masks[bitPairShift']
      ensures charIndex' == charIndex ==> charByte' == charByte
      ensures charIndex' != charIndex && charIndex' < Columns ==>
                charByte' == CharByteAt(ram.State(), s, RasterState(), lineChars[..], charIndex')
    {
      MaskAdvance(i, s.xScroll);
      bit', bitPairShift', charIndex', charByte' := bit / 2, bitPairShift - 1, charIndex, charByte;
      if bit' == 0 {
        bit' := 0x80;
        bitPairShift' := 7;
        charIndex' := charIndex + 1;
        if charIndex' < Columns {
          charByte' := FetchCharByte(s, charIndex');
        }
      }
    }

    /** Pixel `i` of the line at `start`, the next of `row` to be written. */
    method PutPixel(start: nat, i: nat, colour: Colour, ghost p0: seq<Colour>, ghost row: seq<Colour>)
      requires pixels.Length == PixelCount == |p0| && start + ScreenWidth <= PixelCount
      requires i < |row| == ScreenWidth && colour == row[i] && pixels[..] == Splice(p0, start, row[..i])
      modifies pixels
      ensures pixels[..] == Splice(p0, start, row[..i + 1])
    {
      SpliceExtend(p0, start, row[..i], colour);
      PrefixStep(row, i);
      pixels[start + i] := colour;
    }

    /**
     * The text and bitmap modes: the mask walks from bit 7 + X scroll down,
     * and each time it runs out the next character's byte is fetched.
     */
    method DrawBackground(s: Setup, start: nat)
      requires Valid() && s.Valid() && start + ScreenWidth <= PixelCount
      modifies pixels
      ensures ram.State() == old(ram.State())
      ensures pixels[..] == Splice(old(pixels[..]), start,
                BackgroundRow(ram.State(), s, RasterState(), lineChars[..], lineColors[..]))
    {
      ghost var b, r, chars, colours := ram.State(), RasterState(), lineChars[..], lineColors[..];
      ghost var row := BackgroundRow(b, s, r, chars, colours);
      var charIndex := 0;
      var bit := BitValues[s.xScroll] as int * 0x80;
      var bitPairShift := 7 + s.xScroll;
      assert Latched();
      var charByte := FetchCharByte(s, charIndex);
      FirstMask(s.xScroll);
      for i := 0 to ScreenWidth
        modifies pixels
        invariant lineChars[..] == chars && lineColors[..] == colours && ram.State() == b
        invariant charIndex == CharIndexOf(i, s.xScroll) && bitPairShift == Exponent(i, s.xScroll)
        invariant bit == Masks[bitPairShift]
        invariant charIndex < Columns ==> charByte == CharByteAt(b, s, r, chars, charIndex)
        invariant pixels[..] == Splice(old(pixels[..]), start, row[..i])
      {
        var colour := BackgroundColour(s, i, charIndex, bit, bitPairShift, charByte, row);
        PutPixel(start, i, colour, old(pixels[..]), row);
        bit, bitPairShift, charIndex, charByte := NextMask(s, i, bit, bitPairShift, charIndex, charByte);
      }
      assert row[..ScreenWidth] == row;
    }

    /** The sprite state and the line starting at `start`. */
    ghost function Pass(start: nat): SpritePass
      reads this, spriteActive, spriteRow, pixels
      requires start + ScreenWidth <= pixels.Length
    {
      SpritePass(spriteActive[..], spriteRow[..], pixels[start..start + ScreenWidth])
    }

    /** The shared sprite registers, read in the order the chip reads them. */
    method ReadSpriteRegs() returns (regs: SpriteRegs)
      requires ram.Valid()
      ensures regs == SpriteRegsOf(ram.State())
    {
      var enabled := Register(0xd015);
      var multi := Register(0xd01c);
      var msb := Register(0xd010);
      var expand := Register(0xd01d);
      var mc1 := Register(0xd025);
      var mc2 := Register(0xd026);
      regs := SpriteRegs(enabled, multi, msb, expand, Nibble(mc1), Nibble(mc2));
    }

    /** Position, data address and colour of sprite `i` on its row `row`. */
    method SpriteDrawAt(s: Setup, regs: SpriteRegs, i: nat, row: byte) returns (p: SpriteDraw)
      requires ram.Valid() && i < 8
      ensures p == DrawOf(ram.State(), s, regs, i, row)
    {
      ghost var b := ram.State();
      SpriteRegisterAddresses(i);
      var startX := Register(Wrap16(0xd000 + i * 2));
      var x: int := startX;
      if Bit(regs.msb, BitValues[i]) {
        x := x + 256;
      }
      var expand := Bit(regs.expand, BitValues[i]);
      if expand && 480 <= x < 504 {
        x := x - 504;
      }
      var pointer := ram.ReadRAM(Wrap16(s.screen + 0x3f8 + i));
      var colour := Register(Wrap16(0xd027 + i));
      assert pointer == b.ram[Wrap16(s.screen + 0x3f8 + i)];
      p := SpriteDraw(x, expand, Bit(regs.multi, BitValues[i]),
                      Wrap16(s.videoBank + pointer as int * 0x40 + row as int * 3), Nibble(colour),
                      regs.mc1, regs.mc2, s.hBorders);
    }

    /** Copy `l` of sprite pixel `j` (whose byte is `spriteByte`), at column `k` of the line at `start`. */
    method PlotSpritePixel(p: SpriteDraw, start: nat, j: nat, l: nat, k: int, spriteByte: byte,
                           ghost p0: seq<Colour>, ghost row: seq<Colour>)
      requires ram.Valid() && pixels.Length == PixelCount && start + ScreenWidth <= PixelCount
      requires |p0| == PixelCount && |row| == ScreenWidth && pixels[..] == Splice(p0, start, row)
      requires k == Column(p, j) + l && spriteByte == SpriteByte(ram.State(), p, j)
      modifies pixels
      ensures ram.State() == old(ram.State())
      ensures pixels[..] == Splice(p0, start, PaintAt(ram.State(), p, row, j, l))
    {
      var c := SpritePixel(p, spriteByte, j);
      if Drawn(k, p.hBorders) && spriteByte != 0 && c.Some? {
        SpliceUpdate(p0, start, row, k, c.value);
        pixels[start + k] := c.value;
      }
    }

    /** Sprite pixel `j`, once or, X-expanded, twice, over the line `row` at `start`. */
    method PlotCopies(p: SpriteDraw, start: nat, j: nat, ghost p0: seq<Colour>, ghost row: seq<Colour>)
      requires ram.Valid() && pixels.Length == PixelCount && start + ScreenWidth <= PixelCount
      requires |p0| == PixelCount && |row| == ScreenWidth && pixels[..] == Splice(p0, start, row)
      modifies pixels
      ensures ram.State() == old(ram.State())
      ensures pixels[..] == Splice(p0, start, PaintCopies(ram.State(), p, row, j, Copies(p)))
    {
      ghost var b := ram.State();
      var k := if p.expand then p.startX + j * 2 - 24 else p.startX + j - 24;
      var spriteByte := ram.ReadRAM(Wrap16(p.data + j / 8));
      for l := 0 to (if p.expand then 2 else 1)
        invariant k == Column(p, j) + l && ram.State() == b
        invariant pixels[..] == Splice(p0, start, PaintCopies(b, p, row, j, l))
      {
        PlotSpritePixel(p, start, j, l, k, spriteByte, p0, PaintCopies(b, p, row, j, l));
        k := k + 1;
      }
    }

    /** One line of one sprite: 24 pixels, each once or, X-expanded, twice. */
    method DrawSprite(p: SpriteDraw, start: nat)
      requires ram.Valid() && pixels.Length == PixelCount && start + ScreenWidth <= PixelCount
      modifies pixels
      ensures ram.State() == old(ram.State())
      ensures pixels[..] == Splice(old(pixels[..]), start, PaintSprite(ram.State(), p, old(pixels[start..start + ScreenWidth]), 24))
    {
      ghost var b, p0, row0 := ram.State(), pixels[..], pixels[start..start + ScreenWidth];
      SpliceSlice(p0, start, row0);
      for j := 0 to 24
        invariant ram.State() == b
        invariant pixels[..] == Splice(p0, start, PaintSprite(b, p, row0, j))
      {
        PlotCopies(p, start, j, p0, PaintSprite(b, p, row0, j));
      }
    }

    /** The start test of sprite `i`. */
    method StartTurn(regs: SpriteRegs, start: nat, i: nat)
      requires ram.Valid() && i < 8 && pixels.Length == PixelCount && start + ScreenWidth <= PixelCount
      requires spriteActive.Length == 8 && spriteRow.Length == 8
      requires Pass(start).Valid()
      modifies spriteActive, spriteRow
      ensures ram.State() == old(ram.State())
      ensures Pass(start) == StartSprite(ram.State(), regs, lineNum, old(Pass(start)), i)
    {
      SpriteRegisterAddresses(i);
      var y := Register(Wrap16(0xd001 + i * 2));
      if !spriteActive[i] && Bit(regs.enabled, BitValues[i]) {
        if Activates(lineNum, y) {
          spriteActive[i] := true;
          spriteRow[i] := Wrap8(lineNum + 50 - y);
        }
      }
    }

    /** Sprite `i` drawn on its current row. */
    method DrawTurn(s: Setup, regs: SpriteRegs, start: nat, i: nat)
      requires ram.Valid() && i < 8 && pixels.Length == PixelCount && start + ScreenWidth <= PixelCount
      requires spriteRow.Length == 8
      modifies pixels
      ensures ram.State() == old(ram.State())
      ensures pixels[start..start + ScreenWidth] ==
        PaintSprite(ram.State(), DrawOf(ram.State(), s, regs, i, spriteRow[i]), old(pixels[start..start + ScreenWidth]), 24)
      ensures pixels[..] == Splice(old(pixels[..]), start, pixels[start..start + ScreenWidth])
    {
      ghost var p0 := pixels[..];
      var p := SpriteDrawAt(s, regs, i, spriteRow[i]);
      DrawSprite(p, start);
      SpliceSlice(p0, start, PaintSprite(ram.State(), p, p0[start..start + ScreenWidth], 24));
    }

    /** An active sprite `i`: drawn when `render`, then on to its next row. */
    method AdvanceTurn(s: Setup, regs: SpriteRegs, render: bool, start: nat, i: nat)
      requires ram.Valid() && i < 8 && pixels.Length == PixelCount && start + ScreenWidth <= PixelCount
      requires spriteActive.Length == 8 && spriteRow.Length == 8 && spriteRow != ram.ram && spriteRow != ram.ioRam
      requires Pass(start).Valid()
      modifies spriteActive, spriteRow, pixels
      ensures ram.State() == old(ram.State())
      ensures Pass(start) == AdvanceSprite(ram.State(), s, regs, render, old(Pass(start)), i)
      ensures pixels[..] == Splice(old(pixels[..]), start, Pass(start).line)
    {
      ghost var p0 := pixels[..];
      SpliceSlice(p0, start, p0[start..start + ScreenWidth]);
      if render {
        DrawTurn(s, regs, start, i);
      }
      spriteRow[i] := Wrap8(spriteRow[i] as int + 1);
      spriteActive[i] := spriteRow[i] < SpriteHeight;
    }

    /** Sprite `i`'s turn of the sprite loop, over a screen that is `p0` outside the line at `start`. */
    method SpriteTurn(s: Setup, regs: SpriteRegs, render: bool, start: nat, i: nat, ghost p0: seq<Colour>)
      requires ram.Valid() && i < 8 && pixels.Length == PixelCount && start + ScreenWidth <= PixelCount
      requires spriteActive.Length == 8 && spriteRow.Length == 8 && spriteRow != ram.ram && spriteRow != ram.ioRam
      requires Pass(start).Valid() && |p0| == PixelCount && pixels[..] == Splice(p0, start, Pass(start).line)
      modifies spriteActive, spriteRow, pixels
      ensures ram.State() == old(ram.State())
      ensures Pass(start) == SpriteStep(ram.State(), s, regs, lineNum, render, old(Pass(start)), i)
      ensures pixels[..] == Splice(p0, start, Pass(start).line)
    {
      ghost var line := Pass(start).line;
      StartTurn(regs, start, i);
      if spriteActive[i] {
        AdvanceTurn(s, regs, render, start, i);
        SpliceSlice(p0, start, line);
      }
    }

    /** The sprite loop, from sprite 7 down to sprite 0, over the line at `start`. */
    method DrawSprites(s: Setup, regs: SpriteRegs, render: bool, start: nat)
      requires ram.Valid() && pixels.Length == PixelCount && start + ScreenWidth <= PixelCount
      requires spriteActive.Length == 8 && spriteRow.Length == 8 && spriteRow != ram.ram && spriteRow != ram.ioRam
      requires Pass(start).Valid()
      modifies spriteActive, spriteRow, pixels
      ensures ram.State() == old(ram.State())
      ensures Pass(start) == Sprites(ram.State(), s, regs, lineNum, render, old(Pass(start)), 8)
      ensures pixels[..] == Splice(old(pixels[..]), start, Pass(start).line)
    {
      ghost var b, p0, pass0 := ram.State(), pixels[..], Pass(start);
      SpliceSlice(p0, start, p0[start..start + ScreenWidth]);
      for n := 0 to 8
        invariant ram.State() == b
        invariant Pass(start) == Sprites(b, s, regs, lineNum, render, pass0, n)
        invariant pixels[..] == Splice(p0, start, Pass(start).line)
      {
        SpriteTurn(s, regs, render, start, 7 - n, p0);
      }
    }

    /**
     * The background of the line at `start`: border colour on a border line
     * (and no sprites), black when idle or in the invalid mode, else the
     * text or bitmap pixels. Reports whether sprites are drawn.
     */
    method DrawLine(s: Setup) returns (render: bool)
      requires Valid() && s.Valid() && lineNum < ScreenHeight
      modifies pixels
      ensures ram.State() == old(ram.State())
      ensures render == !BorderLine(s, RasterState())
      ensures State() == Background(old(State()), ram.State(), s)
    {
      var start := lineNum * ScreenWidth;
      render := true;
      if !s.displayEnable || (s.vBorders && (lineNum < 4 || lineNum >= 196)) {
        FillLine(start, s.border);
        render := false;
      } else if idleState || (s.ebcMode && s.multiColor) {
        FillLine(start, Black);
      } else {
        DrawBackground(s, start);
      }
    }

    /** The sprite registers, then the sprite loop over the current line. */
    method SpritePhase(s: Setup, render: bool)
      requires Valid() && lineNum < ScreenHeight
      modifies pixels, spriteActive, spriteRow
      ensures ram.State() == old(ram.State())
      ensures State() == SpriteLine(old(State()), ram.State(), s, render)
    {
      var start := lineNum * ScreenWidth;
      ghost var p0 := pixels[..];
      var regs := ReadSpriteRegs();
      DrawSprites(s, regs, render, start);
      SpliceSlice(p0, start, Pass(start).line);
    }

    /** The register snapshot, the bad-line test and the row fetch. */
    method Latch() returns (s: Setup)
      requires Valid()
      modifies this, lineChars, lineColors
      ensures ram.State() == old(ram.State())
      ensures s == SetupOf(ram.State())
      ensures Valid() && State() == LatchRow(old(State()), ram.State(), s)
    {
      s := ReadSetup();
      if BadLineDue(RasterState(), s.yScroll) {
        DoBadLine(s.yScroll);
      }
      if !idleState {
        FetchRow(s);
      }
    }

    /** Background and sprites of the current line. */
    method Paint(s: Setup)
      requires Valid() && s.Valid() && lineNum < ScreenHeight
      modifies pixels, spriteActive, spriteRow
      ensures ram.State() == old(ram.State())
      ensures State() == PaintLine(old(State()), ram.State(), s)
    {
      var render := DrawLine(s);
      SpritePhase(s, render);
    }

    /** `++_lineNum`. */
    method NextLine()
      requires Valid()
      modifies this
      ensures ram.State() == old(ram.State())
      ensures Valid() && State() == old(State()).(raster := old(RasterState()).(lineNum := old(lineNum) + 1))
    {
      lineNum := lineNum + 1;
    }

    /**
     * `RenderNextLine`: past line 199 nothing; otherwise the bad-line test,
     * the row fetch when not idle, the background, the sprites, and the
     * next line.
     */
    method RenderNextLine()
      requires Valid()
      modifies this, pixels, lineChars, lineColors, spriteActive, spriteRow
      ensures Valid()
      ensures State() == RenderSpec(old(State()), ram.State())
    {
      if lineNum >= ScreenHeight {
        return;
      }
      ghost var v, b := State(), ram.State();
      assert v.Valid();
      var s := Latch();
      assert ram.State() == b;
      Paint(s);
      assert ram.State() == b;
      NextLine();
      RenderSteps(v, b);
    }
  }

  /** A chip none of whose objects changed is in the same state. */
  twostate lemma Untouched(v: Vic2)
    requires unchanged(v, v.pixels, v.lineChars, v.lineColors, v.spriteActive, v.spriteRow)
    ensures v.State() == old(v.State())
  {
  }
}

/**
 * The `Inky` driver object: its pixel buffer, border colour and orientation, the
 * operations that change them, and `show`, which renders the buffer and runs the
 * refresh sequence over GPIO and SPI. Every GPIO and SPI call is appended to `log`;
 * the readings the busy pin will return are the field `busy`, consumed as they are read.
 * A Python exception becomes a `Failed` outcome after which the method does nothing more.
 */
module Driver {
  import opened Bits
  import opened Palette
  import opened Frame
  import opened Transport
  import opened Protocol

  /** The exceptions the driver raises. */
  datatype Error =
    | SizeMismatch   // ValueError from set_image
    | BusyTimeout    // RuntimeError from _busy_wait
    | IndexError     // numpy's IndexError from set_pixel
    | BadPalette     // ValueError from putpalette in set_image: a blended channel is not a byte
    | BadMode        // ValueError from convert in set_image: PIL quantizes only "L" and "RGB" family images

  datatype Outcome = Done | Failed(error: Error)

  /** What the conversion in `set_image` gives: the indices, or the error it raises. */
  datatype Conversion = Converted(indices: seq<bv8>) | Refused(error: Error)

  /**
   * The pixels of a PIL image: a `"P"` image holds palette indices; an `"L"`, `"RGB"`,
   * `"RGBA"` or `"RGBX"` image holds colours PIL can quantize to a palette; an image in any
   * other mode (`"CMYK"`, `"LA"`, `"1"`, `"I"`, ...) is only counted, since PIL refuses to
   * quantize it.
   */
  datatype Pixels =
    | Paletted(indices: seq<bv8>)
    | Colour(samples: seq<seq<int>>)
    | OtherMode(count: nat)

  /** A PIL image: its size and its pixels in row-major order. */
  datatype Image = Image(width: int, height: int, pixels: Pixels)
  {
    /** PIL keeps exactly `width * height` pixels. */
    predicate WellFormed()
    {
      0 <= width && 0 <= height
      && (match pixels
          case Paletted(indices) => |indices| == width * height
          case Colour(samples) => |samples| == width * height
          case OtherMode(count) => count == width * height)
    }
  }

  /**
   * PIL's `convert("P", True, palette)`: maps each colour pixel to a palette index,
   * one index per pixel. How it chooses an index is PIL's business.
   */
  type Quantizer = q: (seq<int>, seq<seq<int>>) -> seq<bv8>
    | forall palette, samples :: |q(palette, samples)| == |samples|
    witness (palette: seq<int>, samples: seq<seq<int>>) => seq(|samples|, _ => 0 as bv8)

  /** The row-major palette indices `set_image` stores for an image PIL can convert. */
  function ImageIndices(image: Image, saturation: real, quantize: Quantizer): (v: seq<bv8>)
    requires image.WellFormed() && !image.pixels.OtherMode?
    ensures |v| == image.width * image.height
    ensures image.pixels.Paletted? ==> v == image.pixels.indices
  {
    match image.pixels
    case Paletted(indices) => indices
    case Colour(samples) => quantize(QuantizerPalette(saturation), samples)
  }

  /**
   * `set_image` gets past `putpalette` and `convert`: a paletted image is not quantized;
   * any other image needs a blend whose every channel is a byte, and a mode PIL quantizes.
   */
  predicate Quantizable(image: Image, saturation: real)
  {
    image.pixels.Paletted? || (image.pixels.Colour? && BytePalette(QuantizerPalette(saturation)))
  }

  /** The error `set_image` raises for an image it cannot convert: `putpalette` comes first. */
  function ConvertError(saturation: real): Error
  {
    if BytePalette(QuantizerPalette(saturation)) then BadMode else BadPalette
  }

  /** For saturations in [0, 1] an image is converted exactly when PIL can quantize its mode. */
  lemma QuantizableInRange(image: Image, saturation: real)
    requires 0.0 <= saturation <= 1.0
    ensures Quantizable(image, saturation) <==> !image.pixels.OtherMode?
    ensures image.pixels.OtherMode? ==> ConvertError(saturation) == BadMode
  {
    QuantizerPaletteAccepted(saturation);
  }

  /** Saturation 2.0 pushes a channel below zero, so any image not paletted is refused by `putpalette`. */
  lemma ColourRefusedAtTwo(image: Image)
    requires !image.pixels.Paletted?
    ensures !Quantizable(image, 2.0) && ConvertError(2.0) == BadPalette
  {
    BlendExtrapolates();
    QuantizerPaletteAccepted(2.0);
  }

  /** Python's `seq[i]` validity and normalisation: `-n <= i < n`, a negative `i` counting from the end. */
  function PyIndex(i: int, n: nat): (r: Option<nat>)
    ensures r.Some? <==> 0 <= i + n && i < n
    ensures r.Some? ==> r.value < n && r.value % n == i % n
  {
    if 0 <= i < n then Some(i)
    else if 0 <= i + n && i < 0 then Some(i + n)
    else None
  }

  /** Everything `Inky` holds but the wire log and the busy pin. */
  datatype Settings = Settings(buf: array2<bv8>, border: int, hFlip: bool, vFlip: bool, rotation: int)

  /** `set_pixel` masks the value with `0x07`: it keeps the colour index of `v % 8`. */
  lemma MaskColour(v: int)
    ensures 0 <= BitAnd(v, 0x07) < 8 && BitAnd(v, 0x07) == v % 8
  {
    assert Pow2(3) == 8 by {
      assert Pow2(1) == 2 && Pow2(2) == 4;
    }
    AndLowMask(v, 3);
  }

  /** One more command sent. */
  lemma SendOne(sent: seq<Command>, c: Command)
    ensures CommandsEvents(sent + [c]) == CommandsEvents(sent) + CommandEvents(c)
  {
    CommandsEventsAppend(sent, [c]);
    assert [c][1..] == [];
  }

  /** After the first `k` commands of `cmds`, sending command `k` extends the log by its events. */
  lemma Sent(start: seq<Event>, cmds: seq<Command>, k: nat)
    requires k < |cmds|
    ensures start + CommandsEvents(cmds[..k]) + CommandEvents(cmds[k]) == start + CommandsEvents(cmds[..k + 1])
  {
    assert cmds[..k + 1] == cmds[..k] + [cmds[k]];
    SendOne(cmds[..k], cmds[k]);
  }

  class Inky {
    /** The pixel buffer: `rows x cols` when built, `cols x rows` after `set_image`. */
    var buf: array2<bv8>
    var borderColour: int
    var hFlip: bool
    var vFlip: bool
    var rotation: int
    /** Every GPIO output, sleep, SPI transfer and busy wait so far. */
    var log: seq<Event>
    /** The readings the busy pin will give, first first. */
    var busy: seq<bool>

    function Config(): Settings
      reads this`buf, this`borderColour, this`hFlip, this`vFlip, this`rotation
    {
      Settings(buf, borderColour, hFlip, vFlip, rotation)
    }

    /** The buffer has one of the two shapes the driver gives it, and the border is a named colour. */
    predicate Valid()
      reads this`buf, this`borderColour
    {
      ((buf.Length0 == HEIGHT && buf.Length1 == WIDTH) || (buf.Length0 == WIDTH && buf.Length1 == HEIGHT))
      && IsNamedColour(borderColour)
    }

    /** The buffer's contents as a list of rows. */
    function Cells(): Grid
      reads this`buf, buf
    {
      var a := buf;
      seq(a.Length0, i requires 0 <= i < a.Length0 reads a =>
        seq(a.Length1, j requires 0 <= j < a.Length1 reads a => a[i, j]))
    }

    /**
     * The bytes `show` sends for the current buffer and orientation: the buffer oriented
     * (`v_flip` mirrors left-right, `h_flip` top-bottom, then `rotation // 90` quarter
     * turns), flattened, packed two pixels per byte and turned into a list of ints.
     */
    function RenderedFrame(): (frame: seq<int>)
      requires Valid()
      reads this`buf, buf, this`borderColour, this`hFlip, this`vFlip, this`rotation
      ensures |frame| == WIDTH * HEIGHT / 2
    {
      var g := Cells();
      assert |g| == buf.Length0 && Cols(g) == buf.Length1;
      assert |g| * Cols(g) == WIDTH * HEIGHT;
      ToList(RenderFrame(g, vFlip, hFlip, rotation))
    }

    /** `Inky(h_flip, v_flip)`: a blank 448 x 600 buffer, a white border, no rotation, nothing sent yet. */
    constructor (hFlip: bool, vFlip: bool, busy: seq<bool>)
      ensures Valid() && fresh(buf)
      ensures buf.Length0 == HEIGHT && buf.Length1 == WIDTH
      ensures forall i, j :: 0 <= i < HEIGHT && 0 <= j < WIDTH ==> buf[i, j] == 0
      ensures borderColour == WHITE && rotation == 0
      ensures this.hFlip == hFlip && this.vFlip == vFlip
      ensures log == [] && this.busy == busy
    {
      buf := new bv8[HEIGHT, WIDTH]((i, j) => 0);
      borderColour := WHITE;
      rotation := 0;
      this.hFlip := hFlip;
      this.vFlip := vFlip;
      log := [];
      this.busy := busy;
    }

    /** `_palette_blend(saturation, dtype)`: seven blended colours, then CLEAN. */
    method PaletteBlend(saturation: real, dtype: string) returns (palette: seq<int>)
      ensures palette == Blend(saturation, dtype)
    {
      palette := [];
      for i := 0 to 7
        invariant palette == BlendPrefix(saturation, dtype, i)
      {
        var rs, gs, bs := Mix(saturation, i, 0), Mix(saturation, i, 1), Mix(saturation, i, 2);
        if dtype == "uint8" {
          palette := palette + [rs, gs, bs];
        }
        if dtype == "uint24" {
          palette := palette + [BitOr(BitOr(rs * Pow2(16), gs * Pow2(8)), bs)];
          assert Pow2(8) == 0x100 && Pow2(16) == 0x1_0000 by {
            assert Pow2(4) == 16 by {
              assert Pow2(1) == 2 && Pow2(2) == 4 && Pow2(3) == 8;
            }
            assert Pow2(8) == 256 by {
              assert Pow2(5) == 32 && Pow2(6) == 64 && Pow2(7) == 128;
            }
            assert Pow2(12) == 4096 by {
              assert Pow2(9) == 512 && Pow2(10) == 1024 && Pow2(11) == 2048;
            }
            assert Pow2(13) == 8192 && Pow2(14) == 16384 && Pow2(15) == 32768;
          }
        }
      }
      if dtype == "uint8" {
        palette := palette + [255, 255, 255];
      }
      if dtype == "uint24" {
        palette := palette + [0xFF_FFFF];
      }
    }

    /**
     * `set_pixel(x, y, v)`: `buf[y][x] = v & 0x07`. Indices count from the end when negative;
     * out of range, numpy raises and the buffer is unchanged.
     */
    method SetPixel(x: int, y: int, v: int) returns (outcome: Outcome)
      requires Valid()
      modifies buf
      ensures Valid()
      ensures outcome == Done <==> PyIndex(y, buf.Length0).Some? && PyIndex(x, buf.Length1).Some?
      ensures outcome != Done ==> outcome == Failed(IndexError) && unchanged(buf)
      ensures outcome == Done ==>
        var row, col := PyIndex(y, buf.Length0).value, PyIndex(x, buf.Length1).value;
        buf[row, col] as int == v % 8
        && forall i, j :: 0 <= i < buf.Length0 && 0 <= j < buf.Length1 && (i != row || j != col)
             ==> buf[i, j] == old(buf[i, j])
    {
      var row := PyIndex(y, buf.Length0);
      if row.None? {
        return Failed(IndexError);
      }
      var col := PyIndex(x, buf.Length1);
      if col.None? {
        return Failed(IndexError);
      }
      var masked := BitAnd(v, 0x07);
      MaskColour(v);
      buf[row.value, col.value] := masked as bv8;
      outcome := Done;
    }

    /** `set_border(colour)`: only one of the eight named colours is taken; anything else is ignored. */
    method SetBorder(colour: int)
      requires Valid()
      modifies this
      ensures Valid()
      ensures borderColour == (if IsNamedColour(colour) then colour else old(borderColour))
      ensures buf == old(buf) && hFlip == old(hFlip) && vFlip == old(vFlip) && rotation == old(rotation)
      ensures log == old(log) && busy == old(busy)
    {
      if IsNamedColour(colour) {
        borderColour := colour;
      }
    }

    /**
     * The conversion in `set_image`: an image that is not paletted is quantized against
     * the `"uint8"` blend padded with 248 black entries; a paletted image is used as it is.
     * `putpalette` refuses a palette with an entry outside 0..255, and `convert` refuses
     * an image in a mode it cannot quantize; either way nothing is converted.
     */
    method Convert(image: Image, saturation: real, quantize: Quantizer) returns (result: Conversion)
      requires image.WellFormed()
      ensures result.Converted? <==> Quantizable(image, saturation)
      ensures result.Converted? ==> result.indices == ImageIndices(image, saturation, quantize)
      ensures result.Refused? ==> result.error == ConvertError(saturation)
    {
      if image.pixels.Paletted? {
        return Converted(image.pixels.indices);
      }
      var palette := PaletteBlend(saturation, "uint8");
      var padded := palette + seq(3 * 248, _ => 0);
      if !BytePalette(padded) {
        return Refused(BadPalette);
      }
      if image.pixels.OtherMode? {
        return Refused(BadMode);
      }
      result := Converted(quantize(padded, image.pixels.samples));
    }

    /**
     * `numpy.array(image, dtype=numpy.uint8).reshape((cols, rows))`: a new buffer of 600
     * rows of 448, filled in row-major order.
     */
    method Store(data: seq<bv8>)
      requires |data| == WIDTH * HEIGHT
      modifies this`buf
      ensures fresh(buf) && buf.Length0 == WIDTH && buf.Length1 == HEIGHT
      ensures Cells() == Reshape(data, WIDTH, HEIGHT) && Flatten(Cells()) == data
    {
      buf := new bv8[WIDTH, HEIGHT]((i, j) requires 0 <= i < WIDTH && 0 <= j < HEIGHT => data[i * HEIGHT + j]);
      var cells := Cells();
      var shaped := Reshape(data, WIDTH, HEIGHT);
      forall i | 0 <= i < WIDTH
        ensures cells[i] == shaped[i]
      {
        assert |cells[i]| == |shaped[i]| == HEIGHT;
        forall j | 0 <= j < HEIGHT
          ensures cells[i][j] == shaped[i][j]
        {
          assert cells[i][j] == buf[i, j] == data[i * HEIGHT + j];
        }
      }
      assert cells == shaped;
      FlattenReshape(data, WIDTH, HEIGHT);
    }

    /**
     * `set_image(image, saturation)`: a 600 x 448 image, converted to palette indices,
     * becomes a new buffer of 600 rows of 448, the row-major pixel order unchanged. Any
     * other size raises, as does an image that is not paletted when its blended palette is
     * not all bytes or its mode cannot be quantized; the buffer is then left as it was.
     */
    method SetImage(image: Image, saturation: real, quantize: Quantizer) returns (outcome: Outcome)
      requires Valid() && image.WellFormed()
      modifies this`buf
      ensures Valid()
      ensures outcome == Done <==> image.width == WIDTH && image.height == HEIGHT && Quantizable(image, saturation)
      ensures outcome != Done ==>
        buf == old(buf)
        && outcome == Failed(if image.width == WIDTH && image.height == HEIGHT then ConvertError(saturation) else SizeMismatch)
      ensures outcome == Done ==>
        fresh(buf) && buf.Length0 == WIDTH && buf.Length1 == HEIGHT
        && Cells() == Reshape(ImageIndices(image, saturation, quantize), WIDTH, HEIGHT)
        && Flatten(Cells()) == ImageIndices(image, saturation, quantize)
    {
      if !(image.width == WIDTH && image.height == HEIGHT) {
        return Failed(SizeMismatch);
      }
      var data := Convert(image, saturation, quantize);
      if data.Refused? {
        return Failed(data.error);
      }
      Store(data.indices);
      outcome := Done;
    }

    /** `GPIO.input(busy_pin)`: the next reading; once the readings run out the pin stays low. */
    method ReadBusy() returns (high: bool)
      modifies this`busy
      ensures high == (|old(busy)| > 0 && old(busy)[0])
      ensures busy == if |old(busy)| > 0 then old(busy)[1..] else []
    {
      high := |busy| > 0 && busy[0];
      busy := if |busy| > 0 then busy[1..] else [];
    }

    /**
     * `_busy_wait()`: read the pin until it is high, sleeping 10 ms after each low reading
     * and giving up once 15 s have passed since the start.
     */
    method WaitReady() returns (ready: bool)
      modifies this`log, this`busy
      ensures Config() == old(Config())
      ensures log == old(log) + [BusyWait]
      ensures Wait(old(busy)) == WaitResult(ready, busy)
    {
      log := log + [BusyWait];
      var elapsed := 0;
      var high := ReadBusy();
      while !high
        invariant 0 <= elapsed < TIMEOUT_MS && elapsed % POLL_MS == 0
        invariant log == old(log) + [BusyWait]
        invariant Wait(old(busy)) ==
          if high then WaitResult(true, busy) else Poll(busy, MAX_POLLS - elapsed / POLL_MS - 1)
        decreases TIMEOUT_MS - elapsed
      {
        elapsed := elapsed + POLL_MS;
        if elapsed >= TIMEOUT_MS {
          return false;
        }
        high := ReadBusy();
      }
      return true;
    }

    /**
     * `_spi_write(dc, values)` without `xfer3`: chip-select low, DC set, the payload in
     * `((len - 1) // 4096) + 1` transfers of at most 4096 bytes, chip-select high.
     */
    method SpiWrite(dc: int, values: seq<int>)
      modifies this`log
      ensures log == old(log) + WriteEvents(dc, values)
    {
      ghost var before := log;
      ghost var opening := [Output(CS0_PIN, LOW), Output(DC_PIN, dc)];
      log := log + [Output(CS0_PIN, LOW)];
      log := log + [Output(DC_PIN, dc)];
      ghost var selected := log;
      assert selected == before + opening;
      ghost var chunks := Chunks(values);
      ChunksCount(values);
      for x := 0 to ChunkCount(|values|)
        invariant log == selected + Xfers(chunks[..x])
      {
        var offset := x * SPI_CHUNK_SIZE;
        var chunk := Slice(values, offset, offset + SPI_CHUNK_SIZE);
        ChunkAt(values, x);
        XfersSnoc(chunks, x);
        Assoc(selected, Xfers(chunks[..x]), [Xfer(chunk)]);
        log := log + [Xfer(chunk)];
      }
      assert chunks[..|chunks|] == chunks;
      log := log + [Output(CS0_PIN, HIGH)];
      Assoc(before, opening + Xfers(chunks), [Output(CS0_PIN, HIGH)]);
      Assoc(before, opening, Xfers(chunks));
    }

    /** `_send_data(data)`: a write with DC high. */
    method SendData(data: seq<int>)
      modifies this`log
      ensures log == old(log) + WriteEvents(SPI_DATA, data)
    {
      SpiWrite(SPI_DATA, data);
    }

    /** `_send_command(command, data)`: the opcode with DC low, then the data if there is any. */
    method SendCommand(command: int, data: Option<seq<int>>)
      modifies this`log
      ensures log == old(log) + CommandEvents(Command(command, data))
    {
      SpiWrite(SPI_COMMAND, [command]);
      if data.Some? {
        SendData(data.value);
        Assoc(old(log), WriteEvents(SPI_COMMAND, [command]), WriteEvents(SPI_DATA, data.value));
      }
    }

    /**
     * `setup()`: pulse reset, wait for the panel, then send the ten set-up commands;
     * only the CDI byte depends on the state (the border colour).
     */
    method Setup() returns (outcome: Outcome)
      modifies this`log, this`busy
      ensures Config() == old(Config())
      ensures var w := Wait(old(busy));
        busy == w.rest
        && outcome == (if w.ready then Done else Failed(BusyTimeout))
        && log == old(log) + ResetPulse() + [BusyWait]
                  + (if w.ready then CommandsEvents(SetupCommands(borderColour)) else [])
    {
      ghost var before := log;
      log := log + [Output(RESET_PIN, LOW)];
      log := log + [Sleep(100)];
      log := log + [Output(RESET_PIN, HIGH)];
      log := log + [Sleep(100)];
      assert log == before + ResetPulse();
      var ready := WaitReady();
      if !ready {
        return Failed(BusyTimeout);
      }
      // the ten `_send_command` calls: TRES, PSR, PWR, PLL, TSE, CDI, TCON, DAM, PWS, PFS
      var cmds := SetupCommands(borderColour);
      ghost var start := log;
      assert cmds[..0] == [];
      for k := 0 to |cmds|
        invariant log == start + CommandsEvents(cmds[..k])
        invariant Config() == old(Config()) && busy == Wait(old(busy)).rest
      {
        SendCommand(cmds[k].opcode, cmds[k].data);
        Sent(start, cmds, k);
      }
      assert cmds[..|cmds|] == cmds;
      outcome := Done;
    }

    /**
     * The body of `_update` after `setup`: each command followed by `_busy_wait`. A wait
     * that times out raises, so nothing after it is sent.
     */
    method SendSteps(cmds: seq<Command>) returns (ok: bool)
      modifies this`log, this`busy
      ensures Config() == old(Config())
      ensures var r := Run(CommandSegments(cmds), old(busy));
        log == old(log) + r.events && busy == r.rest && ok == r.ok
    {
      ghost var segs := CommandSegments(cmds);
      assert segs[0..] == segs;
      for k := 0 to |cmds|
        invariant Then(log, Run(segs[k..], busy)) == Then(old(log), Run(segs, old(busy)))
      {
        ghost var sent, line := log, busy;
        SendCommand(cmds[k].opcode, cmds[k].data);
        var ready := WaitReady();
        Advance(segs, k, line, sent);
        Assoc(sent, segs[k], [BusyWait]);
        if !ready {
          return false;
        }
      }
      assert segs[|cmds|..] == [] && log + [] == log;
      ok := true;
    }

    /**
     * `_update(buf)`: `setup`, then the frame (DTM1), power on, refresh and power off,
     * each followed by a busy wait; the first wait that times out ends the refresh.
     */
    method Update(frame: seq<int>) returns (outcome: Outcome)
      modifies this`log, this`busy
      ensures Config() == old(Config())
      ensures var r := Run(RefreshSegments(SetupCommands(borderColour), frame), old(busy));
        log == old(log) + r.events && busy == r.rest
        && outcome == (if r.ok then Done else Failed(BusyTimeout))
    {
      ghost var setup := SetupCommands(borderColour);
      ghost var log0, line := log, busy;
      ghost var head := ResetPulse() + [BusyWait];
      outcome := Setup();
      RefreshRun(setup, frame, line);
      Assoc(log0, ResetPulse(), [BusyWait]);
      if outcome != Done {
        return;
      }
      var ok := SendSteps(RefreshSteps(frame));
      ghost var r := Run(CommandSegments(RefreshSteps(frame)), Wait(line).rest);
      Assoc(log0, head, CommandsEvents(setup) + r.events);
      Assoc(log0 + head, CommandsEvents(setup), r.events);
      outcome := if ok then Done else Failed(BusyTimeout);
    }

    /** `show()`: refresh the panel with the rendered buffer; the buffer and the settings are left as they were. */
    method Show() returns (outcome: Outcome)
      requires Valid()
      modifies this`log, this`busy
      ensures Valid() && Config() == old(Config())
      ensures var r := Run(RefreshSegments(SetupCommands(borderColour), old(RenderedFrame())), old(busy));
        log == old(log) + r.events && busy == r.rest
        && outcome == (if r.ok then Done else Failed(BusyTimeout))
    {
      var frame := RenderedFrame();
      outcome := Update(frame);
    }
  }

  lemma Assoc<T>(a: seq<T>, b: seq<T>, c: seq<T>)
    ensures a + (b + c) == a + b + c
  {
  }

  /**
   * After `done`, running segment `k` emits it with its wait; then either the rest of the
   * run follows or the run stops.
   */
  lemma Advance(segs: seq<seq<Event>>, k: nat, line: seq<bool>, done: seq<Event>)
    requires k < |segs|
    ensures Then(done, Run(segs[k..], line)) ==
      if Wait(line).ready then Then(done + (segs[k] + [BusyWait]), Run(segs[k + 1..], Wait(line).rest))
      else RunResult(done + (segs[k] + [BusyWait]), false, Wait(line).rest)
  {
    assert segs[k..][0] == segs[k] && segs[k..][1..] == segs[k + 1..];
    var h := segs[k] + [BusyWait];
    if Wait(line).ready {
      Assoc(done, h, Run(segs[k + 1..], Wait(line).rest).events);
    }
  }

  /** A run that first emits `head` and then behaves as `r`. */
  function Then(head: seq<Event>, r: RunResult): (t: RunResult)
    ensures t.ok == r.ok && t.rest == r.rest
  {
    RunResult(head + r.events, r.ok, r.rest)
  }
}

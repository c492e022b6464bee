# remote-inky display driver, modelled in Dafny

`remote_inky` drives a 600 x 448 seven-colour e-paper panel built around the UC8159
controller. Its core is the class `Inky` in `src/remote_inky/inky.py`. The class holds a
buffer of palette indices (one `uint8` per pixel, 448 x 600 when built and 600 x 448
after `set_image`), a border colour and the orientation settings
`h_flip`, `v_flip` and `rotation`. It offers these operations:

- `set_pixel` writes one index into the buffer, masked to three bits. `set_image` stores
  indices unmasked, so the buffer can hold any byte.
- `set_border` accepts one of the eight named colours and ignores anything else.
- `set_image` checks that an image is 600 x 448. When the image is not paletted, it first
  quantizes it against a palette blended from the saturated and desaturated reference
  palettes. Pillow's `putpalette` raises when a blended channel is not a byte, as
  can happen for saturations outside [0, 1], and PIL's `convert` raises for an image
  in a mode other than `"L"`, `"RGB"`, `"RGBA"` or `"RGBX"`. It then reshapes the pixels into a new buffer.
- `show` mirrors and rotates the buffer, flattens it and packs two pixels per byte. It then
  runs the refresh sequence: a reset pulse, a busy wait, ten set-up commands, then the frame,
  power on, display refresh and power off, each followed by a busy wait. A busy wait raises
  once 15 s pass without the busy pin going high.
- Every command goes out over SPI as a command byte, then, when it has data, a data
  write, each framed by chip-select. A payload larger than 4096 bytes is sent in
  4096-byte transfers.

The project has six modules:

- `Bits` (`bits.dfy`) defines Python's `|` and `&` on unbounded two's-complement integers.
- `Palette` (`palette.dfy`) holds the colour constants and the reference palettes. It
  specifies `_palette_blend` as the function `Blend`.
- `Frame` (`frame.dfy`) holds the numpy operations `show` and `set_image` use: `fliplr`,
  `flipud`, `rot90`, `flatten`, `reshape`, the nibble packing and `tolist`. Each is a
  function over lists of rows.
- `Transport` (`transport.dfy`) holds the pins and the GPIO/SPI events. It specifies the
  chunking and gives an observer that reads an event list the way the controller does:
  bytes are clocked in while CS is low and tagged by the DC line.
- `Protocol` (`protocol.dfy`) holds the opcodes and the command encoding with its decoder.
  It also holds the set-up table, the busy-wait semantics and the refresh sequence with its
  abort-on-timeout behaviour.
- `Driver` (`driver.dfy`) holds the class `Inky`:
  - its fields are the buffer (an `array2<bv8>`), the settings, the list of GPIO/SPI events
    sent so far (`log`), and the readings the busy pin will return (`busy`);
  - each Python method is a Dafny method, proved against the functions of the other
    modules;
  - a Python exception becomes a `Failed` outcome.

`set_image` reshapes to `(cols, rows)`, which gives a buffer of 600 rows of 448, not
448 of 600. The model keeps that shape: `Inky.Valid` admits both shapes, and `show` is
proved for either shape.

## Model

| member | source | states |
|---|---|---|
| Bits.OrIntoShifted | src/remote_inky/inky.py:129 | `(a << n) \| b` equals `a * 2^n + b` whenever `0 <= b < 2^n`: or-ing into the bits a shift cleared is an addition |
| Bits.AndLowMask | src/remote_inky/inky.py:212 | `a & (2^n - 1) == a % 2^n` for every integer, negative ones included |
| Palette.BlendPrefixUint8 | src/remote_inky/inky.py:123-127 | after `n` rounds of the `"uint8"` loop the list holds 3n ints; channel `k` of colour `i` is the truncated blend of the two reference palettes |
| Palette.BlendPrefixUint24 | src/remote_inky/inky.py:123-129 | after `n` rounds of the `"uint24"` loop the list holds n entries, each the packed 24-bit value of the blended channels |
| Palette.BlendPrefixOther | src/remote_inky/inky.py:123-129 | for any other dtype the loop appends nothing |
| Palette.BlendUint8Shape | src/remote_inky/inky.py:118-134 | the `"uint8"` palette has 24 ints: the seven blended colours channel by channel, then CLEAN as 255, 255, 255 |
| Palette.BlendUint24Shape | src/remote_inky/inky.py:118-134 | the `"uint24"` palette has 8 entries: the seven packed blends, then 0xFFFFFF |
| Palette.BlendOtherDtype | src/remote_inky/inky.py:118-134 | any other dtype gives the empty list |
| Palette.MixAtEnds | src/remote_inky/inky.py:124-127 | at saturation 1.0 a channel is the saturated reference value; at 0.0 it is the desaturated one |
| Palette.BlendAtEnds | src/remote_inky/inky.py:20-40 | at saturation 1.0 or 0.0 the whole `"uint8"` palette equals the corresponding reference palette flattened, CLEAN included |
| Palette.BlendFullySaturated | src/remote_inky/inky.py:31-40 | `Blend(1.0, "uint8")` is the saturated reference palette |
| Palette.BlendDesaturated | src/remote_inky/inky.py:20-29 | `Blend(0.0, "uint8")` is the desaturated reference palette |
| Palette.MixInGamut | src/remote_inky/inky.py:124-127 | for saturation in [0, 1] every blended channel lies in 0..255 |
| Palette.BlendInGamut | src/remote_inky/inky.py:118-134 | for saturation in [0, 1] all 24 `"uint8"` entries lie in 0..255 |
| Palette.Rgb24OfBytes | src/remote_inky/inky.py:129 | `(r << 16) \| (g << 8) \| b` is `r * 65536 + g * 256 + b` for byte-sized channels |
| Palette.BlendUint24MatchesUint8 | src/remote_inky/inky.py:126-133 | for saturation in [0, 1] each `"uint24"` entry is the base-256 value of the matching `"uint8"` triple, CLEAN included |
| Palette.BlendExtrapolates | src/remote_inky/inky.py:121-127 | saturation is not clamped: at 2.0 the green channel of colour 2 extrapolates to -73 |
| Palette.QuantizerPaletteAccepted | src/remote_inky/inky.py:247-251 | the padded palette is all bytes exactly when the blend is, and it is for every saturation in [0, 1] |
| Palette.QuantizerPaletteShape | src/remote_inky/inky.py:247-251 | the palette handed to the quantizer has 768 entries: the 24-int blend, then 744 zeros |
| Frame.FlipLR | src/remote_inky/inky.py:217-218 | `fliplr` keeps the shape, and a rectangular buffer stays rectangular |
| Frame.FlipUD | src/remote_inky/inky.py:220-221 | `flipud` keeps the shape, and a rectangular buffer stays rectangular |
| Frame.Rot90 | src/remote_inky/inky.py:223-224 | `rot90(g, k)` of a rectangular buffer is rectangular |
| Frame.RotIsTurns | src/remote_inky/inky.py:223-224 | for a non-empty buffer, `rot90(g, k)` is `k % 4` counter-clockwise quarter turns, each given cell by cell |
| Frame.FullTurn | src/remote_inky/inky.py:223-224 | four quarter turns give back the buffer |
| Frame.RotShape | src/remote_inky/inky.py:223-224 | rotation keeps the number of cells |
| Frame.FlipLRInvolutive | src/remote_inky/inky.py:217-218 | mirroring left-right twice is the identity |
| Frame.FlipUDInvolutive | src/remote_inky/inky.py:220-221 | mirroring top-bottom twice is the identity |
| Frame.FlipsCommute | src/remote_inky/inky.py:217-221 | the two mirrors can be applied in either order |
| Frame.HalfTurnInvolutive | src/remote_inky/inky.py:217-221 | both mirrors, applied twice, give back the buffer |
| Frame.OrientShape | src/remote_inky/inky.py:216-224 | orienting keeps the buffer rectangular and keeps its cell count |
| Frame.OrientIdentity | src/remote_inky/inky.py:216-224 | with no flips and `rotation // 90` a multiple of 4, the buffer is unchanged |
| Frame.OrientBothFlipsHalfTurn | src/remote_inky/inky.py:216-224 | both flips followed by a 180 degree rotation give back the buffer |
| Frame.RotationAfterFlipMatters | src/remote_inky/inky.py:217-224 | the rotation comes after the flips: on a 1 x 2 buffer the other order gives a different result |
| Frame.OrientWithin | src/remote_inky/inky.py:216-224 | orientation only moves cells, so it keeps every value within the bounds the buffer had |
| Frame.Flatten | src/remote_inky/inky.py:226 | `flatten` of a rectangular buffer has rows x cols values |
| Frame.FlattenCell | src/remote_inky/inky.py:226 | cell (i, j) lands at index `i * cols + j` of the flattened buffer |
| Frame.FlattenIndex | src/remote_inky/inky.py:226 | flattened index k is cell (k // cols, k % cols) |
| Frame.Reshape | src/remote_inky/inky.py:255 | `reshape((rows, cols))` of rows x cols values is a rows x cols grid |
| Frame.FlattenReshape | src/remote_inky/inky.py:255 | reshaping keeps the row-major order: flattening the reshaped list gives the list back |
| Frame.ReshapeFlatten | src/remote_inky/inky.py:226 | reshaping a flattened grid gives the grid back |
| Frame.PackPair | src/remote_inky/inky.py:228 | `((hi << 4) & 0xF0) \| (lo & 0x0F)` holds `hi`'s low nibble on top and `lo`'s below |
| Frame.Pack | src/remote_inky/inky.py:228 | the packed frame has half as many bytes; byte i holds pixel 2i in its high nibble and pixel 2i+1 in its low nibble |
| Frame.PackUnpack | src/remote_inky/inky.py:228 | for indices 0..15 the panel's reading of the packed bytes recovers every pixel |
| Frame.UnpackPack | src/remote_inky/inky.py:228 | every byte is the packing of its two nibbles |
| Frame.PackUniform | src/remote_inky/inky.py:228 | a single-colour buffer packs to that colour in both nibbles of every byte |
| Frame.RenderFrame | src/remote_inky/inky.py:214-228 | whatever the orientation, the rendered frame has half as many bytes as the buffer has cells |
| Frame.RenderIdentity | src/remote_inky/inky.py:214-228 | with no flips and no effective rotation, the frame is the row-major buffer packed |
| Frame.RenderRoundTrip | src/remote_inky/inky.py:214-228 | for indices 0..15, unpacking the frame gives the oriented buffer flattened: no pixel is lost |
| Frame.RenderAllRed | src/remote_inky/inky.py:214-228 | an all-RED buffer renders to 0x44 in every byte, whatever the orientation |
| Frame.ToList | src/remote_inky/inky.py:230 | `astype("uint8").tolist()` keeps every value, each an int in 0..255 |
| Transport.Slice | src/remote_inky/inky.py:275 | Python slicing clamps both bounds to the length, so the last chunk is short |
| Transport.ChunksConcat | src/remote_inky/inky.py:273-275 | the chunks, joined in order, are the payload: nothing lost, repeated or reordered |
| Transport.ChunksBounded | src/remote_inky/inky.py:273-275 | every chunk carries between 1 and 4096 bytes |
| Transport.ChunksCount | src/remote_inky/inky.py:273 | there are `((len - 1) // 4096) + 1` chunks, none for an empty payload |
| Transport.ChunkAt | src/remote_inky/inky.py:273-275 | chunk x is `values[x * 4096 : x * 4096 + 4096]` |
| Transport.Xfers | src/remote_inky/inky.py:273-275 | one `xfer` event per chunk, in chunk order |
| Transport.ObserveWrite | src/remote_inky/inky.py:257-276 | whatever the line levels were, one write delivers exactly its values tagged with its DC level and leaves CS high |
| Protocol.CommandWire | src/remote_inky/inky.py:278-292 | one `_send_command` delivers the opcode as a command byte, then its data as data bytes |
| Protocol.CommandsWire | src/remote_inky/inky.py:278-292 | a list of commands delivers the concatenation of their encodings |
| Protocol.DecodeEncode | src/remote_inky/inky.py:278-292 | the controller recovers every command and its data, in order, from the wire |
| Protocol.EmptyDataInvisible | src/remote_inky/inky.py:288-289 | an empty data list puts the same bytes on the wire as no data (the empty write still toggles CS) |
| Protocol.BigEndian16 | src/remote_inky/inky.py:168-170 | `struct.pack(">H", n)` gives two bytes, high byte first, whose base-256 value is n |
| Protocol.CdiShift | src/remote_inky/inky.py:181 | `(border << 5) \| 0x17` is `border * 32 + 0x17` for every border value |
| Protocol.CdiByte | src/remote_inky/inky.py:181-182 | for a named colour the CDI byte holds the colour in its top three bits above 0x17, within 0x17..0xF7 |
| Protocol.CdiWhite | src/remote_inky/inky.py:181 | the default WHITE border gives CDI 0x37 |
| Protocol.SetupBytes | src/remote_inky/inky.py:168-186 | the ten set-up commands, opcode and payload byte for byte, with only CDI depending on the border |
| Protocol.SetupFramable | src/remote_inky/inky.py:168-186 | every set-up command carries at least one data byte |
| Protocol.PollReady | src/remote_inky/inky.py:188-194 | the wait succeeds if and only if the pin reads high within the poll budget |
| Protocol.PollFirstHigh | src/remote_inky/inky.py:188-194 | the wait stops at the first high reading and consumes exactly the readings up to it |
| Protocol.PollConsumes | src/remote_inky/inky.py:188-194 | the wait takes at most its budget of readings, from the front, and leaves the rest untouched |
| Protocol.WaitTimesOut | src/remote_inky/inky.py:188-194 | a pin reading low 1500 times in a row (15 s of 10 ms polls) makes the wait time out |
| Protocol.RunPrefix | src/remote_inky/inky.py:196-209 | a refresh either completes every step, emitting the whole script, or stops right after the first wait that times out |
| Protocol.RunAppend | src/remote_inky/inky.py:196-209 | running two lists of steps is running the first and, only if it succeeded, the second |
| Protocol.RunPrepend | src/remote_inky/inky.py:196-199 | events emitted before the first step do not change the run's outcome or the pin readings it consumes |
| Protocol.RefreshRun | src/remote_inky/inky.py:160-209 | a refresh is the reset pulse and busy wait, then, if that wait succeeds, the set-up commands and the run of DTM1, PON, DRF and POF with their waits |
| Protocol.RefreshScript | src/remote_inky/inky.py:160-209 | the complete refresh is the reset pulse, set-up, frame, power on, refresh and power off with five waits |
| Protocol.RefreshScriptWire | src/remote_inky/inky.py:160-209 | the complete refresh puts exactly the refresh commands on the wire, whatever the lines were before |
| Protocol.RefreshWire | src/remote_inky/inky.py:160-209 | a refresh whose waits all succeed delivers set-up, DTM1 with the frame, PON, DRF and POF, and the controller decodes exactly those commands |
| Driver.ImageIndices | src/remote_inky/inky.py:246-255 | for an image PIL can convert, one palette index per pixel; a paletted image's indices are kept as they are |
| Driver.QuantizableInRange | src/remote_inky/inky.py:246-254 | for saturations in [0, 1] `putpalette` always succeeds, so an image is converted exactly when its mode is one PIL quantizes, and otherwise the error is the mode error |
| Driver.ColourRefusedAtTwo | src/remote_inky/inky.py:246-251 | at saturation 2.0 every image that is not paletted is refused, with the `putpalette` error |
| Driver.PyIndex | src/remote_inky/inky.py:212 | numpy accepts an index exactly when `-n <= i < n`, and a negative index counts from the end |
| Driver.MaskColour | src/remote_inky/inky.py:212 | `v & 0x07` is `v % 8`, a colour index in 0..7, for every int |
| Driver.Inky.RenderedFrame | src/remote_inky/inky.py:214-230 | the bytes `show` sends hold 600 * 448 / 2 values whatever the buffer's shape and orientation |
| Driver.Inky.constructor | src/remote_inky/inky.py:88-116 | a new driver has a zeroed 448 x 600 buffer, a WHITE border, rotation 0, the given flips and nothing sent |
| Driver.Inky.PaletteBlend | src/remote_inky/inky.py:118-134 | the loop returns `Blend(saturation, dtype)` |
| Driver.Inky.SetPixel | src/remote_inky/inky.py:211-212 | succeeds exactly when both indices are valid; stores `v % 8` at the addressed cell and changes no other; an invalid index fails with IndexError and changes nothing |
| Driver.Inky.SetBorder | src/remote_inky/inky.py:232-235 | the border becomes the colour exactly when it is a named colour; nothing else changes |
| Driver.Inky.Convert | src/remote_inky/inky.py:246-254 | fails exactly when the image is not paletted and either `putpalette` refuses the padded blend (BadPalette, checked first) or `convert` refuses its mode (BadMode); otherwise the indices are the image's own when paletted, the quantizer's result over the padded blend when not |
| Driver.Inky.Store | src/remote_inky/inky.py:255 | a new 600 x 448 buffer holding the indices in row-major order |
| Driver.Inky.SetImage | src/remote_inky/inky.py:237-255 | succeeds exactly when the image is 600 x 448 and gets past `putpalette` and `convert`; then the new buffer holds the converted indices in row-major order; otherwise SizeMismatch (wrong size), BadPalette (palette refused) or BadMode (mode refused), and the buffer is untouched |
| Driver.Inky.ReadBusy | src/remote_inky/inky.py:190 | a read returns the next busy reading and consumes it; with no readings left the pin reads low |
| Driver.Inky.WaitReady | src/remote_inky/inky.py:188-194 | the loop's result and the readings it consumes are those of the wait specification; the settings are unchanged |
| Driver.Inky.SpiWrite | src/remote_inky/inky.py:257-276 | the log gains CS low, DC set, one transfer per chunk, CS high |
| Driver.Inky.SendData | src/remote_inky/inky.py:291-292 | the log gains one write with DC high |
| Driver.Inky.SendCommand | src/remote_inky/inky.py:278-289 | the log gains the opcode write and, when there is data, the data write |
| Driver.Inky.Setup | src/remote_inky/inky.py:160-186 | reset pulse and one wait; on success the ten set-up commands follow; on timeout nothing more is sent and BusyTimeout is returned |
| Driver.Inky.SendSteps | src/remote_inky/inky.py:198-209 | each command and its wait, in order, stopping at the first timeout, exactly as the run specification says |
| Driver.Inky.Update | src/remote_inky/inky.py:196-209 | the log and the consumed readings are those of the refresh run for the current border; BusyTimeout exactly when a wait times out |
| Driver.Inky.Show | src/remote_inky/inky.py:214-230 | sends the refresh run for the frame rendered from the buffer before the call; the buffer, border and orientation are unchanged |

## Left out

- `_setup_gpio` (inky.py:136-158), the `spidev` and GPIO set-up: the hardware is not modelled.
  The pins are constants, and outputs and transfers are recorded as events.
- The `xfer3` path of `_spi_write` (inky.py:271): the model takes the `AttributeError`
  fallback every time, the chunked `xfer` loop. With `xfer3` the same bytes go out in one
  transfer.
- The conversion of a `str` payload with `ord` (inky.py:267-268): every caller in the class
  passes a list of ints.
- Time: `_busy_wait` runs on an idealised clock where each poll takes exactly 10 ms, so the
  15 s timeout is 1500 low readings. Its `time.sleep(0.01)` calls are not logged; each call
  of `_busy_wait` is logged as one `BusyWait` event. The busy pin is a list of future
  readings, and once it runs out the pin reads low.
- Driver.Inky.WaitReady: `timeout` is fixed at its default of 15 s, since no caller passes
  another value.
- PIL: `Image.new`, `load` and `im.convert("P", True, ...)` are a `Quantizer`
  parameter. The model assumes only that the quantizer gives one index per pixel. Of
  `putpalette` only its refusal of entries outside 0..255 is modelled, and of `convert`
  only its refusal of modes other than `"L"`, `"RGB"`, `"RGBA"` and `"RGBX"`; an image in
  such a mode carries only its pixel count. Dithering and nearest-colour choice are PIL's and are not modelled.
- Driver.Inky.SetImage: it requires `Image.WellFormed` (PIL keeps exactly width x height
  pixels). This is a property of PIL images, not a check the driver makes.
- Floating point: saturation and the blend are computed on reals, with `int()` as truncation
  toward zero. Rounding of IEEE doubles is not modelled.
- Driver.Inky.Setup: the ten straight-line `_send_command` calls are a loop over the
  `SetupCommands` table. Driver.Inky.SendSteps: the four command-and-wait pairs of
  `_update` are a loop over `RefreshSteps`. The events and their order are the same.
- Driver.Inky.Show: the orient, flatten and pack expressions are the function
  `Inky.RenderedFrame`, evaluated before `_update`, rather than a sequence of numpy
  temporaries.
- `rotation`, `h_flip` and `v_flip` change only when a caller assigns the attribute
  directly. The model has no such operation; `Show` is proved for every value of these
  fields.
- The attributes `resolution`, `width`/`cols`, `height`/`rows`, `offset_x`, `offset_y`,
  `lut`, `colour`, the pin attributes, `cs_channel` and `_luts` are constants or unused
  in the core, so they are not fields of the model.
- Protocol.Decode: the controller model drops data bytes that do not follow a command
  byte. The driver never sends such bytes.
- Concurrency: the driver has no locking, and the model is single-threaded.
- `src/remote_inky/utils.py`, `app.py`, `views.py` and `extensions.py` (the HTTP service
  around the driver) are not part of this model.

# f405_feather peripheral drivers in Dafny

This project models the logic of six drivers in the `common/` directory of
the f405_feather firmware and proves what they promise:

- **ADC boxcar filter** (`adc.c`). `ADC_Init` clears the filter buffers and
  adds up a weighted failure code. `ADC_GetChl` reads the filtered output.
  `DMA2_Stream0_IRQHandler` slides a 32-sample window over each of the five
  channels on every transfer-complete interrupt. The driver is a class over
  the C arrays (`adc_acc`, `adc_dly`, `adc_procbuf`, `adc_rawbuf`).
  - The handler's loop is proved to compute `AdcFilter.Pass`, a pure
    description of one pass.
  - The filter's properties are proved about `Pass` and `Run` (a series of
    passes): the accumulator is the sum of the delay line, the output bounds,
    the exact sliding window, unity gain, finite memory and the impulse
    response.
- **WS2812-style RGB LED** (`led.c`).
  - `LEDSetColor` is a loop that writes `GPIOC->BSRR` and calls
    `cyclesleep`. It is modelled as a method that appends to a trace of
    events: BSRR writes, waits and the interrupt mask.
  - `LEDOn`, `LEDOff` and `LEDToggle` update the output data register.
  - `LEDSetIdx` is a palette lookup.
  - Lemmas state the bit order, the pulse shapes, the critical section, the
    total wait, the line level and the palette.
- **SSD1306 frame buffers** (`oled.c`). `oled_buffer` is an array of bytes,
  one page-major buffer after another. Each drawing primitive is a method on
  that array, proved to leave it as a pure function of the old contents
  (`Plot`, `Flip`, `Fill`, `Copy`, `Paint`, `FlipAll`). Lemmas
  then say what every pixel reads afterwards through `getPixel`.
- **ST7735 display driver** (`st7735.c`). The model covers:
  - the init-list walker;
  - `Color565` packing;
  - `setRotation` over the globals `_width`, `_height`, `rowstart`,
    `colstart` and `rotation`;
  - the address window;
  - `fillRect` clipping;
  - `bitblt`;
  - `drawchar`, which expands a glyph into `gr_buff`;
  - `setVScroll`.

  What goes out on the SPI bus is an event trace.
- **Seesaw I2C framing for the TFT FeatherWing** (`tftwing.c`). The driver
  is modelled as a bus object. `HAL_I2C_Master_Transmit` and
  `HAL_I2C_Master_Receive` append to a log. Their statuses and received
  bytes are parameters of the bus, indexed by transfer number. The
  functions modelled are:
  - `seesaw_readbuf` and `seesaw_writebuf`, with their error paths;
  - the 32-bit pin-mask packing and its inverse;
  - `pinModeBulk`, `digitalReadBulk` and `digitalWriteBulk`;
  - the backlight writes;
  - the probe and configuration sequence of `tftwing_init`.
- **SysTick button latches and quadrature decoding** (`systick.c`).
  - The tick handler ORs each debouncer's edge flags into sticky latches
    and steps the `int16_t` encoder count.
  - The accessors read and clear.
  - Lemmas cover a series of ticks between reads.

The 8x8 font is shared by `oled.c` and `st7735.c` and lives in `font.dfy`.
Its bytes are a parameter.

Three constants come from `oled.h`, which is not part of this model: the
128 x 32 panel, `OLED_BUFSZ` = 512 and `OLED_MAXBUFS` = 2. They are taken as
constants. They satisfy `OLED_W * ((OLED_H + 7) / 8) <= OLED_BUFSZ`.

C integer widths are modelled explicitly where they matter:
- `uint8_t` loop counters wrap (`Step`);
- `int16_t` arithmetic wraps (`Wrap16`);
- `uint16_t` and `uint32_t` truncations are written as `%`;
- the `int32_t` shift in the ADC is a floor division.

`ADC_Init` adds one weight per failed configuration step, but
`common/adc.c:126` and `common/adc.c:132` both add 16. A failed channel-14
rank and a failed channel-15 rank therefore give the same code, and both
together give the code of a DMA failure (`Adc.InitResultAmbiguous`).

## Model

| member | source | states |
|---|---|---|
| AdcFilter.Cleared | common/adc.c:40-48 | the state ADC_Init leaves: every accumulator, delay-line slot and output zero, cursor zero, with the C array shapes |
| AdcFilter.Pass | common/adc.c:204-217 | one transfer-complete pass keeps the array shapes and keeps the cursor in [0, 32) |
| AdcFilter.Run | common/adc.c:204-217 | after n passes from the cleared state the cursor is n mod 32 |
| AdcFilter.PassKeepsInv | common/adc.c:207-214 | a pass preserves "each accumulator equals the sum of its delay line and each output is that sum >> 5" |
| AdcFilter.PassEffect | common/adc.c:207-217 | a pass overwrites only slot adc_dly_ptr of each delay line, with the new sample; it moves each accumulator by new minus overwritten; it publishes acc / 32; it advances the cursor by one mod 32 |
| AdcFilter.NormalizeInRange | common/adc.c:207-214 | `acc >> 5` stored into a uint16_t equals the floor of acc / 32 for every accumulator a window of uint16_t samples can produce, with no truncation |
| AdcFilter.InvBounds | common/adc.c:207-214 | under the invariant each accumulator lies in [0, 32*65535] (fits int32_t) and each output is acc / 32 and fits a uint16_t |
| AdcFilter.Bounds12Bit | common/adc.c:207-214 | with 12-bit samples in the delay line, the accumulator stays in [0, 32*4095] and the output is at most 4095 |
| AdcFilter.RunDlyBound | common/adc.c:207-214 | when a channel's samples never exceed m, no slot of its delay line does after any run |
| AdcFilter.Run12Bit | common/adc.c:204-217 | with the converter at ADC_RESOLUTION_12B (common/adc.c:83), after any run of 12-bit scans from the cleared state each accumulator stays in [0, 32*4095] and each output is at most 4095 |
| AdcFilter.RunKeepsInv | common/adc.c:204-217 | the invariant holds after any series of passes from ADC_Init's state |
| AdcFilter.PassSlides | common/adc.c:207-217 | a pass moves a channel's window read from the cursor forward by one sample, and the accumulator is that window's sum |
| AdcFilter.RunWindow | common/adc.c:204-217 | after any series of passes, channel c's delay line read from the cursor is its last 32 samples, oldest first (zeros before 32 passes), and the accumulator is their sum |
| AdcFilter.RunOutput | common/adc.c:214 | the published output is the floor of the mean of the channel's last 32 samples and fits a uint16_t |
| AdcFilter.ConstantInput | common/adc.c:204-217 | unity gain: 32 passes of the same value v on a channel make its output exactly v |
| AdcFilter.FiniteMemory | common/adc.c:204-217 | scans older than the last 32 do not influence the accumulator or the output |
| AdcFilter.Impulse | common/adc.c:204-217 | a single non-zero sample v shows as v >> 5 for 32 passes, then the output returns to 0 |
| Adc.InitResultZeroIff | common/adc.c:93-152 | ADC_Init's code is 0 exactly when every configuration step returned HAL_OK, and it is at most 79 |
| Adc.InitResultDecode | common/adc.c:93-152 | the HAL_ADC_Init, channel 3, 6 and 7 failures can be read back from bits 0..3; above those only 16*(ch14 failed + ch15 failed) + 32*(DMA failed) survives |
| Adc.InitResultAmbiguous | common/adc.c:122-152 | a channel-14 failure and a channel-15 failure give the same code; both together equal a DMA failure alone |
| Adc.AdcDriver.constructor | common/adc.c:10-16 | the zero-initialised static arrays, with their C dimensions: the filter state is Cleared and valid, and the raw and published buffers are all zero |
| Adc.AdcDriver.Init | common/adc.c:31-181 | ADC_Init clears adc_rawbuf, adc_procbuf, every accumulator and delay-line slot and the cursor; it leaves the DMA flag; it returns the weighted failure code |
| Adc.AdcDriver.GetChl | common/adc.c:186-189 | for a channel below ADC_NUMCHLS the value read is the floor of the mean of that channel's delay line |
| Adc.AdcDriver.FilterChannel | common/adc.c:206-214 | one loop iteration updates only channel i's accumulator, output and delay slot p: acc += new - old, slot p := new, output := acc >> 5 |
| Adc.AdcDriver.PassMatches | common/adc.c:204-217 | the arrays after the channel loop and cursor advance are exactly the state Pass describes |
| Adc.AdcDriver.FilterPass | common/adc.c:201-217 | the handler's loop and cursor advance take the driver from state s to Pass(s, adc_rawbuf) and keep the filter invariant |
| Adc.AdcDriver.DmaIrqHandler | common/adc.c:191-221 | with the transfer-complete flag set, clear it and perform exactly one pass; otherwise the filter state is unchanged |
| Led.SentBitsOrder | common/led.c:85-106 | pulse k (0-based) carries bit 23 - k of the colour: most significant bit first |
| Led.FramePulse | common/led.c:84-110 | LEDSetColor's trace is 99 events; pulse k drives the line high, waits T1H or T0H, drives it low, waits T1L or T0L, according to the bit it carries |
| Led.FrameCriticalSection | common/led.c:84-110 | interrupts are masked first, unmasked right after the 24th bit and before the TRST wait; nothing in between touches the mask |
| Led.FrameWaited | common/led.c:91-110 | the total wait is ones*(T1H+T1L) + (24-ones)*(T0H+T0L) + TRST, where ones is the number of 1 bits among bits 0..23 |
| Led.WaitedPulse | common/led.c:91-102 | a 1 bit waits T1H + T1L, a 0 bit T0H + T0L |
| Led.FrameIgnoresHighByte | common/led.c:91-105 | two colours that agree on bits 0..23 produce identical traces |
| Led.LineLowAtReset | common/led.c:88-110 | whatever the line's level before the call, it is low when the TRST wait begins and when the call ends |
| Led.BsrrAgreesWithLevel | common/led.c:88-100 | the register model of a BSRR write and the trace's line level agree on pin 0 |
| Led.HighThenLow | common/led.c:88-94 | driving pin 0 high then low leaves it low and every other pin as it was |
| Led.PaletteWraps | common/led.c:116-119 | LEDSetIdx takes idx mod 8, so idx and idx+8 give the same colour; entry k is blue for bit 0 of k, red for bit 1, green for bit 2, at intensity 1 |
| Led.PaletteNames | common/led.c:9-19 | black, blue, red, green and white entries match their names in GRB order |
| Led.ToggleTwice | common/led.c:71-74 | toggling pin 1 twice restores the register, and a toggle changes no other pin |
| Led.LedPort.WriteBsrr | common/led.c:88-94 | a BSRR write sets the low-half pins, resets the high-half ones (set winning), and records the write |
| Led.LedPort.On | common/led.c:55-58 | pin 1 becomes 1, every other pin unchanged |
| Led.LedPort.Off | common/led.c:63-66 | pin 1 becomes 0, every other pin unchanged |
| Led.LedPort.Toggle | common/led.c:71-74 | pin 1 is inverted, every other pin unchanged |
| Led.LedPort.SendBit | common/led.c:87-102 | one loop turn appends exactly the pulse of its bit and leaves pin 0 low |
| Led.LedPort.ShiftOut | common/led.c:85-106 | the 24-turn loop appends the pulses of bits 23..0 of the colour in order |
| Led.LedPort.SetColor | common/led.c:79-111 | LEDSetColor appends Frame(color): mask, 24 pulses, unmask, TRST wait; pin 0 ends low, other pins unchanged, interrupts enabled |
| Led.LedPort.SetIdx | common/led.c:116-119 | LEDSetIdx sends the frame of led_colors[idx & 7] |
| Oled.ClipPixel | common/oled.c:259-301 | off the screen drawPixel and xorPixel change nothing and getPixel reads 0 |
| Oled.GetPixelBit | common/oled.c:297-300 | getPixel reads 0 or 1 |
| Oled.PlotPixel | common/oled.c:259-270 | after drawPixel the pixel reads 1 iff the colour is 1, and every other pixel of every buffer reads as before |
| Oled.PlotByteBit | common/oled.c:266-269 | drawPixel's byte: bit y%8 becomes (colour == 1), every other bit unchanged |
| Oled.FlipPixel | common/oled.c:275-283 | after xorPixel the pixel reads inverted and every other pixel reads as before |
| Oled.FlipByteBit | common/oled.c:282 | xorPixel's byte: bit y%8 inverted, every other bit unchanged |
| Oled.FlipTwice | common/oled.c:282 | xorPixel twice on the same pixel restores the store byte for byte |
| Oled.FillPixels | common/oled.c:245-254 | after oled_clear every pixel of that buffer reads as the colour's ink and other buffers are unchanged |
| Oled.CopyPixels | common/oled.c:207-210 | after oled_cpy_buf every pixel of dst reads as the same pixel of src did; other buffers are unchanged |
| Oled.GridMember | common/oled.c:572-589 | a point is visited by the uint8_t row-major scan exactly when its wrapped distance from the corner is within w and h |
| Oled.GridDistinct | common/oled.c:572-589 | with sides up to 256 the scan never visits a pixel twice |
| Oled.GridAt | common/oled.c:577-587 | scan entry r*w + k is column x+k, line y+r, each a wrapping uint8_t |
| Oled.PaintSolid | common/oled.c:259-270 | drawPixel over any list of points in one colour: those pixels read as the colour, all others as before |
| Oled.PaintElsewhere | common/oled.c:259-270 | pixels no point names read as before |
| Oled.PaintAt | common/oled.c:259-270 | with distinct points, the pixel at point i reads as the ink of colour i |
| Oled.FlipAllPixel | common/oled.c:275-283 | xorPixel over distinct points inverts exactly those pixels |
| Oled.FlipCommute | common/oled.c:282 | two xorPixels commute |
| Oled.FlipAllTwice | common/oled.c:282 | the same run of xorPixels twice restores the store |
| Oled.VLineMember | common/oled.c:397-406 | drawFastVLine plots exactly the on-screen pixels from (x, y) down to the clipped end, at most OLED_H - y of them |
| Oled.HLineMember | common/oled.c:411-421 | drawFastHLine plots exactly the on-screen pixels from (x, y) right to the clipped end, at most OLED_W - x of them |
| Oled.VLinePixels | common/oled.c:397-406 | after drawFastVLine the line's pixels read as the colour and all others as before |
| Oled.HLinePixels | common/oled.c:411-421 | after drawFastHLine the line's pixels read as the colour and all others as before |
| Oled.BoxPixels | common/oled.c:561-567 | after oled_Box exactly the four sides (far sides at uint8_t x+w-1 and y+h-1) read as the colour |
| Oled.DrawRectPixels | common/oled.c:572-589 | after oled_drawrect exactly the pixels of the wrapped w x h block read as the colour |
| Oled.XorRectPixels | common/oled.c:594-611 | after oled_xorrect exactly the pixels of the block read inverted |
| Oled.XorRectTwice | common/oled.c:594-611 | oled_xorrect twice with the same arguments restores the store |
| Oled.DrawCharAt | common/oled.c:616-637 | after oled_drawchar the pixel at column j, line i reads as font bit j of row i (MSB leftmost): the colour for a set bit, (~colour)&1 for a clear one |
| Oled.DrawCharElsewhere | common/oled.c:616-637 | oled_drawchar leaves every pixel outside its 8 x 8 block as it was |
| Oled.GraySliceAt | common/oled.c:711-722 | after oled_gray_slice the pixel at column dx, line dy reads 1 exactly when grey byte dy*w + dx exceeds t |
| Oled.GraySliceElsewhere | common/oled.c:711-722 | oled_gray_slice leaves every pixel outside its block as it was |
| Oled.BlitLenBounds | common/oled.c:318-325 | blit's clipped extent is non-empty, no longer than asked, and fits the screen at both origins |
| Oled.BlittedPixel | common/oled.c:306-338 | after oled_blit every pixel outside the clipped destination rectangle reads as before; when source and destination do not meet, each pixel inside reads as its source pixel did |
| Oled.FrameBuffers.constructor | common/oled.c:47 | zeroed static storage of OLED_MAXBUFS buffers of OLED_BUFSZ bytes |
| Oled.FrameBuffers.Clear | common/oled.c:245-254 | the store becomes Fill: buffer b all 0xFF for colour 1, all 0x00 otherwise, others unchanged |
| Oled.FrameBuffers.CpyBuf | common/oled.c:207-210 | the store becomes Copy: buffer dst byte-identical to src, others unchanged |
| Oled.FrameBuffers.DrawPixel | common/oled.c:259-270 | the store becomes Plot of the old store |
| Oled.FrameBuffers.XorPixel | common/oled.c:275-283 | the store becomes Flip of the old store |
| Oled.FrameBuffers.ReadPixel | common/oled.c:288-301 | getPixel returns GetPixel of the store and changes nothing |
| Oled.FrameBuffers.Blit | common/oled.c:306-338 | the clip tests and the copy loops establish Blitted (see BlittedPixel) |
| Oled.FrameBuffers.CopyRect | common/oled.c:330-337 | the copy loops over the clipped rectangle reach the final progress state |
| Oled.FrameBuffers.VLine | common/oled.c:397-406 | the store becomes drawPixel over VLinePts in one colour |
| Oled.FrameBuffers.HLine | common/oled.c:411-421 | the store becomes drawPixel over HLinePts in one colour |
| Oled.FrameBuffers.Box | common/oled.c:561-567 | the store becomes drawPixel over the four sides in one colour |
| Oled.FrameBuffers.DrawRect | common/oled.c:572-589 | the store becomes drawPixel over the row-major wrapped scan of h lines of w points |
| Oled.FrameBuffers.XorRect | common/oled.c:594-611 | the store becomes xorPixel over the same scan |
| Oled.FrameBuffers.DrawChar | common/oled.c:616-637 | the store becomes drawPixel over the 8 x 8 scan with the font row colours |
| Oled.FrameBuffers.GraySlice | common/oled.c:711-722 | the store becomes drawPixel over the h x w scan, each pixel (grey > t) |
| Font.ShiftStep | common/oled.c:626-634 | testing bit 7 and shifting left once per column reads a font byte most significant bit first |
| St7735.Events | common/st7735.c:295-305 | a run of list words produces one event per word, in order |
| St7735.WalkPrefix | common/st7735.c:295-305 | the walker sends exactly the words before the first ST_CMD_END, one event each |
| St7735.WalkStopsAtEnd | common/st7735.c:295-305 | nothing after the first terminator is read |
| St7735.WordDecode | common/st7735.c:295-305 | a word with bit 0x200 becomes a delay of word & 0x1ff ms; any other sends exactly word & 0xff, as a command iff bit 0x100 is set |
| St7735.InitListEnds | common/st7735.c:154-217 | the ST7735R list is 92 words ending in ST_CMD_END, so the walk terminates inside it |
| St7735.Color565Fields | common/st7735.c:449-452 | bits 15..11, 10..5 and 4..0 of the packed colour are r>>3, g>>2 and b>>3 |
| St7735.Color565Onto | common/st7735.c:449-452 | every 16-bit colour is the packing of its own fields: nothing else is lost |
| St7735.Swap16Twice | common/st7735.c:489-491 | __REVSH on the colour swaps its bytes and is its own inverse |
| St7735.Orientation | common/st7735.c:549-583 | even rotations are 80 wide, 160 high, colstart 24, rowstart 0; odd ones 160 x 80, colstart 0, rowstart 24; MADCTL has MV exactly for odd rotations |
| St7735.Be16 | common/st7735.c:319-324 | a 16-bit address goes out as two data bytes, high first, that recombine to it |
| St7735.AddrWindowDecode | common/st7735.c:312-344 | the window sends CASET, the two column addresses, RASET, the two row addresses, RAMWR, and each address reads back off its bytes |
| St7735.ClipFits | common/st7735.c:432-434 | from an on-screen start the clipped extent stays inside the edge and is cut only at the edge |
| St7735.GlyphAt | common/st7735.c:494-519 | the glyph buffer is row-major: entry r*cw + c is font bit c of row r, byte-swapped fg if set, bg if clear |
| St7735.SpanOnScreen | common/st7735.c:509-518 | from an on-screen start a glyph row or column stops at the edge or after 8 |
| St7735.Lcd.constructor | common/st7735.c:225-226 | zeroed globals and a 64-entry gr_buff |
| St7735.Lcd.WriteByte | common/st7735.c:260-272 | one byte is sent, as a command iff bit 8 is set |
| St7735.Lcd.SendList | common/st7735.c:295-305 | the walker sends exactly Walk of the list |
| St7735.Lcd.SendWord | common/st7735.c:297-303 | one list word goes out as its WordEvent: a delay of its low nine bits when ST_CMD_DELAY is set, otherwise the byte |
| St7735.EventsSnoc | common/st7735.c:295-303 | each word read before the terminator adds its own event after the earlier ones, and the terminator is still ahead |
| St7735.Lcd.Init | common/st7735.c:276-309 | portrait defaults (80 x 160, colstart 24), a reset pulse with 10 ms waits, the ST7735R list, then the backlight on |
| St7735.Lcd.SetAddrWindow | common/st7735.c:312-344 | the window with coordinates offset by colstart and rowstart |
| St7735.Lcd.FillRect | common/st7735.c:428-446 | nothing when x >= width or y >= height; otherwise the clipped window and h*w (uint32_t) copies of the colour |
| St7735.Lcd.Bitblt | common/st7735.c:455-473 | the window, then the w*h buffered pixels |
| St7735.Lcd.DrawChar | common/st7735.c:478-527 | as written: nothing when x > width or y > height; otherwise gr_buff holds the clipped glyph row-major, the rest of gr_buff is unchanged, and the glyph is blitted |
| St7735.Lcd.ExpandGlyph | common/st7735.c:494-523 | the nested loops fill gr_buff with Glyph for the clipped width and height and leave the rest |
| St7735.Lcd.ExpandRow | common/st7735.c:498-513 | the inner loop writes one ink per font bit, MSB first, until the last column or the eighth, and nothing else |
| St7735.Lcd.DrawCharClipped | common/st7735.c:486-487 | with the origin test at the edges, the blitted block never passes the right or bottom edge |
| St7735.Lcd.DrawCharEdgeColumn | common/st7735.c:486-512 | as written, a character at x == width passes the test: the CASET bytes it sends decode to width + colstart at both ends, one past the last visible column, and a one-column block of the glyph follows |
| St7735.EdgeTrace | common/st7735.c:486-512 | the window drawchar opens from column width is one column wide, and its column bytes decode to width + colstart |
| St7735.Lcd.SetRotation | common/st7735.c:546-584 | rotation = m mod 4; width, height, rowstart and colstart are those of Orientation; MADCTL is sent with its value |
| St7735.Lcd.SetVScroll | common/st7735.c:587-592 | VSCSAD, then 0, then s mod 160 |
| TftWing.MaskRoundTrip | common/tftwing.c:183-220 | the 4-byte pin mask is big-endian and digitalReadBulk's reassembly is its inverse, both ways round |
| TftWing.Masked | common/tftwing.c:219 | the result has no bit outside pins and none outside the received word |
| TftWing.MaskedKeepsPins | common/tftwing.c:219 | on the pins, the masked word has exactly the received word's bits |
| TftWing.PinModeTable | common/tftwing.c:183-206 | each mode's writes, all with the mask payload: OUTPUT DIRSET; INPUT DIRCLR; PULLUP DIRCLR, PULLENSET, BULK_SET; PULLDOWN DIRCLR, PULLENSET, BULK_CLR; any other mode nothing |
| TftWing.Payload16RoundTrip | common/tftwing.c:282-295 | the backlight payload is 0, then the value big-endian |
| TftWing.Bus.constructor | common/tftwing.c:90-151 | an empty bus log |
| TftWing.Bus.Transmit | common/tftwing.c:142 | a transmit logs one message and returns the bus status |
| TftWing.Bus.Receive | common/tftwing.c:113 | a receive logs itself and returns sz received bytes |
| TftWing.Bus.ReadBuf | common/tftwing.c:90-122 | seesaw_readbuf: if the address transmit fails, report error 1 and return its status without receiving; else wait 100 us, receive, report error 2 on failure |
| TftWing.Bus.WriteBuf | common/tftwing.c:127-151 | seesaw_writebuf: over 16 bytes, HAL_ERROR and no transfer; else one message [reghi, reglo, payload] of length 2 + sz, error 3 on failure |
| TftWing.Bus.Swrst | common/tftwing.c:156-178 | one message [STATUS, SWRST, 0xFF], error 4 on failure, then a 500 ms wait |
| TftWing.Bus.PinModeBulk | common/tftwing.c:183-206 | the messages sent are exactly PinModeFrames(pins, mode) |
| TftWing.Bus.DigitalReadBulk | common/tftwing.c:211-220 | the result never has a bit outside pins; on a good address write it is the received word masked by pins |
| TftWing.Bus.DigitalWriteBulk | common/tftwing.c:225-238 | one message: BULK_SET for a non-zero value, BULK_CLR otherwise, with the mask payload |
| TftWing.Bus.SetBacklight | common/tftwing.c:282-286 | one message to the timer PWM register with payload 0, hi, lo |
| TftWing.Bus.SetBacklightFreq | common/tftwing.c:291-295 | one message to the timer FREQ register with payload 0, hi, lo |
| TftWing.Bus.TftReset | common/tftwing.c:300-303 | one digitalWriteBulk of the reset pin's mask |
| TftWing.Bus.ReadButtons | common/tftwing.c:308-311 | the result has no bit outside the seven button pins; on a good address write it is the received word masked by the button pins |
| TftWing.Bus.Probe | common/tftwing.c:249-271 | the probe passes exactly when the reset and both ID transfers succeed and the ID is 0x55 |
| TftWing.Bus.Init | common/tftwing.c:245-277 | returns 0 exactly when the probe passes, and only then configures the reset pin as output and the buttons as pulled-up inputs; otherwise returns 1 |
| Systick.Delta | common/systick.c:143-149 | the encoder step is non-zero exactly on an ENC_A rising edge: +1 if ENC_B is 0, else -1 |
| Systick.LatchSticky | common/systick.c:138-139 | over any series of ticks a latch is non-zero exactly when it was before or some tick reported that edge |
| Systick.LatchOthers | common/systick.c:138-139 | a latch changes only through its own input's edges |
| Systick.EncoderAccumulates | common/systick.c:143-149 | between two reads the int16_t count is the net count of the ticks in between |
| Systick.NoEdgeNoCount | common/systick.c:143 | without an ENC_A rising edge the count does not move |
| Systick.CountBound | common/systick.c:143-149 | n ticks move the count by at most n |
| Systick.Ticker.constructor | common/systick.c:24-26 | the zeroed globals: every debouncer output and every edge latch zero, the encoder count zero, all valid |
| Systick.Ticker.Init | common/systick.c:60-83 | every btn_fe, btn_re and enc_val is 0; the debouncers take their reset state |
| Systick.Ticker.GetButton | common/systick.c:88-91 | the debounced state, with nothing changed |
| Systick.Ticker.ButtonFe | common/systick.c:96-101 | returns the falling-edge latch and clears it; other latches unchanged |
| Systick.Ticker.ButtonRe | common/systick.c:106-111 | returns the rising-edge latch and clears it; other latches unchanged |
| Systick.Ticker.GetEncoder | common/systick.c:116-121 | returns the count so far and resets it to 0 |
| Systick.Ticker.Tick | common/systick.c:126-150 | each latch becomes old latch OR the new edge; the count steps by Delta, wrapping as int16_t |

## Left out

- Peripheral bring-up is not modelled. This covers the GPIO, clock, ADC,
  DMA and NVIC register setup in `ADC_Init` (only its result code is
  modelled), the `LEDInit` pin setup, `ST7735_SPI_Init`, the GPIO setup in
  `systick_init`, and the shared SPI, I2C and USART drivers. These are
  register writes with nothing to state.
- HAL return statuses are parameters: the `ADC_Init` steps' outcomes, and
  the I2C transfer statuses and received bytes of the seesaw bus.
- `LEDInit`'s timing table uses `float32` and `floorf`. T0H, T0L, T1H, T1L
  and TRST are the fields of a `Timing` parameter.
- `cyclesleep` is a wait event in the trace. Its cycle counter is not
  modelled.
- `HAL_Delay` is a delay event.
- Interrupt and foreground concurrency is not modelled. The DMA handler,
  the SysTick handler and each accessor are one atomic step. The interrupt
  mask appears only as trace events.
- `debounce.h` is not part of this model. The debouncers' state and edge
  flags after each tick are inputs, and so is their reset state.
- `HAL_IncTick` in the SysTick handler is not modelled.
- The OLED bus code is left out, because it is I2C I/O with delays:
  `oled_command`, `oled_data`, `oled_init`, `oled_refresh` and
  `oled_slide`. `oled_get_fb` is left out because it only returns the
  address of a buffer.
- `oled_gray_fs` is left out because it calls `rand()`.
- The Bresenham rasterisers `oled_line`, `oled_Circle`,
  `oled_FilledCircle` and `ST7735_drawLine` are left out. Their `int16_t`
  geometry has no stated property.
- String drawing (`oled_drawstr`, `oled_drawbitfont`, `ST7735_drawstr`) is
  left out. It loops over the single-character routines modelled here and
  over a proportional font table that is not part of this model.
- The other ST7735 helpers are not modelled: `ST7735_fillScreen`,
  `ST7735_drawPixel` and `ST7735_drawFastVLine/HLine`. They open a window
  and send words like `fillRect`.
- Font bytes are a parameter. `fontdata` itself is not part of this model.
- Oled.FrameBuffers.Blit: when the source and destination rectangles meet
  in the same buffer, the contract says only that pixels outside the
  destination rectangle are unchanged and that the rectangle is what the
  copy produced. It does not say which source pixels the overlapping copy
  reads. `Apart` names the case where each destination pixel provably
  reads as its source pixel.
- St7735.Lcd.Bitblt and St7735.Lcd.FillRect: the pixel stream is one
  `Pixels` or `Words` event. Its byte-level SPI serialisation is not
  modelled.
- TftWing: the text `printf` writes on a failed probe is not modelled. A
  failure is reported through `tftwing_i2c_error`, which is modelled as an
  error event carrying its code; the I2C reset that function performs is
  not modelled.
- TftWing.Bus.DigitalReadBulk: when the register-address write fails, the
  bytes in `buf` are whatever the caller's stack held. They are a
  parameter, and the contract then only promises that no bit outside
  `pins` is returned.
- TftWing.Bus.ReadButtons: the same applies, since it is
  `seesaw_digitalReadBulk` of the button pins.
- Systick.Ticker.Tick: the C handler calls `debounce` inside its loop. The
  model takes the debouncers' outputs for the tick as an argument.

## Findings

| source | as written | input that shows it | evidently intended | confidence | as-written member | corrected member |
|---|---|---|---|---|---|---|
| common/st7735.c:486-487 | `ST7735_drawchar` returns early only when `x > _width` or `y > _height` | x == _width (80 in portrait), any on-screen y: the glyph loop runs once per row and a 1-column block is blitted at column 80, one past the last column | `x >= _width \|\| y >= _height`, as in `ST7735_fillRect` (common/st7735.c:432), so nothing is drawn off the screen | not executed; medium | St7735.Lcd.DrawCharEdgeColumn | St7735.Lcd.DrawCharClipped |

# RotaryValve: a verified model of the ERV-06 rotary valve driver

This project models `RotaryValve` from `Valve.h`. The class drives the
serial command/response protocol of an ERV-06 rotary selector valve. The
driver keeps the fields of a command: address, function code and 16-bit
parameter. It builds them into the 8-byte frame
`STX|ADDR|FUNC|PARAML|PARAMH|ETX|SUML|SUMH` (STX = 0xCC, ETX = 0xDD). The
checksum is the sum of the five fields, stored in a `uint16_t`. The
parameter and the checksum are sent low byte first. Before sending, the
driver runs its self-correcting `Verify`. It then writes the frame,
discards incoming bytes until a start byte, and takes that byte and the
next seven as the reply. `Move` and `Home` set the function and parameter,
build and send the frame, and update the advisory `isHome` flag.

Files, one module each:

- `wire.dfy` (`Wire`): the `uint8_t`/`uint16_t`/`uint32_t` ranges, truncation to 16 bits, and the little-endian byte split.
- `frame.dfy` (`Frame`): the frame layout built by `buildPacket` and the checksum. It also has a decoder that reads a frame back the way a receiver checks it.
- `response.dfy` (`Response`): a specification of the reply-capture loop. It is given as functions on the incoming byte stream.
- `valve.dfy` (`Valve`): the `Position` and `Action` constants and the class `RotaryValve`. Its `buff` and `message` are 8-byte arrays written in place. Its methods are proved against the functions above.
- `scenarios.dfy` (`Scenarios`): client code that runs concrete commands and replies against the class contracts.

The serial line is modelled by two sequences:

- The field `wire` records every byte written so far.
- Each sending method takes the bytes the valve will send as a parameter `rx`. It returns the bytes it did not consume.

The source's read loop never ends if no start byte arrives. In the model,
that wait becomes a precondition: `CanCapture(rx)` says the stream holds a
start byte followed by at least seven more bytes.

The source's C++ integer promotion matters in one place. `Verify` compares
the `uint16_t` checksum with the field sum computed in `int`. As a result,
it returns false exactly when that unwrapped sum exceeds 65535, whatever
the checksum held before (Valve.h:136-147). This happens for large
parameters even though the stored checksum is correctly truncated, and the
frame is then never sent. In the source, `func` and `param` are private
(Valve.h:77-78) and only `Move` and `Home` set them, to a move or home code
and a parameter of at most 12. So every sum the driver itself produces is
at most 761 for any address, and `Verify`'s false branch is reachable there
only through fields that were never initialised. The model's fields are
public, and `Scenarios.LargeParameterNotSent` reaches that branch by
assigning them directly.

Further facts about the code that the model records:

- At address 0, the move-to-FIVE checksum is 0xCC + 0x44 + 0x05 + 0xDD = 0x01F2, and the home checksum is 0xCC + 0x45 + 0xDD = 0x01EE (Valve.h:100).
- No method uses the `Action` values, and the `action` field is never read or written (Valve.h:42-47, 79).
- A reply needs seven bytes after its start byte (Valve.h:165). With fewer, the loop never finishes (`Response.ShortReplyBlocks`).

## Model

| member | source | states |
|---|---|---|
| `Wire.ToU16` | Valve.h:100 | storing an `int` into a `uint16_t` keeps values up to 65535 and otherwise removes a multiple of 2^16 |
| `Wire.LowByte` | Valve.h:102 | the low byte differs from the value by a multiple of 256 |
| `Wire.HighByte` | Valve.h:101 | the high byte is the number of whole 256s in the value |
| `Wire.Le16` | Valve.h:101-104 | the low and high bytes of a reassembled 16-bit value are the two bytes it was made from |
| `Wire.SplitJoin` | Valve.h:101-102 | splitting a 16-bit value into `& 0xFF` and `>> 8` parts and reassembling them gives it back |
| `Frame.FieldSum` | Valve.h:100 | the five fields added in `int` total at most 4 * 255 + 65535, so the sum cannot overflow an `int`, and at least the parameter |
| `Frame.Checksum` | Valve.h:100 | the checksum is the field sum when that fits in 16 bits, and the sum minus 2^16 otherwise |
| `Frame.Encode` | Valve.h:96-114 | the built frame has exactly eight bytes; its layout is stated by `Frame.EncodeFields` |
| `Frame.EncodeFields` | Valve.h:96-114 | the built frame has STX, address, function and ETX at bytes 0, 1, 2 and 5; bytes 3-4 read back little-endian as the parameter; bytes 6-7 as the 16-bit truncated field sum |
| `Frame.Decode` | Valve.h:15-24 | every frame the receiver's check accepts is exactly the encoding of the fields it decodes to, so address, function and parameter determine the frame |
| `Frame.DecodeEncode` | Valve.h:96-114 | every built frame passes the receiver's check and decodes to the address, function and parameter it was built from |
| `Frame.TruncationSeparates` | Valve.h:100 | two different field sums less than 2^16 apart stay different after truncation to `uint16_t` |
| `Frame.SingleByteErrorDetected` | Valve.h:24 | changing any single byte of a built frame makes the receiver's check fail |
| `Response.FirstStart` | Valve.h:159-161 | the index found holds 0xCC and no earlier byte does; when none is found no byte is 0xCC |
| `Response.CanCapture` | Valve.h:159-175 | the loop can finish exactly when some byte is 0xCC, no earlier byte is, and at least seven bytes follow it |
| `Response.Consumed` | Valve.h:159-175 | the loop reads at least eight bytes, no more than the stream holds, and the eighth-last byte it reads is 0xCC |
| `Response.Captured` | Valve.h:158-175 | the captured reply is 8 bytes long and starts with 0xCC |
| `Response.Remaining` | Valve.h:159-175 | the bytes left on the line are exactly those after the consumed ones |
| `Response.StartAfterStrayBytes` | Valve.h:159-161 | after a run of bytes none of which is 0xCC, the first 0xCC is the byte that follows them |
| `Response.CaptureAfterStrayBytes` | Valve.h:158-175 | for stray non-0xCC bytes, then a reply starting with 0xCC, then anything: the loop finishes; it captures exactly that reply, even if the reply contains 0xCC later; the bytes after it stay unread |
| `Response.CaptureSplits` | Valve.h:158-175 | every stream the loop finishes on is the discarded bytes, none of them 0xCC, then the captured reply, then the unread rest |
| `Response.ShortReplyBlocks` | Valve.h:159-175 | if the first 0xCC has fewer than seven bytes after it, the loop cannot finish |
| `Valve.ActionFields` | Valve.h:42-47 | an action value is its function code times 2^16 plus its 16-bit parameter |
| `Valve.ActionLayout` | Valve.h:44-47 | STATUS_VALVE carries function 0x3E and STATUS_MOTOR function 0x4A, both with parameter 0 |
| `Valve.CommandSumFits` | Valve.h:136-147 | for a move or home function and a parameter up to 12, the field sum is at most 761 at any address, so the checksum is not truncated and `Verify` passes |
| `Valve.MoveFiveFrame` | Valve.h:180-187 | moving to FIVE at address 0 builds `CC 00 44 05 00 DD F2 01` |
| `Valve.HomeFrame` | Valve.h:189-196 | homing at address 0 builds `CC 00 45 00 00 DD EE 01` |
| `Valve.RotaryValve.Valid` | Valve.h:96-114 | the class invariant: both arrays hold eight bytes; once built, the markers are set and `buff` and `checksum` are the encoding and checksum of the current fields |
| `Valve.RotaryValve.HeldFrameDecodes` | Valve.h:96-114 | the frame a valid, built valve holds passes the receiver's check and decodes to the valve's address, function and parameter |
| `Valve.RotaryValve.constructor` | Valve.h:86-94 | stores the address and the baud rate; `isHome` starts false; nothing has been written; no packet has been built |
| `Valve.RotaryValve.BuildPacket` | Valve.h:96-114 | sets start and end to the markers; `buff` becomes the encoding of the current fields and `checksum` their truncated sum; address, function, parameter, `isHome` and the line are unchanged; `message` is outside its frame |
| `Valve.RotaryValve.GetBuff` | Valve.h:116-124 | returns a copy equal element by element to `buff` and changes nothing |
| `Valve.RotaryValve.GetMessage` | Valve.h:126-134 | returns a copy equal element by element to `message` and changes nothing |
| `Valve.RotaryValve.Verify` | Valve.h:136-147 | afterwards `checksum` is the truncated field sum, whatever it held before; the result is true exactly when the unwrapped sum is at most 65535; no other field and neither array changes |
| `Valve.RotaryValve.SendPacket` | Valve.h:149-178 | when `Verify` passes: the frame in `buff` is written; `message` becomes the 8 bytes from the first 0xCC; the bytes after them are returned. Otherwise nothing is written, `message` is unchanged and nothing is consumed. `buff` never changes. |
| `Valve.RotaryValve.Move` | Valve.h:180-187 | sets the function to 0x44 and the parameter to the position; the frame for them is built and written; `message` holds the captured reply; `isHome` is false whatever it was |
| `Valve.RotaryValve.Home` | Valve.h:189-196 | sets the function to 0x45 and the parameter to 0; the frame is built and written; `message` holds the captured reply; `isHome` is true whatever the reply says |
| `Scenarios.StrayReplyCaptured` | Valve.h:159-175 | `00 CC AA BB CC DD EE FF 11` is captured as `CC AA BB CC DD EE FF 11`: the stray 00 is dropped and the second 0xCC is kept as data |
| `Scenarios.MoveToFive` | Valve.h:180-187 | a valve at address 0 moved to FIVE sends `CC 00 44 05 00 DD F2 01`, keeps the captured reply and is not homed |
| `Scenarios.HomeMoveHome` | Valve.h:180-196 | homing sends `CC 00 45 00 00 DD EE 01`; the flag is set by home, cleared by move and set again by home, whatever the replies |
| `Scenarios.HomeWithStrayByte` | Valve.h:149-196 | homing against a reply with a stray leading byte captures the realigned reply and writes exactly one home frame |
| `Scenarios.RebuildIsIdentical` | Valve.h:96-114 | building again with unchanged fields gives the same bytes, which decode to the command's fields |
| `Scenarios.VerifyRepairsChecksum` | Valve.h:136-147 | with a corrupted checksum field, `Verify` still returns true and restores 0x01F2; `buff` keeps the original frame |
| `Scenarios.LargeParameterNotSent` | Valve.h:136-151 | for parameter 0xFFFF the built frame passes the receiver's check, but `Verify` returns false and nothing is written |

## Left out

- Serial hardware. The model leaves out constructing `BufferedSerial`, `enable_output`/`enable_input` and the two `wait_us(1000)` delays. A write appends to `wire`, and each read takes bytes from the `rx` parameter.
- `BufferedSerial::read` semantics. Short reads and blocking come from a library that is not part of this model. The model assumes each read delivers exactly the bytes it asks for.
- Non-termination. If no start byte arrives, or too few bytes follow it, the source loops forever. The model requires `CanCapture(rx)` instead of modelling that wait, and `Response.ShortReplyBlocks` names the case.
- The UART pins `tx`/`rx`. They are configuration only and are not modelled. `baudrate` is stored but never used.
- The platform default baud rate. `MBED_CONF_PLATFORM_DEFAULT_SERIAL_BAUD_RATE` is not part of this model. The constructor's default uses 9600 in its place.
- The unused `action` field. No method reads or writes it, so only the `Action` constants are kept.
- Static-buffer aliasing. `getBuff`/`getMessage` return pointers into one function-local static array each, so successive calls share storage. The model returns a fresh sequence copy instead.
- Uninitialised `start`, `end`, `func` and `param`. `Verify` and `SendPacket` require that a packet has been built (the ghost field `built`). In the source, calling them earlier reads indeterminate values.
- Debug code. The commented-out `printf` and error checks, and the `iostream` includes, are not modelled.
- Mask form. The model splits bytes with `% 0x100` and `/ 0x100` instead of `& 0xFF` and `(& 0xFF00) >> 8`. For 16-bit values these agree. That equivalence is not proved here, because bit-vector conversions exceed the resource limit.

# Moodlights lamp bank

A Dafny model of the `Moodlights` component of libhausbus, an RS485 "Hausbus"
library. A `Moodlights` object drives a bank of ten RGB lamps. Each lamp holds
a three-byte colour (red, green, blue). The object's owner sets lamps one at a
time or all at once, blanks them, or gives them random colours. It can also
read a lamp back. The bank is flattened into a 30-byte payload for the bus.
Colours also have a text form: an optional `#` followed by six hexadecimal
digits.

The model has three modules:

- `Colors` (`colors.dfy`): the `Byte` type and the `Color` triple, channels in R, G, B order.
- `ColorCodec` (`color_codec.dfy`): `parse_color` and `color_to_string` as pure functions.
  Hand-written character predicates stand in for the regular expression.
  They also stand in for `strtoul` and `snprintf`.
  The round trips between the two are proved in both directions.
- `LampBank` (`lamp_bank.dfy`): the class `Moodlights`, whose ten lamps are a fixed
  `array<Color>` updated in place. The methods that change or read lamps are specified by
  functions on the bank's contents (`Assign`, `Filled`, `Payload`). The
  contracts of those functions and of `Set` state read-after-write and the bulk
  fill; the lemmas beside `Payload` state the payload's byte layout.
  `::rand()` is an injected `RandomSource` that hands out arbitrary bytes and
  records them in a ghost history.

Facts about the code that shape the model:

- `get_payload` copies the raw channel bytes into the payload
  (moodlights.cpp:100-104). There is no gamma table, and `Payload` copies the
  bytes unchanged too.
- The lamp-number guard in `set` and `get` is off by one (see "## Findings").
  The model uses the strict bound `no < 10`.
- `parse_color`, `color_to_string` and `_color_regex` are defined in
  moodlights.cpp but not declared in moodlights.h. `parse_color` and
  `color_to_string` are modelled as the module-level functions
  `ColorCodec.ParseColor` and `ColorCodec.ColorToString`.

## Model

| member | source | states |
|---|---|---|
| `ColorCodec.HexValue` | moodlights.cpp:45 | a hex digit of either case denotes a value below 16, by its place in `0-9`, `a-f` or `A-F` |
| `ColorCodec.HexPairValue` | moodlights.cpp:44-46 | `fromHex` of two hex digits gives a byte whose high digit is the first and low digit the second |
| `ColorCodec.UpperHexDigit` | moodlights.cpp:58 | the digit written for a value below 16 is an upper-case hex digit that reads back as that value |
| `ColorCodec.UpperHexDigitOfHexValue` | moodlights.cpp:58 | writing back the value of a hex digit gives that digit in upper case |
| `ColorCodec.ByteToHex` | moodlights.cpp:58 | `%02X` writes exactly two upper-case hex digits that read back as the byte |
| `ColorCodec.ByteToHexOfPair` | moodlights.cpp:44-58 | formatting the byte two hex digits denote writes those two digits, upper-cased |
| `ColorCodec.ParseColor` | moodlights.cpp:19-53 | a colour is returned exactly when the whole string matches `_color_regex` (`MatchesColorPattern`: six hex digits, optionally after one `#`); otherwise None; the digit pairs give R, G, B in that order |
| `ColorCodec.ColorToString` | moodlights.cpp:55-60 | always six upper-case hex digits, no `#`, whose pairs read back as R, G, B |
| `ColorCodec.ParseFormatRoundTrip` | moodlights.cpp:37-60 | parsing the text of any of the 2^24 colours gives that colour back |
| `ColorCodec.FormatParseRoundTrip` | moodlights.cpp:37-60 | for every accepted string, formatting the parsed colour gives its digits without the `#`, upper-cased |
| `ColorCodec.ColorToStringInjective` | moodlights.cpp:55-60 | distinct colours have distinct text |
| `ColorCodec.CodecExamples` | moodlights.cpp:37-60 | `1A2b3C` and `#1A2b3C` parse to (0x1A, 0x2B, 0x3C); `1A2b3`, `GG0000` and `##1A2b3C` are refused; (10, 0, 255) formats as `0A00FF` |
| `LampBank.SourceGuardAdmitsOnePastEnd` | moodlights.cpp:64 | the source's `no > MOODLIGHTS_LAMPS` guard admits exactly one number that names no lamp, 10 |
| `LampBank.Assign` | moodlights.cpp:62-68 | after `set(no, c)` slot `no` holds `c` when `no < 10` and every other slot keeps its colour; the bank stays ten lamps long |
| `LampBank.Filled` | moodlights.cpp:70-74 | a filled bank is ten lamps, all showing one colour |
| `LampBank.Payload` | moodlights.cpp:95-107 | the payload of a bank has three bytes per lamp |
| `LampBank.PayloadAt` | moodlights.cpp:100-104 | payload byte `m` is channel `m % 3` of lamp `m / 3` |
| `LampBank.PayloadLayout` | moodlights.cpp:100-104 | payload byte `3*i + k` is channel `k` of lamp `i` |
| `LampBank.PayloadInjective` | moodlights.cpp:95-107 | the payload determines the bank: no two different banks share a payload |
| `LampBank.PayloadAfterAssign` | moodlights.cpp:95-107 | setting lamp `no` changes only payload bytes `3*no` to `3*no + 2`, which become the new colour |
| `LampBank.PayloadOfFilled` | moodlights.cpp:21-26 | a bank of one colour repeats that colour's three bytes; a freshly built (all black) bank's payload is thirty zero bytes |
| `LampBank.RandomSource.NextByte` | moodlights.cpp:17 | `rand_byte()` yields some byte and records it as drawn |
| `LampBank.Moodlights.constructor` | moodlights.cpp:21-26 | the addresses are the ones given, the lamp array is new and holds ten lamps, and every lamp is black |
| `LampBank.Moodlights.RandColor` | moodlights.cpp:32-35 | a random colour takes three fresh bytes, red first, and touches no lamp |
| `LampBank.Moodlights.Set` | moodlights.cpp:62-68 | numbers below 10 succeed, and then `get` returns the colour written and every other lamp reads as before; 10 and above fail with InvalidLamp and leave the bank unchanged |
| `LampBank.Moodlights.SetAll` | moodlights.cpp:70-74 | calls `set` on each lamp, which never fails; afterwards every lamp shows the colour |
| `LampBank.Moodlights.Get` | moodlights.cpp:76-82 | the colour of the lamp for numbers below 10, InvalidLamp for 10 and above; reads only |
| `LampBank.Moodlights.Blank` | moodlights.cpp:109-112 | as `set(no, black)`: same success condition, only lamp `no` becomes black |
| `LampBank.Moodlights.BlankAll` | moodlights.cpp:114-117 | afterwards every lamp is black, the same bank as `set_all((0,0,0))` gives |
| `LampBank.Moodlights.Rand` | moodlights.cpp:84-87 | draws three bytes after the earlier draws, which stay as they were, even for a bad lamp number; then sets only lamp `no` to the colour they make, with `set`'s bounds |
| `LampBank.Moodlights.RandAll` | moodlights.cpp:89-93 | draws thirty bytes after the earlier draws, which stay as they were; the new bank is exactly the bank whose payload is those bytes in draw order |
| `LampBank.Moodlights.GetPayload` | moodlights.cpp:95-107 | returns 30 bytes, byte `m` being channel `m % 3` of lamp `m / 3`, equal to `Payload` of the bank; changes nothing |

## Left out

- `operator<<` and `Hausbus::send` (moodlights.cpp:119-123): bus transport lives in `hausbus.h`, which is not part of this model. The frame it would send is `(src, dst, GetPayload())`.
- The generator behind `::rand()` is not modelled: `RandomSource.NextByte` returns an arbitrary byte.
- `LampBank.Moodlights.RandColor`, `Rand` and `RandAll` do not state that the bytes are uniformly distributed, because the model has no probabilities.
- `std::regex`, `strtoul` and `snprintf` are replaced by the hand-written digit predicates and conversions in `ColorCodec`. Only the pattern and the format the source uses are modelled.
- `Byte` and `Data` come from `data.h`, which is not part of this model. They are taken as an 8-bit unsigned integer and a sequence of such bytes.
- The `std::runtime_error("Invalid lamp")` exception becomes the `InvalidLamp` result of `Set`, `Get`, `Blank` and `Rand`.
- `LampBank.Moodlights.Get` returns a copy of the colour, while the source returns a const reference into the array. Aliasing through that reference is not modelled.
- The empty destructor (moodlights.cpp:28-30) has nothing to model.
- Gamma correction does not appear in the code and is not modelled.
- Concurrency: the component is single-threaded.

## Findings

| source | as written | input that shows it | evidently intended | confidence | as-written member | corrected member |
|---|---|---|---|---|---|---|
| moodlights.cpp:64 | `set` throws only when `no > MOODLIGHTS_LAMPS` | `set(10, c)` passes the guard and writes `_lamps[10]`, one past the ten-slot array | reject every `no >= 10` | high; not executed | `LampBank.SourceGuardAdmitsOnePastEnd` | `LampBank.Moodlights.Set` |
| moodlights.cpp:78 | `get` throws only when `no > MOODLIGHTS_LAMPS` | `get(10)` passes the guard and returns a reference to `_lamps[10]`, past the array | reject every `no >= 10` | high; not executed | `LampBank.SourceGuardAdmitsOnePastEnd` | `LampBank.Moodlights.Get` |

The same guard also reaches `blank(10)` and `rand(10)` through `set`. The
corrected `Set` uses the strict bound `ValidLamp`. Dafny's array-bounds check
on `lamps[no]` confirms that no accepted number writes outside the ten lamps.

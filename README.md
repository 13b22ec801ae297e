# Keypad: key vocabulary, serial wire codec and automatic profile switcher

This project models in Dafny the logic of a host-side driver for a six-button macro keypad that shows up
as a serial device, and of the tray application that switches the keypad's profile as programs start
and exit.

- `keys.dfy` (module `Keys`) holds the key vocabulary:
  - the eight modifier keys with their `0xE000`-tagged codes, whose low bits are the bits of the
    boot-keyboard modifier byte (Appendix B.1 of the HID 1.11 class definition);
  - the 110 keys with their `0xF000`-tagged codes, whose low byte is a usage id of the Keyboard/Keypad
    page 0x07 (section 10 of the USB HID Usage Tables 1.12), and `Key::ALL`;
  - key presses, the key-press builder, key combos and the default combo;
  - the text renderings of keys, presses and combos.
- `keypad.dfy` (module `Keypad`) holds the wire protocol:
  - a press as 4 bytes: the little-endian modifier word, then the little-endian key code;
  - a combo as 8 bytes, where a missing second press is written as four zero bytes, and the decoding
    of both;
  - the 49-byte write frame, filled one byte at a time;
  - the decoding of the device's 48-byte reply into six combos;
  - the flash mask, the acknowledgement, the handshake and port auto-detection.
- `models.dfy` (module `Models`) holds the `Profile` record: a name, exactly six combos by button
  position, an optional program. It also holds the profile's rendering and its default value.
- `watchdog.dfy` (module `Watchdog`) holds the automatic switcher. It is a two-state machine,
  `Default | InProgram(profile)`, driven by a snapshot of running process names.
  - `Next` states one step as a value.
  - The class `AutoSwitcher` keeps the state in a field. Its `NextProfile` method, recursive call
    included, is proved to take exactly that step.

Keys are modelled as their 16-bit codes (`type Key = c: bv16 | IsKeyCode(c)`), with one named constant
per variant. In the source, `Key` is a C-like enumeration declared with explicit codes, and `k as u16`
is the code. Words are `bv16` and bytes `bv8`, so the bit operations are those of `u16` and `u8`.

The serial port is not modelled. A method returns the bytes it would write as a sequence. The bytes it
would read are passed in as an `Option`, where `None` stands for a read or write failure of the port.

Every declared code carries a tag (`0xE000` for modifiers, `0xF000` for keys), so a reader might
expect the decoder to reject a modifier word without its tag. The code does not do that:
`KeyPress::from_u16` only tests whether each left-hand modifier's tagged code is contained in the
word. A word without the tag therefore decodes with no modifier held and is not an error. The model
follows the code (`Keypad.UntaggedModifierHoldsNothing`).

## Model

| member | source | states |
|---|---|---|
| `Keys.ModifierCodeLayout` | keypad-serial/src/keys.rs:138-163 | `ModifierKey::ALL` has the 8 modifiers and lists every one; entry i has code `0xE000 \| 1 << i` |
| `Keys.ModifierCode` | keypad-serial/src/keys.rs:140-149 | a modifier's code (`m as u16`) carries the tag `0xE000` and a non-zero low byte |
| `Keys.ModifierCodesDisjoint` | keypad-serial/src/keys.rs:140-149 | every modifier code carries the tag `0xE000` and a non-zero low byte; two different modifiers share only the tag bits |
| `Keys.KeyCodeNonZero` | keypad-serial/src/keys.rs:165-279 | every key code carries the `0xF000` tag and is never 0, the value an absent second press is written as |
| `Keys.AllListsEveryKeyOnce` | keypad-serial/src/keys.rs:402-515 | `Key::ALL` has 110 entries, contains every key, is in strictly ascending code order and has no repeats |
| `Keys.StepsUpAscending` | keypad-serial/src/keys.rs:402-515 | a list in which each code is smaller than the next is strictly ascending throughout (used for `Key::ALL`) |
| `Keys.FindByCode` | keypad-serial/src/keys.rs:165-167 | a scan of a key list in order finds a key exactly when the code is listed, and the key found has that code |
| `Keys.KeyFromCode` | keypad-serial/src/keys.rs:165-279 | code-to-key lookup: succeeds exactly for the declared key codes, and returns the key with that code; any other word gives no key |
| `Keys.KeyFromCodeScansAll` | keypad-serial/src/keys.rs:165-279 | the lookup equals scanning `Key::ALL` in order; `Some(k)` exactly when the word is k's code, so no default key is substituted |
| `Keys.KeyName` | keypad-serial/src/keys.rs:281-400 | `Display for Key`: each key's variant name, which is non-empty and starts with an upper-case letter |
| `Keys.KeyNameAlphanumeric` | keypad-serial/src/keys.rs:281-400 | every key's display name is a non-empty word of letters and digits |
| `Keys.PlainPress` | keypad-serial/src/keys.rs:41-49 | `KeyPress::key(k)` holds key k and none of ctrl, alt, shift, windows |
| `Keys.CtrlBuilder` | keypad-serial/src/keys.rs:51-56 | `KeyPress::ctrl()` is the default builder with Ctrl set: only Ctrl is set |
| `Keys.AltBuilder` | keypad-serial/src/keys.rs:58-63 | `KeyPress::alt()` is the default builder with Alt set: only Alt is set |
| `Keys.ShiftBuilder` | keypad-serial/src/keys.rs:65-70 | `KeyPress::shift()` is the default builder with Shift set: only Shift is set |
| `Keys.WindowsBuilder` | keypad-serial/src/keys.rs:72-77 | `KeyPress::windows()` is the default builder with Windows set: only Windows is set |
| `Keys.WithCtrl` | keypad-serial/src/keys.rs:89-92 | the Ctrl setter sets Ctrl and leaves every other flag as it was |
| `Keys.WithAlt` | keypad-serial/src/keys.rs:94-97 | the Alt setter sets Alt and leaves every other flag as it was |
| `Keys.WithShift` | keypad-serial/src/keys.rs:99-102 | the Shift setter sets Shift and leaves every other flag as it was |
| `Keys.WithWindows` | keypad-serial/src/keys.rs:104-107 | the Windows setter sets Windows and leaves every other flag as it was |
| `Keys.BuildPress` | keypad-serial/src/keys.rs:109-117 | `.key(k)` gives a press of k with exactly the builder's four flags |
| `Keys.BuilderLaws` | keypad-serial/src/keys.rs:80-117 | finishing the default builder gives `KeyPress::key(k)`; every pair of the four setters commutes, and each setter is idempotent |
| `Keys.DefaultCombo` | keypad-serial/src/keys.rs:22-29 | `KeyCombo::default()` is a plain press of A with no second press |
| `Keys.Flags` | keypad-serial/src/keys.rs:109-117 | the flags of a press, finished with its key, give the press back |
| `Keys.PressDisplay` | keypad-serial/src/keys.rs:120-136 | `Display for KeyPress` ends with the key's name, and is exactly the key's name when no modifier is held (the token order is stated by `Keys.PressDisplayParses`) |
| `Keys.PressDisplayParses` | keypad-serial/src/keys.rs:120-136 | a press renders as "Ctrl + ", "Alt + ", "Shift + ", "Win + " for its set flags in that order, then its key name: reading these tokens back recovers the flags and the name |
| `Keys.PressDisplaySame` | keypad-serial/src/keys.rs:120-136 | two presses render alike exactly when they hold the same flags and keys of the same name |
| `Keys.PressDisplayHasNoComma` | keypad-serial/src/keys.rs:120-136 | a press rendering never contains a comma |
| `Keys.ComboDisplay` | keypad-serial/src/keys.rs:12-20 | a combo rendering starts with its first press's rendering, and is exactly that rendering when there is no second press |
| `Keys.ComboDisplayParses` | keypad-serial/src/keys.rs:12-20 | splitting a combo rendering at its first ", " gives the first press's rendering and, only when present, the second's |
| `Keys.ComboDisplaySame` | keypad-serial/src/keys.rs:12-20 | two combos render alike exactly when their presses render alike and both have, or both lack, a second press |
| `Keypad.WordRoundTrip` | keypad-serial/src/keypad.rs:168-169 | `to_le_bytes` then `from_le_bytes` gives the word back, and the other way round |
| `Keypad.Word` | keypad-serial/src/keypad.rs:193 | `u16::from_le_bytes`: the word whose low byte is the first byte and high byte the second |
| `Keypad.LittleEndian` | keypad-serial/src/keypad.rs:168-169 | a word is written as two bytes |
| `Keypad.PressBytes` | keypad-serial/src/keypad.rs:152-177 | a press is written as four bytes |
| `Keypad.ModifierWord` | keypad-serial/src/keypad.rs:154-166 | the modifier word is 0 exactly when no modifier is held, and never has a right-hand bit 0x10-0x80 |
| `Keypad.EncodePress` | keypad-serial/src/keypad.rs:152-177 | OR-ing the codes of the held modifiers one by one gives `[mod_lo, mod_hi, key_lo, key_hi]`, where the modifier word is 0 with no flag held |
| `Keypad.ModifierWordHolds` | keypad-serial/src/keypad.rs:152-166 | the modifier word holds exactly the press's own flags, never a right-hand bit, and is either 0 or tagged `0xE000` |
| `Keypad.Holds` | keypad-serial/src/keypad.rs:142-145 | a modifier reads as held only when the word carries the whole `0xE000` tag |
| `Keypad.PressFromWords` | keypad-serial/src/keypad.rs:139-150 | `from_u16` succeeds exactly when the key word is a key code, keeps that key, and fails only with `InvalidDataError` |
| `Keypad.PressRoundTrip` | keypad-serial/src/keypad.rs:139-177 | decoding the two little-endian words of an encoded press gives `Ok` of the press |
| `Keypad.RightHandBitsIgnored` | keypad-serial/src/keypad.rs:141-146 | the right-hand modifier bits 0x10 to 0x80 do not affect the decoded press |
| `Keypad.UntaggedModifierHoldsNothing` | keypad-serial/src/keypad.rs:141-146 | a modifier word without the full `0xE000` tag is accepted and decodes with no modifier held |
| `Keypad.OptionalPressBytes` | keypad-serial/src/keypad.rs:180-185 | `optional_key_bytes` always gives four bytes |
| `Keypad.AbsentPressIsZeros` | keypad-serial/src/keypad.rs:180-185 | the four bytes are all zero exactly when there is no press |
| `Keypad.ComboBytes` | keypad-serial/src/keypad.rs:215-221 | a combo is written as exactly eight bytes |
| `Keypad.EncodeCombo` | keypad-serial/src/keypad.rs:215-221 | `KeyCombo::to_bytes` is the first press's bytes, then the second's or four zeros |
| `Keypad.LittleEndianWords` | keypad-serial/src/keypad.rs:189-196 | chunking into little-endian words fails with `InvalidDataError` exactly when the byte count is odd; otherwise word i is bytes 2i and 2i+1 |
| `Keypad.Words` | keypad-serial/src/keypad.rs:189-196 | an even-length byte sequence gives half as many words, word i read from bytes 2i and 2i+1 |
| `Keypad.ComboFromBytes` | keypad-serial/src/keypad.rs:188-213 | `KeyCombo::from_bytes` fails only with `InvalidDataError`; it is defined on every input it does not panic on |
| `Keypad.ComboRoundTrip` | keypad-serial/src/keypad.rs:180-221 | decoding the eight bytes of any combo, with or without a second press, gives `Ok` of the combo |
| `Keypad.NoSecondPressIffZeroKey` | keypad-serial/src/keypad.rs:203-209 | eight bytes decode with no second press exactly when the fourth word (second key) is 0 |
| `Keypad.ThirdWordIgnored` | keypad-serial/src/keypad.rs:203-209 | when the second key word is 0, the second modifier word does not affect the decoded combo |
| `Keypad.ConcatEights` | keypad-serial/src/keypad.rs:70-76 | eight-byte chunks concatenate to 8n bytes, and chunk i sits at bytes 8i to 8i+8 |
| `Keypad.Encodings` | keypad-serial/src/keypad.rs:70-71 | one eight-byte encoding per combo |
| `Keypad.Payload` | keypad-serial/src/keypad.rs:65-76 | the write payload has 8 bytes per combo |
| `Keypad.PayloadChunk` | keypad-serial/src/keypad.rs:70-76 | payload bytes 8i to 8i+8 are the encoding of combo i |
| `Keypad.PayloadSnoc` | keypad-serial/src/keypad.rs:70-76 | encoding one more combo appends its eight bytes to the payload |
| `Keypad.WriteFrame` | keypad-serial/src/keypad.rs:64-76 | the byte-by-byte fill of the 49-byte buffer gives `'W'` followed by the 48 payload bytes, never indexing past the buffer |
| `Keypad.WriteFrameLayout` | keypad-serial/src/keypad.rs:65-76 | frame bytes 1+8i to 9+8i are the encoding of combo i, for i in 0..6 |
| `Keypad.SendCombos` | keypad-serial/src/keypad.rs:60-84 | `send_combos_to_device` writes the write frame and returns what the device's reply decodes to; a failed read is a communication error |
| `Keypad.GetCombos` | keypad-serial/src/keypad.rs:86-92 | `get_combos_from_device` writes the single byte `'R'` and returns what the reply decodes to; a failed read is a communication error |
| `Keypad.Chunks` | keypad-serial/src/keypad.rs:230-231 | `chunks(8)` of a multiple of eight bytes: chunk i is bytes 8i to 8i+8, and the chunks flattened back are the whole input |
| `Keypad.ChunksCover` | keypad-serial/src/keypad.rs:230-231 | consecutive 8-byte slices of a byte string, flattened, give back that byte string: no byte is lost or repeated |
| `Keypad.DecodeEach` | keypad-serial/src/keypad.rs:230-232 | result i is the decoding of chunk i |
| `Keypad.Collect` | keypad-serial/src/keypad.rs:230-233 | collecting results gives all the values in order when every one is Ok, and otherwise the first error |
| `Keypad.ReadCombos` | keypad-serial/src/keypad.rs:224-247 | the 48-byte reply is six 8-byte chunks decoded in order: Ok when every chunk decodes, with combo i the decoding of chunk i and exactly 6 combos; otherwise the first chunk's error as-is; never `WrongKeyCountFromDevice` |
| `Keypad.EchoRoundTrip` | keypad-serial/src/keypad.rs:60-83 | a device that answers with the payload it was sent returns exactly the combos written |
| `Keypad.SetBit` | keypad-serial/src/keypad.rs:98 | `mask \| 1 << idx` sets bit idx and leaves the other bits unchanged |
| `Keypad.FlashMask` | keypad-serial/src/keypad.rs:95-100 | the mask has bit i set exactly when button i is to flash; bits 6 and 7 are never set |
| `Keypad.BitsDetermineByte` | keypad-serial/src/keypad.rs:95-100 | a byte is determined by its eight bits |
| `Keypad.FlashMaskExample` | keypad-serial/src/keypad.rs:94-100 | flashing buttons 0, 2 and 4 gives the mask 0x15 |
| `Keypad.FlashKeys` | keypad-serial/src/keypad.rs:94-107 | `flash_keys` writes `['F', mask]` and succeeds exactly when the acknowledgement does |
| `Keypad.WaitForAcknowledge` | keypad-serial/src/keypad.rs:128-136 | succeeds exactly when the reply byte is `'A'`; another byte gives `NoAcknowledge`, a failed read a communication error |
| `Keypad.Handshake` | keypad-serial/src/keypad.rs:110-126 | the handshake writes `'H'` and succeeds exactly when the reply is `'A'` |
| `Keypad.AutoDetect` | keypad-serial/src/keypad.rs:36-58 | the first port in listing order that opens and acknowledges the handshake is chosen; if none does, `NoDeviceFound`; a failed listing is a `SerialError` |
| `Models.ProfileDisplay` | keypad-tray/src/models.rs:13-22 | a profile renders as its name alone when it has no program, and as name + " (" + program + ")" when it has one |
| `Models.ProfileDisplayAmbiguous` | keypad-tray/src/models.rs:15-17 | `Some("")` renders as "name ()"; the rendering cannot tell a program from a name ending in a parenthesised word |
| `Models.DefaultProfile` | keypad-tray/src/models.rs:24-57 | `Profile::default()` has an empty name, no program, and `KeyCombo::default()` (plain A, no second press) on all six buttons |
| `Models.DefaultProfileDisplay` | keypad-tray/src/models.rs:13-28 | the default profile renders as the empty string |
| `Watchdog.BlanksFrom` | keypad-tray/src/watchdog.rs:76 | the count is the length of the whitespace run starting at the given position: every counted character is whitespace and the one after the run is not |
| `Watchdog.BlanksBefore` | keypad-tray/src/watchdog.rs:76 | the count is the length of the whitespace run ending just before the given position: every counted character is whitespace and the one before the run is not |
| `Watchdog.LeadingBlanks` | keypad-tray/src/watchdog.rs:76 | the count is the length of the longest blank prefix |
| `Watchdog.TrailingBlanks` | keypad-tray/src/watchdog.rs:76 | the count is the length of the longest blank suffix |
| `Watchdog.TrimStart` | keypad-tray/src/watchdog.rs:76 | leading whitespace removed: the result is the suffix after the longest blank prefix |
| `Watchdog.TrimEnd` | keypad-tray/src/watchdog.rs:76 | trailing whitespace removed: the result is the prefix before the longest blank suffix |
| `Watchdog.Trim` | keypad-tray/src/watchdog.rs:76 | `trim()` is a slice of the string whose ends are not whitespace, and what it drops at either end is all whitespace |
| `Watchdog.TrimIsStartThenEnd` | keypad-tray/src/watchdog.rs:76 | trimming both ends at once gives the same string as trimming the start and then the end |
| `Watchdog.TrimEmptyIffBlank` | keypad-tray/src/watchdog.rs:76 | a program name is trimmed to nothing exactly when it is all whitespace, the empty name included |
| `Watchdog.ProgramIsRunning` | keypad-tray/src/watchdog.rs:117-119 | a program runs exactly when the snapshot has at least one process of that name (exact-name match, see "## Left out") |
| `Watchdog.Watches` | keypad-tray/src/watchdog.rs:74-77 | a profile passes the filter exactly when its program is set and not all whitespace |
| `Watchdog.AutoProfiles` | keypad-tray/src/watchdog.rs:72-78 | the auto list holds exactly those of the given profiles whose program is set and non-blank |
| `Watchdog.AutoProfilesAppend` | keypad-tray/src/watchdog.rs:72-78 | the filter keeps the original order: it distributes over concatenation |
| `Watchdog.AutoProfilesDropsBlank` | keypad-tray/src/watchdog.rs:74-77 | a profile whose program is blank is dropped while one with a named program is kept |
| `Watchdog.WatchesVisible` | keypad-tray/src/watchdog.rs:74-77 | a program name that starts with a non-whitespace character passes the filter |
| `Watchdog.FirstRunning` | keypad-tray/src/watchdog.rs:89-96 | the search finds nothing exactly when no program of the list is running; otherwise it finds the earliest running one |
| `Watchdog.Next` | keypad-tray/src/watchdog.rs:86-114 | a step keeps the switcher in a profile of the auto list, and it emits a profile exactly when the state changes |
| `Watchdog.NextFromDefault` | keypad-tray/src/watchdog.rs:88-101 | from Default: the first running auto profile in list order is emitted and becomes the state; if none runs, nothing is emitted and the state stays Default |
| `Watchdog.NextWhileRunning` | keypad-tray/src/watchdog.rs:102-111 | in `InProgram(p)` with p's program still running: nothing emitted, state unchanged |
| `Watchdog.NextAfterExit` | keypad-tray/src/watchdog.rs:102-108 | in `InProgram(p)` after p's program exits, the same snapshot is rescanned: the first running profile q gives `Some(q)` and `InProgram(q)`, otherwise `Some(default)` and Default |
| `Watchdog.NextSettles` | keypad-tray/src/watchdog.rs:86-114 | on an unchanged snapshot a second step emits nothing and changes nothing: no re-emit while a program runs |
| `Watchdog.ScenarioAutos` | keypad-tray/src/watchdog.rs:71-78 | profiles watching "foo.exe" and "bar.exe" both stay on the auto list, in order |
| `Watchdog.SwitcherScenario` | keypad-tray/src/watchdog.rs:86-114 | with profiles [default, A("foo.exe"), B("bar.exe")]: idle when neither runs, apply A when foo starts, idle while it runs, straight to B when foo exits with bar running, back to default when nothing runs |
| `Watchdog.ScenarioStart` | keypad-tray/src/watchdog.rs:86-114 | the first three ticks of that scenario: idle on an empty snapshot, apply A when foo starts, idle while foo keeps running even once bar starts too |
| `Watchdog.ScenarioLeave` | keypad-tray/src/watchdog.rs:86-114 | the last two ticks: from A, foo gone and bar running switches straight to B; from B, nothing running switches back to the default profile |
| `Watchdog.AutoSwitcher.constructor` | keypad-tray/src/watchdog.rs:79-83 | the switcher starts in Default with the given default profile and the filtered auto list |
| `Watchdog.AutoSwitcher.New` | keypad-tray/src/watchdog.rs:66-84 | no switcher exactly when the profile list is empty; otherwise the first profile is the default, the auto list is the filtered rest, the state is Default |
| `Watchdog.AutoSwitcher.NextProfile` | keypad-tray/src/watchdog.rs:86-114 | the method, with its nested call, takes exactly the step `Next` and keeps the state in a profile of the auto list, so the `unwrap` of its program never panics; the nested call always enters the Default branch and does not recurse |

## Left out

- The serial transport (opening ports with 115200 baud and a 500 ms timeout, `write`, `flush`,
  `read_exact`) is not modelled. The bytes written are returned as sequences, and each reply is
  passed in as an `Option` whose `None` stands for any I/O failure or timeout.
- Short writes: the source sends each frame with `write`, not `write_all`, and discards the byte
  count (keypad-serial/src/keypad.rs:80, 88, 103 and 113), so a partial write passes silently. The
  model always writes the whole frame.
- Keypad.AutoDetect: a port is represented by whether it opens and by the byte it answers the
  handshake with. The model returns the position of the chosen port, not an owned connection.
- Keypad.SendCombos: a failure of the write itself is folded into the same `None` as a failed read.
  Both give `SerialCommunicationError` in the source.
- Keypad.ComboFromBytes: the source panics (`unwrap`) on an even byte count below eight unless the
  first press already fails to decode (keypad-serial/src/keypad.rs:199-204); an odd byte count is
  an `InvalidDataError`, not a panic. `ComboDecodable` excludes exactly the panicking inputs.
  `read_combos_from_port` only ever passes 8-byte chunks, which are always decodable.
- Keypad.ReadCombos: the `WrongKeyCountFromDevice` branch is modelled but unreachable, because the
  reply is always 48 bytes.
- Logging calls (`log::info!`, `log::trace!`) have no effect on results and are left out.
- `program_is_running` asks the process library for the processes with a given name. That library is
  not part of this model, so a snapshot is modelled as the set of running process names, and the
  model assumes an exact-name match: a program runs when its name is in the set. If the library
  matches names by substring, the source treats more programs as running than the model does.
- The watchdog thread (`spawn`, the shutdown channel, `sleep`, the process refresh, notifications)
  and `apply_profile` are concurrency and OS plumbing and are not modelled. Only the `AutoSwitcher`
  state machine is.
- Keys.KeyName: only its well-formedness is proved (non-empty, letters and digits). That two keys
  never share a name is not proved, because the 110-way case analysis is too costly.
- The profile store, the GUI (profile editor, control panel, tray), the entry points and the earlier
  `keypad-config` prototype are outside the core and not modelled.

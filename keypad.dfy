/**
 * The serial wire protocol of the keypad (keypad-serial/src/keypad.rs):
 * the byte encoding of key presses and combos, the write frame, the
 * decoding of the device's 48-byte reply, the flash mask, the
 * acknowledgement and the port auto-detection.
 *
 * The serial port itself is not modelled: what the program writes is
 * returned as a byte sequence, and what it reads is passed in as one.
 */
module Keypad {
  import opened Keys

  type Byte = bv8

  // ---------------------------------------------------------------------
  // Commands and errors

  const Hello: Byte := 0x48      // 'H'
  const Ack: Byte := 0x41        // 'A'
  const ReadKeys: Byte := 0x52   // 'R'
  const WriteKeys: Byte := 0x57  // 'W'
  const Flash: Byte := 0x46      // 'F'

  /** `KeypadError`; the two serial errors stand for any failure of the port. */
  datatype KeypadError =
    | SerialError
    | SerialCommunicationError
    | InvalidDataError
    | NoAcknowledge
    | NoDeviceFound
    | WrongKeyCountFromDevice

  datatype Result<T> = Ok(value: T) | Err(error: KeypadError)

  // ---------------------------------------------------------------------
  // Little-endian words

  function Lo(w: bv16): Byte {
    (w & 0xFF) as Byte
  }

  function Hi(w: bv16): Byte {
    (w >> 8) as Byte
  }

  /** `u16::to_le_bytes`: low byte first. */
  function LittleEndian(w: bv16): (bytes: seq<Byte>)
    ensures |bytes| == 2
  {
    [Lo(w), Hi(w)]
  }

  /** `u16::from_le_bytes`: the word whose low byte is `lo` and high byte is `hi`. */
  function Word(lo: Byte, hi: Byte): (w: bv16)
    ensures Lo(w) == lo && Hi(w) == hi
  {
    ((hi as bv16) << 8) | (lo as bv16)
  }

  /** Splitting a word into bytes and joining them again gives the word back, and vice versa. */
  lemma WordRoundTrip(w: bv16, lo: Byte, hi: Byte)
    ensures Word(Lo(w), Hi(w)) == w
    ensures Lo(Word(lo, hi)) == lo && Hi(Word(lo, hi)) == hi
  {
  }

  // ---------------------------------------------------------------------
  // Key presses on the wire (`KeyPress::to_bytes` and `KeyPress::from_u16`)

  /**
   * The modifier word of a press: 0 when no modifier is held, otherwise the
   * modifier tag with one bit per held left-hand modifier.
   */
  function ModifierWord(p: KeyPress): (w: bv16)
    ensures w == 0 <==> !(p.ctrl || p.alt || p.shift || p.windows)
    ensures w & 0x00F0 == 0
  {
    if !(p.ctrl || p.alt || p.shift || p.windows) then 0
    else
      ModifierTag
      | (if p.ctrl then 0x01 else 0) | (if p.shift then 0x02 else 0)
      | (if p.alt then 0x04 else 0) | (if p.windows then 0x08 else 0)
  }

  /** The four bytes a press is sent as: its modifier word, then its key code, both little-endian. */
  function PressBytes(p: KeyPress): (bytes: seq<Byte>)
    ensures |bytes| == 4
  {
    LittleEndian(ModifierWord(p)) + LittleEndian(p.key)
  }

  /** `KeyPress::to_bytes`: ORs the code of each held modifier into the modifier word. */
  method EncodePress(p: KeyPress) returns (bytes: seq<Byte>)
    ensures bytes == PressBytes(p)
  {
    var modifier: bv16 := 0;
    if p.ctrl {
      modifier := modifier | ModifierCode(LeftCtrl);
    }
    if p.alt {
      modifier := modifier | ModifierCode(LeftAlt);
    }
    if p.shift {
      modifier := modifier | ModifierCode(LeftShift);
    }
    if p.windows {
      modifier := modifier | ModifierCode(LeftGui);
    }
    bytes := LittleEndian(modifier) + LittleEndian(p.key);
  }

  /** A modifier reads as held when every bit of its tagged code is set in the word. */
  predicate Holds(modifier: bv16, m: ModifierKey): (b: bool)
    ensures b ==> modifier & ModifierTag == ModifierTag
  {
    modifier & ModifierCode(m) == ModifierCode(m)
  }

  /**
   * `KeyPress::from_u16`: the flags of the four left-hand modifiers read off
   * the modifier word, and the key whose code is the key word; a key word
   * that is no key's code is invalid data.
   */
  function PressFromWords(modifier: bv16, key: bv16): (r: Result<KeyPress>)
    ensures r.Ok? <==> IsKeyCode(key)
    ensures r.Ok? ==> r.value.key == key
    ensures r.Err? ==> r.error == InvalidDataError
  {
    match KeyFromCode(key)
    case None => Err(InvalidDataError)
    case Some(k) =>
      Ok(KeyPress(Holds(modifier, LeftCtrl), Holds(modifier, LeftAlt), Holds(modifier, LeftShift),
        Holds(modifier, LeftGui), k))
  }

  /** The modifier word of a press holds exactly the press's own modifiers and no right-hand one. */
  lemma ModifierWordHolds(p: KeyPress)
    ensures Holds(ModifierWord(p), LeftCtrl) == p.ctrl
    ensures Holds(ModifierWord(p), LeftAlt) == p.alt
    ensures Holds(ModifierWord(p), LeftShift) == p.shift
    ensures Holds(ModifierWord(p), LeftGui) == p.windows
    ensures ModifierWord(p) & 0x00F0 == 0
    ensures ModifierWord(p) == 0 || ModifierWord(p) & 0xFF00 == ModifierTag
  {
  }

  /** Decoding the two words of an encoded press gives the press back. */
  lemma PressRoundTrip(p: KeyPress)
    ensures var b := PressBytes(p);
      PressFromWords(Word(b[0], b[1]), Word(b[2], b[3])) == Ok(p)
  {
    var b := PressBytes(p);
    WordRoundTrip(ModifierWord(p), 0, 0);
    WordRoundTrip(p.key, 0, 0);
    assert Word(b[0], b[1]) == ModifierWord(p) && Word(b[2], b[3]) == p.key;
    ModifierWordHolds(p);
  }

  /** The right-hand modifier bits 0x10 to 0x80 of the modifier word are ignored. */
  lemma RightHandBitsIgnored(modifier: bv16, key: bv16)
    ensures PressFromWords(modifier, key) == PressFromWords(modifier & 0xFF0F, key)
  {
  }

  /**
   * A modifier word without the tag 0xE000 is not rejected: no modifier
   * reads as held, whatever its low bits say.
   */
  lemma UntaggedModifierHoldsNothing(modifier: bv16, key: bv16)
    requires modifier & ModifierTag != ModifierTag
    requires IsKeyCode(key)
    ensures PressFromWords(modifier, key) == Ok(PressFromWords(0, key).value)
    ensures PressFromWords(modifier, key).value == PlainPress(PressFromWords(modifier, key).value.key)
  {
  }

  // ---------------------------------------------------------------------
  // Key combos on the wire (`KeyCombo::to_bytes` and `KeyCombo::from_bytes`)

  /** `optional_key_bytes`: the encoded press, or four zero bytes when there is none. */
  function OptionalPressBytes(p: Option<KeyPress>): (bytes: seq<Byte>)
    ensures |bytes| == 4
  {
    match p
    case Some(press) => PressBytes(press)
    case None => [0, 0, 0, 0]
  }

  /** The four bytes are all zero exactly when there is no press: a key code is never 0. */
  lemma AbsentPressIsZeros(p: Option<KeyPress>)
    ensures p.None? <==> OptionalPressBytes(p) == [0, 0, 0, 0]
  {
    if p.Some? {
      var key := p.value.key;
      KeyCodeNonZero(key);
      WordRoundTrip(key, 0, 0);
      assert OptionalPressBytes(p)[2] == Lo(key) && OptionalPressBytes(p)[3] == Hi(key);
    }
  }

  /** `KeyCombo::to_bytes`: the first press, then the optional second one. */
  function ComboBytes(c: KeyCombo): (bytes: seq<Byte>)
    ensures |bytes| == 8
  {
    PressBytes(c.one) + OptionalPressBytes(c.two)
  }

  /**
   * The 16-bit little-endian words of `bytes`, taken two bytes at a time;
   * an odd byte count leaves a short last chunk, which is invalid data.
   */
  function LittleEndianWords(bytes: seq<Byte>): (r: Result<seq<bv16>>)
    ensures r.Err? <==> |bytes| % 2 == 1
    ensures r.Err? ==> r.error == InvalidDataError
    ensures r.Ok? ==> |r.value| == |bytes| / 2
    ensures r.Ok? ==> forall i :: 0 <= i < |r.value| ==> r.value[i] == Word(bytes[2 * i], bytes[2 * i + 1])
  {
    if |bytes| % 2 == 1 then Err(InvalidDataError) else Ok(Words(bytes))
  }

  function {:induction false} Words(bytes: seq<Byte>): (w: seq<bv16>)
    requires |bytes| % 2 == 0
    ensures |w| == |bytes| / 2
    ensures forall i :: 0 <= i < |w| ==> w[i] == Word(bytes[2 * i], bytes[2 * i + 1])
    decreases |bytes|
  {
    if |bytes| == 0 then []
    else
      var rest := Words(bytes[2..]);
      assert forall i :: 0 <= i < |rest| ==> bytes[2..][2 * i] == bytes[2 * (i + 1)];
      [Word(bytes[0], bytes[1])] + rest
  }

  /**
   * `KeyCombo::from_bytes` reaches a result instead of panicking: it takes
   * four words, unless the byte count is odd or the first press is invalid.
   */
  predicate ComboDecodable(bytes: seq<Byte>) {
    || |bytes| % 2 == 1
    || |bytes| >= 8
    || (|bytes| >= 4 && PressFromWords(Word(bytes[0], bytes[1]), Word(bytes[2], bytes[3])).Err?)
  }

  /**
   * `KeyCombo::from_bytes`: the first press from words 0 and 1; a second
   * press from words 2 and 3 unless the key word 3 is zero. Words past the
   * fourth are ignored.
   */
  function ComboFromBytes(bytes: seq<Byte>): (r: Result<KeyCombo>)
    requires ComboDecodable(bytes)
    ensures r.Err? ==> r.error == InvalidDataError
  {
    match LittleEndianWords(bytes)
    case Err(e) => Err(e)
    case Ok(words) =>
      match PressFromWords(words[0], words[1])
      case Err(e) => Err(e)
      case Ok(one) =>
        if words[3] > 0 then
          match PressFromWords(words[2], words[3])
          case Err(e) => Err(e)
          case Ok(two) => Ok(KeyCombo(one, Some(two)))
        else
          Ok(KeyCombo(one, None))
  }

  /** Decoding the eight bytes of an encoded combo gives the combo back. */
  lemma ComboRoundTrip(c: KeyCombo)
    ensures ComboDecodable(ComboBytes(c))
    ensures ComboFromBytes(ComboBytes(c)) == Ok(c)
  {
    var b := ComboBytes(c);
    var words := LittleEndianWords(b).value;
    PressRoundTrip(c.one);
    assert words[0] == Word(b[0], b[1]) && words[1] == Word(b[2], b[3]);
    assert b[..4] == PressBytes(c.one);
    match c.two
    case None =>
      assert b[4..] == [0, 0, 0, 0];
      assert words[3] == Word(b[6], b[7]) == 0;
    case Some(two) =>
      PressRoundTrip(two);
      KeyCodeNonZero(two.key);
      WordRoundTrip(two.key, 0, 0);
      assert b[4..] == PressBytes(two);
      assert words[2] == Word(b[4], b[5]) && words[3] == Word(b[6], b[7]) == two.key;
  }

  /** Eight bytes decode with no second press exactly when the second key word is zero. */
  lemma NoSecondPressIffZeroKey(bytes: seq<Byte>)
    requires |bytes| == 8
    requires ComboFromBytes(bytes).Ok?
    ensures ComboFromBytes(bytes).value.two.None? <==> Word(bytes[6], bytes[7]) == 0
  {
    var words := LittleEndianWords(bytes).value;
    assert words[3] == Word(bytes[6], bytes[7]);
  }

  /** When the second key word is zero, the second modifier word (bytes 4 and 5) is ignored. */
  lemma ThirdWordIgnored(bytes: seq<Byte>, lo: Byte, hi: Byte)
    requires |bytes| == 8 && bytes[6] == 0 && bytes[7] == 0
    ensures ComboFromBytes(bytes[4 := lo][5 := hi]) == ComboFromBytes(bytes)
  {
    var other := bytes[4 := lo][5 := hi];
    var w := LittleEndianWords(bytes).value;
    var v := LittleEndianWords(other).value;
    assert v[0] == w[0] && v[1] == w[1] && v[3] == w[3] == 0;
  }

  // ---------------------------------------------------------------------
  // Writing and reading the six combos

  /** The sequences of `chunks`, one after the other. */
  function Concat<T>(chunks: seq<seq<T>>): seq<T> {
    if |chunks| == 0 then [] else Concat(chunks[..|chunks| - 1]) + chunks[|chunks| - 1]
  }

  /** Every chunk has eight elements. */
  predicate AllEight<T>(chunks: seq<seq<T>>) {
    forall k :: 0 <= k < |chunks| ==> |chunks[k]| == 8
  }

  /** Eight-element chunks concatenate to 8n elements, and chunk i sits at 8i to 8i+8. */
  lemma {:induction false} ConcatEights<T>(chunks: seq<seq<T>>, i: nat)
    requires AllEight(chunks)
    ensures |Concat(chunks)| == 8 * |chunks|
    ensures i < |chunks| ==> Concat(chunks)[8 * i..8 * i + 8] == chunks[i]
    decreases |chunks|
  {
    if |chunks| > 0 {
      var n := |chunks| - 1;
      var front := chunks[..n];
      ConcatEights(front, i);
      assert Concat(chunks) == Concat(front) + chunks[n];
      if i < n {
        assert front[i] == chunks[i];
        assert Concat(chunks)[8 * i..8 * i + 8] == Concat(front)[8 * i..8 * i + 8];
      }
    }
  }

  /** The encoding of each combo, in order. */
  function Encodings(combos: seq<KeyCombo>): (chunks: seq<seq<Byte>>)
    ensures |chunks| == |combos| && AllEight(chunks)
  {
    seq(|combos|, i requires 0 <= i < |combos| => ComboBytes(combos[i]))
  }

  /** The payload of a write frame: the eight bytes of each combo, in order. */
  function Payload(combos: seq<KeyCombo>): (bytes: seq<Byte>)
    ensures |bytes| == 8 * |combos|
  {
    ConcatEights(Encodings(combos), 0);
    Concat(Encodings(combos))
  }

  /** The payload has 8 bytes per combo; bytes 8i to 8i+8 are the encoding of combo i. */
  lemma PayloadChunk(combos: seq<KeyCombo>, i: nat)
    requires i < |combos|
    ensures Payload(combos)[8 * i..8 * i + 8] == ComboBytes(combos[i])
  {
    ConcatEights(Encodings(combos), i);
  }

  /** Encoding one more combo appends its eight bytes to the payload. */
  lemma PayloadSnoc(combos: seq<KeyCombo>, n: nat)
    requires n < |combos|
    ensures Payload(combos[..n + 1]) == Payload(combos[..n]) + ComboBytes(combos[n])
  {
    var e := Encodings(combos[..n + 1]);
    assert e[..n] == Encodings(combos[..n]);
  }

  /** `KeyCombo::to_bytes` as the frame fill calls it: both presses through `KeyPress::to_bytes`. */
  method EncodeCombo(c: KeyCombo) returns (bytes: seq<Byte>)
    ensures bytes == ComboBytes(c)
  {
    var one := EncodePress(c.one);
    var two := [0, 0, 0, 0];
    if c.two.Some? {
      two := EncodePress(c.two.value);
    }
    bytes := one + two;
  }

  /**
   * The write frame of `send_combos_to_device`: a 49-byte buffer holding the
   * WRITE_KEYS command and then the combos' bytes, filled one byte at a time.
   */
  method WriteFrame(combos: seq<KeyCombo>) returns (frame: seq<Byte>)
    requires |combos| == 6
    ensures |frame| == 49 && frame[0] == WriteKeys
    ensures frame[1..] == Payload(combos)
  {
    var buf := new Byte[49];
    buf[0] := WriteKeys;
    var idx := 1;
    var ci := 0;
    while ci < |combos|
      invariant 0 <= ci <= |combos| && idx == 1 + 8 * ci
      invariant buf[0] == WriteKeys && buf[1..idx] == Payload(combos[..ci])
    {
      var bytes := EncodeCombo(combos[ci]);
      var j := 0;
      while j < |bytes|
        invariant 0 <= j <= |bytes| == 8 && idx == 1 + 8 * ci + j
        invariant buf[0] == WriteKeys && buf[1..idx] == Payload(combos[..ci]) + bytes[..j]
      {
        buf[idx] := bytes[j];
        idx := idx + 1;
        j := j + 1;
      }
      PayloadSnoc(combos, ci);
      ci := ci + 1;
    }
    assert combos[..ci] == combos;
    frame := buf[..];
  }

  /** Bytes 1+8i to 9+8i of the write frame are the encoding of combo i. */
  lemma WriteFrameLayout(frame: seq<Byte>, combos: seq<KeyCombo>, i: nat)
    requires |combos| == 6 && |frame| == 49 && frame[1..] == Payload(combos)
    requires i < 6
    ensures frame[1 + 8 * i..9 + 8 * i] == ComboBytes(combos[i])
  {
    PayloadChunk(combos, i);
    assert frame[1 + 8 * i..9 + 8 * i] == frame[1..][8 * i..8 * i + 8];
  }

  /** `bytes.chunks(8)` for a length that is a multiple of eight. */
  function Chunks(bytes: seq<Byte>): (chunks: seq<seq<Byte>>)
    requires |bytes| % 8 == 0
    ensures |chunks| == |bytes| / 8 && AllEight(chunks)
    ensures forall i :: 0 <= i < |chunks| ==> chunks[i] == bytes[8 * i..8 * i + 8]
    ensures Concat(chunks) == bytes
  {
    var chunks := seq(|bytes| / 8, i requires 0 <= i < |bytes| / 8 => bytes[8 * i..8 * i + 8]);
    ChunksCover(bytes, chunks);
    chunks
  }

  /** Pieces that are the consecutive 8-byte slices of `bytes` flatten back to `bytes`. */
  lemma ChunksCover(bytes: seq<Byte>, chunks: seq<seq<Byte>>)
    requires |bytes| == 8 * |chunks| && AllEight(chunks)
    requires forall i :: 0 <= i < |chunks| ==> chunks[i] == bytes[8 * i..8 * i + 8]
    ensures Concat(chunks) == bytes
  {
    ConcatEights(chunks, 0);
    forall k | 0 <= k < |bytes|
      ensures Concat(chunks)[k] == bytes[k]
    {
      var i := k / 8;
      ConcatEights(chunks, i);
      assert Concat(chunks)[8 * i..8 * i + 8][k - 8 * i] == bytes[8 * i..8 * i + 8][k - 8 * i];
    }
  }

  /** `KeyCombo::from_bytes` mapped over eight-byte chunks. */
  function DecodeEach(chunks: seq<seq<Byte>>): (results: seq<Result<KeyCombo>>)
    requires AllEight(chunks)
    ensures |results| == |chunks|
    ensures forall i :: 0 <= i < |chunks| ==> results[i] == ComboFromBytes(chunks[i])
  {
    seq(|chunks|, i requires 0 <= i < |chunks| => ComboFromBytes(chunks[i]))
  }

  /** Results collected into a result: all the values when every one is Ok, else the first error. */
  function {:induction false} Collect<T>(results: seq<Result<T>>): (r: Result<seq<T>>)
    ensures r.Ok? <==> forall i :: 0 <= i < |results| ==> results[i].Ok?
    ensures r.Ok? ==> |r.value| == |results| && forall i :: 0 <= i < |results| ==> results[i] == Ok(r.value[i])
    ensures r.Err? ==> exists i :: 0 <= i < |results| && FirstError(results, i, r.error)
  {
    if |results| == 0 then Ok([])
    else
      match results[0]
      case Err(e) =>
        assert FirstError(results, 0, e);
        Err(e)
      case Ok(v) =>
        var rest := results[1..];
        match Collect(rest)
        case Err(e) =>
          var i :| 0 <= i < |rest| && FirstError(rest, i, e);
          assert FirstError(results, i + 1, e) by {
            forall j | 0 <= j < i + 1
              ensures results[j].Ok?
            {
              if 0 < j {
                assert results[j] == rest[j - 1];
              }
            }
          }
          Err(e)
        case Ok(vs) =>
          assert forall i :: 1 <= i < |results| ==> results[i] == rest[i - 1];
          Ok([v] + vs)
  }

  /** Result i is the error `e`, and every result before it is Ok. */
  predicate FirstError<T>(results: seq<Result<T>>, i: nat, e: KeypadError)
    requires i < |results|
  {
    results[i] == Err(e) && forall j :: 0 <= j < i ==> results[j].Ok?
  }

  /**
   * `read_combos_from_port` on the 48 bytes read back: the combos decoded
   * from the six eight-byte chunks in order, or the first chunk's error;
   * `WrongKeyCountFromDevice` when the count is not six, which 48 bytes
   * never give.
   */
  function ReadCombos(response: seq<Byte>): (r: Result<seq<KeyCombo>>)
    requires |response| == 48
    ensures (forall i :: 0 <= i < 6 ==> ComboFromBytes(response[8 * i..8 * i + 8]).Ok?) ==> r.Ok?
    ensures r.Ok? ==> |r.value| == 6
    ensures r.Ok? ==> forall i :: 0 <= i < 6 ==> ComboFromBytes(response[8 * i..8 * i + 8]) == Ok(r.value[i])
    ensures r.Err? ==> exists i :: 0 <= i < 6 && FirstError(DecodeEach(Chunks(response)), i, r.error)
    ensures r != Err(WrongKeyCountFromDevice)
  {
    var results := DecodeEach(Chunks(response));
    assert forall i :: 0 <= i < 6 ==> results[i] == ComboFromBytes(response[8 * i..8 * i + 8]);
    match Collect(results)
    case Err(e) => Err(e)
    case Ok(combos) =>
      forall i | 0 <= i < 6
        ensures ComboFromBytes(response[8 * i..8 * i + 8]) == Ok(combos[i])
      {
        assert results[i] == Ok(combos[i]);
      }
      if |combos| == 6 then Ok(combos) else Err(WrongKeyCountFromDevice)
  }

  /** The device answering a write with the payload it received gives back the combos written. */
  lemma EchoRoundTrip(combos: seq<KeyCombo>)
    requires |combos| == 6
    ensures ReadCombos(Payload(combos)) == Ok(combos)
  {
    var results := DecodeEach(Chunks(Payload(combos)));
    forall i | 0 <= i < 6
      ensures results[i] == Ok(combos[i])
    {
      PayloadChunk(combos, i);
      ComboRoundTrip(combos[i]);
    }
    var r := Collect(results);
    assert r.Ok?;
    assert r.value == combos;
  }

  /**
   * `send_combos_to_device`: the frame written, and the combos the device
   * reports back, read from its reply (None when reading fails).
   */
  method SendCombos(combos: seq<KeyCombo>, reply: Option<seq<Byte>>)
    returns (frame: seq<Byte>, r: Result<seq<KeyCombo>>)
    requires |combos| == 6
    requires reply.Some? ==> |reply.value| == 48
    ensures |frame| == 49 && frame[0] == WriteKeys && frame[1..] == Payload(combos)
    ensures reply.None? ==> r == Err(SerialCommunicationError)
    ensures reply.Some? ==> r == ReadCombos(reply.value)
  {
    frame := WriteFrame(combos);
    if reply.None? {
      r := Err(SerialCommunicationError);
    } else {
      r := ReadCombos(reply.value);
    }
  }

  /**
   * `get_combos_from_device`: the one-byte READ_KEYS frame, and the combos
   * decoded from the device's reply (None when reading fails).
   */
  method GetCombos(reply: Option<seq<Byte>>) returns (frame: seq<Byte>, r: Result<seq<KeyCombo>>)
    requires reply.Some? ==> |reply.value| == 48
    ensures frame == [ReadKeys]
    ensures reply.None? ==> r == Err(SerialCommunicationError)
    ensures reply.Some? ==> r == ReadCombos(reply.value)
  {
    frame := [ReadKeys];
    if reply.None? {
      r := Err(SerialCommunicationError);
    } else {
      r := ReadCombos(reply.value);
    }
  }

  // ---------------------------------------------------------------------
  // Flashing keys and acknowledgements

  /** Bit i of a byte is set. */
  predicate HasBit(b: Byte, i: nat)
    requires i < 8
  {
    b & (1 << i) != 0
  }

  /** Setting bit `idx` of a byte sets that bit and leaves the other bits as they were. */
  lemma SetBit(mask: Byte, idx: nat, i: nat)
    requires idx < 8 && i < 8
    ensures HasBit(mask | (1 << idx), i) <==> HasBit(mask, i) || i == idx
  {
    var bit: Byte := 1 << idx;
    var probe: Byte := 1 << i;
    assert (mask | bit) & probe == (mask & probe) | (bit & probe);
    assert bit & probe != 0 <==> i == idx;
  }

  /** `flash_keys`' mask: bit i set for every button i that is to flash. */
  method FlashMask(flash: seq<bool>) returns (mask: Byte)
    requires |flash| == 6
    ensures forall i :: 0 <= i < 8 ==> (HasBit(mask, i) <==> i < 6 && flash[i])
  {
    mask := 0;
    var idx := 0;
    while idx < |flash|
      invariant 0 <= idx <= 6
      invariant forall i :: 0 <= i < 8 ==> (HasBit(mask, i) <==> i < idx && flash[i])
    {
      if flash[idx] {
        ghost var before := mask;
        mask := mask | (1 << idx);
        forall i | 0 <= i < 8
          ensures HasBit(mask, i) <==> HasBit(before, i) || i == idx
        {
          SetBit(before, idx, i);
        }
      }
      idx := idx + 1;
    }
  }

  /** A byte is determined by which of its eight bits are set. */
  lemma BitsDetermineByte(a: Byte, b: Byte)
    requires forall i :: 0 <= i < 8 ==> (HasBit(a, i) <==> HasBit(b, i))
    ensures a == b
  {
    assert HasBit(a, 0) == HasBit(b, 0) && HasBit(a, 1) == HasBit(b, 1);
    assert HasBit(a, 2) == HasBit(b, 2) && HasBit(a, 3) == HasBit(b, 3);
    assert HasBit(a, 4) == HasBit(b, 4) && HasBit(a, 5) == HasBit(b, 5);
    assert HasBit(a, 6) == HasBit(b, 6) && HasBit(a, 7) == HasBit(b, 7);
  }

  /** Flashing buttons 0, 2 and 4 gives the mask 0x15, and the mask never has bit 6 or 7. */
  lemma FlashMaskExample(mask: Byte)
    requires forall i :: 0 <= i < 8 ==> (HasBit(mask, i) <==> i < 6 && [true, false, true, false, true, false][i])
    ensures mask == 0x15 && mask & 0xC0 == 0
  {
    BitsDetermineByte(mask, 0x15);
  }

  /**
   * `flash_keys`: the two-byte frame FLASH, mask, and the result of
   * waiting for the acknowledgement.
   */
  method FlashKeys(flash: seq<bool>, reply: Option<Byte>) returns (frame: seq<Byte>, r: Result<()>)
    requires |flash| == 6
    ensures |frame| == 2 && frame[0] == Flash
    ensures forall i :: 0 <= i < 8 ==> (HasBit(frame[1], i) <==> i < 6 && flash[i])
    ensures r == WaitForAcknowledge(reply)
  {
    var mask := FlashMask(flash);
    frame := [Flash, mask];
    r := WaitForAcknowledge(reply);
  }

  /**
   * `wait_for_acknowledge`: the one byte read back (None when reading
   * fails) must be ACK.
   */
  function WaitForAcknowledge(reply: Option<Byte>): (r: Result<()>)
    ensures r.Ok? <==> reply == Some(Ack)
    ensures reply.Some? && reply.value != Ack ==> r == Err(NoAcknowledge)
    ensures reply.None? ==> r == Err(SerialCommunicationError)
  {
    match reply
    case None => Err(SerialCommunicationError)
    case Some(b) => if b == Ack then Ok(()) else Err(NoAcknowledge)
  }

  // ---------------------------------------------------------------------
  // Auto-detection

  /**
   * What happens when the program tries one serial port: whether it opens,
   * and the byte it answers the HELLO handshake with (None when reading
   * fails).
   */
  datatype PortProbe = PortProbe(opens: bool, reply: Option<Byte>)

  /**
   * `handshake`: the one-byte HELLO frame, and the result of waiting for
   * the acknowledgement; it succeeds exactly when the port answers ACK.
   */
  method Handshake(reply: Option<Byte>) returns (frame: seq<Byte>, r: Result<()>)
    ensures frame == [Hello]
    ensures r.Ok? <==> reply == Some(Ack)
    ensures r == WaitForAcknowledge(reply)
  {
    frame := [Hello];
    r := WaitForAcknowledge(reply);
  }

  /** The port opens and acknowledges the handshake. */
  predicate Answers(p: PortProbe) {
    p.opens && p.reply == Some(Ack)
  }

  /**
   * `auto_detect`: the position of the first port, in listing order, that
   * opens and acknowledges; a failed listing is a serial error, and a list
   * where no port answers gives `NoDeviceFound`.
   */
  method AutoDetect(ports: Result<seq<PortProbe>>) returns (r: Result<nat>)
    ensures ports.Err? ==> r == Err(SerialError)
    ensures ports.Ok? && r.Ok? ==> r.value < |ports.value| && Answers(ports.value[r.value])
    ensures ports.Ok? && r.Ok? ==> forall j :: 0 <= j < r.value ==> !Answers(ports.value[j])
    ensures ports.Ok? && r.Err? ==> r.error == NoDeviceFound
    ensures ports.Ok? && r.Err? ==> forall j :: 0 <= j < |ports.value| ==> !Answers(ports.value[j])
  {
    if ports.Err? {
      return Err(SerialError);
    }
    var list := ports.value;
    var i := 0;
    while i < |list|
      invariant 0 <= i <= |list|
      invariant forall j :: 0 <= j < i ==> !Answers(list[j])
    {
      if list[i].opens {
        var _, handshake := Handshake(list[i].reply);
        if handshake.Ok? {
          return Ok(i);
        }
      }
      i := i + 1;
    }
    return Err(NoDeviceFound);
  }
}

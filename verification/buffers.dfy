/** The module-buffer protocol of crates/rustc_codegen_qir/src/lto.rs: a
    buffer holds a module as 32-bit words, its `data` view is the bytes those
    words occupy in memory, and a byte payload becomes words only through a
    conversion that checks the length is a whole number of words.

    Both directions reinterpret the same memory; the model fixes that memory
    image as little-endian; the source uses the host's byte order. */
module Buffers {
  import opened Core
  import opened Errors

  /** `std::mem::size_of::<u32>()`. */
  const WORD_SIZE: nat := 4

  /** The four bytes that hold `w` in memory, lowest address first. */
  function WordBytes(w: Word): (b: seq<Byte>)
    ensures |b| == WORD_SIZE
  {
    [(w & 0xFF) as Byte, ((w >> 8) & 0xFF) as Byte, ((w >> 16) & 0xFF) as Byte, ((w >> 24) & 0xFF) as Byte]
  }

  /** The word held by four bytes in memory, lowest address first. */
  function WordOf(b0: Byte, b1: Byte, b2: Byte, b3: Byte): Word {
    (b0 as Word) | ((b1 as Word) << 8) | ((b2 as Word) << 16) | ((b3 as Word) << 24)
  }

  lemma WordOfWordBytes(w: Word)
    ensures var b := WordBytes(w); WordOf(b[0], b[1], b[2], b[3]) == w
  {}

  lemma WordBytesWordOf(b0: Byte, b1: Byte, b2: Byte, b3: Byte)
    ensures WordBytes(WordOf(b0, b1, b2, b3)) == [b0, b1, b2, b3]
  {}

  /** `from_binary_to_byte_array`: the byte view of a word slice. */
  function FromBinaryToByteArray(bin: seq<Word>): (bytes: seq<Byte>)
    ensures |bytes| == WORD_SIZE * |bin|
    decreases |bin|
  {
    if |bin| == 0 then [] else WordBytes(bin[0]) + FromBinaryToByteArray(bin[1..])
  }

  /** Byte `k` of the view is byte `k % 4` of word `k / 4`: the view shows
      each word's memory image, in word order. */
  lemma {:induction false} ByteArrayLayout(bin: seq<Word>, k: nat)
    requires k < WORD_SIZE * |bin|
    ensures FromBinaryToByteArray(bin)[k] == WordBytes(bin[k / WORD_SIZE])[k % WORD_SIZE]
    decreases |bin|
  {
    var bytes := FromBinaryToByteArray(bin);
    assert bytes == WordBytes(bin[0]) + FromBinaryToByteArray(bin[1..]);
    if k >= WORD_SIZE {
      assert bytes[k] == FromBinaryToByteArray(bin[1..])[k - WORD_SIZE];
      ByteArrayLayout(bin[1..], k - WORD_SIZE);
      assert (k - WORD_SIZE) / WORD_SIZE == k / WORD_SIZE - 1;
      assert (k - WORD_SIZE) % WORD_SIZE == k % WORD_SIZE;
      assert bin[1..][k / WORD_SIZE - 1] == bin[k / WORD_SIZE];
    } else {
      assert bytes[k] == WordBytes(bin[0])[k];
      assert k / WORD_SIZE == 0 && k % WORD_SIZE == k;
    }
  }

  /** Reading a word-aligned byte run as consecutive words. */
  function Reinterpret(bytes: seq<Byte>): (bin: seq<Word>)
    requires |bytes| % WORD_SIZE == 0
    ensures |bin| == |bytes| / WORD_SIZE
    ensures forall i :: 0 <= i < |bin| ==>
      bin[i] == WordOf(bytes[4 * i], bytes[4 * i + 1], bytes[4 * i + 2], bytes[4 * i + 3])
    decreases |bytes|
  {
    if |bytes| == 0 then []
    else [WordOf(bytes[0], bytes[1], bytes[2], bytes[3])] + Reinterpret(bytes[4..])
  }

  /** `from_byte_array_to_binary`: the word view of a byte slice, refused
      with a fatal error unless the length is a whole number of words. */
  function FromByteArrayToBinary(bytes: seq<Byte>): (r: Result<seq<Word>, FatalError>)
    ensures r.Err? <==> |bytes| % WORD_SIZE != 0
    ensures r.Err? ==> r.error.logged.None?
    ensures r.Ok? ==> |r.value| == |bytes| / WORD_SIZE
    ensures r.Ok? ==> forall i :: 0 <= i < |r.value| ==>
      r.value[i] == WordOf(bytes[4 * i], bytes[4 * i + 1], bytes[4 * i + 2], bytes[4 * i + 3])
  {
    if |bytes| % WORD_SIZE != 0 then Err(FatalError(None)) else Ok(Reinterpret(bytes))
  }

  /** The first four bytes of the view read back as the first word, and
      the rest of the view is the view of the remaining words. */
  lemma FirstWord(bin: seq<Word>)
    requires |bin| > 0
    ensures var bytes := FromBinaryToByteArray(bin);
      && WordOf(bytes[0], bytes[1], bytes[2], bytes[3]) == bin[0]
      && bytes[4..] == FromBinaryToByteArray(bin[1..])
  {
    var bytes := FromBinaryToByteArray(bin);
    var b := WordBytes(bin[0]);
    assert bytes == b + FromBinaryToByteArray(bin[1..]);
    assert bytes[0] == b[0] && bytes[1] == b[1] && bytes[2] == b[2] && bytes[3] == b[3];
    WordOfWordBytes(bin[0]);
  }

  lemma {:induction false} ReinterpretByteArray(bin: seq<Word>)
    ensures Reinterpret(FromBinaryToByteArray(bin)) == bin
    decreases |bin|
  {
    if |bin| > 0 {
      var bytes := FromBinaryToByteArray(bin);
      FirstWord(bin);
      ReinterpretByteArray(bin[1..]);
      calc {
        Reinterpret(bytes);
        [WordOf(bytes[0], bytes[1], bytes[2], bytes[3])] + Reinterpret(bytes[4..]);
        [bin[0]] + bin[1..];
        bin;
      }
    }
  }

  lemma {:induction false} ByteArrayReinterpret(bytes: seq<Byte>)
    requires |bytes| % WORD_SIZE == 0
    ensures FromBinaryToByteArray(Reinterpret(bytes)) == bytes
    decreases |bytes|
  {
    if |bytes| > 0 {
      var bin := Reinterpret(bytes);
      ByteArrayReinterpret(bytes[4..]);
      WordBytesWordOf(bytes[0], bytes[1], bytes[2], bytes[3]);
      assert bin[1..] == Reinterpret(bytes[4..]);
      assert bytes == bytes[..4] + bytes[4..];
    }
  }

  /** Word to byte to word always succeeds and gives the words back. */
  lemma WordsRoundTrip(bin: seq<Word>)
    ensures FromByteArrayToBinary(FromBinaryToByteArray(bin)) == Ok(bin)
  {
    ReinterpretByteArray(bin);
  }

  /** Byte to word to byte gives the bytes back whenever the first step is allowed. */
  lemma BytesRoundTrip(bytes: seq<Byte>)
    requires |bytes| % WORD_SIZE == 0
    ensures FromByteArrayToBinary(bytes).Ok?
    ensures FromBinaryToByteArray(FromByteArrayToBinary(bytes).value) == bytes
  {
    ByteArrayReinterpret(bytes);
  }

  /** `QirModuleBuffer`: a serialized module held as words. */
  datatype QirModuleBuffer = QirModuleBuffer(bin: seq<Word>) {

    /** `ModuleBufferMethods::data`: the bytes of the words, which read back as the same words. */
    function Data(): (bytes: seq<Byte>)
      ensures |bytes| == WORD_SIZE * |bin|
      ensures FromByteArrayToBinary(bytes) == Ok(bin)
    {
      WordsRoundTrip(bin);
      FromBinaryToByteArray(bin)
    }
  }

  /** `QirThinBuffer`: a module prepared for thin merging, held as words. */
  datatype QirThinBuffer = QirThinBuffer(bin: seq<Word>) {

    /** `ThinBufferMethods::data`: the bytes of the words, which read back as the same words. */
    function Data(): (bytes: seq<Byte>)
      ensures |bytes| == WORD_SIZE * |bin|
      ensures FromByteArrayToBinary(bytes) == Ok(bin)
    {
      WordsRoundTrip(bin);
      FromBinaryToByteArray(bin)
    }
  }
}

/** The RIFF/WAVE reader of Sharpex2D/Audio/WaveOut/WaveStream.cs: header
    parsing of the "WAVE" form (the "RIFF" word, the ignored RIFF size, the
    "WAVE" and "fmt " words, the format chunk, a 4-byte-step search for the
    "data" word and its length), and the read-only window onto the data
    chunk that the stream then exposes.

    The underlying stream is a byte sequence with a cursor. BinaryReader's
    integer reads are little-endian two's complement and fail with an
    end-of-stream error when too few bytes remain; a chunk-word read takes
    up to four bytes, leaves the rest of its buffer zero and decodes it as
    ASCII (bytes above 127 become '?'). */
module Wave {
  import opened Wrappers

  newtype byte = x: int | 0 <= x < 256

  /** Why construction of the stream fails. `Unreadable`: the stream cannot
      be read (InvalidOperationException); `InvalidFormat`: "Invalid file
      format."; `EndOfStream`: a BinaryReader read ran out of bytes;
      `InvalidWav`: "Invalid WAV file."; `Unsupported`: "Only PCM files are
      supported.". */
  datatype HeaderError = Unreadable | InvalidFormat | EndOfStream | InvalidWav | Unsupported

  /** The six fields of the format chunk, in file order. */
  datatype WaveFormat = WaveFormat(
    formatTag: int,
    channels: int,
    samplesPerSec: int,
    avgBytesPerSec: int,
    blockAlign: int,
    bitsPerSample: int)

  /** What a successful header parse yields: the format, the data length
      (`_length`) and the data offset (`_position`). */
  datatype Header = Header(format: WaveFormat, length: int, dataOffset: nat)

  /** A chunk word and the cursor after it. */
  datatype Word = Word(text: seq<char>, next: nat)

  function AsciiChar(b: byte): char
  {
    if b < 128 then (b as int) as char else '?'
  }

  /** Encoding.ASCII.GetString. */
  function Ascii(bs: seq<byte>): seq<char>
  {
    seq(|bs|, i requires 0 <= i < |bs| => AsciiChar(bs[i]))
  }

  function Zeros(n: nat): (r: seq<byte>)
    ensures |r| == n && forall i :: 0 <= i < n ==> r[i] == 0
  {
    if n == 0 then [] else [0] + Zeros(n - 1)
  }

  /** ReadChunk: up to four bytes from `pos`, the missing ones left zero. */
  function Chunk(src: seq<byte>, pos: nat): (r: Word)
    requires pos <= |src|
    ensures |r.text| == 4
    ensures r.next == if pos + 4 <= |src| then pos + 4 else |src|
    ensures pos + 4 <= |src| ==> r.text == Ascii(src[pos..pos + 4])
  {
    var n := if |src| - pos < 4 then |src| - pos else 4;
    Word(Ascii(src[pos..pos + n] + Zeros(4 - n)), pos + n)
  }

  /** A chunk word cut short by the end of the stream is padded with NUL
      characters, so it never equals a four-letter word. */
  lemma ShortChunkNoWord(src: seq<byte>, pos: nat, word: seq<char>)
    requires pos <= |src| < pos + 4
    requires |word| == 4 && forall i :: 0 <= i < 4 ==> word[i] != '\0'
    ensures Chunk(src, pos).text != word
  {
    var n := |src| - pos;
    var bytes := src[pos..pos + n] + Zeros(4 - n);
    assert bytes[3] == 0;
    assert Chunk(src, pos).text[3] == '\0';
  }

  /** BinaryReader.ReadInt16 at `pos`. */
  function Int16At(src: seq<byte>, pos: nat): (r: int)
    requires pos + 2 <= |src|
    ensures -0x8000 <= r < 0x8000
  {
    var u := src[pos] as int + 0x100 * src[pos + 1] as int;
    if u >= 0x8000 then u - 0x1_0000 else u
  }

  /** BinaryReader.ReadInt32 at `pos`. */
  function Int32At(src: seq<byte>, pos: nat): (r: int)
    requires pos + 4 <= |src|
    ensures -0x8000_0000 <= r < 0x8000_0000
  {
    var u := src[pos] as int + 0x100 * src[pos + 1] as int
      + 0x1_0000 * src[pos + 2] as int + 0x100_0000 * src[pos + 3] as int;
    if u >= 0x8000_0000 then u - 0x1_0000_0000 else u
  }

  /** The format chunk's fields from `pos`: tag int16, channels int16, rate
      int32, average bytes int32, block align int16, bits int16. */
  function FormatAt(src: seq<byte>, pos: nat): WaveFormat
    requires pos + 16 <= |src|
  {
    WaveFormat(Int16At(src, pos), Int16At(src, pos + 2), Int32At(src, pos + 4),
               Int32At(src, pos + 8), Int16At(src, pos + 12), Int16At(src, pos + 14))
  }

  /** The four bytes at `q` read as the word "data". */
  predicate DataAt(src: seq<byte>, q: nat)
  {
    q + 4 <= |src| && Ascii(src[q..q + 4]) == "data"
  }

  /** The search for the data chunk: while the cursor is before the end,
      read a word; stop after the first "data". The search steps four
      bytes at a time and does not use chunk sizes. It ends at the end of
      the stream, or just after the first "data" word on the 4-byte grid
      that starts at `pos`. */
  function FindData(src: seq<byte>, pos: nat): (r: nat)
    requires pos <= |src|
    ensures pos <= r <= |src|
    decreases |src| - pos
  {
    if pos < |src| then
      var w := Chunk(src, pos);
      if w.text != "data" then FindData(src, w.next) else w.next
    else pos
  }

  /** One more word keeps a distance on the 4-byte grid. */
  lemma GridStep(d: int)
    requires d % 4 == 0
    ensures (d + 4) % 4 == 0
  {
  }

  /** The search ends at the end of the stream or just after a "data" word
      on the 4-byte grid that starts at `pos`. */
  lemma {:induction false} FindDataFound(src: seq<byte>, pos: nat)
    requires pos <= |src|
    ensures var r := FindData(src, pos);
      r == |src| || (r >= pos + 4 && (r - pos) % 4 == 0 && DataAt(src, r - 4))
    decreases |src| - pos
  {
    if pos < |src| {
      var w := Chunk(src, pos);
      if w.text != "data" {
        FindDataFound(src, w.next);
        var r := FindData(src, w.next);
        assert FindData(src, pos) == r;
        if r != |src| {
          assert w.next == pos + 4;
          GridStep(r - w.next);
        }
      } else if pos + 4 <= |src| {
        assert DataAt(src, pos);
      }
    }
  }

  /** The word found is the first "data" word on that grid. */
  lemma {:induction false} FindDataFirst(src: seq<byte>, pos: nat, q: nat)
    requires pos <= |src| && pos <= q && q + 4 < FindData(src, pos) && (q - pos) % 4 == 0
    ensures !DataAt(src, q)
    decreases |src| - pos
  {
    var w := Chunk(src, pos);
    if q > pos {
      FindDataFirst(src, w.next, q);
    }
  }

  /** The first part of ReadHeader: "RIFF", the ignored RIFF size, "WAVE",
      "fmt " and the format length, which must be at least 16. */
  function ParsePreamble(src: seq<byte>): (r: Result<int, HeaderError>)
    ensures r.Success? ==> |src| >= 20 && r.value == Int32At(src, 16) && r.value >= 16
  {
    var riff := Chunk(src, 0);
    if riff.text != "RIFF" then Failure(InvalidFormat)
    else if riff.next + 4 > |src| then Failure(EndOfStream)
    else
      var wave := Chunk(src, riff.next + 4);
      if wave.text != "WAVE" then Failure(InvalidFormat)
      else
        var fmt := Chunk(src, wave.next);
        if fmt.text != "fmt " then Failure(InvalidFormat)
        else if fmt.next + 4 > |src| then Failure(EndOfStream)
        else if Int32At(src, fmt.next) < 16 then Failure(InvalidFormat)
        else Success(Int32At(src, fmt.next))
  }

  /** The format chunk's body: the six fields from offset 20, then the
      `len - 16` bytes that follow them are skipped. */
  function ParseFormat(src: seq<byte>, len: int): (r: Result<WaveFormat, HeaderError>)
    requires |src| >= 20 && len >= 16
    ensures r.Success? ==> 20 + len <= |src|
  {
    if 20 + 16 > |src| then Failure(EndOfStream)
    else if 20 + len > |src| then Failure(EndOfStream)
    else Success(FormatAt(src, 20))
  }

  /** The data search from the end of the format chunk, the data length
      (which must be positive) and the format-tag check. */
  function ParseData(src: seq<byte>, fmtEnd: nat, format: WaveFormat, pcmTag: int, floatTag: int): (r: Result<Header, HeaderError>)
    requires fmtEnd <= |src|
    ensures r.Success? ==> r.value.dataOffset == FindData(src, fmtEnd) + 4 <= |src|
    ensures r.Success? ==> r.value.length == Int32At(src, r.value.dataOffset - 4) && r.value.length > 0
    ensures r.Success? ==> r.value.format == format && (format.formatTag == pcmTag || format.formatTag == floatTag)
  {
    var found := FindData(src, fmtEnd);
    if found >= |src| then Failure(InvalidFormat)
    else if found + 4 > |src| then Failure(EndOfStream)
    else
      var length := Int32At(src, found);
      if length <= 0 then Failure(InvalidWav)
      else if format.formatTag != pcmTag && format.formatTag != floatTag then Failure(Unsupported)
      else Success(Header(format, length, found + 4))
  }

  /** ReadHeader, as a function of the stream's bytes (read from offset 0)
      and the numeric values of the PCM and IEEE-float format tags. */
  function ParseHeader(src: seq<byte>, readable: bool, pcmTag: int, floatTag: int): Result<Header, HeaderError>
  {
    if !readable then Failure(Unreadable)
    else match ParsePreamble(src)
      case Failure(e) => Failure(e)
      case Success(len) =>
        match ParseFormat(src, len)
        case Failure(e) => Failure(e)
        case Success(format) => ParseData(src, 20 + len, format, pcmTag, floatTag)
  }

  function Bytes(s: seq<char>): seq<byte>
    requires forall i :: 0 <= i < |s| ==> s[i] as int < 128
  {
    seq(|s|, i requires 0 <= i < |s| => s[i] as int as byte)
  }

  /** Four bytes decode to an ASCII word exactly when they are its codes. */
  lemma AsciiWord(bs: seq<byte>, word: seq<char>)
    requires |bs| == |word| && forall i :: 0 <= i < |word| ==> word[i] as int < 128 && word[i] != '?'
    ensures Ascii(bs) == word <==> bs == Bytes(word)
  {
    if Ascii(bs) == word {
      forall i | 0 <= i < |bs| ensures bs[i] == Bytes(word)[i] {
        assert AsciiChar(bs[i]) == word[i];
      }
    }
  }

  /** A stream that parses is readable and holds "RIFF" at 0, "WAVE" at 8
      and "fmt " at 12. */
  lemma HeaderWords(src: seq<byte>, readable: bool, pcmTag: int, floatTag: int)
    requires ParseHeader(src, readable, pcmTag, floatTag).Success?
    ensures readable && |src| >= 20
    ensures src[0..4] == Bytes("RIFF") && src[8..12] == Bytes("WAVE") && src[12..16] == Bytes("fmt ")
  {
    AsciiWord(src[0..4], "RIFF");
    AsciiWord(src[8..12], "WAVE");
    AsciiWord(src[12..16], "fmt ");
  }

  /** A stream that parses has a format length of at least 16 at 16, its
      format is the 16 bytes from 20, and the format tag is PCM or IEEE
      float. */
  lemma HeaderFormat(src: seq<byte>, readable: bool, pcmTag: int, floatTag: int)
    requires ParseHeader(src, readable, pcmTag, floatTag).Success?
    ensures |src| >= 36 && Int32At(src, 16) >= 16
    ensures ParseHeader(src, readable, pcmTag, floatTag).value.format == FormatAt(src, 20)
    ensures FormatAt(src, 20).formatTag == pcmTag || FormatAt(src, 20).formatTag == floatTag
  {
  }

  /** In a stream that parses, the format chunk's `len` bytes fit, and the
      positive data length is the Int32 just before the data offset. */
  lemma HeaderLength(src: seq<byte>, readable: bool, pcmTag: int, floatTag: int)
    requires ParseHeader(src, readable, pcmTag, floatTag).Success?
    ensures |src| >= 20 && Int32At(src, 16) >= 16 && 20 + Int32At(src, 16) <= |src|
    ensures var h := ParseHeader(src, readable, pcmTag, floatTag).value;
      && 24 + Int32At(src, 16) <= h.dataOffset <= |src|
      && h.length == Int32At(src, h.dataOffset - 4) && h.length > 0
  {
    Stages(src, readable, pcmTag, floatTag);
  }

  /** A successful parse goes through all three stages. */
  lemma Stages(src: seq<byte>, readable: bool, pcmTag: int, floatTag: int)
    requires ParseHeader(src, readable, pcmTag, floatTag).Success?
    ensures readable && ParsePreamble(src).Success?
    ensures ParseFormat(src, ParsePreamble(src).value).Success?
    ensures ParseHeader(src, readable, pcmTag, floatTag)
      == ParseData(src, 20 + ParsePreamble(src).value, ParseFormat(src, ParsePreamble(src).value).value, pcmTag, floatTag)
  {
  }

  /** The data offset of a stream that parses lies 8 bytes after the first
      "data" word on the 4-byte grid that starts where the format chunk
      ends. */
  lemma HeaderData(src: seq<byte>, readable: bool, pcmTag: int, floatTag: int)
    requires ParseHeader(src, readable, pcmTag, floatTag).Success?
    ensures |src| >= 20 && Int32At(src, 16) >= 16
    ensures var h := ParseHeader(src, readable, pcmTag, floatTag).value;
      var fmtEnd := 20 + Int32At(src, 16);
      && fmtEnd <= h.dataOffset - 8
      && (h.dataOffset - 8 - fmtEnd) % 4 == 0
      && DataAt(src, h.dataOffset - 8)
      && (forall q :: fmtEnd <= q < h.dataOffset - 8 && (q - fmtEnd) % 4 == 0 ==> !DataAt(src, q))
  {
    Stages(src, readable, pcmTag, floatTag);
    var len := ParsePreamble(src).value;
    DataStage(src, 20 + len, ParseFormat(src, len).value, pcmTag, floatTag);
  }

  /** The data stage, when it succeeds, points 8 bytes past the first
      "data" word on the grid from where it starts. */
  lemma DataStage(src: seq<byte>, fmtEnd: nat, format: WaveFormat, pcmTag: int, floatTag: int)
    requires fmtEnd <= |src| && ParseData(src, fmtEnd, format, pcmTag, floatTag).Success?
    ensures var h := ParseData(src, fmtEnd, format, pcmTag, floatTag).value;
      && fmtEnd <= h.dataOffset - 8
      && (h.dataOffset - 8 - fmtEnd) % 4 == 0
      && DataAt(src, h.dataOffset - 8)
      && (forall q :: fmtEnd <= q < h.dataOffset - 8 && (q - fmtEnd) % 4 == 0 ==> !DataAt(src, q))
  {
    DataGrid(src, fmtEnd);
  }

  /** A search that stops before the end of the stream stopped just after
      the first "data" word on the grid from `pos`. */
  lemma DataGrid(src: seq<byte>, pos: nat)
    requires pos <= |src| && FindData(src, pos) < |src|
    ensures var r := FindData(src, pos);
      && pos <= r - 4
      && (r - 4 - pos) % 4 == 0
      && DataAt(src, r - 4)
      && (forall q :: pos <= q < r - 4 && (q - pos) % 4 == 0 ==> !DataAt(src, q))
  {
    FindDataFound(src, pos);
    forall q | pos <= q < FindData(src, pos) - 4 && (q - pos) % 4 == 0 ensures !DataAt(src, q) {
      FindDataFirst(src, pos, q);
    }
  }

  /** The RIFF size field at offset 4 is read and ignored: overwriting it
      does not change the result. */
  lemma SizeIgnored(src: seq<byte>, size: seq<byte>, readable: bool, pcmTag: int, floatTag: int)
    requires |src| >= 8 && |size| == 4
    ensures ParseHeader(src[..4] + size + src[8..], readable, pcmTag, floatTag)
         == ParseHeader(src, readable, pcmTag, floatTag)
  {
    OverwriteSize(src, size);
    ParseHeaderSame(src, src[..4] + size + src[8..], readable, pcmTag, floatTag);
  }

  /** The whole parse depends only on the bytes outside 4 to 7. */
  lemma ParseHeaderSame(src: seq<byte>, other: seq<byte>, readable: bool, pcmTag: int, floatTag: int)
    requires |other| == |src| >= 8 && other[..4] == src[..4] && other[8..] == src[8..]
    ensures ParseHeader(other, readable, pcmTag, floatTag) == ParseHeader(src, readable, pcmTag, floatTag)
  {
    if readable {
      PreambleSame(src, other);
      if ParsePreamble(src).Success? {
        var len := ParsePreamble(src).value;
        assert other[20..] == other[8..][12..] && src[20..] == src[8..][12..];
        FormatSame(src, other, len);
        if ParseFormat(src, len).Success? {
          var format := ParseFormat(src, len).value;
          assert other[20 + len..] == other[8..][12 + len..] && src[20 + len..] == src[8..][12 + len..];
          ParseDataSame(src, other, 20 + len, format, pcmTag, floatTag);
          HeaderFromData(src, pcmTag, floatTag, len, format);
          HeaderFromData(other, pcmTag, floatTag, len, format);
        }
      }
    }
  }

  /** Once the preamble and the format chunk are read, the header is what
      the data stage gives. */
  lemma HeaderFromData(src: seq<byte>, pcmTag: int, floatTag: int, len: int, format: WaveFormat)
    requires ParsePreamble(src) == Success(len)
    requires |src| >= 20 && len >= 16 && ParseFormat(src, len) == Success(format)
    ensures ParseHeader(src, true, pcmTag, floatTag) == ParseData(src, 20 + len, format, pcmTag, floatTag)
  {
  }

  /** Overwriting bytes 4 to 7 keeps the length and every other byte. */
  lemma OverwriteSize(src: seq<byte>, size: seq<byte>)
    requires |src| >= 8 && |size| == 4
    ensures var other := src[..4] + size + src[8..];
      |other| == |src| && other[..4] == src[..4] && other[8..] == src[8..]
  {
    var other := src[..4] + size + src[8..];
    assert other[..4] == (src[..4] + size)[..4];
  }

  /** The format stage depends only on the bytes from offset 20. */
  lemma FormatSame(src: seq<byte>, other: seq<byte>, len: int)
    requires |other| == |src| >= 20 && len >= 16 && other[20..] == src[20..]
    ensures ParseFormat(other, len) == ParseFormat(src, len)
  {
    if |src| >= 36 {
      Tail(src, other, 20);
      assert FormatAt(other, 20) == FormatAt(src, 20);
    }
  }

  /** The preamble does not depend on bytes 4 to 7. */
  lemma PreambleSame(src: seq<byte>, other: seq<byte>)
    requires |other| == |src| >= 8 && other[..4] == src[..4] && other[8..] == src[8..]
    ensures ParsePreamble(other) == ParsePreamble(src)
  {
    assert forall i :: 0 <= i < 4 ==> other[i] == other[..4][i] && src[i] == src[..4][i];
    Tail(src, other, 8);
    ChunkSame(src, other, 0);
    ChunkSame(src, other, 8);
    if |src| >= 12 {
      ChunkSame(src, other, 12);
    }
  }

  /** The data stage depends only on the bytes from where it starts. */
  lemma ParseDataSame(src: seq<byte>, other: seq<byte>, fmtEnd: nat, format: WaveFormat, pcmTag: int, floatTag: int)
    requires |other| == |src| && fmtEnd <= |src| && other[fmtEnd..] == src[fmtEnd..]
    ensures ParseData(other, fmtEnd, format, pcmTag, floatTag) == ParseData(src, fmtEnd, format, pcmTag, floatTag)
  {
    Tail(src, other, fmtEnd);
    FindDataBeyond(src, other, fmtEnd);
    var found := FindData(src, fmtEnd);
    if found + 4 <= |src| {
      assert Int32At(other, found) == Int32At(src, found);
    }
  }

  /** Equal tails from `pos` agree at every index from `pos`. */
  lemma Tail(src: seq<byte>, other: seq<byte>, pos: nat)
    requires |other| == |src| && pos <= |src| && other[pos..] == src[pos..]
    ensures forall i :: pos <= i < |src| ==> other[i] == src[i]
  {
    forall i | pos <= i < |src| ensures other[i] == src[i] {
      assert other[i] == other[pos..][i - pos] && src[i] == src[pos..][i - pos];
    }
  }

  /** A chunk word depends only on the four bytes it reads. */
  lemma ChunkSame(src: seq<byte>, other: seq<byte>, pos: nat)
    requires |other| == |src| && pos <= |src|
    requires forall i :: pos <= i < |src| && i < pos + 4 ==> other[i] == src[i]
    ensures Chunk(other, pos) == Chunk(src, pos)
  {
    var n := if |src| - pos < 4 then |src| - pos else 4;
    assert other[pos..pos + n] == src[pos..pos + n];
  }

  /** The data search depends only on the bytes from where it starts. */
  lemma {:induction false} FindDataBeyond(src: seq<byte>, other: seq<byte>, pos: nat)
    requires |other| == |src| && pos <= |src|
    requires forall i :: pos <= i < |src| ==> other[i] == src[i]
    ensures FindData(other, pos) == FindData(src, pos)
    decreases |src| - pos
  {
    if pos < |src| {
      ChunkSame(src, other, pos);
      FindDataBeyond(src, other, Chunk(src, pos).next);
    }
  }

  /** A format length below 16 is refused, after the three words matched. */
  lemma ShortFormatRejected(src: seq<byte>, pcmTag: int, floatTag: int)
    requires |src| >= 20
    requires src[0..4] == Bytes("RIFF") && src[8..12] == Bytes("WAVE") && src[12..16] == Bytes("fmt ")
    requires Int32At(src, 16) < 16
    ensures ParseHeader(src, true, pcmTag, floatTag) == Failure(InvalidFormat)
  {
    AsciiWord(src[0..4], "RIFF");
    AsciiWord(src[8..12], "WAVE");
    AsciiWord(src[12..16], "fmt ");
  }

  // ---------------------------------------------------------------------
  // The stream object

  /** SeekOrigin. */
  datatype Origin = Begin | Current | End

  /** Failures of the stream operations: a negative target position or read
      size (the underlying stream's argument and I/O errors) and the
      operations the read-only stream refuses (InvalidOperationException). */
  datatype StreamError = NegativePosition | NegativeCount | NotSupported

  class WaveStream {
    /** The underlying stream's bytes. */
    const source: seq<byte>
    /** The underlying stream's position. */
    var cursor: int
    /** `_length`: the data chunk's length. */
    var length: int
    /** `_position`: where the data chunk starts in the underlying stream. */
    var dataOffset: int
    var format: WaveFormat

    /** Position: the underlying position relative to the data start. */
    function Position(): int
      reads this
    {
      cursor - dataOffset
    }

    predicate Valid()
      reads this
    {
      0 <= cursor && 0 <= dataOffset <= |source| && length > 0
    }

    /** The stream before ReadHeader: at the start of the source. */
    constructor Wrap(src: seq<byte>)
      ensures source == src && cursor == 0
    {
      source := src;
      cursor := 0;
      length := 0;
      dataOffset := 0;
      format := WaveFormat(0, 0, 0, 0, 0, 0);
    }

    /** ReadChunk on the underlying stream. */
    method ReadChunk() returns (word: seq<char>)
      requires 0 <= cursor <= |source|
      modifies this
      ensures word == Chunk(source, old(cursor)).text && cursor == Chunk(source, old(cursor)).next
      ensures length == old(length) && dataOffset == old(dataOffset) && format == old(format)
    {
      var buffer := Zeros(4);
      var n := if |source| - cursor < 4 then |source| - cursor else 4;
      buffer := source[cursor..cursor + n] + buffer[n..];
      word := Ascii(buffer);
      cursor := cursor + n;
    }

    /** BinaryReader.ReadInt32 on the underlying stream. */
    method ReadInt32() returns (r: Result<int, HeaderError>)
      requires 0 <= cursor <= |source|
      modifies this
      ensures old(cursor) + 4 <= |source| ==> r == Success(Int32At(source, old(cursor))) && cursor == old(cursor) + 4
      ensures old(cursor) + 4 > |source| ==> r == Failure(EndOfStream)
      ensures 0 <= cursor <= |source|
      ensures length == old(length) && dataOffset == old(dataOffset) && format == old(format)
    {
      if cursor + 4 > |source| {
        return Failure(EndOfStream);
      }
      r := Success(Int32At(source, cursor));
      cursor := cursor + 4;
    }

    /** ReadHeader up to the format length: the three words, the ignored
        RIFF size and the length, which must be at least 16. */
    method ReadPreamble() returns (r: Result<int, HeaderError>)
      requires cursor == 0
      modifies this
      ensures r == ParsePreamble(source)
      ensures r.Success? ==> cursor == 20
      ensures length == old(length) && dataOffset == old(dataOffset) && format == old(format)
    {
      var word := ReadChunk();
      if word != "RIFF" {
        return Failure(InvalidFormat);
      }
      var size := ReadInt32();
      if size.Failure? {
        return Failure(size.error);
      }
      word := ReadChunk();
      if word != "WAVE" {
        return Failure(InvalidFormat);
      }
      word := ReadChunk();
      if word != "fmt " {
        return Failure(InvalidFormat);
      }
      r := ReadInt32();
      if r.Success? && r.value < 16 {
        return Failure(InvalidFormat);
      }
    }

    /** ReadHeader's format chunk: the six fields, then `len - 16` bytes
        skipped one at a time. */
    method ReadFormat(len: int) returns (r: Result<WaveFormat, HeaderError>)
      requires cursor == 20 && |source| >= 20 && len >= 16
      modifies this
      ensures r == ParseFormat(source, len)
      ensures r.Success? ==> cursor == 20 + len && format == r.value
      ensures 0 <= cursor <= |source|
      ensures length == old(length) && dataOffset == old(dataOffset)
    {
      if cursor + 16 > |source| {
        return Failure(EndOfStream);
      }
      format := FormatAt(source, cursor);
      cursor := cursor + 16;
      var skip := len - 16;
      while skip > 0
        invariant 0 <= skip && 36 <= cursor <= |source| && cursor + skip == 20 + len
        invariant format == FormatAt(source, 20) && length == old(length) && dataOffset == old(dataOffset)
      {
        if cursor >= |source| {
          return Failure(EndOfStream);
        }
        cursor := cursor + 1;
        skip := skip - 1;
      }
      return Success(format);
    }

    /** ReadHeader's search for the data word, the data length and the
        format-tag check. */
    method ReadData(pcmTag: int, floatTag: int) returns (r: Result<Header, HeaderError>)
      requires 0 <= cursor <= |source|
      modifies this
      ensures r == ParseData(source, old(cursor), format, pcmTag, floatTag)
      ensures r.Success? ==> length == r.value.length && dataOffset == r.value.dataOffset && cursor == dataOffset
      ensures format == old(format)
    {
      ghost var start := cursor;
      var found := false;
      while !found && cursor < |source|
        invariant start <= cursor <= |source|
        invariant !found ==> FindData(source, cursor) == FindData(source, start)
        invariant found ==> cursor == FindData(source, start)
        invariant format == old(format)
        decreases |source| - cursor, !found
      {
        var word := ReadChunk();
        found := word == "data";
      }
      if cursor >= |source| {
        return Failure(InvalidFormat);
      }
      var dataLength := ReadInt32();
      if dataLength.Failure? {
        return Failure(dataLength.error);
      }
      length := dataLength.value;
      dataOffset := cursor;
      if length <= 0 {
        return Failure(InvalidWav);
      }
      if format.formatTag != pcmTag && format.formatTag != floatTag {
        return Failure(Unsupported);
      }
      return Success(Header(format, length, dataOffset));
    }

    /** ReadHeader: consumes the header through the cursor and sets
        `format`, `length` and `dataOffset`; Position is 0 afterwards. */
    method ReadHeader(pcmTag: int, floatTag: int) returns (outcome: Outcome<HeaderError>)
      requires cursor == 0
      modifies this
      ensures var parsed := ParseHeader(source, true, pcmTag, floatTag);
        && (outcome.Pass? <==> parsed.Success?)
        && (outcome.Fail? ==> outcome.error == parsed.error)
        && (outcome.Pass? ==> format == parsed.value.format && length == parsed.value.length
                              && dataOffset == parsed.value.dataOffset && Position() == 0 && Valid())
    {
      var preamble := ReadPreamble();
      if preamble.Failure? {
        return Fail(preamble.error);
      }
      var fmt := ReadFormat(preamble.value);
      if fmt.Failure? {
        return Fail(fmt.error);
      }
      var header := ReadData(pcmTag, floatTag);
      if header.Failure? {
        return Fail(header.error);
      }
      cursor := dataOffset;
      return Pass;
    }

    /** Construction from a stream: fails on an unreadable stream, then
        reads the header. */
    static method Open(src: seq<byte>, readable: bool, pcmTag: int, floatTag: int)
      returns (r: Result<WaveStream, HeaderError>)
      ensures var parsed := ParseHeader(src, readable, pcmTag, floatTag);
        && (r.Success? <==> parsed.Success?)
        && (r.Failure? ==> r.error == parsed.error)
        && (r.Success? ==> && fresh(r.value)
                           && r.value.source == src && r.value.Valid() && r.value.Position() == 0
                           && r.value.format == parsed.value.format
                           && r.value.length == parsed.value.length
                           && r.value.dataOffset == parsed.value.dataOffset)
    {
      if !readable {
        return Failure(Unreadable);
      }
      var stream := new WaveStream.Wrap(src);
      var outcome := stream.ReadHeader(pcmTag, floatTag);
      if outcome.Fail? {
        return Failure(outcome.error);
      }
      return Success(stream);
    }

    /** CanRead and CanSeek are true, CanWrite is false. */
    function CanRead(): bool { true }
    function CanSeek(): bool { true }
    function CanWrite(): bool { false }

    /** Seek: moves the underlying stream relative to the data window and
        returns the new Position. A target before the start of the stream
        fails and leaves the cursor where it was. */
    method Seek(offset: int, origin: Origin) returns (r: Result<int, StreamError>)
      requires Valid()
      modifies this
      ensures var target := match origin
          case Begin => offset + old(dataOffset)
          case Current => old(cursor) + offset
          case End => old(dataOffset) + old(length) - offset;
        && (target < 0 ==> r == Failure(NegativePosition) && cursor == old(cursor))
        && (target >= 0 ==> cursor == target && r == Success(Position()))
      ensures origin == Begin && r.Success? ==> Position() == offset
      ensures origin == End && r.Success? ==> Position() == length - offset
      ensures origin == Current && r.Success? ==> Position() == old(Position()) + offset
      ensures Valid() && length == old(length) && dataOffset == old(dataOffset) && format == old(format)
    {
      var target;
      match origin {
        case Begin => target := offset + dataOffset;
        case Current => target := cursor + offset;
        case End => target := dataOffset + length - offset;
      }
      if target < 0 {
        return Failure(NegativePosition);
      }
      cursor := target;
      return Success(Position());
    }

    /** Read: asks the underlying stream for `min(count, length - Position)`
        bytes, which yields at most what is left in it. A negative request
        fails. */
    method Read(count: int) returns (r: Result<seq<byte>, StreamError>)
      requires Valid()
      modifies this
      ensures var toread := if count < length - old(Position()) then count else length - old(Position());
        && (toread < 0 ==> r == Failure(NegativeCount) && cursor == old(cursor))
        && (toread >= 0 ==>
              && r.Success? && |r.value| <= toread && |r.value| <= count
              && cursor == old(cursor) + |r.value|
              && (old(cursor) + toread <= |source| ==> |r.value| == toread)
              && |r.value| == (if old(cursor) >= |source| then 0
                               else if toread < |source| - old(cursor) then toread
                               else |source| - old(cursor))
              && (|r.value| > 0 ==> cursor <= |source| && r.value == source[old(cursor)..cursor]))
      ensures Valid() && length == old(length) && dataOffset == old(dataOffset) && format == old(format)
    {
      var toread := if count < length - Position() then count else length - Position();
      if toread < 0 {
        return Failure(NegativeCount);
      }
      var available := if cursor >= |source| then 0 else |source| - cursor;
      var n := if toread < available then toread else available;
      var bytes := if n == 0 then [] else source[cursor..cursor + n];
      cursor := cursor + n;
      return Success(bytes);
    }

    /** Write always fails: the stream is read-only. */
    method Write(buffer: seq<byte>) returns (r: Outcome<StreamError>)
      ensures r == Fail(NotSupported)
    {
      return Fail(NotSupported);
    }

    /** SetLength always fails: the stream is read-only. */
    method SetLength(newLength: int) returns (r: Outcome<StreamError>)
      ensures r == Fail(NotSupported)
    {
      return Fail(NotSupported);
    }
  }

  /** A client of the stream: open a readable source, seek to the start of
      the samples and read four bytes. It gets nothing exactly when the
      header does not parse, and otherwise the first four sample bytes when
      the data chunk declares and holds them. */
  method ReadFirstSamples(src: seq<byte>, pcmTag: int, floatTag: int) returns (samples: Option<seq<byte>>)
    ensures samples.None? <==> ParseHeader(src, true, pcmTag, floatTag).Failure?
    ensures samples.Some? ==>
      var h := ParseHeader(src, true, pcmTag, floatTag).value;
      && |samples.value| <= 4
      && (h.length >= 4 && h.dataOffset + 4 <= |src| ==> samples.value == src[h.dataOffset..h.dataOffset + 4])
  {
    var result := WaveStream.Open(src, true, pcmTag, floatTag);
    if result.Failure? {
      return None;
    }
    var stream := result.value;
    var moved := stream.Seek(0, Begin);
    var bytes := stream.Read(4);
    if bytes.Failure? {
      return None;
    }
    return Some(bytes.value);
  }
}

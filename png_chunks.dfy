/**
 * The PNG chunk walk: after the 8-byte signature (section 5.2 of the PNG
 * specification, ISO/IEC 15948) the file is a sequence of chunks, each a
 * 4-byte big-endian length, a 4-byte type, the data and a 4-byte CRC
 * (section 5.3).  The analyzer sums the lengths of the IDAT chunks; the
 * signature and the CRCs are not checked.
 */
module PngChunks {
  import opened Common

  const SignatureLength: nat := 8
  /** Length, type and CRC around a chunk's data. */
  const ChunkOverhead: nat := 12
  /** The chunk type "IDAT" in ASCII. */
  const IdatType: seq<byte> := [73, 68, 65, 84]

  /** The type is "IDAT", compared byte by byte. */
  predicate IsIdat(chunkType: seq<byte>)
    ensures IsIdat(chunkType) <==> chunkType == IdatType
  {
    |chunkType| == 4 && chunkType[0] == 73 && chunkType[1] == 68 && chunkType[2] == 65 && chunkType[3] == 84
  }
  const Two32: nat := 0x1_0000_0000

  /** A 4-byte unsigned big-endian integer (`struct.unpack('>I', …)`). */
  function BigEndian32(b: seq<byte>): (n: nat)
    requires |b| == 4
    ensures n < Two32
  {
    ((b[0] as nat * 256 + b[1] as nat) * 256 + b[2] as nat) * 256 + b[3] as nat
  }

  /** The type field at a chunk start: Python's slice, shorter near the end. */
  function TypeAt(data: seq<byte>, idx: nat): seq<byte>
    requires idx + 4 <= |data|
  {
    data[idx + 4..if idx + 8 <= |data| then idx + 8 else |data|]
  }

  /** The IDAT total from the chunk starting at idx onwards, or None when a
      chunk start has fewer than 4 bytes left (the unpack raises). */
  function WalkFrom(data: seq<byte>, idx: nat): (r: Option<nat>)
    decreases |data| - idx
  {
    if idx >= |data| then Some(0)
    else if idx + 4 > |data| then None
    else
      var length := BigEndian32(data[idx..idx + 4]);
      var rest := WalkFrom(data, idx + ChunkOverhead + length);
      if rest.None? then None
      else Some(rest.value + if IsIdat(TypeAt(data, idx)) then length else 0)
  }

  /** idat_bytes of a file, or None when the walk raises. */
  function IdatBytes(data: seq<byte>): Option<nat>
  {
    WalkFrom(data, SignatureLength)
  }

  function AddTo(total: nat, r: Option<nat>): Option<nat>
  {
    if r.None? then None else Some(total + r.value)
  }

  /** The chunk walk of `png_stats`. */
  method SumIdatLengths(data: seq<byte>) returns (r: Option<nat>)
    ensures r == IdatBytes(data)
  {
    var idx := SignatureLength;
    var total := 0;
    while idx < |data|
      invariant IdatBytes(data) == AddTo(total, WalkFrom(data, idx))
      decreases |data| - idx
    {
      if idx + 4 > |data| {
        return None;
      }
      var length := BigEndian32(data[idx..idx + 4]);
      ghost var before := total;
      if IsIdat(TypeAt(data, idx)) {
        total := total + length;
      }
      WalkFromAt(data, idx, before, total - before);
      idx := idx + ChunkOverhead + length;
    }
    return Some(total);
  }

  /** One step of the walk from a chunk start with a full length field,
      added to a running total. */
  lemma WalkFromAt(data: seq<byte>, idx: nat, total: nat, add: nat)
    requires idx + 4 <= |data|
    requires add == if IsIdat(TypeAt(data, idx)) then BigEndian32(data[idx..idx + 4]) else 0
    ensures AddTo(total, WalkFrom(data, idx))
         == AddTo(total + add, WalkFrom(data, idx + ChunkOverhead + BigEndian32(data[idx..idx + 4])))
  {
  }

  /** compression_ratio: the file size over the raw pixel size, None when
      the raw size is 0. */
  function CompressionRatio(fileSize: nat, rawSize: nat): (r: Option<real>)
    ensures r.None? <==> rawSize == 0
    ensures r.Some? ==> r.value * rawSize as real == fileSize as real && r.value >= 0.0
  {
    if rawSize == 0 then None else Some(fileSize as real / rawSize as real)
  }

  // ---------------------------------------------------------------------
  // Chunks and their layout
  // ---------------------------------------------------------------------

  /** A chunk as laid out in the file: length field, type, data and CRC. */
  datatype Chunk = Chunk(lengthField: seq<byte>, chunkType: seq<byte>, data: seq<byte>, crc: seq<byte>)

  /** Four-byte fields, and a length field that holds the data length. */
  predicate WellFormed(c: Chunk)
  {
    |c.lengthField| == 4 && |c.chunkType| == 4 && |c.crc| == 4 && BigEndian32(c.lengthField) == |c.data|
  }

  /** The big-endian bytes of a 32-bit length. */
  function Encode32(n: nat): (b: seq<byte>)
    requires n < Two32
    ensures |b| == 4
  {
    var q1 := n / 256;
    var q2 := q1 / 256;
    [(q2 / 256) as byte, (q2 % 256) as byte, (q1 % 256) as byte, (n % 256) as byte]
  }

  lemma Decode32Encode32(n: nat)
    requires n < Two32
    ensures BigEndian32(Encode32(n)) == n
  {
    var b := Encode32(n);
    var q1 := n / 256;
    var q2 := q1 / 256;
    assert b[0] as nat * 256 + b[1] as nat == q2;
    assert q2 * 256 + b[2] as nat == q1;
    assert q1 * 256 + b[3] as nat == n;
  }

  /** The chunk that carries `data` under a type and a CRC: every data
      length below 2^32 has a well-formed chunk. */
  function MakeChunk(chunkType: seq<byte>, data: seq<byte>, crc: seq<byte>): (c: Chunk)
    requires |chunkType| == 4 && |crc| == 4 && |data| < Two32
    ensures WellFormed(c) && c.chunkType == chunkType && c.data == data && c.crc == crc
  {
    Decode32Encode32(|data|);
    Chunk(Encode32(|data|), chunkType, data, crc)
  }

  function ChunkBytes(c: Chunk): (b: seq<byte>)
    requires WellFormed(c)
    ensures |b| == ChunkOverhead + |c.data|
  {
    c.lengthField + c.chunkType + c.data + c.crc
  }

  function Layout(chunks: seq<Chunk>): seq<byte>
    requires forall i :: 0 <= i < |chunks| ==> WellFormed(chunks[i])
  {
    if chunks == [] then [] else ChunkBytes(chunks[0]) + Layout(chunks[1..])
  }

  /** A chunk's data length if it is an IDAT chunk, else 0. */
  function IdatContribution(c: Chunk): nat
  {
    if IsIdat(c.chunkType) then |c.data| else 0
  }

  /** The sum of the data lengths of the IDAT chunks. */
  function IdatLength(chunks: seq<Chunk>): nat
  {
    if chunks == [] then 0 else IdatContribution(chunks[0]) + IdatLength(chunks[1..])
  }

  /** What the walk reads for chunk c at idx: its length and its type. */
  predicate HeaderAt(data: seq<byte>, idx: nat, c: Chunk)
  {
    idx + 4 <= |data| && BigEndian32(data[idx..idx + 4]) == |c.data| && TypeAt(data, idx) == c.chunkType
  }

  /** A laid-out chunk at idx is read back: its length and its type. */
  lemma ChunkAt(data: seq<byte>, idx: nat, c: Chunk)
    requires WellFormed(c) && idx + ChunkOverhead + |c.data| <= |data|
    requires data[idx..idx + ChunkOverhead + |c.data|] == ChunkBytes(c)
    ensures HeaderAt(data, idx, c)
  {
    var head := c.lengthField + c.chunkType;
    var cb := ChunkBytes(c);
    assert cb == head + (c.data + c.crc);
    assert cb[..8] == head;
    assert data[idx..idx + 8] == cb[..8];
    assert data[idx..idx + 4] == head[..4] == c.lengthField;
    assert TypeAt(data, idx) == head[4..] == c.chunkType;
  }

  /** One step of the walk over a chunk whose header is read at idx: it adds
      the chunk's IDAT length and goes on 12 bytes past its data. */
  lemma WalkStep(data: seq<byte>, idx: nat, c: Chunk, next: nat)
    requires HeaderAt(data, idx, c) && next == idx + ChunkOverhead + |c.data|
    ensures WalkFrom(data, idx) == AddTo(IdatContribution(c), WalkFrom(data, next))
  {
  }

  /** The walk reads the chunks' headers one after another from idx, the
      last chunk ending at end. */
  predicate LaidOut(data: seq<byte>, idx: nat, chunks: seq<Chunk>, end: nat)
    decreases |chunks|
  {
    if chunks == [] then idx == end
    else
      && HeaderAt(data, idx, chunks[0])
      && LaidOut(data, idx + ChunkOverhead + |chunks[0].data|, chunks[1..], end)
  }

  /** Bytes that spell out the layout of well-formed chunks hold those
      chunks one after another. */
  lemma {:induction false} LayoutLaidOut(data: seq<byte>, idx: nat, end: nat, chunks: seq<Chunk>)
    requires forall i :: 0 <= i < |chunks| ==> WellFormed(chunks[i])
    requires idx <= end <= |data| && data[idx..end] == Layout(chunks)
    ensures LaidOut(data, idx, chunks, end)
    decreases |chunks|
  {
    if chunks != [] {
      var cb := ChunkBytes(chunks[0]);
      var n := |cb|;
      assert data[idx..end] == cb + Layout(chunks[1..]);
      assert data[idx..idx + n] == data[idx..end][..n];
      assert data[idx + n..end] == data[idx..end][n..];
      ChunkAt(data, idx, chunks[0]);
      LayoutLaidOut(data, idx + n, end, chunks[1..]);
    }
  }

  /** Walking chunks that fill the data to its end finds exactly their IDAT
      data lengths. */
  lemma {:induction false} WalkLaidOut(data: seq<byte>, idx: nat, chunks: seq<Chunk>)
    requires LaidOut(data, idx, chunks, |data|)
    ensures WalkFrom(data, idx) == Some(IdatLength(chunks))
    decreases |chunks|
  {
    if chunks != [] {
      var c, rest := chunks[0], chunks[1..];
      var next := idx + ChunkOverhead + |c.data|;
      assert HeaderAt(data, idx, c) && LaidOut(data, next, rest, |data|);
      WalkLaidOut(data, next, rest);
      WalkStep(data, idx, c, next);
      assert IdatLength(chunks) == IdatContribution(c) + IdatLength(rest);
    }
  }

  /** Walking chunks that stop one to three bytes short of the end raises. */
  lemma {:induction false} WalkShortTail(data: seq<byte>, idx: nat, chunks: seq<Chunk>, end: nat)
    requires LaidOut(data, idx, chunks, end) && end < |data| < end + 4
    ensures WalkFrom(data, idx) == None
    decreases |chunks|
  {
    if chunks != [] {
      var c, rest := chunks[0], chunks[1..];
      var next := idx + ChunkOverhead + |c.data|;
      assert HeaderAt(data, idx, c) && LaidOut(data, next, rest, end);
      WalkShortTail(data, next, rest, end);
      WalkStep(data, idx, c, next);
    }
  }

  /** Walking from where the layout of well-formed chunks fills the rest of
      the data finds exactly their IDAT data lengths. */
  lemma WalkLayout(data: seq<byte>, idx: nat, chunks: seq<Chunk>)
    requires forall i :: 0 <= i < |chunks| ==> WellFormed(chunks[i])
    requires idx <= |data| && data[idx..] == Layout(chunks)
    ensures WalkFrom(data, idx) == Some(IdatLength(chunks))
  {
    assert data[idx..|data|] == data[idx..];
    LayoutLaidOut(data, idx, |data|, chunks);
    WalkLaidOut(data, idx, chunks);
  }

  /** A file made of a signature and well-formed chunks reports the total
      IDAT data length, whatever the signature bytes are. */
  lemma ChunkWalkFindsIdat(signature: seq<byte>, chunks: seq<Chunk>)
    requires |signature| == SignatureLength
    requires forall i :: 0 <= i < |chunks| ==> WellFormed(chunks[i])
    ensures IdatBytes(signature + Layout(chunks)) == Some(IdatLength(chunks))
  {
    var data := signature + Layout(chunks);
    assert data[SignatureLength..] == Layout(chunks);
    WalkLayout(data, SignatureLength, chunks);
  }

  /** One to three stray bytes after the last chunk make the walk raise. */
  lemma TrailingBytesRaise(data: seq<byte>, idx: nat, chunks: seq<Chunk>, tail: seq<byte>)
    requires forall i :: 0 <= i < |chunks| ==> WellFormed(chunks[i])
    requires 1 <= |tail| < 4
    requires idx <= |data| && data[idx..] == Layout(chunks) + tail
    ensures WalkFrom(data, idx) == None
  {
    var end := |data| - |tail|;
    assert data[idx..end] == data[idx..][..|Layout(chunks)|] == Layout(chunks);
    LayoutLaidOut(data, idx, end, chunks);
    WalkShortTail(data, idx, chunks, end);
  }

  /** A file no longer than the signature has no chunks and 0 IDAT bytes. */
  lemma ShortFileHasNoIdat(data: seq<byte>)
    requires |data| <= SignatureLength
    ensures IdatBytes(data) == Some(0)
  {
  }
}

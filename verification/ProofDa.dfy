/** Proof payloads as EIP-4844 blobs: the lossless encoder, its decoder, and the sidecar check. */
module ProofDa {
  import opened Wrappers
  import opened MachineWords
  import opened ByteOrder

  const FIELD_ELEMENTS_PER_BLOB: nat := 4096
  const BYTES_PER_FIELD_ELEMENT: nat := 32
  const BYTES_PER_BLOB: nat := FIELD_ELEMENTS_PER_BLOB * BYTES_PER_FIELD_ELEMENT
  const PAYLOAD_BYTES_PER_FIELD_ELEMENT: nat := 31
  const ONE_BLOB_CAPACITY: nat := (FIELD_ELEMENTS_PER_BLOB - 1) * 31
  const TWO_BLOB_CAPACITY: nat := (2 * FIELD_ELEMENTS_PER_BLOB - 1) * 31

  datatype DaError = EmptyPayload | PayloadTooLong | CountMismatch | BlobMismatch(index: nat) | HashMismatch(index: nat)

  // ---------- the stream, byte by byte ----------

  function BlobCount(length: nat): nat { if length <= ONE_BLOB_CAPACITY then 1 else 2 }

  // Element 0 carries the length; every later element carries 31 payload bytes after its zero byte.
  function StreamByte(payload: seq<Byte>, i: nat): Byte {
    var element, offset := i / 32, i % 32;
    if offset == 0 then 0
    else if element == 0 then if offset < 9 then ToBigEndian(|payload|, 8)[offset - 1] else 0
    else
      var at := (element - 1) * 31 + offset - 1;
      if at < |payload| then payload[at] else 0
  }

  function Stream(payload: seq<Byte>): (s: seq<Byte>)
    ensures |s| == BlobCount(|payload|) * BYTES_PER_BLOB
    ensures forall i :: 0 <= i < |s| ==> s[i] == StreamByte(payload, i)
  {
    seq(BlobCount(|payload|) * BYTES_PER_BLOB, i requires i >= 0 => StreamByte(payload, i))
  }

  function Blobs(stream: seq<Byte>, count: nat): (blobs: seq<seq<Byte>>)
    requires |stream| == count * BYTES_PER_BLOB
    ensures |blobs| == count
  {
    if count == 0 then []
    else Blobs(stream[..(count - 1) * BYTES_PER_BLOB], count - 1) + [stream[(count - 1) * BYTES_PER_BLOB..]]
  }

  function Encode(payload: seq<Byte>): Result<seq<seq<Byte>>, DaError> {
    if payload == [] then Err(EmptyPayload)
    else if |payload| > TWO_BLOB_CAPACITY then Err(PayloadTooLong)
    else Ok(Blobs(Stream(payload), BlobCount(|payload|)))
  }

  // ---------- the decoder ----------

  // Where a payload byte sits in the stream.
  function Position(at: nat): nat { (at / 31 + 1) * 32 + 1 + at % 31 }

  function Decode(stream: seq<Byte>): Option<seq<Byte>> {
    if |stream| < 32 then None
    else
      var length := FromBigEndian(stream[1..9]);
      if length > 0 && Position(length - 1) >= |stream| then None
      else Some(ReadPayload(stream, length))
  }

  function ReadPayload(stream: seq<Byte>, length: nat): (s: seq<Byte>)
    requires length > 0 ==> Position(length - 1) < |stream|
    ensures |s| == length
    ensures forall at :: 0 <= at < length ==> Position(at) < |stream| && s[at] == stream[Position(at)]
  {
    if length == 0 then [] else
      PositionGrows(length - 1);
      ReadPayload(stream, length - 1) + [stream[Position(length - 1)]]
  }

  lemma PositionGrows(at: nat)
    ensures at > 0 ==> Position(at - 1) < Position(at)
  {
  }

  lemma PositionReads(payload: seq<Byte>, at: nat)
    requires at < |payload| <= TWO_BLOB_CAPACITY
    ensures Position(at) < |Stream(payload)| && Stream(payload)[Position(at)] == payload[at]
  {
    var p := Position(at);
    assert p / 32 == at / 31 + 1 && p % 32 == 1 + at % 31;
    assert (p / 32 - 1) * 31 + p % 32 - 1 == at;
  }

  /** Reading the length header and the 31-byte chunks undoes the encoding, for every payload that fits. */
  lemma DecodeUndoesEncode(payload: seq<Byte>)
    requires |payload| <= TWO_BLOB_CAPACITY
    ensures Decode(Stream(payload)) == Some(payload)
  {
    var s, header := Stream(payload), ToBigEndian(|payload|, 8);
    forall k | 0 <= k < 8 ensures s[1..9][k] == header[k] {
      assert s[k + 1] == StreamByte(payload, k + 1);
    }
    assert s[1..9] == header;
    EightBytes();
    ReadsBackBigEndian(|payload|, 8);
    forall at | 0 <= at < |payload| ensures Position(at) < |s| && s[Position(at)] == payload[at] {
      PositionReads(payload, at);
    }
    if payload != [] {
      PositionReads(payload, |payload| - 1);
    }
    var back := ReadPayload(s, |payload|);
    assert back == payload;
  }

  lemma {:induction false} JoinBlobs(stream: seq<Byte>, count: nat)
    requires |stream| == count * BYTES_PER_BLOB
    ensures Concat(Blobs(stream, count)) == stream
    ensures forall b :: b in Blobs(stream, count) ==> |b| == BYTES_PER_BLOB
  {
    if count > 0 {
      var head := stream[..(count - 1) * BYTES_PER_BLOB];
      JoinBlobs(head, count - 1);
      var blobs := Blobs(stream, count);
      assert blobs[..count - 1] == Blobs(head, count - 1);
    }
  }

  function Concat(pieces: seq<seq<Byte>>): seq<Byte> {
    if pieces == [] then [] else Concat(pieces[..|pieces| - 1]) + pieces[|pieces| - 1]
  }

  /** Exactly the payloads of 1 to 253921 bytes are encoded; the others are told apart. */
  lemma EncodesExactly(payload: seq<Byte>)
    ensures Encode(payload).Ok? <==> 1 <= |payload| <= 253921
    ensures Encode(payload) == Err(EmptyPayload) <==> |payload| == 0
    ensures Encode(payload) == Err(PayloadTooLong) <==> |payload| >= 253922
  {
  }

  /** The encoding is injective: payloads with the same blobs are the same payload. */
  lemma EncodingIsInjective(a: seq<Byte>, b: seq<Byte>)
    requires Encode(a).Ok? && Encode(a) == Encode(b)
    ensures a == b
  {
    JoinBlobs(Stream(a), BlobCount(|a|));
    JoinBlobs(Stream(b), BlobCount(|b|));
    DecodeUndoesEncode(a);
    DecodeUndoesEncode(b);
  }

  /** The encoder uses the fewest blobs that hold the payload, and every field element starts with a zero byte. */
  lemma FewestBlobsAndCanonicalElements(payload: seq<Byte>, i: nat)
    requires Encode(payload).Ok?
    ensures
      var count := |Encode(payload).value|;
      && |payload| <= (count * FIELD_ELEMENTS_PER_BLOB - 1) * 31
      && (count > 1 ==> |payload| > ((count - 1) * FIELD_ELEMENTS_PER_BLOB - 1) * 31)
    ensures i * 32 < |Concat(Encode(payload).value)| ==> Concat(Encode(payload).value)[i * 32] == 0
  {
    JoinBlobs(Stream(payload), BlobCount(|payload|));
    assert (i * 32) % 32 == 0;
  }

  // ---------- the imperative encoder ----------

  // The stream is written up to a position and still zero after it.
  ghost predicate WrittenTo(buffer: array<Byte>, payload: seq<Byte>, n: nat)
    reads buffer
  {
    forall i :: 0 <= i < buffer.Length ==> buffer[i] == if i < n then StreamByte(payload, i) else 0
  }

  /** Write the header and the chunks into a zeroed buffer, then cut it into blobs. */
  method EncodeSimpleCoderBlobs(payload: seq<Byte>) returns (r: Result<seq<seq<Byte>>, DaError>)
    ensures r == Encode(payload)
  {
    if payload == [] {
      return Err(EmptyPayload);
    }
    if |payload| > TWO_BLOB_CAPACITY {
      return Err(PayloadTooLong);
    }
    var count := BlobCount(|payload|);
    var buffer := new Byte[count * BYTES_PER_BLOB](_ => 0);
    WriteHeader(buffer, payload);
    var chunks := (|payload| + 30) / 31;
    for chunk := 0 to chunks
      invariant WrittenTo(buffer, payload, (chunk + 1) * 32)
    {
      WriteChunk(buffer, payload, chunk);
    }
    forall i | 0 <= i < buffer.Length ensures buffer[i] == StreamByte(payload, i) {
      if i >= (chunks + 1) * 32 {
        BeyondPayload(payload, chunks, i);
      }
    }
    assert buffer[..] == Stream(payload);
    return Ok(Blobs(buffer[..], count));
  }

  lemma BeyondPayload(payload: seq<Byte>, chunks: nat, i: nat)
    requires payload != [] && chunks == (|payload| + 30) / 31 && i >= (chunks + 1) * 32
    ensures StreamByte(payload, i) == 0
  {
    assert i / 32 >= chunks + 1;
    assert (i / 32 - 1) * 31 >= |payload|;
  }

  method WriteHeader(buffer: array<Byte>, payload: seq<Byte>)
    requires buffer.Length >= 32 && forall i :: 0 <= i < buffer.Length ==> buffer[i] == 0
    modifies buffer
    ensures WrittenTo(buffer, payload, 32)
  {
    var length := ToBigEndian(|payload|, 8);
    for k := 0 to 8
      invariant forall i :: 0 <= i < buffer.Length ==> buffer[i] == if 1 <= i <= k then length[i - 1] else 0
    {
      buffer[k + 1] := length[k];
    }
  }

  method WriteChunk(buffer: array<Byte>, payload: seq<Byte>, chunk: nat)
    requires chunk * 31 < |payload| && (chunk + 2) * 32 <= buffer.Length
    requires WrittenTo(buffer, payload, (chunk + 1) * 32)
    modifies buffer
    ensures WrittenTo(buffer, payload, (chunk + 2) * 32)
  {
    var offset := (chunk + 1) * 32;
    var size := if |payload| - chunk * 31 < 31 then |payload| - chunk * 31 else 31;
    for k := 0 to size
      invariant WrittenTo(buffer, payload, offset + 1 + k)
    {
      ChunkByte(payload, chunk, k);
      buffer[offset + 1 + k] := payload[chunk * 31 + k];
    }
    forall i | offset + 1 + size <= i < offset + 32 ensures StreamByte(payload, i) == 0 {
      ChunkByte(payload, chunk, i - offset - 1);
    }
  }

  lemma ChunkByte(payload: seq<Byte>, chunk: nat, k: nat)
    requires k < 31
    ensures StreamByte(payload, (chunk + 1) * 32) == 0
    ensures StreamByte(payload, (chunk + 1) * 32 + 1 + k)
            == if chunk * 31 + k < |payload| then payload[chunk * 31 + k] else 0
  {
    var i := (chunk + 1) * 32 + 1 + k;
    assert i / 32 == chunk + 1 && i % 32 == 1 + k;
  }

  // ---------- sidecars ----------

  type Point = s: seq<Byte> | |s| == 48 witness seq(48, _ => 0)
  type Word = s: seq<Byte> | |s| == 32 witness seq(32, _ => 0)

  datatype Sidecars = Sidecars(blobs: seq<seq<Byte>>, commitments: seq<Point>, proofs: seq<Point>, hashes: seq<Word>)

  // The version byte replaces the first byte of the commitment's digest.
  function VersionedHash(sha256: seq<Byte> -> Word, commitment: Point): Word { sha256(commitment)[0 := 1] }

  predicate SidecarValid(sha256: seq<Byte> -> Word, s: Sidecars, expected: seq<seq<Byte>>, i: nat)
    requires i < |expected| == |s.blobs| == |s.commitments| == |s.proofs| == |s.hashes|
  {
    s.blobs[i] == expected[i] && s.hashes[i] == VersionedHash(sha256, s.commitments[i])
  }

  lemma VersionedExactly(sha256: seq<Byte> -> Word, commitment: Point, hash: Word)
    ensures hash == VersionedHash(sha256, commitment) <==> hash[0] == 1 && hash[1..] == sha256(commitment)[1..]
  {
    var digest := sha256(commitment);
    if hash[0] == 1 && hash[1..] == digest[1..] {
      assert forall i :: 1 <= i < 32 ==> hash[i] == hash[1..][i - 1] && digest[i] == digest[1..][i - 1];
      assert hash == digest[0 := 1];
    }
  }

  // commitment[0] || proof[0] || commitment[1] || proof[1] ...
  function Compact(s: Sidecars, n: nat): seq<Byte>
    requires n <= |s.commitments| && n <= |s.proofs|
  {
    if n == 0 then [] else Compact(s, n - 1) + s.commitments[n - 1] + s.proofs[n - 1]
  }

  /** Accept the sidecars exactly when every blob is the canonical encoding and every hash matches its commitment. */
  method ValidateSidecars(sha256: seq<Byte> -> Word, s: Sidecars, payload: seq<Byte>)
    returns (r: Result<seq<Byte>, DaError>)
    ensures r.Ok? <==>
              && Encode(payload).Ok?
              && |s.blobs| == |s.commitments| == |s.proofs| == |s.hashes| == |Encode(payload).value|
              && forall i :: 0 <= i < |s.blobs| ==>
                   && s.blobs[i] == Encode(payload).value[i]
                   && s.hashes[i][0] == 1 && s.hashes[i][1..] == sha256(s.commitments[i])[1..]
    ensures r.Ok? ==> r.value == Compact(s, |s.blobs|) && Decode(Concat(s.blobs)) == Some(payload)
  {
    var encoded := EncodeSimpleCoderBlobs(payload);
    if encoded.Err? {
      return Err(encoded.error);
    }
    var expected := encoded.value;
    var count := |expected|;
    if |s.blobs| != count || |s.commitments| != count || |s.proofs| != count || |s.hashes| != count {
      return Err(CountMismatch);
    }
    var compact: seq<Byte> := [];
    for i := 0 to count
      invariant compact == Compact(s, i)
      invariant forall j :: 0 <= j < i ==> SidecarValid(sha256, s, expected, j)
    {
      VersionedExactly(sha256, s.commitments[i], s.hashes[i]);
      if s.blobs[i] != expected[i] {
        assert !SidecarValid(sha256, s, expected, i);
        return Err(BlobMismatch(i));
      }
      if s.hashes[i] != VersionedHash(sha256, s.commitments[i]) {
        assert !SidecarValid(sha256, s, expected, i);
        return Err(HashMismatch(i));
      }
      compact := compact + s.commitments[i] + s.proofs[i];
    }
    forall j | 0 <= j < count
      ensures s.blobs[j] == expected[j]
      ensures s.hashes[j][0] == 1 && s.hashes[j][1..] == sha256(s.commitments[j])[1..]
    {
      assert SidecarValid(sha256, s, expected, j);
      VersionedExactly(sha256, s.commitments[j], s.hashes[j]);
    }
    assert s.blobs == expected;
    JoinBlobs(Stream(payload), BlobCount(|payload|));
    DecodeUndoesEncode(payload);
    return Ok(compact);
  }

  /** The compact form loses nothing: it determines every commitment and proof. */
  lemma {:induction false} CompactIsInjective(s: Sidecars, t: Sidecars, n: nat)
    requires n <= |s.commitments| && n <= |s.proofs| && n <= |t.commitments| && n <= |t.proofs|
    requires Compact(s, n) == Compact(t, n)
    ensures s.commitments[..n] == t.commitments[..n] && s.proofs[..n] == t.proofs[..n]
  {
    if n > 0 {
      Unpack(Compact(s, n - 1), s.commitments[n - 1], s.proofs[n - 1],
             Compact(t, n - 1), t.commitments[n - 1], t.proofs[n - 1]);
      CompactIsInjective(s, t, n - 1);
    }
  }

  lemma Unpack(a: seq<Byte>, p: Point, q: Point, b: seq<Byte>, r: Point, t: Point)
    requires a + p + q == b + r + t
    ensures a == b && p == r && q == t
  {
    var x, y := a + p + q, b + r + t;
    assert x[..|a|] == a && y[..|b|] == b;
    assert x[|a|..|a| + 48] == p && y[|b|..|b| + 48] == r;
    assert x[|a| + 48..] == q && y[|b| + 48..] == t;
  }
}

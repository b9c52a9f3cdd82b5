/** The framing of a payout snapshot file: magic, version, length, checksum, payload. */
module SnapshotFrame {
  import opened Wrappers
  import opened MachineWords
  import opened ByteOrder

  // "INTMAX_PAYOUT_04" in ASCII; its first fourteen bytes name the family.
  const SNAPSHOT_MAGIC: seq<Byte> := [73, 78, 84, 77, 65, 88, 95, 80, 65, 89, 79, 85, 84, 95, 48, 52]
  const PAYOUT_VERSION: u32 := 4
  const HEADER_BYTES: nat := 16 + 4 + 8 + 32
  const MAX_SNAPSHOT_BYTES: nat := 512 * 1024 * 1024

  type Digest = s: seq<Byte> | |s| == 32 witness seq(32, _ => 0)
  type Hash = seq<Byte> -> Digest

  datatype FrameError = BadSize | RetiredFlow(version: nat) | BadMagic | BadVersion | LengthMismatch | ChecksumMismatch

  // ---------- the frame ----------

  function Frame(hash: Hash, payload: seq<Byte>): (bytes: seq<Byte>)
    ensures |bytes| == HEADER_BYTES + |payload|
  {
    SNAPSHOT_MAGIC + ToLittleEndian(PAYOUT_VERSION, 4) + ToLittleEndian(|payload|, 8) + hash(payload) + payload
  }

  function WriteSnapshot(hash: Hash, payload: seq<Byte>): Option<seq<Byte>> {
    if |payload| + HEADER_BYTES > MAX_SNAPSHOT_BYTES then None else Some(Frame(hash, payload))
  }

  function ReadSnapshot(hash: Hash, bytes: seq<Byte>): Result<seq<Byte>, FrameError> {
    if |bytes| < HEADER_BYTES || |bytes| > MAX_SNAPSHOT_BYTES then Err(BadSize)
    else
      var version := FromLittleEndian(bytes[16..20]);
      if bytes[..16] != SNAPSHOT_MAGIC then
        if bytes[..14] == SNAPSHOT_MAGIC[..14] && version < PAYOUT_VERSION then Err(RetiredFlow(version))
        else Err(BadMagic)
      else if version != PAYOUT_VERSION then Err(BadVersion)
      else if FromLittleEndian(bytes[20..28]) != |bytes| - HEADER_BYTES then Err(LengthMismatch)
      else
        var payload := bytes[HEADER_BYTES..];
        if hash(payload) != bytes[28..60] then Err(ChecksumMismatch) else Ok(payload)
  }

  lemma Pieces(a: seq<Byte>, b: seq<Byte>, c: seq<Byte>, d: seq<Byte>, e: seq<Byte>)
    ensures
      var s := a + b + c + d + e;
      var (i, j, k, l) := (|a|, |a| + |b|, |a| + |b| + |c|, |a| + |b| + |c| + |d|);
      s[..i] == a && s[i..j] == b && s[j..k] == c && s[k..l] == d && s[l..] == e
  {
  }

  lemma FrameParts(hash: Hash, payload: seq<Byte>)
    ensures
      var bytes := Frame(hash, payload);
      && bytes[..16] == SNAPSHOT_MAGIC && bytes[16..20] == ToLittleEndian(PAYOUT_VERSION, 4)
      && bytes[20..28] == ToLittleEndian(|payload|, 8) && bytes[28..60] == hash(payload) && bytes[60..] == payload
  {
    Pieces(SNAPSHOT_MAGIC, ToLittleEndian(PAYOUT_VERSION, 4), ToLittleEndian(|payload|, 8), hash(payload), payload);
  }

  /** The reader accepts exactly the frames the writer can produce, and returns the payload they frame. */
  lemma ReaderAcceptsExactlyFrames(hash: Hash, bytes: seq<Byte>, payload: seq<Byte>)
    ensures ReadSnapshot(hash, bytes) == Ok(payload) <==> WriteSnapshot(hash, payload) == Some(bytes)
  {
    EightBytes();
    if WriteSnapshot(hash, payload) == Some(bytes) {
      FrameParts(hash, payload);
      ReadsBack(PAYOUT_VERSION, 4);
      ReadsBack(|payload|, 8);
    }
    if ReadSnapshot(hash, bytes) == Ok(payload) {
      WritesBack(bytes[16..20]);
      WritesBack(bytes[20..28]);
      assert bytes == bytes[..16] + bytes[16..20] + bytes[20..28] + bytes[28..60] + bytes[60..];
    }
  }

  /**
    A file of the right size under another magic is named a retired flow exactly when it is of the payout family with
    a version below four; every other foreign file is a bad magic.
  */
  lemma RetiredExactly(hash: Hash, bytes: seq<Byte>, version: nat)
    requires 60 <= |bytes| <= 0x2000_0000
    ensures ReadSnapshot(hash, bytes) == Err(RetiredFlow(version)) <==>
              && bytes[..14] == [73, 78, 84, 77, 65, 88, 95, 80, 65, 89, 79, 85, 84, 95] && bytes[14..16] != [48, 52]
              && version == FromLittleEndian(bytes[16..20]) < 4
    ensures ReadSnapshot(hash, bytes) == Err(BadMagic) ==>
              bytes[..14] != SNAPSHOT_MAGIC[..14] || FromLittleEndian(bytes[16..20]) >= 4
  {
    assert bytes[..16] == bytes[..14] + bytes[14..16];
    assert SNAPSHOT_MAGIC == SNAPSHOT_MAGIC[..14] + [48, 52];
    assert SNAPSHOT_MAGIC[..14] == [73, 78, 84, 77, 65, 88, 95, 80, 65, 89, 79, 85, 84, 95];
    assert bytes[..16][..14] == bytes[..14] && bytes[..16][14..] == bytes[14..16];
    assert SNAPSHOT_MAGIC[14..] == [48, 52];
  }

  /** Every payload that fits is read back unchanged. */
  lemma ReadUndoesWrite(hash: Hash, payload: seq<Byte>)
    requires |payload| + HEADER_BYTES <= MAX_SNAPSHOT_BYTES
    ensures WriteSnapshot(hash, payload).Some? && ReadSnapshot(hash, WriteSnapshot(hash, payload).value) == Ok(payload)
  {
    ReaderAcceptsExactlyFrames(hash, Frame(hash, payload), payload);
  }
}

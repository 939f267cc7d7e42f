/** The byte journal of the durable file store: the checksummed v3 frame, the
    recovery loop that reads a file of frames back, and what a crash can leave.

    SHA-256 and the JSON state codec are parameters: a `Codec` value supplies
    them, and `ValidCodec` lists the only facts used about them. */
module Journal {
  import opened Prelude

  type byte = b: int | 0 <= b < 256
  type bytes = seq<byte>

  const DIGEST_BYTES: nat := 32
  const FRAME_HEADER: nat := 96
  const FRAME_FOOTER: nat := 128
  const FRAME_OVERHEAD: nat := FRAME_HEADER + FRAME_FOOTER
  const MAX_FRAME_BYTES: nat := 0x1000_0000
  const MAX_ENCODED_FRAME_BYTES: nat := FRAME_OVERHEAD + MAX_FRAME_BYTES
  const MAX_JOURNAL_BYTES: nat := MAX_ENCODED_FRAME_BYTES
  const MAX_RECOVERY_BYTES: nat := MAX_ENCODED_FRAME_BYTES
  const RETAINED_FRAMES: nat := 4

  // "XGC2FSV3" and "XGC2CMV3"
  const FRAME_MAGIC: bytes := [88, 71, 67, 50, 70, 83, 86, 51]
  const COMMIT_MAGIC: bytes := [88, 71, 67, 50, 67, 77, 86, 51]

  /** `unmarshal` stands for the strict decoder followed by the state validator. */
  datatype Codec<!S> = Codec(
    hash: bytes -> bytes,
    marshal: S -> bytes,
    unmarshal: bytes -> Option<S>,
    valid: S -> bool,
    empty: S)

  ghost predicate ZeroFree(s: bytes) {
    forall i :: 0 <= i < |s| ==> s[i] != 0
  }

  ghost predicate ValidCodec<S(!new)>(c: Codec<S>) {
    && (forall x :: |c.hash(x)| == DIGEST_BYTES)
    && (forall s :: c.marshal(s) != [] && ZeroFree(c.marshal(s)))
    && (forall s :: c.valid(s) ==> c.unmarshal(c.marshal(s)) == Some(s))
  }

  // ---------------------------------------------------------------- integers

  function Pow256(width: nat): (p: nat)
    ensures p > 0
  {
    if width == 0 then 1 else 256 * Pow256(width - 1)
  }

  function BigEndian(n: nat, width: nat): (s: bytes)
    ensures |s| == width
  {
    if width == 0 then [] else BigEndian(n / 256, width - 1) + [n % 256]
  }

  function FromBigEndian(s: bytes): nat {
    if s == [] then 0 else 256 * FromBigEndian(s[..|s| - 1]) + s[|s| - 1]
  }

  lemma {:induction false} BigEndianDecodes(n: nat, width: nat)
    requires n < Pow256(width)
    ensures FromBigEndian(BigEndian(n, width)) == n
  {
    if width > 0 {
      BigEndianDecodes(n / 256, width - 1);
      var s := BigEndian(n, width);
      assert s[..width - 1] == BigEndian(n / 256, width - 1);
    }
  }

  lemma {:induction false} BigEndianEncodes(s: bytes)
    ensures BigEndian(FromBigEndian(s), |s|) == s
  {
    if s != [] {
      BigEndianEncodes(s[..|s| - 1]);
      assert s == s[..|s| - 1] + [s[|s| - 1]];
      var n := FromBigEndian(s);
      assert n / 256 == FromBigEndian(s[..|s| - 1]) && n % 256 == s[|s| - 1];
    }
  }

  lemma FrameLengthsFit()
    ensures Pow256(8) > MAX_ENCODED_FRAME_BYTES
  {
    assert Pow256(4) == 0x1_0000_0000 by {
      assert Pow256(1) == 256;
      assert Pow256(2) == 0x1_0000;
      assert Pow256(3) == 0x100_0000;
    }
    assert Pow256(5) >= Pow256(4);
    assert Pow256(6) >= Pow256(5);
    assert Pow256(7) >= Pow256(6);
  }

  // ------------------------------------------------------------------ frames

  datatype Metadata = Metadata(
    payloadLength: nat, encodedLength: nat, payloadDigest: bytes, headerDigest: bytes)

  function HeaderCore<S>(c: Codec<S>, payload: bytes): bytes {
    FRAME_MAGIC + [0, 3, 0, 96] + [0, 0, 0, 0] + BigEndian(|payload|, 8) +
    BigEndian(|payload| + FRAME_OVERHEAD, 8) + c.hash(payload)
  }

  function Header<S>(c: Codec<S>, payload: bytes): bytes {
    HeaderCore(c, payload) + c.hash(HeaderCore(c, payload))
  }

  function FooterCore<S>(c: Codec<S>, payload: bytes): bytes {
    COMMIT_MAGIC + [0, 3, 0, 128] + [0, 0, 0, 0] + BigEndian(|payload|, 8) +
    BigEndian(|payload| + FRAME_OVERHEAD, 8) + c.hash(payload) + c.hash(HeaderCore(c, payload))
  }

  function Footer<S>(c: Codec<S>, payload: bytes): bytes {
    FooterCore(c, payload) + c.hash(FooterCore(c, payload))
  }

  function EncodeFrame<S>(c: Codec<S>, payload: bytes): bytes {
    Header(c, payload) + payload + Footer(c, payload)
  }

  function MetadataOf<S>(c: Codec<S>, payload: bytes): Metadata {
    Metadata(|payload|, |payload| + FRAME_OVERHEAD, c.hash(payload), c.hash(HeaderCore(c, payload)))
  }

  predicate LengthsAccepted(m: Metadata) {
    && 0 < m.payloadLength <= MAX_FRAME_BYTES
    && m.encodedLength == FRAME_HEADER + m.payloadLength + FRAME_FOOTER
    && m.encodedLength <= MAX_ENCODED_FRAME_BYTES
  }

  function Uint16(high: byte, low: byte): nat {
    256 * (high as nat) + low as nat
  }

  predicate PrologueMatches(s: bytes, magic: bytes, size: nat)
    requires |s| >= 16
  {
    && s[..8] == magic
    && Uint16(s[8], s[9]) == 3
    && Uint16(s[10], s[11]) == size
    && s[12..16] == [0, 0, 0, 0]
  }

  function DecodeHeader<S>(c: Codec<S>, header: bytes): Option<Metadata>
    requires |header| == FRAME_HEADER
  {
    if !PrologueMatches(header, FRAME_MAGIC, FRAME_HEADER) then None
    else if header[64..] != c.hash(header[..64]) then None
    else
      var m := Metadata(FromBigEndian(header[16..24]), FromBigEndian(header[24..32]), header[32..64], header[64..96]);
      if LengthsAccepted(m) then Some(m) else None
  }

  function DecodeFooter<S>(c: Codec<S>, footer: bytes): Option<Metadata>
    requires |footer| == FRAME_FOOTER
  {
    if !PrologueMatches(footer, COMMIT_MAGIC, FRAME_FOOTER) then None
    else if footer[96..] != c.hash(footer[..96]) then None
    else
      var m := Metadata(FromBigEndian(footer[16..24]), FromBigEndian(footer[24..32]), footer[32..64], footer[64..96]);
      if LengthsAccepted(m) then Some(m) else None
  }

  lemma HeaderDecodes<S(!new)>(c: Codec<S>, payload: bytes)
    requires ValidCodec(c) && 0 < |payload| <= MAX_FRAME_BYTES
    ensures |Header(c, payload)| == FRAME_HEADER
    ensures DecodeHeader(c, Header(c, payload)) == Some(MetadataOf(c, payload))
  {
    var core := HeaderCore(c, payload);
    var h := Header(c, payload);
    assert |core| == 64;
    assert h[..64] == core;
    assert h[64..] == c.hash(core);
    assert h[64..96] == c.hash(core);
    assert h[..8] == FRAME_MAGIC && h[12..16] == [0, 0, 0, 0];
    assert h[16..24] == BigEndian(|payload|, 8);
    assert h[24..32] == BigEndian(|payload| + FRAME_OVERHEAD, 8);
    assert h[32..64] == c.hash(payload);
    FrameLengthsFit();
    BigEndianDecodes(|payload|, 8);
    BigEndianDecodes(|payload| + FRAME_OVERHEAD, 8);
  }

  lemma FooterDecodes<S(!new)>(c: Codec<S>, payload: bytes)
    requires ValidCodec(c) && 0 < |payload| <= MAX_FRAME_BYTES
    ensures |Footer(c, payload)| == FRAME_FOOTER
    ensures DecodeFooter(c, Footer(c, payload)) == Some(MetadataOf(c, payload))
  {
    var core := FooterCore(c, payload);
    var f := Footer(c, payload);
    assert |core| == 96;
    assert f[..96] == core;
    assert f[96..] == c.hash(core);
    assert f[..8] == COMMIT_MAGIC && f[12..16] == [0, 0, 0, 0];
    assert f[16..24] == BigEndian(|payload|, 8);
    assert f[24..32] == BigEndian(|payload| + FRAME_OVERHEAD, 8);
    assert f[32..64] == c.hash(payload);
    assert f[64..96] == c.hash(HeaderCore(c, payload));
    FrameLengthsFit();
    BigEndianDecodes(|payload|, 8);
    BigEndianDecodes(|payload| + FRAME_OVERHEAD, 8);
  }

  // ---------------------------------------------------------------- recovery

  /** A self-validating commit record whose repeated length places it exactly at
      the end of the frame that starts at `raw[0]`. */
  predicate FooterEndsFrameAt<S>(c: Codec<S>, raw: bytes, at: nat)
    requires at + FRAME_FOOTER <= |raw|
  {
    var footer := DecodeFooter(c, raw[at..at + FRAME_FOOTER]);
    footer.Some? && footer.value.encodedLength == at + FRAME_FOOTER
  }

  ghost predicate HasCommittedFooter<S(!new)>(c: Codec<S>, raw: bytes) {
    exists at: nat :: at + FRAME_FOOTER <= |raw| && FooterEndsFrameAt(c, raw, at)
  }

  predicate OccursAt(raw: bytes, magic: bytes, at: nat) {
    at + |magic| <= |raw| && raw[at..at + |magic|] == magic
  }

  /** First occurrence of `magic` at or after `from`, as bytes.Index finds it. */
  method IndexFrom(raw: bytes, magic: bytes, from: nat) returns (at: int)
    requires from <= |raw|
    ensures at < 0 ==> forall i :: from <= i ==> !OccursAt(raw, magic, i)
    ensures at >= 0 ==> at >= from && OccursAt(raw, magic, at) &&
                        forall i :: from <= i < at ==> !OccursAt(raw, magic, i)
  {
    at := from;
    while at + |magic| <= |raw|
      invariant from <= at
      invariant forall i :: from <= i < at ==> !OccursAt(raw, magic, i)
      decreases |raw| - at
    {
      if OccursAt(raw, magic, at) { return; }
      at := at + 1;
    }
    at := -1;
  }

  lemma FooterStartsWithMagic<S>(c: Codec<S>, raw: bytes, at: nat)
    requires at + FRAME_FOOTER <= |raw| && FooterEndsFrameAt(c, raw, at)
    ensures OccursAt(raw, COMMIT_MAGIC, at)
  {
    assert raw[at..at + FRAME_FOOTER][..8] == raw[at..at + 8];
  }

  method CommittedFooterInRange<S(!new)>(c: Codec<S>, raw: bytes) returns (found: bool)
    ensures found <==> HasCommittedFooter(c, raw)
  {
    if |raw| < FRAME_FOOTER { return false; }
    var searchAt := 0;
    while searchAt + FRAME_FOOTER <= |raw|
      invariant 0 <= searchAt <= |raw|
      invariant forall at: nat :: at < searchAt && at + FRAME_FOOTER <= |raw| ==> !FooterEndsFrameAt(c, raw, at)
    {
      var at := IndexFrom(raw, COMMIT_MAGIC, searchAt);
      forall i: nat | i + FRAME_FOOTER <= |raw| && FooterEndsFrameAt(c, raw, i) ensures OccursAt(raw, COMMIT_MAGIC, i) {
        FooterStartsWithMagic(c, raw, i);
      }
      if at < 0 { return false; }
      if at + FRAME_FOOTER <= |raw| {
        if FooterEndsFrameAt(c, raw, at) { return true; }
      }
      searchAt := at + 1;
    }
    return false;
  }

  /** What recovery finds at the start of a non-empty suffix of the file. */
  datatype FrameRead<+S> = Damaged | Incomplete | Complete(state: S, encodedLength: nat)

  ghost function ReadFrame<S(!new)>(c: Codec<S>, raw: bytes): (r: FrameRead<S>)
    ensures r.Complete? ==> 0 < r.encodedLength <= |raw|
  {
    if |raw| < FRAME_HEADER then Incomplete
    else
      var header := DecodeHeader(c, raw[..FRAME_HEADER]);
      if header.None? then Damaged
      else
        var m := header.value;
        if m.encodedLength > |raw| then
          if HasCommittedFooter(c, raw) then Damaged else Incomplete
        else
          ReadBody(c, m, raw[FRAME_HEADER..m.encodedLength])
  }

  /** The payload and footer announced by the header metadata `m`. */
  function ReadBody<S>(c: Codec<S>, m: Metadata, body: bytes): (r: FrameRead<S>)
    requires LengthsAccepted(m) && |body| == m.payloadLength + FRAME_FOOTER
    ensures r.Complete? ==> r.encodedLength == m.encodedLength
  {
    var payload := body[..m.payloadLength];
    if c.hash(payload) != m.payloadDigest then Damaged
    else if DecodeFooter(c, body[m.payloadLength..]) != Some(m) then Damaged
    else
      var state := c.unmarshal(payload);
      if state.None? then Damaged else Complete(state.value, m.encodedLength)
  }

  method ReadFrameAt<S(!new)>(c: Codec<S>, file: bytes, offset: nat) returns (r: FrameRead<S>)
    requires offset < |file|
    ensures r == ReadFrame(c, file[offset..])
  {
    var remaining := |file| - offset;
    if remaining < FRAME_HEADER { return Incomplete; }
    ghost var raw := file[offset..];
    assert raw[..FRAME_HEADER] == file[offset..offset + FRAME_HEADER];
    var header := DecodeHeader(c, file[offset..offset + FRAME_HEADER]);
    if header.None? { return Damaged; }
    var m := header.value;
    if m.encodedLength > remaining {
      var committed := CommittedFooterInRange(c, file[offset..]);
      return if committed then Damaged else Incomplete;
    }
    assert file[offset + FRAME_HEADER..offset + m.encodedLength] == raw[FRAME_HEADER..m.encodedLength];
    r := ReadBody(c, m, file[offset + FRAME_HEADER..offset + m.encodedLength]);
  }

  datatype LoadResult<+S> = Corrupt | Loaded(state: S, offset: nat, frames: nat, torn: bool)

  /** Recovery of the suffix `raw`, which starts `offset` bytes into the file. */
  ghost function LoadFrom<S(!new)>(c: Codec<S>, raw: bytes, offset: nat, frames: nat, latest: S): LoadResult<S>
    decreases |raw|
  {
    if raw == [] then Loaded(latest, offset, frames, false)
    else if frames >= RETAINED_FRAMES then Corrupt
    else
      match ReadFrame(c, raw)
      case Damaged => Corrupt
      case Incomplete => Loaded(latest, offset, frames, true)
      case Complete(state, encodedLength) =>
        LoadFrom(c, raw[encodedLength..], offset + encodedLength, frames + 1, state)
  }

  ghost function Load<S(!new)>(c: Codec<S>, file: bytes): LoadResult<S> {
    if |file| > MAX_RECOVERY_BYTES then Corrupt else LoadFrom(c, file, 0, 0, c.empty)
  }

  method LoadFile<S(!new)>(c: Codec<S>, file: bytes) returns (r: LoadResult<S>)
    ensures r == Load(c, file)
  {
    hide ReadFrame;
    if |file| > MAX_RECOVERY_BYTES { return Corrupt; }
    var offset: nat, frames: nat, latest := 0, 0, c.empty;
    ghost var goal := LoadFrom(c, file, 0, 0, c.empty);
    assert file[0..] == file;
    while offset < |file|
      invariant 0 <= offset <= |file|
      invariant goal == LoadFrom(c, file[offset..], offset, frames, latest)
    {
      if frames >= RETAINED_FRAMES { return Corrupt; }
      var read := ReadFrameAt(c, file, offset);
      match read {
        case Damaged => return Corrupt;
        case Incomplete => return Loaded(latest, offset, frames, true);
        case Complete(state, encodedLength) =>
          assert file[offset..][encodedLength..] == file[offset + encodedLength..];
          offset, frames, latest := offset + encodedLength, frames + 1, state;
      }
    }
    return Loaded(latest, offset, frames, false);
  }
}

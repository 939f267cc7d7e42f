/** Damage to the newest committed frame: recovery fails closed instead of
    rolling back, unless the damage exhibits a collision of the hash. */
module JournalTamper {
  import opened Prelude
  import opened Journal
  import opened JournalRecovery

  ghost predicate Collision<S>(c: Codec<S>, x: bytes, y: bytes) {
    x != y && c.hash(x) == c.hash(y)
  }

  lemma PayloadDamageDetected<S(!new)>(c: Codec<S>, payload: bytes, damaged: bytes)
    requires ValidCodec(c) && 0 < |payload| <= MAX_FRAME_BYTES
    requires |damaged| == |payload| && damaged != payload
    ensures ReadFrame(c, Header(c, payload) + damaged + Footer(c, payload)) == Damaged || Collision(c, payload, damaged)
  {
    HeaderDecodes(c, payload);
    FooterDecodes(c, payload);
    var raw := Header(c, payload) + damaged + Footer(c, payload);
    var m := MetadataOf(c, payload);
    PartsOf(Header(c, payload), damaged, Footer(c, payload));
  }

  /** The footer is determined bit for bit by the metadata it decodes to. */
  lemma FooterDamageDetected<S(!new)>(c: Codec<S>, payload: bytes, damaged: bytes)
    requires ValidCodec(c) && 0 < |payload| <= MAX_FRAME_BYTES
    requires |damaged| == FRAME_FOOTER && damaged != Footer(c, payload)
    ensures ReadFrame(c, Header(c, payload) + payload + damaged) == Damaged
  {
    HeaderDecodes(c, payload);
    var raw := Header(c, payload) + payload + damaged;
    var m := MetadataOf(c, payload);
    PartsOf(Header(c, payload), payload, damaged);
    if DecodeFooter(c, damaged) == Some(m) { FooterDetermined(c, payload, damaged); }
  }

  lemma FooterDetermined<S(!new)>(c: Codec<S>, payload: bytes, footer: bytes)
    requires ValidCodec(c) && |footer| == FRAME_FOOTER
    requires DecodeFooter(c, footer) == Some(MetadataOf(c, payload))
    ensures footer == Footer(c, payload)
  {
    FooterFields(c, payload, footer);
    hide DecodeFooter, MetadataOf;
    SevenParts(footer);
    assert footer[..96] == FooterCore(c, payload) by { hide Footer; }
    hide FooterCore;
    assert footer == footer[..96] + footer[96..] by { hide *; }
  }

  lemma FooterFields<S(!new)>(c: Codec<S>, payload: bytes, footer: bytes)
    requires |footer| == FRAME_FOOTER && DecodeFooter(c, footer) == Some(MetadataOf(c, payload))
    ensures footer[..8] == COMMIT_MAGIC && footer[8..12] == [0, 3, 0, 128] && footer[12..16] == [0, 0, 0, 0]
    ensures footer[16..24] == BigEndian(|payload|, 8) && footer[24..32] == BigEndian(|payload| + FRAME_OVERHEAD, 8)
    ensures footer[32..64] == c.hash(payload) && footer[64..96] == c.hash(HeaderCore(c, payload))
    ensures footer[96..] == c.hash(footer[..96])
  {
    hide BigEndian, FromBigEndian, HeaderCore, PrologueMatches, LengthsAccepted;
    BigEndianEncodes(footer[16..24]);
    BigEndianEncodes(footer[24..32]);
    Prologue(footer);
  }

  lemma Prologue(footer: bytes)
    requires |footer| == FRAME_FOOTER
    ensures PrologueMatches(footer, COMMIT_MAGIC, FRAME_FOOTER) ==>
              footer[..8] == COMMIT_MAGIC && footer[8..12] == [0, 3, 0, 128] && footer[12..16] == [0, 0, 0, 0]
  {
    Halves(footer[8], footer[9], 3);
    Halves(footer[10], footer[11], 128);
    assert footer[8..12] == [footer[8], footer[9], footer[10], footer[11]];
    hide Uint16;
  }

  lemma Halves(high: byte, low: byte, n: byte)
    ensures Uint16(high, low) == n ==> high == 0 && low == n
  {
  }

  lemma SevenParts(footer: bytes)
    requires |footer| == 128
    ensures footer[..96] == footer[..8] + footer[8..12] + footer[12..16] + footer[16..24] + footer[24..32] +
                           footer[32..64] + footer[64..96]
  {
  }

  /** Where the parts of a frame lie. */
  lemma PartsOf(x: bytes, y: bytes, z: bytes)
    ensures var raw := x + y + z;
            && raw[..|x|] == x && raw[|x|..|raw|][..|y|] == y && raw[|x|..|raw|][|y|..] == z
            && raw[|x| + |y|..][..|z|] == z && raw[|x| + |y|..|x| + |y| + |z|] == z
  {
  }

  /** A damaged header that announces another length is exposed by the footer
      that still stands where the real frame ends. */
  lemma HeaderDamageDetected<S(!new)>(c: Codec<S>, payload: bytes, damaged: bytes)
    requires ValidCodec(c) && 0 < |payload| <= MAX_FRAME_BYTES && ZeroFree(payload)
    requires |damaged| == FRAME_HEADER && damaged != Header(c, payload)
    ensures ReadFrame(c, damaged + payload + Footer(c, payload)) == Damaged ||
            Collision(c, HeaderCore(c, payload), damaged[..64])
  {
    FooterDecodes(c, payload);
    var footer := Footer(c, payload);
    var raw := damaged + payload + footer;
    PartsOf(damaged, payload, footer);
    var header := DecodeHeader(c, damaged);
    if header.Some? {
      var m := header.value;
      if m.encodedLength > |raw| {
        assert FooterEndsFrameAt(c, raw, FRAME_HEADER + |payload|);
      } else if m.encodedLength == |raw| {
        HeaderIsOther(c, payload, damaged);
      } else {
        ShortenedBodyDamaged(c, payload, damaged, m);
      }
    }
  }

  /** Two headers that differ, each ending in the hash of its core, differ in their cores. */
  lemma HeaderIsOther<S(!new)>(c: Codec<S>, payload: bytes, damaged: bytes)
    requires |damaged| == FRAME_HEADER && damaged != Header(c, payload) && DecodeHeader(c, damaged).Some?
    ensures damaged[..64] != HeaderCore(c, payload) && damaged[64..] == damaged[64..96] == c.hash(damaged[..64])
  {
    assert damaged == damaged[..64] + damaged[64..];
    hide HeaderCore, PrologueMatches, FromBigEndian, LengthsAccepted;
  }

  lemma ShortenedBodyDamaged<S(!new)>(c: Codec<S>, payload: bytes, damaged: bytes, m: Metadata)
    requires ValidCodec(c) && 0 < |payload| <= MAX_FRAME_BYTES && ZeroFree(payload)
    requires |damaged| == FRAME_HEADER && |Footer(c, payload)| == FRAME_FOOTER
    requires LengthsAccepted(m) && m.payloadLength < |payload|
    ensures ReadBody(c, m, (damaged + payload + Footer(c, payload))[FRAME_HEADER..m.encodedLength]) == Damaged
  {
    var body := (damaged + payload + Footer(c, payload))[FRAME_HEADER..m.encodedLength];
    var footer := body[m.payloadLength..];
    NoPrologueAt(c, payload, m.payloadLength);
    hide Footer, DecodeFooter;
    TailOf(damaged, payload, Footer(c, payload), m.payloadLength);
    TailIsNoFooter(c, footer);
  }

  /** What stands after the first `n` bytes of a body that was cut as if its payload had length n. */
  lemma TailOf(x: bytes, y: bytes, z: bytes, n: nat)
    requires n < |y| && |z| == FRAME_FOOTER
    ensures var tail := (x + y + z)[|x|..|x| + n + FRAME_FOOTER][n..];
            |tail| == FRAME_FOOTER && tail[..8] == (y + z)[n..n + 8] && tail[8] == (y + z)[n + 8]
  {
  }

  lemma TailIsNoFooter<S(!new)>(c: Codec<S>, tail: bytes)
    requires |tail| == FRAME_FOOTER && (tail[..8] != COMMIT_MAGIC || tail[8] != 0)
    ensures DecodeFooter(c, tail) == None
  {
  }

  lemma NoPrologueAt<S(!new)>(c: Codec<S>, payload: bytes, at: nat)
    requires ValidCodec(c) && ZeroFree(payload) && at < |payload| && |Footer(c, payload)| == FRAME_FOOTER
    ensures var whole := payload + Footer(c, payload);
            whole[at..at + 8] != COMMIT_MAGIC || whole[at + 8] != 0
  {
    var footer := Footer(c, payload);
    var whole := payload + footer;
    assert footer[0] == COMMIT_MAGIC[0];
    if at + 8 < |payload| {
      assert whole[at + 8] == payload[at + 8];
    } else if at + 8 == |payload| {
      assert whole[at + 8] == footer[0];
    } else {
      var overlap := |payload| - at;
      assert whole[at..at + 8][overlap] == footer[0] != COMMIT_MAGIC[overlap];
    }
  }

  datatype Region = InHeader | InPayload | InFooter

  /** The newest frame with one of its three parts replaced by other bytes of the same length. */
  function DamagedFrame<S>(c: Codec<S>, payload: bytes, region: Region, damage: bytes): bytes {
    match region
    case InHeader => damage + payload + Footer(c, payload)
    case InPayload => Header(c, payload) + damage + Footer(c, payload)
    case InFooter => Header(c, payload) + payload + damage
  }

  function Original<S>(c: Codec<S>, payload: bytes, region: Region): bytes {
    match region
    case InHeader => Header(c, payload)
    case InPayload => payload
    case InFooter => Footer(c, payload)
  }

  /** Damage confined to one part of the newest frame of a committed journal is
      reported as corruption, or two different byte strings with one hash are at hand. */
  lemma NewestFrameDamageDetected<S(!new)>(c: Codec<S>, older: seq<S>, newest: S, region: Region, damage: bytes)
    requires ValidCodec(c) && AllEncodable(c, older) && Encodable(c, newest) && |older| < RETAINED_FRAMES
    requires |damage| == |Original(c, c.marshal(newest), region)|
    requires damage != Original(c, c.marshal(newest), region)
    ensures var payload := c.marshal(newest);
            || Load(c, Frames(c, older) + DamagedFrame(c, payload, region, damage)) == Corrupt
            || Collision(c, payload, damage)
            || (region == InHeader && Collision(c, HeaderCore(c, payload), damage[..64]))
  {
    hide ReadFrame, Frames, DamagedFrame, Header, Footer, HeaderCore, Load;
    var payload := c.marshal(newest);
    var frame := DamagedFrame(c, payload, region, damage);
    FrameDamageDetected(c, payload, region, damage);
    if ReadFrame(c, frame) == Damaged { DamageIsCorruption(c, older, frame); }
  }

  lemma FrameDamageDetected<S(!new)>(c: Codec<S>, payload: bytes, region: Region, damage: bytes)
    requires ValidCodec(c) && 0 < |payload| <= MAX_FRAME_BYTES && ZeroFree(payload)
    requires |damage| == |Original(c, payload, region)| && damage != Original(c, payload, region)
    ensures DamagedFrame(c, payload, region, damage) != []
    ensures
      || ReadFrame(c, DamagedFrame(c, payload, region, damage)) == Damaged
      || Collision(c, payload, damage)
      || (region == InHeader && Collision(c, HeaderCore(c, payload), damage[..64]))
  {
    HeaderDecodes(c, payload);
    FooterDecodes(c, payload);
    hide ReadFrame, Header, Footer, HeaderCore;
    match region {
      case InHeader => HeaderDamageDetected(c, payload, damage);
      case InPayload => PayloadDamageDetected(c, payload, damage);
      case InFooter => FooterDamageDetected(c, payload, damage);
    }
  }

  lemma DamageIsCorruption<S(!new)>(c: Codec<S>, older: seq<S>, frame: bytes)
    requires ValidCodec(c) && AllEncodable(c, older) && |older| < RETAINED_FRAMES
    requires frame != [] && ReadFrame(c, frame) == Damaged
    ensures Load(c, Frames(c, older) + frame) == Corrupt
  {
    hide FrameOf, ReadFrame, Frames;
    LoadSkipsFrames(c, older, frame, 0, 0, c.empty);
  }
}

/** Crash recovery of the journal: what `Load` returns for every file that a
    history of commits, compactions, crashes and reopenings can leave behind. */
module JournalRecovery {
  import opened Prelude
  import opened Journal

  // ------------------------------------------------- complete and torn frames

  function FrameOf<S>(c: Codec<S>, s: S): bytes {
    EncodeFrame(c, c.marshal(s))
  }

  predicate Encodable<S>(c: Codec<S>, s: S) {
    c.valid(s) && |c.marshal(s)| <= MAX_FRAME_BYTES
  }

  lemma FrameLength<S(!new)>(c: Codec<S>, payload: bytes)
    requires ValidCodec(c) && 0 < |payload| <= MAX_FRAME_BYTES
    ensures |EncodeFrame(c, payload)| == |payload| + FRAME_OVERHEAD
  {
    HeaderDecodes(c, payload);
    FooterDecodes(c, payload);
  }

  /** Where header and body of a frame lie, whatever follows. */
  lemma FrameParts(x: bytes, y: bytes, z: bytes, rest: bytes)
    ensures var raw := x + y + z + rest;
            raw[..|x|] == x && raw[|x|..|x| + |y| + |z|] == y + z && |raw| >= |x| + |y| + |z|
  {
  }

  /** A complete frame is read back whatever follows it. */
  lemma CompleteFrameReads<S(!new)>(c: Codec<S>, s: S, rest: bytes)
    requires ValidCodec(c) && Encodable(c, s)
    ensures ReadFrame(c, FrameOf(c, s) + rest) == Complete(s, |FrameOf(c, s)|)
  {
    hide Header, Footer, HeaderCore, FooterCore, DecodeHeader, DecodeFooter, ReadBody, HasCommittedFooter, ZeroFree;
    var payload := c.marshal(s);
    FrameLength(c, payload);
    HeaderDecodes(c, payload);
    BodyReads(c, s);
    FrameParts(Header(c, payload), payload, Footer(c, payload), rest);
  }

  lemma BodyReads<S(!new)>(c: Codec<S>, s: S)
    requires ValidCodec(c) && Encodable(c, s)
    ensures var payload := c.marshal(s);
            |Footer(c, payload)| == FRAME_FOOTER &&
            ReadBody(c, MetadataOf(c, payload), payload + Footer(c, payload)) ==
            Complete(s, |payload| + FRAME_OVERHEAD)
  {
    var payload := c.marshal(s);
    FooterDecodes(c, payload);
    var body := payload + Footer(c, payload);
    assert body[..|payload|] == payload by { hide *; }
    assert body[|payload|..] == Footer(c, payload) by { hide *; }
  }

  /** The commit magic cannot start inside a zero-free payload, nor overlap the
      real commit magic, and still be followed by the zero bytes of a footer. */
  lemma NoFooterInTornFrame<S(!new)>(c: Codec<S>, payload: bytes, cut: nat)
    requires ValidCodec(c) && 0 < |payload| <= MAX_FRAME_BYTES && ZeroFree(payload)
    requires FRAME_HEADER <= cut < |payload| + FRAME_OVERHEAD == |EncodeFrame(c, payload)|
    ensures !HasCommittedFooter(c, EncodeFrame(c, payload)[..cut])
  {
    var raw := EncodeFrame(c, payload)[..cut];
    forall at: nat | at + FRAME_FOOTER <= |raw| ensures !FooterEndsFrameAt(c, raw, at) {
      if at > FRAME_HEADER { NoPrologueInFrame(c, payload, cut, at); }
      if FooterEndsFrameAt(c, raw, at) { FooterPrologue(c, raw, at); }
    }
  }

  lemma FooterPrologue<S>(c: Codec<S>, raw: bytes, at: nat)
    requires at + FRAME_FOOTER <= |raw| && FooterEndsFrameAt(c, raw, at)
    ensures at > FRAME_HEADER && raw[at..at + 8] == COMMIT_MAGIC && raw[at + 8] == 0
  {
    var footer := raw[at..at + FRAME_FOOTER];
    assert footer[..8] == raw[at..at + 8] && footer[8] == raw[at + 8];
  }

  lemma NoPrologueInFrame<S(!new)>(c: Codec<S>, payload: bytes, cut: nat, at: nat)
    requires ValidCodec(c) && 0 < |payload| <= MAX_FRAME_BYTES && ZeroFree(payload)
    requires FRAME_HEADER < at <= cut - FRAME_FOOTER && cut < |payload| + FRAME_OVERHEAD == |EncodeFrame(c, payload)|
    ensures var raw := EncodeFrame(c, payload)[..cut];
            raw[at..at + 8] != COMMIT_MAGIC || raw[at + 8] != 0
  {
    FrameBytes(c, payload);
    var raw := EncodeFrame(c, payload)[..cut];
    var footerAt := FRAME_HEADER + |payload|;
    if at + 8 < footerAt {
      assert raw[at + 8] == payload[at + 8 - FRAME_HEADER];
    } else if at + 8 == footerAt {
      assert raw[at + 8] == COMMIT_MAGIC[0];
    } else {
      var overlap := footerAt - at;
      assert raw[at..at + 8][overlap] == COMMIT_MAGIC[0] != COMMIT_MAGIC[overlap];
    }
  }

  lemma FrameBytes<S(!new)>(c: Codec<S>, payload: bytes)
    requires ValidCodec(c) && 0 < |payload| <= MAX_FRAME_BYTES
    ensures var frame := EncodeFrame(c, payload);
            && |frame| == |payload| + FRAME_OVERHEAD
            && (forall i :: 0 <= i < |payload| ==> frame[FRAME_HEADER + i] == payload[i])
            && frame[FRAME_HEADER + |payload|] == COMMIT_MAGIC[0]
  {
    HeaderDecodes(c, payload);
    FooterDecodes(c, payload);
    var footer := Footer(c, payload);
    assert footer[0] == footer[..8][0] == COMMIT_MAGIC[0];
  }

  /** A strict prefix of a frame is a crash tail, never a frame and never corruption. */
  lemma TornFrameReads<S(!new)>(c: Codec<S>, payload: bytes, cut: nat)
    requires ValidCodec(c) && 0 < |payload| <= MAX_FRAME_BYTES && ZeroFree(payload)
    requires 0 < cut < |EncodeFrame(c, payload)|
    ensures ReadFrame(c, EncodeFrame(c, payload)[..cut]) == Incomplete
  {
    FrameLength(c, payload);
    if cut >= FRAME_HEADER {
      HeaderDecodes(c, payload);
      NoFooterInTornFrame(c, payload, cut);
      var header := Header(c, payload);
      assert EncodeFrame(c, payload)[..cut][..FRAME_HEADER] == header;
    }
  }

  // --------------------------------------------------------- files of frames

  ghost function Frames<S>(c: Codec<S>, states: seq<S>): bytes {
    if states == [] then [] else Frames(c, states[..|states| - 1]) + FrameOf(c, states[|states| - 1])
  }

  ghost function Latest<S>(c: Codec<S>, states: seq<S>): S {
    if states == [] then c.empty else states[|states| - 1]
  }

  ghost predicate AllEncodable<S>(c: Codec<S>, states: seq<S>) {
    forall i :: 0 <= i < |states| ==> Encodable(c, states[i])
  }

  lemma {:induction false} FramesAppend<S>(c: Codec<S>, s: S, states: seq<S>)
    ensures Frames(c, [s] + states) == FrameOf(c, s) + Frames(c, states)
  {
    hide FrameOf;
    if states == [] {
      assert Frames(c, [s]) == Frames(c, []) + FrameOf(c, s) by { assert [s][..0] == []; }
      assert [s] + states == [s];
    } else {
      var front, last := states[..|states| - 1], states[|states| - 1];
      FramesAppend(c, s, front);
      assert ([s] + states)[..|states|] == [s] + front;
    }
  }

  /** One complete frame, and then what follows it. */
  lemma LoadStep<S(!new)>(c: Codec<S>, frame: bytes, s: S, rest: bytes, offset: nat, frames: nat, latest: S)
    requires frame != [] && ReadFrame(c, frame + rest) == Complete(s, |frame|) && frames < RETAINED_FRAMES
    ensures LoadFrom(c, frame + rest, offset, frames, latest) == LoadFrom(c, rest, offset + |frame|, frames + 1, s)
  {
    hide ReadFrame;
    assert (frame + rest)[|frame|..] == rest;
  }

  /** Recovery walks over complete frames and continues with what follows them. */
  lemma {:induction false} LoadSkipsFrames<S(!new)>(c: Codec<S>, states: seq<S>, rest: bytes, offset: nat, frames: nat, latest: S)
    requires ValidCodec(c) && AllEncodable(c, states) && frames + |states| <= RETAINED_FRAMES
    ensures LoadFrom(c, Frames(c, states) + rest, offset, frames, latest) ==
            LoadFrom(c, rest, offset + |Frames(c, states)|, frames + |states|,
                     if states == [] then latest else states[|states| - 1])
    decreases |states|
  {
    hide FrameOf, ReadFrame, LoadFrom;
    if states == [] {
      assert Frames(c, states) + rest == rest;
    } else {
      var tail := states[1..];
      var frame := FrameOf(c, states[0]);
      var remainder := Frames(c, tail) + rest;
      FramesSplit(c, states, rest);
      CompleteFrameReads(c, states[0], remainder);
      LoadStep(c, frame, states[0], remainder, offset, frames, latest);
      LoadSkipsFrames(c, tail, rest, offset + |frame|, frames + 1, states[0]);
    }
  }

  lemma FramesSplit<S(!new)>(c: Codec<S>, states: seq<S>, rest: bytes)
    requires ValidCodec(c) && AllEncodable(c, states) && states != []
    ensures var frame := FrameOf(c, states[0]);
            Frames(c, states) + rest == frame + (Frames(c, states[1..]) + rest) && frame != []
            && |Frames(c, states)| == |frame| + |Frames(c, states[1..])|
  {
    hide FrameOf, Frames, Encodable;
    FrameIsSome(c, states[0]);
    assert states == [states[0]] + states[1..];
    FramesAppend(c, states[0], states[1..]);
  }

  lemma FrameIsSome<S(!new)>(c: Codec<S>, s: S)
    requires ValidCodec(c) && Encodable(c, s)
    ensures FrameOf(c, s) != []
  {
    hide Header, Footer;
    FrameLength(c, c.marshal(s));
  }

  // ---------------------------------------------------------- store histories

  /** The file on disk together with what the running process believes about it. */
  datatype Disk<+S> = Disk(file: bytes, state: S, frames: nat)

  predicate ShouldCompact(currentBytes: nat, nextFrameBytes: nat, frames: nat) {
    currentBytes + nextFrameBytes > MAX_JOURNAL_BYTES || frames >= RETAINED_FRAMES
  }

  /** A completed append or compaction; a state too large to encode is refused. */
  ghost function Append<S>(c: Codec<S>, d: Disk<S>, next: S): Disk<S> {
    var frame := FrameOf(c, next);
    if |c.marshal(next)| > MAX_FRAME_BYTES then d
    else if ShouldCompact(|d.file|, |frame|, d.frames) then Disk(frame, next, 1)
    else Disk(d.file + frame, next, d.frames + 1)
  }

  /** The file after only `cut` bytes of the next frame were written. A staged
      compaction is renamed over the journal only once it is written in full. */
  ghost function CrashedFile<S>(c: Codec<S>, d: Disk<S>, next: S, cut: nat): bytes {
    var frame := FrameOf(c, next);
    if |c.marshal(next)| > MAX_FRAME_BYTES then d.file
    else if cut >= |frame| then Append(c, d, next).file
    else if ShouldCompact(|d.file|, |frame|, d.frames) then d.file
    else d.file + frame[..cut]
  }

  predicate PartialMagic(file: bytes) {
    if |file| <= |FRAME_MAGIC| then file == FRAME_MAGIC[..|file|] else file[..|FRAME_MAGIC|] == FRAME_MAGIC
  }

  /** Opening a store: recover, refuse foreign bytes, cut a torn tail off, and
      compact a journal of several frames. */
  ghost function Open<S(!new)>(c: Codec<S>, file: bytes): Option<Disk<S>> {
    match Load(c, file)
    case Corrupt => None
    case Loaded(state, offset, frames, torn) =>
      if file != [] && frames == 0 && !PartialMagic(file) then None
      else if frames > 1 then Some(Disk(FrameOf(c, state), state, 1))
      else Some(Disk(if torn && offset <= |file| then file[..offset] else file, state, frames))
  }

  datatype Event<+S> = Commit(next: S) | Crash(next: S, cut: nat)

  ghost function Apply<S(!new)>(c: Codec<S>, d: Disk<S>, e: Event<S>): Option<Disk<S>> {
    match e
    case Commit(next) => Some(Append(c, d, next))
    case Crash(next, cut) => Open(c, CrashedFile(c, d, next, cut))
  }

  ghost function History<S(!new)>(c: Codec<S>, events: seq<Event<S>>): Option<Disk<S>> {
    if events == [] then Open(c, [])
    else
      var d := History(c, events[..|events| - 1]);
      if d.None? then None else Apply(c, d.value, events[|events| - 1])
  }

  /** What a client of an atomic store expects after the same history. */
  ghost function Expected<S>(c: Codec<S>, events: seq<Event<S>>): S {
    if events == [] then c.empty
    else
      var before := Expected(c, events[..|events| - 1]);
      match events[|events| - 1]
      case Commit(next) => if |c.marshal(next)| > MAX_FRAME_BYTES then before else next
      case Crash(next, cut) =>
        if |c.marshal(next)| > MAX_FRAME_BYTES || cut < |FrameOf(c, next)| then before else next
  }

  ghost predicate ValidEvents<S>(c: Codec<S>, events: seq<Event<S>>) {
    forall i :: 0 <= i < |events| ==> c.valid(events[i].next)
  }

  /** The journal holds exactly the frames of `states`, within both budgets. */
  ghost predicate Holds<S>(c: Codec<S>, d: Disk<S>, states: seq<S>) {
    && AllEncodable(c, states)
    && d.file == Frames(c, states)
    && d.state == Latest(c, states)
    && d.frames == |states| <= RETAINED_FRAMES
    && |d.file| <= MAX_JOURNAL_BYTES
  }

  ghost predicate Committed<S(!new)>(c: Codec<S>, d: Disk<S>) {
    exists states :: Holds(c, d, states)
  }

  lemma SingleFrame<S>(c: Codec<S>, s: S)
    ensures Frames(c, [s]) == FrameOf(c, s)
  {
    hide FrameOf;
    assert [s][..0] == [];
    assert Frames(c, [s]) == Frames(c, []) + FrameOf(c, s);
  }

  lemma AppendKeepsCommitted<S(!new)>(c: Codec<S>, d: Disk<S>, next: S)
    requires ValidCodec(c) && Committed(c, d) && c.valid(next)
    ensures Committed(c, Append(c, d, next))
  {
    if |c.marshal(next)| <= MAX_FRAME_BYTES {
      var states :| Holds(c, d, states);
      var frame := FrameOf(c, next);
      FrameLength(c, c.marshal(next));
      hide FrameOf;
      if ShouldCompact(|d.file|, |frame|, d.frames) {
        SingleFrame(c, next);
        assert Holds(c, Append(c, d, next), [next]);
      } else {
        assert (states + [next])[..|states|] == states;
        assert Holds(c, Append(c, d, next), states + [next]);
      }
    }
  }

  /** Recovery of a committed journal, followed by any strict prefix of one more
      frame that the budgets allowed: the state before it, and a torn tail
      exactly when the prefix is not empty. */
  lemma TornTailLoads<S(!new)>(c: Codec<S>, d: Disk<S>, next: S, cut: nat)
    requires ValidCodec(c) && Committed(c, d) && Encodable(c, next)
    requires cut < |FrameOf(c, next)|
    requires cut == 0 || !ShouldCompact(|d.file|, |FrameOf(c, next)|, d.frames)
    ensures Load(c, d.file + FrameOf(c, next)[..cut]) == Loaded(d.state, |d.file|, d.frames, cut > 0)
  {
    hide FrameOf, ReadFrame, LoadFrom, Frames;
    if cut > 0 { TornStateReads(c, next, cut); }
    var states :| Holds(c, d, states);
    var tail := FrameOf(c, next)[..cut];
    LoadSkipsFrames(c, states, tail, 0, 0, c.empty);
    LoadStopsAtTail(c, tail, |d.file|, d.frames, d.state);
  }

  lemma TornStateReads<S(!new)>(c: Codec<S>, s: S, cut: nat)
    requires ValidCodec(c) && Encodable(c, s) && 0 < cut < |FrameOf(c, s)|
    ensures ReadFrame(c, FrameOf(c, s)[..cut]) == Incomplete
  {
    hide EncodeFrame, ReadFrame;
    TornFrameReads(c, c.marshal(s), cut);
  }

  lemma LoadStopsAtTail<S(!new)>(c: Codec<S>, tail: bytes, offset: nat, frames: nat, latest: S)
    requires tail == [] || (frames < RETAINED_FRAMES && ReadFrame(c, tail) == Incomplete)
    ensures LoadFrom(c, tail, offset, frames, latest) == Loaded(latest, offset, frames, tail != [])
  {
    hide ReadFrame;
  }

  lemma CommittedLoads<S(!new)>(c: Codec<S>, d: Disk<S>)
    requires ValidCodec(c) && Committed(c, d)
    ensures Load(c, d.file) == Loaded(d.state, |d.file|, d.frames, false)
  {
    hide FrameOf, ReadFrame;
    var states :| Holds(c, d, states);
    LoadSkipsFrames(c, states, [], 0, 0, c.empty);
    assert d.file + [] == d.file;
  }

  /** A crash during an append leaves the state before it or the state after it,
      the latter exactly when the frame was written in full. */
  lemma CrashRecovers<S(!new)>(c: Codec<S>, d: Disk<S>, next: S, cut: nat)
    requires ValidCodec(c) && Committed(c, d) && Encodable(c, next)
    ensures var file := CrashedFile(c, d, next, cut);
            var torn := file != d.file && cut < |FrameOf(c, next)|;
            var after := if cut < |FrameOf(c, next)| then d else Append(c, d, next);
            && Load(c, file) == Loaded(after.state, |after.file|, after.frames, torn)
            && |file| <= MAX_RECOVERY_BYTES && after.frames <= RETAINED_FRAMES
            && (torn ==> after.file == file[..|after.file|])
  {
    var frame := FrameOf(c, next);
    hide FrameOf, ReadFrame, Load;
    if cut >= |frame| {
      AppendKeepsCommitted(c, d, next);
      CommittedLoads(c, Append(c, d, next));
    } else if ShouldCompact(|d.file|, |frame|, d.frames) {
      CommittedLoads(c, d);
    } else {
      TornTailLoads(c, d, next, cut);
      assert d.file + frame[..0] == d.file;
    }
  }

  lemma PrefixKeepsMagic<S(!new)>(c: Codec<S>, next: S, cut: nat)
    requires ValidCodec(c) && Encodable(c, next) && cut <= |FrameOf(c, next)|
    ensures PartialMagic(FrameOf(c, next)[..cut])
  {
    HeaderDecodes(c, c.marshal(next));
    var header, frame := Header(c, c.marshal(next)), FrameOf(c, next);
    assert frame[..8] == header[..8] == FRAME_MAGIC;
    if cut <= 8 {
      assert frame[..cut] == FRAME_MAGIC[..cut] by { assert frame[..cut] == frame[..8][..cut]; }
    } else {
      assert frame[..cut][..8] == frame[..8];
    }
  }

  /** A crash of the very first append leaves a prefix of its frame. */
  lemma NoFrameYet<S(!new)>(c: Codec<S>, d: Disk<S>, next: S, cut: nat, states: seq<S>)
    requires ValidCodec(c) && Encodable(c, next) && CrashedFile(c, d, next, cut) != []
    requires var after := if cut < |FrameOf(c, next)| then d else Append(c, d, next);
             after.frames == 0 && Holds(c, after, states)
    ensures PartialMagic(CrashedFile(c, d, next, cut))
  {
    hide FrameOf, PartialMagic, ValidCodec;
    var file := CrashedFile(c, d, next, cut);
    assert d.file == [];
    assert file == FrameOf(c, next)[..cut];
    PrefixKeepsMagic(c, next, cut);
  }

  /** Opening what a crash left is never refused and restores a committed journal. */
  lemma OpenAfterCrash<S(!new)>(c: Codec<S>, d: Disk<S>, next: S, cut: nat)
    requires ValidCodec(c) && Committed(c, d) && Encodable(c, next)
    ensures var result := Open(c, CrashedFile(c, d, next, cut));
            && result.Some? && Committed(c, result.value)
            && result.value.state == (if cut < |FrameOf(c, next)| then d.state else next)
  {
    hide FrameOf, ReadFrame, Load, PartialMagic, ValidCodec;
    CrashRecovers(c, d, next, cut);
    var file := CrashedFile(c, d, next, cut);
    var after := if cut < |FrameOf(c, next)| then d else Append(c, d, next);
    AppendKeepsCommitted(c, d, next);
    var states :| Holds(c, after, states);
    if after.frames == 0 && file != [] {
      NoFrameYet(c, d, next, cut, states);
    }
    if after.frames > 1 {
      var last := states[|states| - 1];
      LatestFits(c, last);
      SingleFrame(c, last);
      assert Holds(c, Open(c, file).value, [last]);
    } else {
      assert Holds(c, Open(c, file).value, states);
    }
  }

  lemma LatestFits<S(!new)>(c: Codec<S>, s: S)
    requires ValidCodec(c) && Encodable(c, s)
    ensures |FrameOf(c, s)| <= MAX_JOURNAL_BYTES
  {
    FrameLength(c, c.marshal(s));
  }

  /** For every history of commits and crashes the store never refuses to open
      and its state is the one an atomic store would have. */
  lemma {:induction false} HistoryIsAtomic<S(!new)>(c: Codec<S>, events: seq<Event<S>>)
    requires ValidCodec(c) && ValidEvents(c, events)
    ensures var d := History(c, events);
            d.Some? && Committed(c, d.value) && d.value.state == Expected(c, events)
  {
    if events == [] {
      var d := Disk([], c.empty, 0);
      assert Holds(c, d, []);
    } else {
      var front, last := events[..|events| - 1], events[|events| - 1];
      assert forall i :: 0 <= i < |front| ==> front[i] == events[i];
      HistoryIsAtomic(c, front);
      var d := History(c, front).value;
      hide FrameOf, Load;
      match last {
        case Commit(next) => AppendKeepsCommitted(c, d, next);
        case Crash(next, cut) =>
          if |c.marshal(next)| > MAX_FRAME_BYTES {
            ReopenKeepsState(c, d);
          } else {
            OpenAfterCrash(c, d, next, cut);
          }
      }
    }
  }

  /** Reopening an intact journal keeps its state. */
  lemma ReopenKeepsState<S(!new)>(c: Codec<S>, d: Disk<S>)
    requires ValidCodec(c) && Committed(c, d)
    ensures var result := Open(c, d.file);
            result.Some? && Committed(c, result.value) && result.value.state == d.state
  {
    CommittedLoads(c, d);
    var states :| Holds(c, d, states);
    if states != [] { LatestFits(c, states[|states| - 1]); }
    hide FrameOf, ReadFrame, Load;
    if d.frames > 1 {
      var last := states[|states| - 1];
      SingleFrame(c, last);
      assert Holds(c, Open(c, d.file).value, [last]);
    } else {
      assert Holds(c, Open(c, d.file).value, states);
    }
  }
}

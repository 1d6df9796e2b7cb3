/** Frame-wise note accumulation of `ProcessadorAudio`.

    The pitch analyser yields, per analysis frame, one (frequency,
    magnitude) pair per frequency bin. For each frame in order the
    processor takes the bin of largest magnitude (the first one on ties,
    as numpy's `argmax` does), and if that bin's frequency is positive it
    appends the frame's note name to the score and announces it with one
    "note detected" notification. Stopping a capture runs this over all
    frames and then announces "capture finished". */
module Transcription {
  import opened Numerals
  import opened NoteNames

  /** One analysis bin of one frame. */
  datatype Bin = Bin(freq: real, mag: real)

  /** One analysis frame: the bins of one time step; the analyser always
      produces at least one bin. */
  type Frame = f: seq<Bin> | |f| > 0 witness [Bin(0.0, 0.0)]

  /** What the processor announces to its listeners. */
  datatype Event = NoteDetected(note: string) | CaptureFinished

  /** numpy `argmax` over the magnitudes of a frame: an index of largest
      magnitude, and the first such index. */
  function DominantBin(f: Frame): (k: nat)
    ensures k < |f|
    ensures forall j :: 0 <= j < |f| ==> f[j].mag <= f[k].mag
    ensures forall j :: 0 <= j < k ==> f[j].mag < f[k].mag
  {
    if |f| == 1 then 0
    else
      var k := DominantBin(f[..|f| - 1]);
      if f[k].mag < f[|f| - 1].mag then |f| - 1 else k
  }

  /** The frame's dominant frequency is a valid pitch. */
  predicate Voiced(f: Frame) {
    f[DominantBin(f)].freq > 0.0
  }

  /** The note a voiced frame contributes. */
  function FrameNote(semitone: real -> int, f: Frame): string
    requires Voiced(f)
  {
    FreqToNote(semitone, f[DominantBin(f)].freq)
  }

  /** The notes a run over `frames` appends, in frame order. */
  function Transcribe(semitone: real -> int, frames: seq<Frame>): (notes: seq<string>)
    ensures |notes| <= |frames|
  {
    if frames == [] then []
    else
      var last := frames[|frames| - 1];
      Transcribe(semitone, frames[..|frames| - 1]) + (if Voiced(last) then [FrameNote(semitone, last)] else [])
  }

  lemma TranscribeStep(semitone: real -> int, frames: seq<Frame>, t: nat)
    requires t < |frames|
    ensures Transcribe(semitone, frames[..t + 1]) ==
      Transcribe(semitone, frames[..t]) + (if Voiced(frames[t]) then [FrameNote(semitone, frames[t])] else [])
  {
    assert frames[..t + 1][..t] == frames[..t];
  }

  /** Indices of the voiced frames, in increasing order. */
  function VoicedIndices(frames: seq<Frame>): seq<nat> {
    if frames == [] then []
    else
      VoicedIndices(frames[..|frames| - 1]) + (if Voiced(frames[|frames| - 1]) then [|frames| - 1] else [])
  }

  /** The set of indices of the voiced frames. */
  ghost function VoicedSet(frames: seq<Frame>): set<nat> {
    set t: nat | t < |frames| && Voiced(frames[t])
  }

  /** One notification per note, in order. */
  function Announce(notes: seq<string>): seq<Event> {
    seq(|notes|, i requires 0 <= i < |notes| => NoteDetected(notes[i]))
  }

  /** The notes carried by the "note detected" notifications of a log. */
  function DetectedNotes(events: seq<Event>): seq<string> {
    if events == [] then []
    else
      var last := events[|events| - 1];
      DetectedNotes(events[..|events| - 1]) + (if last.NoteDetected? then [last.note] else [])
  }

  lemma {:induction false} DetectedNotesAppend(a: seq<Event>, b: seq<Event>)
    ensures DetectedNotes(a + b) == DetectedNotes(a) + DetectedNotes(b)
    decreases |b|
  {
    if b == [] {
      assert a + b == a;
    } else {
      var b' := b[..|b| - 1];
      assert (a + b)[..|a + b| - 1] == a + b';
      DetectedNotesAppend(a, b');
    }
  }

  lemma AnnounceSnoc(notes: seq<string>, note: string)
    ensures Announce(notes + [note]) == Announce(notes) + [NoteDetected(note)]
  {
  }

  /** Announcing notes and reading back the notified notes gives the notes. */
  lemma {:induction false} DetectedAnnounce(notes: seq<string>)
    ensures DetectedNotes(Announce(notes)) == notes
    decreases |notes|
  {
    if notes != [] {
      var init := notes[..|notes| - 1];
      assert Announce(notes)[..|notes| - 1] == Announce(init);
      DetectedAnnounce(init);
    }
  }

  /** Running over two batches of frames appends the notes of the first
      batch and then those of the second. */
  lemma {:induction false} TranscribeAppend(semitone: real -> int, a: seq<Frame>, b: seq<Frame>)
    ensures Transcribe(semitone, a + b) == Transcribe(semitone, a) + Transcribe(semitone, b)
    decreases |b|
  {
    if b == [] {
      assert a + b == a;
    } else {
      var b' := b[..|b| - 1];
      assert (a + b)[..|a + b| - 1] == a + b';
      TranscribeAppend(semitone, a, b');
    }
  }

  /** `VoicedIndices` lists exactly the voiced frames, each once, in order. */
  lemma {:induction false} VoicedIndicesExact(frames: seq<Frame>)
    ensures forall i :: 0 <= i < |VoicedIndices(frames)| ==>
      VoicedIndices(frames)[i] < |frames| && Voiced(frames[VoicedIndices(frames)[i]])
    ensures forall i, j :: 0 <= i < j < |VoicedIndices(frames)| ==>
      VoicedIndices(frames)[i] < VoicedIndices(frames)[j]
    ensures forall t :: 0 <= t < |frames| && Voiced(frames[t]) ==> t in VoicedIndices(frames)
    decreases |frames|
  {
    if frames != [] {
      var init := frames[..|frames| - 1];
      VoicedIndicesExact(init);
    }
  }

  /** The i-th note appended is the note of the i-th voiced frame. */
  lemma {:induction false} TranscribeByIndices(semitone: real -> int, frames: seq<Frame>)
    ensures |Transcribe(semitone, frames)| == |VoicedIndices(frames)|
    ensures forall i :: 0 <= i < |VoicedIndices(frames)| ==>
      VoicedIndices(frames)[i] < |frames| && Voiced(frames[VoicedIndices(frames)[i]]) &&
      Transcribe(semitone, frames)[i] == FrameNote(semitone, frames[VoicedIndices(frames)[i]])
    decreases |frames|
  {
    VoicedIndicesExact(frames);
    if frames != [] {
      var init := frames[..|frames| - 1];
      var last := frames[|frames| - 1];
      TranscribeByIndices(semitone, init);
      VoicedIndicesExact(init);
      var notes, indices := Transcribe(semitone, frames), VoicedIndices(frames);
      var notes', indices' := Transcribe(semitone, init), VoicedIndices(init);
      assert |notes| == |indices|;
      forall i | 0 <= i < |indices|
        ensures indices[i] < |frames| && Voiced(frames[indices[i]])
        ensures notes[i] == FrameNote(semitone, frames[indices[i]])
      {
        if i < |indices'| {
          assert indices[i] == indices'[i] && notes[i] == notes'[i];
          assert frames[indices[i]] == init[indices'[i]];
        } else {
          assert indices[i] == |frames| - 1 && notes[i] == FrameNote(semitone, last);
        }
      }
    }
  }

  /** As many notes are appended as there are frames with a positive
      dominant frequency. */
  lemma {:induction false} TranscribeCount(semitone: real -> int, frames: seq<Frame>)
    ensures |Transcribe(semitone, frames)| == |VoicedSet(frames)|
    decreases |frames|
  {
    if frames == [] {
      assert VoicedSet(frames) == {};
    } else {
      var init := frames[..|frames| - 1];
      TranscribeCount(semitone, init);
      var last := |frames| - 1;
      assert forall t :: 0 <= t < last ==> frames[t] == init[t];
      if Voiced(frames[last]) {
        assert VoicedSet(frames) == VoicedSet(init) + {last};
      } else {
        assert VoicedSet(frames) == VoicedSet(init);
      }
    }
  }

  /** No note is appended exactly when no frame has a positive dominant
      frequency. */
  lemma {:induction false} TranscribeEmpty(semitone: real -> int, frames: seq<Frame>)
    ensures Transcribe(semitone, frames) == [] <==> forall t :: 0 <= t < |frames| ==> !Voiced(frames[t])
  {
    TranscribeCount(semitone, frames);
    if exists t :: 0 <= t < |frames| && Voiced(frames[t]) {
      var t :| 0 <= t < |frames| && Voiced(frames[t]);
      assert t in VoicedSet(frames);
    } else {
      assert VoicedSet(frames) == {};
    }
  }

  /** Selection comes before the positivity test: a frame whose loudest
      bin has frequency 0 contributes nothing, even if a quieter bin holds
      440 Hz. */
  lemma SelectThenFilter()
    ensures !Voiced([Bin(0.0, 0.9), Bin(440.0, 0.3)])
  {
  }

  /** Three frames dominated by 440 Hz give three "A4" notes, for a
      semitone step that puts 440 Hz at 57 semitones above C0. */
  lemma ThreeConcertAs(semitone: real -> int)
    requires semitone(440.0) == 57
    ensures
      var f: Frame := [Bin(440.0, 1.0)];
      Transcribe(semitone, [f, f, f]) == ["A4", "A4", "A4"]
  {
    var f: Frame := [Bin(440.0, 1.0)];
    ReferencePitches();
    assert FrameNote(semitone, f) == "A4";
    assert [f][..0] == [];
    assert Transcribe(semitone, [f]) == ["A4"];
    assert [f, f][..1] == [f];
    assert Transcribe(semitone, [f, f]) == ["A4", "A4"];
    assert [f, f, f][..2] == [f, f];
  }

  /** Sampling rate a processor is built with when none is given. */
  const DefaultRate: nat := 44100

  /** The pitch analyser: from the buffered samples and the sampling rate
      to the analysis frames. */
  type Analyser = (seq<real>, nat) -> seq<Frame>

  /** `ProcessadorAudio`: the samples captured so far, the score of
      detected notes, and the log of notifications sent. */
  class AudioProcessor {
    /** `taxa`: sampling rate handed to the analyser. */
    const rate: nat
    /** `buffer_dados`: every sample received since construction. */
    var buffer: seq<real>
    /** `partitura_musical`: the notes detected so far, in order. */
    var score: seq<string>
    /** The notifications sent so far, in order. */
    ghost var events: seq<Event>

    /** Every note in the score was announced once, in score order. */
    ghost predicate Valid()
      reads this
    {
      DetectedNotes(events) == score
    }

    constructor (rate: nat := DefaultRate)
      ensures Valid()
      ensures this.rate == rate && buffer == [] && score == [] && events == []
    {
      this.rate := rate;
      buffer := [];
      score := [];
      events := [];
    }

    /** The capture callback: appends the block's samples (its first
        channel) to the buffer. */
    method Receive(block: seq<real>)
      requires Valid()
      modifies this
      ensures Valid()
      ensures buffer == old(buffer) + block
      ensures score == old(score) && events == old(events)
    {
      buffer := buffer + block;
    }

    /** `processar_notas`: analyses the whole buffer, then runs over the
        frames in order, appending and announcing the note of every voiced
        frame. */
    method ProcessNotes(semitone: real -> int, analyse: Analyser)
      requires Valid()
      modifies this
      ensures Valid()
      ensures buffer == old(buffer)
      ensures score == old(score) + Transcribe(semitone, analyse(buffer, rate))
      ensures events == old(events) + Announce(Transcribe(semitone, analyse(buffer, rate)))
    {
      var frames := analyse(buffer, rate);
      ghost var before := events;
      for t := 0 to |frames|
        invariant buffer == old(buffer)
        invariant score == old(score) + Transcribe(semitone, frames[..t])
        invariant events == before + Announce(Transcribe(semitone, frames[..t]))
      {
        ghost var done := Transcribe(semitone, frames[..t]);
        TranscribeStep(semitone, frames, t);
        var k := DominantBin(frames[t]);
        var freq := frames[t][k].freq;
        if freq > 0.0 {
          var name := FreqToNote(semitone, freq);
          AnnounceSnoc(done, name);
          score := score + [name];
          events := events + [NoteDetected(name)];
        }
      }
      assert frames[..|frames|] == frames;
      ghost var notes := Transcribe(semitone, frames);
      DetectedNotesAppend(before, Announce(notes));
      DetectedAnnounce(notes);
    }

    /** `parar`: after the capture has stopped, transcribes every sample
        buffered since the processor was built (the buffer is never
        cleared) and announces that the capture is finished. */
    method Stop(semitone: real -> int, analyse: Analyser)
      requires Valid()
      modifies this
      ensures Valid()
      ensures buffer == old(buffer)
      ensures score == old(score) + Transcribe(semitone, analyse(buffer, rate))
      ensures events == old(events) + Announce(Transcribe(semitone, analyse(buffer, rate))) + [CaptureFinished]
    {
      ProcessNotes(semitone, analyse);
      DetectedNotesAppend(events, [CaptureFinished]);
      events := events + [CaptureFinished];
    }
  }

  /** The window's use of one processor for two captures: the second stop
      analyses the first capture's samples again together with the second's,
      and appends to the first stop's notes. */
  method TwoCaptures(semitone: real -> int, analyse: Analyser, first: seq<real>, second: seq<real>)
    returns (score: seq<string>)
    ensures score == Transcribe(semitone, analyse(first, DefaultRate)) +
                     Transcribe(semitone, analyse(first + second, DefaultRate))
  {
    var processor := new AudioProcessor();
    processor.Receive(first);
    assert processor.buffer == first;
    processor.Stop(semitone, analyse);
    processor.Receive(second);
    processor.Stop(semitone, analyse);
    score := processor.score;
  }
}

# Note detector: transcription core

A model in Dafny of the note-transcription logic of a desktop note detector
(`musica.py`). It has two parts:

- **Semitone-to-note-name mapping** (`freq_para_nota`). A frequency becomes
  `h`, its distance from C0 in semitones, rounded. The octave is `h // 12`.
  The pitch class is `h % 12`, which picks a name from the chromatic table
  C, C#, …, B. The result is the name followed by the decimal octave number,
  for example "A4" or "B-1". The floating-point step that computes `h`
  (musica.py:23) is the parameter `semitone: real -> int`. The rest is modelled
  exactly on integers, negative `h` included, with Python's floor division and
  floor modulo (for the divisor 12 these agree with Dafny's `/` and `%`).
- **Frame-wise note accumulation** (`ProcessadorAudio.processar_notas`). The
  pitch analyser's output is a sequence of frames, and each frame is a
  non-empty sequence of (frequency, magnitude) bins. For each frame, in order,
  the processor does the following:
  - It picks the first bin of largest magnitude, as numpy's `argmax` does.
  - It skips the frame when that bin's frequency is not positive.
  - Otherwise it appends the note name to the score (`partitura_musical`) and
    sends one "note detected" notification.

  `parar` then sends "capture finished". The class
  `Transcription.AudioProcessor` has three parts:
  - the captured samples (`buffer_dados`) as a `seq<real>` field;
  - the score as a `seq<string>` field;
  - the notifications as a ghost event log.

  Its object invariant says that the notes carried by the "note detected"
  events are exactly the score, in order. The pitch analyser is the
  parameter `analyse`, which maps the whole buffer and the sampling rate to
  the frames.

Modules: `Numerals` (Python's `str` on an `int`, and a parser that reads it
back), `NoteNames` (the mapping and its inverse) and `Transcription` (argmax,
the transcription function and the processor class).

Neither the score nor the sample buffer is ever reset by the code.
`__init__` creates `partitura_musical` and `buffer_dados` once
(musica.py:35-36). The capture callback only extends the buffer
(musica.py:42). The window keeps one processor for its whole lifetime
(musica.py:183). So every `parar` re-analyses all samples buffered since the
processor was built (musica.py:53-54). It appends the resulting notes to
everything earlier stops appended. A second capture therefore adds the notes of
one new analysis of both captures' samples together. This is not the first
capture's notes followed by the second's, because analysis frames can span the
point where the two captures meet. The model follows the code:
- `Stop` and `ProcessNotes` analyse the whole `buffer`;
- they append to `old(score)`;
- `TwoCaptures` states the outcome of two captures on one processor.

## Model

| member | source | states |
|---|---|---|
| Numerals.IntToString | musica.py:26 | Python's `str` of an int is non-empty, starts with '-' exactly for negative numbers and otherwise starts with a digit, and has no leading zero ("0" is the only text starting with '0', and a '-' is followed by a non-zero digit) |
| Numerals.NatToString | musica.py:26 | the decimal digits of a natural number are non-empty, all digits, a single digit exactly below 10, and start with '0' only for 0 (no leading zero) |
| Numerals.DigitsRoundTrip | musica.py:26 | the value of the digit string of `n` is `n` |
| Numerals.IntRoundTrip | musica.py:26 | parsing the rendered octave number gives back the integer, so the rendering loses nothing |
| NoteNames.Octave | musica.py:24 | the octave `h // 12` is the floor of h/12: `12*o <= h < 12*o + 12`, also for negative `h` |
| NoteNames.PitchIndex | musica.py:22-25 | `h % 12` lies in [0, 11], so the 12-name lookup is in bounds, and `h == 12*(h//12) + h%12` |
| NoteNames.NoteName | musica.py:22-26 | the name of `h` begins with its pitch-class name and is longer than it (the octave follows); reading it back and injectivity are in `NoteNameRoundTrip` and `NoteNameInjective`, octave steps in `OctaveShift` |
| NoteNames.FreqToNote | musica.py:19-26 | `freq_para_nota` with line 23 as the parameter `semitone`: the name begins with the pitch-class name of the step; `freq > 0` is what the only caller guarantees (musica.py:58), and the properties are those of `NoteName` |
| NoteNames.IndexOfName | musica.py:22 | a name found in the pitch-class table is at the returned index; a name not found is not in the table |
| NoteNames.PitchNamesShape | musica.py:22 | each table name is a letter alone or a letter and '#', and the 12 names are distinct |
| NoteNames.ParseNamed | musica.py:22-26 | any pitch-class name followed by the decimal text of any octave `o` reads back to `12*o + n` (the name table and octave text never run into each other) |
| NoteNames.NoteNameRoundTrip | musica.py:22-26 | the note name of `h` parses back to `h`: name plus octave determines the semitone count |
| NoteNames.NoteNameInjective | musica.py:22-26 | two semitone counts have the same note name if and only if they are equal |
| NoteNames.OctaveShift | musica.py:24-26 | adding `12*k` semitones keeps the pitch class and adds exactly `k` to the octave number; the name changes accordingly |
| NoteNames.FreqToNoteOctaveDoubling | musica.py:19-26 | for a semitone step that adds 12 when the frequency doubles, doubling the frequency keeps the pitch-class name and raises the octave number by one |
| NoteNames.ReferencePitches | musica.py:20-26 | semitone 57 (440 Hz over C0) is "A4", 48 is "C4", 0 is "C0", -1 is "B-1", -12 is "C-1" |
| Transcription.DominantBin | musica.py:56 | the chosen bin has magnitude >= every bin of the frame, and every earlier bin is strictly smaller (first index on ties) |
| Transcription.Transcribe | musica.py:55-62 | a run appends at most one note per frame |
| Transcription.TranscribeStep | musica.py:55-61 | one more frame adds its note when its dominant frequency is positive, and nothing otherwise |
| Transcription.TranscribeAppend | musica.py:55-61 | notes follow frame order: the notes of `a + b` are those of `a` followed by those of `b` |
| Transcription.VoicedIndicesExact | musica.py:55-58 | the voiced-frame index list holds exactly the frames with positive dominant frequency, in strictly increasing order |
| Transcription.TranscribeByIndices | musica.py:55-61 | the i-th appended note is `freq_para_nota` of the dominant frequency of the i-th frame with positive dominant frequency |
| Transcription.TranscribeCount | musica.py:55-61 | the number of appended notes equals the number of frames whose dominant frequency is > 0 |
| Transcription.TranscribeEmpty | musica.py:55-58 | no note is appended if and only if no frame has a positive dominant frequency |
| Transcription.SelectThenFilter | musica.py:56-58 | the frame [(0 Hz, 0.9), (440 Hz, 0.3)] contributes nothing: selection by magnitude comes before the positivity test |
| Transcription.ThreeConcertAs | musica.py:55-61 | three frames dominated by 440 Hz give ["A4", "A4", "A4"] when 440 Hz is 57 semitones above C0 |
| Transcription.AnnounceSnoc | musica.py:62 | announcing one more note adds exactly one "note detected" event carrying it, at the end |
| Transcription.DetectedNotesAppend | musica.py:62 | the notes notified by a concatenated log are those of each part in order |
| Transcription.DetectedAnnounce | musica.py:59-62 | the notes carried by the announcements of a run are exactly that run's notes |
| Transcription.AudioProcessor.constructor | musica.py:32-36 | a new processor has the given sampling rate (44100 by default, as the window uses it), an empty buffer, an empty score and has sent no notification |
| Transcription.AudioProcessor.Receive | musica.py:39-42 | the capture callback appends the block's samples to the buffer and changes neither score nor notifications |
| Transcription.AudioProcessor.ProcessNotes | musica.py:52-62 | the frames are the analysis of the whole buffer, which is left unchanged; the new score is the old score followed by the run's notes (earlier entries unchanged, append only), and the log gains exactly one "note detected" event per appended note, carrying it, in order; the invariant that the log's notes are the score is kept |
| Transcription.AudioProcessor.Stop | musica.py:47-50 | processing of every sample buffered since construction, then one "capture finished" event after the run's note events; the score grows as in `ProcessNotes` |
| Transcription.TwoCaptures | musica.py:32-62 | two captures on one processor leave the notes of the first capture's samples followed by the notes of the re-analysed samples of both captures |

## Left out

- The floating-point step `h = round(12 * log2(freq / C0))` with `C0 = 440 * 2**-4.75` (musica.py:21,23): floating-point logarithm and banker's rounding. It is the parameter `semitone`. `FreqToNote` requires `freq > 0`, because the logarithm has no finite value otherwise.
- Floating-point magnitudes and frequencies are Dafny `real`s. NaN and infinities are not modelled. numpy's `argmax` treats a NaN as the maximum; `DominantBin` does not.
- The pitch analyser `librosa.core.piptrack` and the conversion of the sample buffer to an array (musica.py:53-54): a foreign signal-processing library. It is the parameter `analyse` (type `Analyser`), applied to the whole buffer and the sampling rate. The `[bin, frame]` matrix is modelled as a sequence of frames, each a sequence of bins.
- Audio capture in `run`: the input stream, its device, its status printing and the thread that runs it (musica.py:38-45). These are device I/O. What the callback does with a block, extending the buffer with the block's first channel, is `Receive`; the block is that channel.
- numpy's `ValueError` for `argmax` on an empty magnitude column (musica.py:56) is not modelled: `Frame` is a non-empty sequence. The analyser always returns 1 + n_fft/2 bins per frame, so the case does not arise.
- `terminate` in `parar` (musica.py:48): thread concurrency. `Stop` models only what follows it.
- music21's `note.Note` and `stream.Stream` (musica.py:35,60): a foreign library. A note is its name string and the score is a sequence of names. music21's own reading of a name is not modelled. In its note-name syntax '-' marks a flat, so a name with a negative octave such as "B-1" would not be read as octave -1. Such names need frequencies below C0 (about 16 Hz), which the analyser's default frequency range does not produce. This library behaviour is not part of this model.
- Qt signals (musica.py:29-30): modelled as the ghost event log, with one event per `emit`. Listeners and their effects are not modelled.
- The LilyPond path setting, score image and PDF export (musica.py:16,204-228): process configuration, file I/O and an external process.
- The kaleidoscope view and the main window (musica.py:64-236): GUI drawing with random shapes and float trigonometry, plus widget wiring.

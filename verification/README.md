# Mellotron: a model of the note-to-audio pipeline

This project models the core of the `mellotron` LV2 instrument plugin. Each audio
block runs this pipeline once per output frame:

- The **event atomizer** (`EventAtomizer`) wraps the block's (timestamp, event)
  sequence. Each call yields at most one event.
- The **event reader** (`EventReader`) decodes that event into one optional
  note update per voice.
- Two **voices** (`Voice`) each hold 33 sample-playback notes, for MIDI notes 57
  (A2) to 89 (F5). Each call applies the update, steps every note and returns one
  sample.
- The plugin's `run` mixes the two voice samples under the `mix` control and
  writes the result into the output buffer.

The modules follow that structure:

| file | module | models |
|---|---|---|
| `events.dfy` | `Events` | `NoteUpdate`, the raw event an atom can carry, `EventReader::next` |
| `atomizer.dfy` | `Atomizer` | `EventAtomizer` as a class; `Emit`/`Atomize` give what its calls yield |
| `voice.dfy` | `Voices` | `Note`, `Note::value` and `Voice` as a class over an `array<Note>`; `NextNotes`/`Output` specify one call of `Voice::next` |
| `mellotron.dfy` | `Plugin` | the `Mellotron` plugin and the per-block pipeline; `RunBlock` specifies one block |

Each imperative operation is proved against a pure specification function:

- `Voice.Next` against `NextNotes` and `Output`
- `EventAtomizer.Next` against `Emit`
- `Pipeline.Render` and `Mellotron.Run` against `RunBlock`

The lemmas state the properties of those functions.

Representation choices:

- **Gain** is a whole number of hundredths, so 100 is 1.0 and one release step of
  0.01 is 1.
- **Samples**, the attenuation 0.7071, `NORMALIZE_OFFSET` 0.1 and the output
  scale 0.0005 are reals.
- **MIDI note numbers and velocities** are integers in 0..127.

The model follows the code where the code and its comments disagree:

- **The atomizer.** The comment above `EventAtomizer` (src/pipes.rs:173-177) and
  the test `test_atomizer` (src/pipes.rs:227-240) describe an atomizer that does
  three things:
  - it counts frames,
  - it yields each event on the frame named by its timestamp,
  - it drops events whose timestamp is not later than the previous one.

  The code does none of these. The `index` field is never read or advanced, and
  `next` discards the stored timestamp. Call `k` therefore yields the `k`-th
  event, and every call after the last event yields nothing.
  - `AtomizerExamples` shows this on the test's own input: events at timestamps
    4 and 10 come out on calls 0 and 1.
  - The rest of the model uses this behaviour, because it is what the plugin
    runs.
- **The `mix` control** is read once per block, before the frame loop
  (src/lib.rs:63-64). The per-frame formula uses those two weights.
- **An unreadable input sequence.** When the input port's atom sequence cannot be
  read, `run` has no else branch. In the model this is `input == None`: nothing is
  written, and neither voice is stepped.

## Model

| member | source | states |
|---|---|---|
| Events.ReadEvent | src/pipes.rs:264-285 | both voices get the same update; an update is produced exactly for a note-on or note-off message (no input, an unreadable atom and any other message give `(None, None)`); it carries the message's note and velocity, with `onoff` true exactly for a note-on |
| Events.ReadEventIgnoresChannel | src/pipes.rs:270-276 | the MIDI channel of a note message does not affect the update |
| Atomizer.EventAtomizer.constructor | src/pipes.rs:191-199 | a fresh atomizer has made no calls and holds the first event of its sequence, if any, in its pending slot |
| Atomizer.EventAtomizer.RetrieveNextEvent | src/pipes.rs:201-206 | the slot is emptied and then refilled with the next event while the sequence has one, advancing the read position by one |
| Atomizer.EventAtomizer.Next | src/pipes.rs:216-224 | call `k` returns the payload of event `k` while events remain and `None` afterwards; the stored timestamp is discarded and `index` stays 0 |
| Atomizer.Emit | src/pipes.rs:216-224 | call `k` of a fresh atomizer yields something exactly when `k` is below the number of events, and then it is event `k`'s payload |
| Atomizer.Atomize | src/pipes.rs:216-224 | the outputs of the first `n` calls of a fresh atomizer, where output `k` is event `k`'s payload or `None` |
| Atomizer.AtomizeEmitsPrefix | src/pipes.rs:191-224 | while events remain, the payloads present in the first `n` outputs are the first `n` payloads, in order, each once |
| Atomizer.AtomizeEmitsAll | src/pipes.rs:191-224 | once the sequence is exhausted, the payloads present are exactly all payloads in source order, and later calls add nothing |
| Atomizer.AtomizeIgnoresTimestamps | src/pipes.rs:216-224 | sequences with the same payloads and different timestamps give the same outputs, call for call |
| Atomizer.AtomizerExamples | src/pipes.rs:227-240 | on the test's input, the events come out on calls 0 and 1, not 4 and 10; repeated or decreasing timestamps drop nothing |
| Voices.NewNote | src/pipes.rs:59-68 | a new note is silent, at full gain, with its cursor at frame 0 and the given buffer |
| Voices.Value | src/pipes.rs:69-73 | the value of a note is one of its own samples (the one under the cursor) |
| Voices.ApplyUpdate | src/pipes.rs:105-119 | no update, or a note outside 57..89, changes nothing. A note-on sets that note's frame to 0, gain to 1.0 and active, whatever its prior state. A note-off lowers its gain by 0.01 and leaves frame and active as they were. No other note changes |
| Voices.ActiveCount | src/pipes.rs:122 | the count of active notes is positive exactly when some note is active |
| Voices.Release | src/pipes.rs:127-137 | an inactive note, or one at gain 1.0, is unchanged; an active note below 1.0 loses 0.01 while above 0.01 and otherwise falls to gain 0 and stops; buffer, name and cursor are untouched |
| Voices.Advance | src/pipes.rs:139-146 | on its last sample a note is switched off and rewound to frame 0; otherwise its frame goes up by one and it stays as active as it was; gain and buffer are untouched |
| Voices.Step | src/pipes.rs:124-146 | one step keeps a note's buffer and name and never activates it; the cursor moves on by one or, from the last sample, rewinds to 0 and the note stops whatever its gain, so it stays inside the buffer; an inactive note keeps its gain |
| Voices.NextNotes | src/pipes.rs:104-163 | the notes after one call: the update applied, then every note stepped if any is active. Its contract keeps every note playable; its properties are stated by `SilentCall`, `ActiveVoiceStepsEveryNote`, `QuietStep`, `NextNotesKeepsValid` and `Voice.Next` |
| Voices.Output | src/pipes.rs:122-162 | the value one call returns; its contract gives 0.0 when no note is active after the update. The sum it returns otherwise is stated by `SoloOutput`, `Voice.Play` and `Voice.Next` |
| Voices.NextNotesKeepsValid | src/pipes.rs:104-163 | a call keeps every cursor inside its non-empty buffer, every gain at most 1.0, and every active note at a gain of at least 0.01 |
| Voices.OutOfRangeIsIgnored | src/pipes.rs:107-108 | an update for a note outside 57..89 gives the same notes and output as no update |
| Voices.SilentCall | src/pipes.rs:122-123 | if no note is active after the update, the call returns 0.0 and changes nothing beyond the update |
| Voices.SilenceIsStable | src/pipes.rs:122-123 | a silent voice that receives no updates stays unchanged and returns 0.0 on every call |
| Voices.ActiveVoiceStepsEveryNote | src/pipes.rs:124-146 | when some note is active, every note, active or not, takes one release-and-cursor step |
| Voices.NoteOnRetriggers | src/pipes.rs:111-114 | after a note-on, the note's state does not depend on its prior state: full gain, stepped once from frame 0 |
| Voices.SoloOutput | src/pipes.rs:124-159 | in a call without an update, with a single active note, the output is its sample times its gain times 0.7071, times 0.7071, times 0.1 |
| Voices.SustainKeepsGain | src/pipes.rs:130 | a note at gain 1.0 keeps that gain, and it stays active unless it is on its last sample |
| Voices.ReleaseEnds | src/pipes.rs:130-137 | a releasing note loses exactly 0.01 per call while active, and is inactive after as many calls as its gain in hundredths |
| Voices.ReleaseWithoutWrap | src/pipes.rs:130-146 | away from the buffer end, after `k` calls the cursor moved `k` frames, the gain fell by `k` hundredths, and it stops at exactly gain 0 |
| Voices.QuietStep | src/pipes.rs:122-146 | without an update, a call either steps a note or leaves a silent note as it was |
| Voices.StillActiveAfterStep | src/pipes.rs:127-145 | a note still active after a step was active before it, and lost 0.01 if it was releasing |
| Voices.ReleaseInVoice | src/pipes.rs:122-146 | with no updates, a note active after `k` calls was active at the start, and a releasing note has lost exactly `k` hundredths |
| Voices.ReleasedVoiceFallsSilent | src/pipes.rs:130-137 | once every sounding note is releasing, the voice is silent after 99 calls that carry no update |
| Voices.NoteOffOnSilentVoice | src/pipes.rs:115-117 | a note-off on a silent voice lowers that note's gain by 0.01, changes nothing else, and leaves the voice silent |
| Voices.NoteOffsOnSilentVoice | src/pipes.rs:115-117 | `k` note-offs on a silent voice lower that note's gain by `k` hundredths, with no floor, and never start it |
| Voices.Voice.constructor | src/pipes.rs:85-94 | a voice built from 33 non-empty buffers has, at index `i`, the silent note `57 + i` at full gain |
| Voices.Voice.Reset | src/pipes.rs:170 | reset changes no note |
| Voices.Voice.Update | src/pipes.rs:105-119 | the in-place update phase leaves the notes equal to `ApplyUpdate` of the old notes |
| Voices.Voice.Play | src/pipes.rs:124-159 | the in-place loop steps every note once and returns the sum over the old active notes of sample times gain times 0.7071 |
| Voices.Voice.Next | src/pipes.rs:104-163 | one call keeps the voice invariant, leaves the notes equal to `NextNotes` of the old notes, and returns `Output` of the old notes |
| Plugin.Mix | src/lib.rs:83 | mix 0 gives voice A scaled by 0.0005, mix 1 gives voice B scaled, and equal voices give that voice scaled whatever the mix |
| Plugin.MixWithPrecomputedWeights | src/lib.rs:63-64 | the weights computed once per block, `1 - mix` and `mix`, give the same frame as the linear fade |
| Plugin.RunBlock | src/lib.rs:79-84 | a block of `n` frames produces exactly `n` output values and leaves every note of both voices playable |
| Plugin.RunBlockKeepsValid | src/lib.rs:79-84 | a block keeps both voices' invariant: cursors inside their buffers, gains at most 1.0, active notes at gain at least 0.01, notes in order of note number |
| Plugin.Pipeline.constructor | src/lib.rs:74-76 | the pipeline built for a block has a fresh atomizer over the block's events, with no calls made, feeding both voices |
| Plugin.Pipeline.Next | src/lib.rs:80 | one pipeline call advances the atomizer once and steps each voice once with its copy of the decoded update, returning both voice outputs |
| Plugin.Pipeline.Render | src/lib.rs:79-84 | the frame loop writes every output frame, in order, with the value `RunBlock` gives, and leaves the voices in `RunBlock`'s state |
| Plugin.Mellotron.constructor | src/lib.rs:46-55 | the plugin's voice A is "MKII Flute" and voice B "String Section", each over its own notes, all silent |
| Plugin.Mellotron.Activate | src/lib.rs:57-60 | activate leaves both voices unchanged |
| Plugin.Mellotron.Run | src/lib.rs:62-86 | with a readable input, the output buffer and both voices end as `RunBlock` of the old voices gives: one frame per buffer slot, each voice stepped once per frame. With an unreadable input, nothing is written and nothing is stepped |
| Plugin.RunBlockPrefix | src/lib.rs:79-84 | the first `i` frames of a longer block are the frames of an `i`-frame block |
| Plugin.RunBlockIgnoresTimestamps | src/lib.rs:74-80 | event `i` reaches the voices on frame `i` whatever its timestamp: blocks whose events carry the same payloads give the same frames and voice states |
| Plugin.EqualVoicesIgnoreMix | src/lib.rs:74-84 | two voices in the same state receive the same updates, stay equal, and make the mix control irrelevant |
| Plugin.FrameOfBlock | src/lib.rs:79-84 | frame `k` mixes the outputs of both voices, in the state the first `k` frames left them in, on the update decoded from event `k` |

## Left out

- `load_samples` (src/pipes.rs:16-40) reads WAV files from disk, builds file names with a regular expression and decodes the bit depths. It is not part of this model: a voice is built from 33 given sample buffers.
- Unsupported bit depths give an empty buffer (src/pipes.rs:31), and an empty buffer would underflow `sample.len() - 1` at src/pipes.rs:139. The model requires every buffer to be non-empty.
- The lower-casing of the instrument name for the sample directory (src/pipes.rs:89) belongs to sample loading and is left out with it.
- `_root_mean_square` (src/pipes.rs:11-14) is never called and uses a floating-point square root.
- The `active_samples` vector (src/pipes.rs:121, 129) is filled and never read.
- The commented-out statistics in `Voice::next` are left out.
- The `println!` logging in the reader (src/pipes.rs:271, 275, 278, 281) is left out.
- LV2 host plumbing is left out: URIDs, ports, features, the plugin descriptor, `as_frames` conversion of timestamps.
- Reading the input atom sequence (src/lib.rs:66-71) and reading a MIDI message from an atom (src/pipes.rs:266-267) are not modelled. Instead, the input is an optional sequence of (timestamp, raw event) pairs, and each raw event is already classified as note-on, note-off, another message or unreadable.
- The pipe composition operators of the `iterpipes` crate (`compose`, `>>`) are modelled as one explicit call per stage and frame.
- f32 arithmetic is left out. Gain is exact in hundredths and samples are reals. Repeated subtraction of 0.01 in f32 does not land exactly on the thresholds 1.0 and 0.01, and the model does not reproduce that drift.
- The count of active notes is converted to f32 before it is compared with 0.0 (src/pipes.rs:122). This is modelled as an integer comparison.
- `NoteUpdate.velocity` is carried through but never used by a voice. The model carries it and does not use it either.
- Voices.Value: the contract says only that the value is one of the note's samples. That it is the sample under the cursor is its definition.
- Plugin.RunBlock: its own contract gives only the number of frames and that every note stays playable; the full voice invariant is `RunBlockKeepsValid`. What each frame is comes from `FrameOfBlock`, `RunBlockPrefix` and the methods proved against it.

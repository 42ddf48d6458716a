/** The plugin (src/lib.rs, `Mellotron`): two voices that persist from block
    to block, and the per-block driver that runs the pipeline
    atomizer -> reader -> both voices once per output frame and mixes the
    two voice outputs under the `mix` control. */
module Plugin {
  import opened Events
  import opened Atomizer
  import opened Voices

  const VOICE_A: string := "MKII Flute"
  const VOICE_B: string := "String Section"
  /** The fixed scale applied to every mixed frame. */
  const OUTPUT_SCALE: real := 0.0005

  /** One output frame: the two voice outputs faded linearly by `mix`
      (0 is voice A alone, 1 is voice B alone), then scaled. */
  function Mix(outA: real, outB: real, mix: real): (r: real)
    ensures mix == 0.0 ==> r == outA * OUTPUT_SCALE
    ensures mix == 1.0 ==> r == outB * OUTPUT_SCALE
    ensures outA == outB ==> r == outA * OUTPUT_SCALE
  {
    (outA * (1.0 - mix) + outB * mix) * OUTPUT_SCALE
  }

  /** The weights `run` computes once per block give the same frame as `Mix`. */
  lemma MixWithPrecomputedWeights(outA: real, outB: real, mixA: real, mixB: real)
    requires mixA == 1.0 - mixB
    ensures (outA * mixA + outB * mixB) * OUTPUT_SCALE == Mix(outA, outB, mixB)
  {
  }

  /** The state of both voices and the frames written after the first
      `frames` frames of a block whose event sequence is `events`. Frame `k`
      feeds the `k`-th output of the atomizer through the reader to both
      voices and mixes what they return. */
  function RunBlock(a: seq<Note>, b: seq<Note>, events: seq<(nat, RawEvent)>, mix: real, frames: nat)
    : (r: (seq<Note>, seq<Note>, seq<real>))
    requires Loaded(a) && Loaded(b)
    ensures Loaded(r.0) && Loaded(r.1) && |r.2| == frames
    decreases frames
  {
    if frames == 0 then (a, b, [])
    else
      var (a', b', out) := RunBlock(a, b, events, mix, frames - 1);
      var updates := ReadEvent(Emit(events, frames - 1));
      (NextNotes(a', updates.0), NextNotes(b', updates.1),
       out + [Mix(Output(a', updates.0), Output(b', updates.1), mix)])
  }

  /** Frame `frames` of a block extends the first `frames` frames by one step
      of each voice and one mixed frame. */
  lemma RunBlockNext(a: seq<Note>, b: seq<Note>, events: seq<(nat, RawEvent)>, mix: real, frames: nat)
    requires Loaded(a) && Loaded(b)
    ensures var done := RunBlock(a, b, events, mix, frames);
            var updates := ReadEvent(Emit(events, frames));
            RunBlock(a, b, events, mix, frames + 1)
            == (NextNotes(done.0, updates.0), NextNotes(done.1, updates.1),
                done.2 + [Mix(Output(done.0, updates.0), Output(done.1, updates.1), mix)])
  {
  }

  /** A block keeps both voices' invariant: every cursor inside its buffer,
      every gain at most 1.0, every active note at a gain of at least 0.01,
      and the notes in order of note number. */
  lemma {:induction false} RunBlockKeepsValid(a: seq<Note>, b: seq<Note>, events: seq<(nat, RawEvent)>, mix: real, frames: nat)
    requires ValidNotes(a) && ValidNotes(b)
    ensures ValidNotes(RunBlock(a, b, events, mix, frames).0)
    ensures ValidNotes(RunBlock(a, b, events, mix, frames).1)
    decreases frames
  {
    if frames > 0 {
      RunBlockKeepsValid(a, b, events, mix, frames - 1);
      var prev := RunBlock(a, b, events, mix, frames - 1);
      var updates := ReadEvent(Emit(events, frames - 1));
      NextNotesKeepsValid(prev.0, updates.0);
      NextNotesKeepsValid(prev.1, updates.1);
    }
  }

  /** The pipeline `run` builds for one block: a fresh atomizer over the
      block's events, feeding the reader, feeding both voices. */
  class Pipeline {
    const atomizer: EventAtomizer<RawEvent>
    const voiceA: Voice
    const voiceB: Voice

    ghost predicate Valid()
      reads this, atomizer, voiceA, voiceB, voiceA.notes, voiceB.notes
    {
      atomizer.Valid() && voiceA.Valid() && voiceB.Valid() && voiceA.notes != voiceB.notes
    }

    constructor (events: seq<(nat, RawEvent)>, voiceA: Voice, voiceB: Voice)
      requires voiceA.Valid() && voiceB.Valid() && voiceA.notes != voiceB.notes
      ensures Valid() && fresh(atomizer)
      ensures atomizer.sequence == events && atomizer.calls == 0
      ensures this.voiceA == voiceA && this.voiceB == voiceB
    {
      atomizer := new EventAtomizer(events);
      this.voiceA := voiceA;
      this.voiceB := voiceB;
    }

    /** One frame: take the atomizer's next output, decode it, and step each
        voice once with its copy of the update. */
    method Next() returns (outA: real, outB: real)
      requires Valid()
      modifies atomizer, voiceA.notes, voiceB.notes
      ensures Valid() && atomizer.calls == old(atomizer.calls) + 1
      ensures var updates := ReadEvent(Emit(atomizer.sequence, old(atomizer.calls)));
              && voiceA.notes[..] == NextNotes(old(voiceA.notes[..]), updates.0)
              && voiceB.notes[..] == NextNotes(old(voiceB.notes[..]), updates.1)
              && outA == Output(old(voiceA.notes[..]), updates.0)
              && outB == Output(old(voiceB.notes[..]), updates.1)
    {
      var event := atomizer.Next();
      var (updateA, updateB) := ReadEvent(event);
      NextNotesKeepsValid(voiceA.notes[..], updateA);
      NextNotesKeepsValid(voiceB.notes[..], updateB);
      outA := voiceA.Next(updateA);
      outB := voiceB.Next(updateB);
    }
    /** The frame loop of `run`: for every frame of `output`, in order, take
        the pipeline's next pair of voice outputs and write their mix. */
    method Render(output: array<real>, mixA: real, mixB: real)
      requires Valid() && atomizer.calls == 0 && mixA == 1.0 - mixB
      modifies atomizer, voiceA.notes, voiceB.notes, output
      ensures Valid()
      ensures var r := RunBlock(old(voiceA.notes[..]), old(voiceB.notes[..]), atomizer.sequence, mixB, output.Length);
              voiceA.notes[..] == r.0 && voiceB.notes[..] == r.1 && output[..] == r.2
    {
      ghost var a0, b0 := voiceA.notes[..], voiceB.notes[..];
      ghost var done := RunBlock(a0, b0, atomizer.sequence, mixB, 0);
      for frame := 0 to output.Length
        invariant Valid() && atomizer.calls == frame
        invariant done == RunBlock(a0, b0, atomizer.sequence, mixB, frame)
        invariant voiceA.notes[..] == done.0 && voiceB.notes[..] == done.1 && output[..frame] == done.2
      {
        ghost var updates := ReadEvent(Emit(atomizer.sequence, frame));
        var outA, outB := Next();
        output[frame] := (outA * mixA + outB * mixB) * OUTPUT_SCALE;
        MixWithPrecomputedWeights(outA, outB, mixA, mixB);
        assert output[frame] == Mix(outA, outB, mixB);
        RunBlockNext(a0, b0, atomizer.sequence, mixB, frame);
        done := (NextNotes(done.0, updates.0), NextNotes(done.1, updates.1),
                 done.2 + [Mix(Output(done.0, updates.0), Output(done.1, updates.1), mixB)]);
        assert output[..frame + 1] == output[..frame] + [output[frame]];
      }
      assert output[..] == output[..output.Length];
    }
  }

  /** `Mellotron`: the two voices, fixed at construction. */
  class Mellotron {
    const voiceA: Voice
    const voiceB: Voice

    ghost predicate Valid()
      reads this, voiceA, voiceB, voiceA.notes, voiceB.notes
    {
      voiceA.Valid() && voiceB.Valid() && voiceA.notes != voiceB.notes
    }

    /** `Plugin::new`: build both voices from their sample banks. */
    constructor (samplesA: seq<seq<real>>, samplesB: seq<seq<real>>)
      requires |samplesA| == NOTE_COUNT && forall i :: 0 <= i < |samplesA| ==> 0 < |samplesA[i]|
      requires |samplesB| == NOTE_COUNT && forall i :: 0 <= i < |samplesB| ==> 0 < |samplesB[i]|
      ensures Valid() && fresh(voiceA) && fresh(voiceB) && fresh(voiceA.notes) && fresh(voiceB.notes)
      ensures voiceA.name == VOICE_A && voiceB.name == VOICE_B
      ensures forall i :: 0 <= i < NOTE_COUNT ==>
                voiceA.notes[i] == NewNote(START_NOTE + i, samplesA[i])
                && voiceB.notes[i] == NewNote(START_NOTE + i, samplesB[i])
    {
      voiceA := new Voice(VOICE_A, samplesA);
      voiceB := new Voice(VOICE_B, samplesB);
    }

    /** `Plugin::activate`: resets both voices, which leaves them as they are. */
    method Activate()
      requires Valid()
      ensures Valid()
      ensures voiceA.notes[..] == old(voiceA.notes[..]) && voiceB.notes[..] == old(voiceB.notes[..])
    {
      voiceA.Reset();
      voiceB.Reset();
    }

    /** `Plugin::run`: when the input sequence can be read (`input` is
        `Some`), write one mixed frame into every frame of `output`, stepping
        each voice exactly once per frame; when it cannot, write nothing and
        step nothing. */
    method Run(input: Option<seq<(nat, RawEvent)>>, mix: real, output: array<real>)
      requires Valid()
      modifies voiceA.notes, voiceB.notes, output
      ensures Valid()
      ensures input.None? ==>
                && output[..] == old(output[..])
                && voiceA.notes[..] == old(voiceA.notes[..])
                && voiceB.notes[..] == old(voiceB.notes[..])
      ensures input.Some? ==>
                var r := RunBlock(old(voiceA.notes[..]), old(voiceB.notes[..]), input.value, mix, output.Length);
                voiceA.notes[..] == r.0 && voiceB.notes[..] == r.1 && output[..] == r.2
    {
      var mixB := mix;
      var mixA := 1.0 - mixB;
      if input.Some? {
        var pipeline := new Pipeline(input.value, voiceA, voiceB);
        pipeline.Render(output, mixA, mixB);
      }
    }
  }

  // ---------------------------------------------------------------------
  // Properties of a block

  /** The frames of a block are produced in order: the first `i` frames of a
      longer block are the frames of a block of `i` frames. */
  lemma {:induction false} RunBlockPrefix(a: seq<Note>, b: seq<Note>, events: seq<(nat, RawEvent)>, mix: real, i: nat, n: nat)
    requires Loaded(a) && Loaded(b) && i <= n
    ensures RunBlock(a, b, events, mix, n).2[..i] == RunBlock(a, b, events, mix, i).2
    decreases n
  {
    if i < n {
      RunBlockPrefix(a, b, events, mix, i, n - 1);
      var prev := RunBlock(a, b, events, mix, n - 1).2;
      assert RunBlock(a, b, events, mix, n).2[..n - 1] == prev;
      assert RunBlock(a, b, events, mix, n).2[..i] == prev[..i];
    } else {
      assert RunBlock(a, b, events, mix, n).2[..n] == RunBlock(a, b, events, mix, n).2;
    }
  }

  /** The `i`-th event of a block reaches both voices on frame `i`, whatever its
      timestamp: two blocks whose events carry the same payloads produce the
      same frames and leave the voices in the same state. */
  lemma {:induction false} RunBlockIgnoresTimestamps(
    a: seq<Note>, b: seq<Note>, e1: seq<(nat, RawEvent)>, e2: seq<(nat, RawEvent)>, mix: real, n: nat)
    requires Loaded(a) && Loaded(b) && Payloads(e1) == Payloads(e2)
    ensures RunBlock(a, b, e1, mix, n) == RunBlock(a, b, e2, mix, n)
    decreases n
  {
    if n > 0 {
      RunBlockIgnoresTimestamps(a, b, e1, e2, mix, n - 1);
      PayloadsAt(e1);
      PayloadsAt(e2);
      assert Emit(e1, n - 1) == Emit(e2, n - 1) by {
        if n - 1 < |e1| {
          assert Payloads(e1)[n - 1] == Payloads(e2)[n - 1];
        }
      }
    }
  }

  /** Two voices in the same state stay in the same state through a block,
      and then the mix control makes no difference: every frame is voice A's
      output scaled. */
  lemma {:induction false} EqualVoicesIgnoreMix(a: seq<Note>, events: seq<(nat, RawEvent)>, m1: real, m2: real, n: nat)
    requires Loaded(a)
    ensures RunBlock(a, a, events, m1, n).0 == RunBlock(a, a, events, m1, n).1
    ensures RunBlock(a, a, events, m1, n) == RunBlock(a, a, events, m2, n)
    decreases n
  {
    if n > 0 {
      EqualVoicesIgnoreMix(a, events, m1, m2, n - 1);
      var prev := RunBlock(a, a, events, m1, n - 1);
      var updates := ReadEvent(Emit(events, n - 1));
      var x := Output(prev.0, updates.0);
      var next := NextNotes(prev.0, updates.0);
      assert RunBlock(a, a, events, m1, n) == (next, next, prev.2 + [Mix(x, x, m1)]);
      assert RunBlock(a, a, events, m2, n) == (next, next, prev.2 + [Mix(x, x, m2)]);
    }
  }

  /** Frame `k` of a block: the two voices, in the state the first `k` frames
      left them in, each receive the update decoded from the `k`-th event,
      and their outputs are mixed. */
  lemma FrameOfBlock(a: seq<Note>, b: seq<Note>, events: seq<(nat, RawEvent)>, mix: real, k: nat, n: nat)
    requires Loaded(a) && Loaded(b) && k < n
    ensures var (a', b', _) := RunBlock(a, b, events, mix, k);
            var update := ReadEvent(if k < |events| then Some(events[k].1) else None).0;
            RunBlock(a, b, events, mix, n).2[k] == Mix(Output(a', update), Output(b', update), mix)
  {
    RunBlockPrefix(a, b, events, mix, k + 1, n);
  }
}

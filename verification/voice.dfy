/** The polyphonic sample-playback engine (src/pipes.rs, `Note` and `Voice`).

    A voice holds one note per MIDI note number from START_NOTE to END_NOTE.
    Each note owns a non-empty sample buffer and its playback state: a frame
    cursor, a gain and an active flag. Gain is kept as a whole number of
    hundredths, so 100 stands for a gain of 1.0 and one release step of 0.01
    is 1; sample values are reals. */
module Voices {
  import opened Events

  const START_NOTE: nat := 57  // A2
  const END_NOTE: nat := 89    // F5
  const NOTE_COUNT: nat := END_NOTE - START_NOTE + 1
  const NORMALIZE_OFFSET: real := 0.1
  /** The fixed attenuation applied to each summed note and again to the sum. */
  const ATTENUATION: real := 0.7071
  /** Gain 1.0, in hundredths. */
  const FULL_GAIN: int := 100

  datatype Note = Note(name: nat, sample: seq<real>, gain: int, active: bool, frame: nat)

  /** `Note::new`: a silent note at full gain, cursor at the start. */
  function NewNote(name: nat, sample: seq<real>): (n: Note)
    ensures !n.active && n.gain == FULL_GAIN && n.frame == 0 && n.sample == sample
  {
    Note(name, sample, FULL_GAIN, false, 0)
  }

  /** A note whose cursor indexes its (non-empty) buffer. */
  predicate Playable(n: Note) {
    0 < |n.sample| && n.frame < |n.sample|
  }

  /** The state every note is in between two calls of the voice: playable,
      gain at most 1.0, and an active note has gain at least 0.01. */
  predicate WellFormed(n: Note) {
    Playable(n) && n.gain <= FULL_GAIN && (n.active ==> 1 <= n.gain)
  }

  /** One playable note per note number of the range. */
  predicate Loaded(notes: seq<Note>) {
    |notes| == NOTE_COUNT && forall i :: 0 <= i < |notes| ==> Playable(notes[i])
  }

  /** The invariant of a voice between calls. */
  predicate ValidNotes(notes: seq<Note>) {
    && |notes| == NOTE_COUNT
    && forall i :: 0 <= i < |notes| ==> WellFormed(notes[i]) && notes[i].name == START_NOTE + i
  }

  /** `Note::value`: the sample under the cursor. */
  function Value(n: Note): (v: real)
    requires Playable(n)
    ensures v in n.sample
  {
    n.sample[n.frame]
  }

  function Gain(n: Note): real {
    n.gain as real / 100.0
  }

  predicate InRange(note: int) {
    START_NOTE <= note <= END_NOTE
  }

  /** The update phase of `Voice::next`: a note-on for a note in range
      retriggers it, a note-off lowers its gain by 0.01 and leaves it active
      or inactive as it was; anything else changes nothing. */
  function ApplyUpdate(notes: seq<Note>, update: Option<NoteUpdate>): (r: seq<Note>)
    requires Loaded(notes)
    ensures Loaded(r)
    ensures update.None? || !InRange(update.value.note) ==> r == notes
    ensures update.Some? && InRange(update.value.note) ==>
              var k := update.value.note - START_NOTE;
              && (forall j :: 0 <= j < |notes| && j != k ==> r[j] == notes[j])
              && r[k].sample == notes[k].sample && r[k].name == notes[k].name
              && (update.value.onoff ==> r[k].frame == 0 && r[k].gain == FULL_GAIN && r[k].active)
              && (!update.value.onoff ==>
                    r[k].frame == notes[k].frame && r[k].gain == notes[k].gain - 1
                    && r[k].active == notes[k].active)
  {
    match update
    case None => notes
    case Some(u) =>
      if InRange(u.note) then
        var k := u.note - START_NOTE;
        if u.onoff then notes[k := notes[k].(frame := 0, gain := FULL_GAIN, active := true)]
        else notes[k := notes[k].(gain := notes[k].gain - 1)]
      else notes
  }

  /** Number of active notes. */
  function ActiveCount(notes: seq<Note>): (r: nat)
    ensures r <= |notes|
    ensures r > 0 <==> exists i :: 0 <= i < |notes| && notes[i].active
    decreases |notes|
  {
    if |notes| == 0 then 0
    else
      var init := notes[..|notes| - 1];
      assert forall i :: 0 <= i < |init| ==> init[i] == notes[i];
      ActiveCount(init) + (if notes[|notes| - 1].active then 1 else 0)
  }

  predicate AnyActive(notes: seq<Note>) {
    exists i :: 0 <= i < |notes| && notes[i].active
  }

  /** What one active note adds to the voice's sum; an inactive note adds nothing. */
  function Contribution(n: Note): real
    requires Playable(n)
  {
    if n.active then Value(n) * Gain(n) * ATTENUATION else 0.0
  }

  /** The sum of the contributions of the first `count` notes. */
  function SumActive(notes: seq<Note>, count: nat): real
    requires count <= |notes|
    requires forall i :: 0 <= i < |notes| ==> Playable(notes[i])
    decreases count
  {
    if count == 0 then 0.0
    else SumActive(notes, count - 1) + Contribution(notes[count - 1])
  }

  /** The release rule applied to an active note: below full gain it loses
      0.01 while above 0.01, and otherwise falls to 0 and stops. */
  function Release(n: Note): (r: Note)
    ensures r.sample == n.sample && r.name == n.name && r.frame == n.frame
    ensures !n.active || n.gain >= FULL_GAIN ==> r == n
    ensures n.active && 1 < n.gain < FULL_GAIN ==> r.active && r.gain == n.gain - 1
    ensures n.active && n.gain <= 1 ==> !r.active && r.gain == 0
  {
    if n.active && n.gain < FULL_GAIN then
      if n.gain > 1 then n.(gain := n.gain - 1) else n.(gain := 0, active := false)
    else n
  }

  /** The cursor rule applied to every note: at the last sample the note stops
      and rewinds, otherwise the cursor moves on by one. */
  function Advance(n: Note): (r: Note)
    requires 0 < |n.sample|
    ensures r.sample == n.sample && r.name == n.name && r.gain == n.gain
    ensures r.frame == (if n.frame == |n.sample| - 1 then 0 else n.frame + 1)
    ensures r.active == (n.active && n.frame != |n.sample| - 1)
  {
    if n.frame == |n.sample| - 1 then n.(active := false, frame := 0) else n.(frame := n.frame + 1)
  }

  /** What one call does to a note when some note of the voice is active. */
  function Step(n: Note): (r: Note)
    requires 0 < |n.sample|
    ensures r.sample == n.sample && r.name == n.name
    ensures r.active ==> n.active
    ensures n.frame < |n.sample| ==> r.frame < |r.sample|
    // the cursor moves on by one, or rewinds to 0 from the last sample
    ensures r.frame == (if n.frame == |n.sample| - 1 then 0 else n.frame + 1)
    // a note on its last sample stops, whatever its gain
    ensures n.frame == |n.sample| - 1 ==> !r.active
    // an inactive note keeps its gain
    ensures !n.active ==> r.gain == n.gain
  {
    Advance(Release(n))
  }

  /** The notes after one call of `Voice::next`: the update applied, then,
      if any note is active, every note stepped. */
  function NextNotes(notes: seq<Note>, update: Option<NoteUpdate>): (r: seq<Note>)
    requires Loaded(notes)
    ensures Loaded(r)
  {
    var updated := ApplyUpdate(notes, update);
    if AnyActive(updated) then seq(|updated|, i requires 0 <= i < |updated| => Step(updated[i]))
    else updated
  }

  /** The sample one call of `Voice::next` returns: the sum over the active
      notes (after the update) of sample times gain times 0.7071, attenuated
      by 0.7071 and scaled by NORMALIZE_OFFSET; 0.0 when no note is active. */
  function Output(notes: seq<Note>, update: Option<NoteUpdate>): (r: real)
    requires Loaded(notes)
    ensures !AnyActive(ApplyUpdate(notes, update)) ==> r == 0.0
  {
    var updated := ApplyUpdate(notes, update);
    if AnyActive(updated) then SumActive(updated, |updated|) * ATTENUATION * NORMALIZE_OFFSET
    else 0.0
  }

  /** The notes after `k` calls that all receive the same update. */
  function Repeat(notes: seq<Note>, update: Option<NoteUpdate>, k: nat): (r: seq<Note>)
    requires Loaded(notes)
    ensures Loaded(r)
    decreases k
  {
    if k == 0 then notes else NextNotes(Repeat(notes, update, k - 1), update)
  }

  /** The note after `k` calls of `Step`. */
  function StepTimes(n: Note, k: nat): (r: Note)
    requires 0 < |n.sample|
    ensures r.sample == n.sample
    decreases k
  {
    if k == 0 then n else Step(StepTimes(n, k - 1))
  }

  // ---------------------------------------------------------------------
  // Properties of one call

  /** A voice keeps its invariant across a call: every cursor stays inside
      its buffer, no gain exceeds 1.0 and every active note keeps a gain of
      at least 0.01. */
  lemma NextNotesKeepsValid(notes: seq<Note>, update: Option<NoteUpdate>)
    requires ValidNotes(notes)
    ensures ValidNotes(NextNotes(notes, update))
  {
    var updated := ApplyUpdate(notes, update);
    assert forall i :: 0 <= i < |updated| ==>
      Playable(updated[i]) && updated[i].gain <= FULL_GAIN && (updated[i].active ==> 0 <= updated[i].gain)
      && updated[i].name == START_NOTE + i;
  }

  /** A note number outside START_NOTE..END_NOTE leaves the call exactly as
      if no update had come. */
  lemma OutOfRangeIsIgnored(notes: seq<Note>, u: NoteUpdate)
    requires Loaded(notes) && !InRange(u.note)
    ensures NextNotes(notes, Some(u)) == NextNotes(notes, None)
    ensures Output(notes, Some(u)) == Output(notes, None)
  {
  }

  /** If no note is active once the update is applied, the call returns 0.0
      and changes nothing beyond the update itself. */
  lemma SilentCall(notes: seq<Note>, update: Option<NoteUpdate>)
    requires Loaded(notes) && !AnyActive(ApplyUpdate(notes, update))
    ensures NextNotes(notes, update) == ApplyUpdate(notes, update)
    ensures Output(notes, update) == 0.0
  {
  }

  /** A silent voice without updates stays silent and unchanged. */
  lemma SilenceIsStable(notes: seq<Note>, k: nat)
    requires Loaded(notes) && !AnyActive(notes)
    ensures Repeat(notes, None, k) == notes
    ensures Output(Repeat(notes, None, k), None) == 0.0
  {
  }

  /** When some note is active, every note, active or not, takes one step:
      its release and its cursor advance. */
  lemma ActiveVoiceStepsEveryNote(notes: seq<Note>, update: Option<NoteUpdate>, i: nat)
    requires Loaded(notes) && i < |notes| && AnyActive(ApplyUpdate(notes, update))
    ensures NextNotes(notes, update)[i] == Step(ApplyUpdate(notes, update)[i])
  {
  }

  /** A note-on retriggers: whatever state the note was in, after the call it
      is the same note, started afresh and stepped once. */
  lemma NoteOnRetriggers(s1: seq<Note>, s2: seq<Note>, u: NoteUpdate)
    requires Loaded(s1) && Loaded(s2) && InRange(u.note) && u.onoff
    requires s1[u.note - START_NOTE].sample == s2[u.note - START_NOTE].sample
    requires s1[u.note - START_NOTE].name == s2[u.note - START_NOTE].name
    ensures var k := u.note - START_NOTE;
            var n := NextNotes(s1, Some(u))[k];
            && n == NextNotes(s2, Some(u))[k]
            && n.gain == FULL_GAIN
            && n.frame == (if |n.sample| == 1 then 0 else 1)
            && n.active == (|n.sample| > 1)
  {
    var k := u.note - START_NOTE;
    assert ApplyUpdate(s1, Some(u))[k].active;
    assert ApplyUpdate(s2, Some(u))[k].active;
  }

  /** The sum over the notes when only note `j` is active is that note's
      contribution. */
  lemma {:induction false} SumOfOneActive(notes: seq<Note>, j: nat, count: nat)
    requires count <= |notes|
    requires forall i :: 0 <= i < |notes| ==> Playable(notes[i])
    requires forall i :: 0 <= i < |notes| && i != j ==> !notes[i].active
    ensures SumActive(notes, count) == if j < count then Contribution(notes[j]) else 0.0
    decreases count
  {
    if count > 0 {
      SumOfOneActive(notes, j, count - 1);
    }
  }

  /** The output of a call in which a single note plays is that note's
      sample times its gain, attenuated twice by 0.7071 and scaled by 0.1. */
  lemma SoloOutput(notes: seq<Note>, j: nat)
    requires Loaded(notes) && j < |notes| && notes[j].active
    requires forall i :: 0 <= i < |notes| && i != j ==> !notes[i].active
    ensures Output(notes, None)
              == Value(notes[j]) * Gain(notes[j]) * ATTENUATION * ATTENUATION * NORMALIZE_OFFSET
  {
    SumOfOneActive(notes, j, |notes|);
  }

  // ---------------------------------------------------------------------
  // Properties of a note over several calls

  /** A note at full gain keeps it: only its cursor moves. */
  lemma SustainKeepsGain(n: Note)
    requires Playable(n) && n.active && n.gain == FULL_GAIN
    ensures Step(n).gain == FULL_GAIN
    ensures Step(n).active == (n.frame != |n.sample| - 1)
  {
  }

  /** A released note loses exactly 0.01 per call while it plays, and stops
      for good: after as many calls as its gain in hundredths it is inactive,
      and while still active its gain is its starting gain less the calls made. */
  lemma {:induction false} ReleaseEnds(n: Note, k: nat)
    requires Playable(n) && n.active && 1 <= n.gain < FULL_GAIN && k <= n.gain
    ensures var m := StepTimes(n, k);
            && Playable(m)
            && (m.active ==> m.gain == n.gain - k)
            && (k == n.gain ==> !m.active)
    decreases k
  {
    if k > 0 {
      ReleaseEnds(n, k - 1);
    }
  }

  /** Without the end of the buffer in the way, the release is exact: after
      `k` calls the cursor has moved by `k`, the gain has dropped by `k`
      hundredths, and the note stops with gain exactly 0 after `n.gain` calls. */
  lemma {:induction false} ReleaseWithoutWrap(n: Note, k: nat)
    requires Playable(n) && n.active && 1 <= n.gain < FULL_GAIN && k <= n.gain
    requires n.frame + k < |n.sample|
    ensures var m := StepTimes(n, k);
            && m.frame == n.frame + k
            && m.gain == (if k < n.gain then n.gain - k else 0)
            && m.active == (k < n.gain)
    decreases k
  {
    if k > 0 {
      ReleaseWithoutWrap(n, k - 1);
    }
  }

  /** Without an update, a call either steps a note or leaves it as it was,
      and it leaves it as it was only when the note is silent. */
  lemma QuietStep(notes: seq<Note>, i: nat)
    requires Loaded(notes) && i < |notes|
    ensures var m := NextNotes(notes, None)[i];
            m == Step(notes[i]) || (m == notes[i] && !m.active)
  {
  }

  /** A note that is still active after a step was active before it, and
      has lost 0.01 of gain if it was below full gain. */
  lemma StillActiveAfterStep(n: Note)
    requires 0 < |n.sample|
    ensures Step(n).active ==>
              && n.active
              && Step(n).gain == (if n.gain < FULL_GAIN then n.gain - 1 else n.gain)
              && (n.gain < FULL_GAIN ==> n.gain > 1)
  {
  }

  /** While the voice receives no updates, a note that is active after `k`
      calls was active at the start, and a note that was releasing has lost
      exactly `k` hundredths of gain. */
  lemma {:induction false} ReleaseInVoice(notes: seq<Note>, k: nat, i: nat)
    requires Loaded(notes) && i < |notes|
    requires notes[i].active ==> 1 <= notes[i].gain
    ensures var m := Repeat(notes, None, k)[i];
            m.active ==> notes[i].active && 1 <= m.gain
                         && (notes[i].gain < FULL_GAIN ==> m.gain == notes[i].gain - k)
    decreases k
  {
    if k > 0 {
      ReleaseInVoice(notes, k - 1, i);
      var prev := Repeat(notes, None, k - 1);
      assert Repeat(notes, None, k) == NextNotes(prev, None);
      QuietStep(prev, i);
      StillActiveAfterStep(prev[i]);
    }
  }

  /** Once every sounding note is releasing, the voice falls silent within
      99 calls. */
  lemma ReleasedVoiceFallsSilent(notes: seq<Note>)
    requires ValidNotes(notes)
    requires forall i :: 0 <= i < |notes| && notes[i].active ==> notes[i].gain < FULL_GAIN
    ensures !AnyActive(Repeat(notes, None, FULL_GAIN - 1))
  {
    var after := Repeat(notes, None, FULL_GAIN - 1);
    forall i | 0 <= i < |after|
      ensures !after[i].active
    {
      ReleaseInVoice(notes, FULL_GAIN - 1, i);
    }
  }

  /** The notes with note `n`'s gain lowered drop `drop` hundredths. */
  function LowerGain(notes: seq<Note>, n: nat, drop: int): (r: seq<Note>)
    requires n < |notes|
    ensures |r| == |notes| && r[n].gain == notes[n].gain - drop
  {
    notes[n := notes[n].(gain := notes[n].gain - drop)]
  }

  lemma LowerGainTwice(notes: seq<Note>, n: nat, drop: int)
    requires n < |notes|
    ensures LowerGain(LowerGain(notes, n, drop), n, 1) == LowerGain(notes, n, drop + 1)
  {
    var once := LowerGain(notes, n, drop);
    var twice := LowerGain(once, n, 1);
    forall j | 0 <= j < |notes|
      ensures twice[j] == LowerGain(notes, n, drop + 1)[j]
    {
    }
  }

  /** A note-off sent to a silent voice lowers that note's gain by 0.01 and
      changes nothing else: the voice stays silent. */
  lemma NoteOffOnSilentVoice(notes: seq<Note>, u: NoteUpdate)
    requires Loaded(notes) && !AnyActive(notes) && InRange(u.note) && !u.onoff
    ensures var r := NextNotes(notes, Some(u));
            r == LowerGain(notes, u.note - START_NOTE, 1) && !AnyActive(r)
  {
    var updated := ApplyUpdate(notes, Some(u));
    assert !AnyActive(updated) by {
      forall j | 0 <= j < |updated|
        ensures !updated[j].active
      {
        assert !notes[j].active;
      }
    }
    SilentCall(notes, Some(u));
  }

  /** Note-offs sent to a silent voice keep lowering that note's gain, 0.01
      per call, with no floor, and never start it. */
  lemma {:induction false} NoteOffsOnSilentVoice(notes: seq<Note>, u: NoteUpdate, k: nat)
    requires Loaded(notes) && !AnyActive(notes) && InRange(u.note) && !u.onoff
    ensures var r := Repeat(notes, Some(u), k);
            r == LowerGain(notes, u.note - START_NOTE, k) && !AnyActive(r)
    decreases k
  {
    var n := u.note - START_NOTE;
    if k > 0 {
      NoteOffsOnSilentVoice(notes, u, k - 1);
      var prev := Repeat(notes, Some(u), k - 1);
      NoteOffOnSilentVoice(prev, u);
      LowerGainTwice(notes, n, k - 1);
    } else {
      assert LowerGain(notes, n, 0) == notes;
      assert Repeat(notes, Some(u), 0) == notes;
    }
  }

  // ---------------------------------------------------------------------
  // The voice as an object

  /** `Voice`: an instrument name and its notes, changed in place. */
  class Voice {
    const name: string
    const notes: array<Note>

    ghost predicate Valid()
      reads this, notes
    {
      ValidNotes(notes[..])
    }

    /** Build a voice from one non-empty sample buffer per note of the range,
        lowest note first; every note starts silent at full gain. */
    constructor (instrument: string, samples: seq<seq<real>>)
      requires |samples| == NOTE_COUNT
      requires forall i :: 0 <= i < |samples| ==> 0 < |samples[i]|
      ensures Valid() && fresh(notes) && name == instrument
      ensures forall i :: 0 <= i < NOTE_COUNT ==> notes[i] == NewNote(START_NOTE + i, samples[i])
    {
      name := instrument;
      notes := new Note[NOTE_COUNT](i requires 0 <= i < NOTE_COUNT => NewNote(START_NOTE + i, samples[i]));
    }

    /** `ResetablePipe::reset`, which does nothing. */
    method Reset()
      requires Valid()
      ensures Valid() && notes[..] == old(notes[..])
    {
    }

    /** The update phase of `Pipe::next`: retrigger or release the note the
        update names, if it is in range. */
    method Update(update: Option<NoteUpdate>)
      requires Loaded(notes[..])
      modifies notes
      ensures notes[..] == ApplyUpdate(old(notes[..]), update)
    {
      match update {
        case Some(u) =>
          if START_NOTE <= u.note <= END_NOTE {
            var n := u.note - START_NOTE;
            if u.onoff {
              notes[n] := notes[n].(frame := 0, gain := FULL_GAIN, active := true);
            } else {
              notes[n] := notes[n].(gain := notes[n].gain - 1);
            }
          }
        case None =>
      }
    }

    /** The playback phase of `Pipe::next`: add up what every active note
        contributes at its cursor, and step every note, active or not. */
    method Play() returns (sum: real)
      requires Loaded(notes[..])
      modifies notes
      ensures forall j :: 0 <= j < notes.Length ==> notes[j] == Step(old(notes[j]))
      ensures sum == SumActive(old(notes[..]), notes.Length)
    {
      ghost var start := notes[..];
      sum := 0.0;
      for i := 0 to notes.Length
        invariant forall j :: 0 <= j < i ==> notes[j] == Step(start[j])
        invariant forall j :: i <= j < notes.Length ==> notes[j] == start[j]
        invariant sum == SumActive(start, i)
      {
        ghost var current := notes[i];
        assert SumActive(start, i + 1) == sum + Contribution(current);
        if notes[i].active {
          sum := sum + Value(notes[i]) * Gain(notes[i]) * ATTENUATION;
          if notes[i].gain < FULL_GAIN {
            if notes[i].gain > 1 {
              notes[i] := notes[i].(gain := notes[i].gain - 1);
            } else {
              notes[i] := notes[i].(gain := 0, active := false);
            }
          }
        }
        assert notes[i] == Release(current);
        if notes[i].frame == |notes[i].sample| - 1 {
          notes[i] := notes[i].(active := false, frame := 0);
        } else {
          notes[i] := notes[i].(frame := notes[i].frame + 1);
        }
        assert notes[i] == Step(current);
      }
    }

    /** `Pipe::next`: apply at most one update, then, if any note is active,
        produce the attenuated sum of the active notes and step every note;
        otherwise produce silence. */
    method Next(update: Option<NoteUpdate>) returns (out: real)
      requires Valid()
      modifies notes
      ensures Valid()
      ensures notes[..] == NextNotes(old(notes[..]), update)
      ensures out == Output(old(notes[..]), update)
    {
      NextNotesKeepsValid(notes[..], update);
      Update(update);
      var total := ActiveCount(notes[..]);
      if total > 0 {
        var sum := Play();
        out := sum * ATTENUATION * NORMALIZE_OFFSET;
      } else {
        out := 0.0;
      }
    }
  }
}

/** Note events: the MIDI messages a raw event may carry, the note updates the
    voices consume, and the reader that turns the one into a pair of the other
    (src/pipes.rs, `NoteUpdate` and `EventReader`). */
module Events {

  datatype Option<T> = None | Some(value: T)

  /** A 7-bit MIDI data value (`wmidi::U7`, and the range of `wmidi::Note`). */
  type U7 = x: int | 0 <= x < 128

  /** A MIDI channel number. */
  type Channel = x: int | 0 <= x < 16

  /** What reading a raw event atom can give: a note-on, a note-off, any other
      MIDI message, or nothing readable at all. */
  datatype RawEvent =
    | NoteOn(channel: Channel, note: U7, velocity: U7)
    | NoteOff(channel: Channel, note: U7, velocity: U7)
    | OtherMessage
    | Unreadable

  /** A decoded note event, addressed to one voice. */
  datatype NoteUpdate = NoteUpdate(note: U7, onoff: bool, velocity: U7)

  predicate IsNoteMessage(e: RawEvent) {
    e.NoteOn? || e.NoteOff?
  }

  /** `EventReader::next`: classify one frame's optional event and fan the
      decoded update out to both voices. */
  function ReadEvent(atom: Option<RawEvent>): (r: (Option<NoteUpdate>, Option<NoteUpdate>))
    // both voices are sent the same update
    ensures r.0 == r.1
    // an update is produced exactly for a note-on or a note-off message
    ensures r.0.Some? <==> atom.Some? && IsNoteMessage(atom.value)
    // and it carries the message's note and velocity, switched on for a note-on
    ensures r.0.Some? ==>
              && r.0.value.onoff == atom.value.NoteOn?
              && r.0.value.note == atom.value.note
              && r.0.value.velocity == atom.value.velocity
  {
    match atom
    case None => (None, None)
    case Some(event) =>
      match event
      case NoteOn(_, note, velocity) =>
        (Some(NoteUpdate(note, true, velocity)), Some(NoteUpdate(note, true, velocity)))
      case NoteOff(_, note, velocity) =>
        (Some(NoteUpdate(note, false, velocity)), Some(NoteUpdate(note, false, velocity)))
      case OtherMessage => (None, None)
      case Unreadable => (None, None)
  }

  /** The channel a note message arrives on makes no difference to the update. */
  lemma ReadEventIgnoresChannel(c1: Channel, c2: Channel, note: U7, velocity: U7)
    ensures ReadEvent(Some(NoteOn(c1, note, velocity))) == ReadEvent(Some(NoteOn(c2, note, velocity)))
    ensures ReadEvent(Some(NoteOff(c1, note, velocity))) == ReadEvent(Some(NoteOff(c2, note, velocity)))
  {
  }
}

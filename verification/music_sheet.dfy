/**
 The song library of `AudioManager._createMusicSheet`: three songs as measures of
 melody notes and chords, each placed by a 1-based beat and a length in beats.
 Titles, composers and key signatures are display data and are not modelled.
 */
module MusicSheet {

  /** A melody note: `{ note, duration, beat }`. */
  datatype Note = Note(name: string, duration: real, beat: real)

  /** A chord of the harmony line: `{ notes, duration, beat }`. */
  datatype Chord = Chord(names: seq<string>, duration: real, beat: real)

  datatype Measure = Measure(notes: seq<Note>, harmony: seq<Chord>)

  /** `timeSignature[0]` is `beatsPerMeasure`. */
  datatype Song = Song(beatsPerMeasure: nat, beatUnit: nat, tempo: real, measures: seq<Measure>)

  datatype SongId = TwinkleStar | HappyBirthday | OdeToJoy

  /** Something lasting `duration` beats from 1-based `beat` fits inside a measure of `beats` beats. */
  predicate FitsMeasure(beat: real, duration: real, beats: nat)
  {
    1.0 <= beat && 0.0 < duration && beat - 1.0 + duration <= beats as real
  }

  /** A chord of one to three voices lasting at least a beat, so its arpeggio never swallows a voice. */
  predicate ChordPlayable(c: Chord)
  {
    1.0 <= c.duration && 0 < |c.names| <= 3
  }

  predicate MeasureFits(m: Measure, beats: nat)
  {
    && (forall i :: 0 <= i < |m.notes| ==> FitsMeasure(m.notes[i].beat, m.notes[i].duration, beats))
    && (forall i :: 0 <= i < |m.harmony| ==> FitsMeasure(m.harmony[i].beat, m.harmony[i].duration, beats))
    && (forall i :: 0 <= i < |m.harmony| ==> ChordPlayable(m.harmony[i]))
  }

  /**
   A playable song: a positive tempo, at least one measure, every note and chord inside
   its measure, and every chord playable.
   */
  predicate SongWellFormed(s: Song)
  {
    && s.tempo > 0.0
    && s.beatsPerMeasure > 0
    && |s.measures| > 0
    && forall i :: 0 <= i < |s.measures| ==> MeasureFits(s.measures[i], s.beatsPerMeasure)
  }

  const CMajor: seq<string> := ["C3", "E3", "G3"]
  const FMajor: seq<string> := ["F3", "A3", "C4"]
  const GMajor: seq<string> := ["G3", "B3", "D4"]

  /** The "Happy Birth-day" measure shape shared by measures 1, 3, 5 and 7. */
  function HappyPhrase(a: string, b: string, c: string, harmony: seq<Chord>): Measure
  {
    Measure([Note(a, 0.5, 1.0), Note(a, 0.5, 1.5), Note(b, 1.0, 2.0), Note(c, 1.0, 3.0)], harmony)
  }

  /** The "day to you" measure shape shared by measures 2, 4, 6 and 8. */
  function HappyAnswer(a: string, b: string, first: seq<string>, second: seq<string>): Measure
  {
    Measure([Note(a, 1.0, 1.0), Note(b, 2.0, 2.0)], [Chord(first, 1.0, 1.0), Chord(second, 2.0, 2.0)])
  }

  /** Happy Birthday, in 3/4. */
  const HappyBirthdaySong: Song := Song(3, 4, 120.0, [
    HappyPhrase("C4", "D4", "C4", [Chord(CMajor, 3.0, 1.0)]),
    HappyAnswer("F4", "E4", FMajor, CMajor),
    HappyPhrase("C4", "D4", "C4", [Chord(CMajor, 3.0, 1.0)]),
    HappyAnswer("G4", "F4", GMajor, FMajor),
    HappyPhrase("C5", "A4", "F4", [Chord(CMajor, 1.0, 1.0), Chord(FMajor, 2.0, 2.0)]),
    HappyAnswer("E4", "D4", CMajor, GMajor),
    HappyPhrase("C5", "A4", "F4", [Chord(CMajor, 1.0, 1.0), Chord(FMajor, 2.0, 2.0)]),
    HappyAnswer("G4", "C4", GMajor, CMajor)
  ])

  /** Twinkle Twinkle Little Star, in 4/4. */
  const TwinkleStarSong: Song := Song(4, 4, 120.0, [
    Measure([Note("C4", 1.0, 1.0), Note("C4", 1.0, 2.0), Note("G4", 1.0, 3.0), Note("G4", 1.0, 4.0)],
            [Chord(CMajor, 4.0, 1.0)]),
    Measure([Note("A4", 1.0, 1.0), Note("A4", 1.0, 2.0), Note("G4", 2.0, 3.0)],
            [Chord(FMajor, 2.0, 1.0), Chord(CMajor, 2.0, 3.0)]),
    Measure([Note("F4", 1.0, 1.0), Note("F4", 1.0, 2.0), Note("E4", 1.0, 3.0), Note("E4", 1.0, 4.0)],
            [Chord(FMajor, 2.0, 1.0), Chord(CMajor, 2.0, 3.0)]),
    Measure([Note("D4", 1.0, 1.0), Note("D4", 1.0, 2.0), Note("C4", 2.0, 3.0)],
            [Chord(GMajor, 2.0, 1.0), Chord(CMajor, 2.0, 3.0)])
  ])

  /** Ode to Joy, in 4/4. */
  const OdeToJoySong: Song := Song(4, 4, 120.0, [
    Measure([Note("E4", 1.0, 1.0), Note("E4", 1.0, 2.0), Note("F4", 1.0, 3.0), Note("G4", 1.0, 4.0)],
            [Chord(CMajor, 2.0, 1.0), Chord(FMajor, 1.0, 3.0), Chord(GMajor, 1.0, 4.0)]),
    Measure([Note("G4", 1.0, 1.0), Note("F4", 1.0, 2.0), Note("E4", 1.0, 3.0), Note("D4", 1.0, 4.0)],
            [Chord(GMajor, 1.0, 1.0), Chord(FMajor, 1.0, 2.0), Chord(CMajor, 2.0, 3.0)]),
    Measure([Note("C4", 1.0, 1.0), Note("C4", 1.0, 2.0), Note("D4", 1.0, 3.0), Note("E4", 1.0, 4.0)],
            [Chord(CMajor, 2.0, 1.0), Chord(GMajor, 1.0, 3.0), Chord(CMajor, 1.0, 4.0)]),
    Measure([Note("E4", 1.5, 1.0), Note("D4", 0.5, 2.5), Note("D4", 2.0, 3.0)],
            [Chord(CMajor, 2.0, 1.0), Chord(GMajor, 2.0, 3.0)])
  ])

  function SheetOf(id: SongId): Song
  {
    match id
    case TwinkleStar => TwinkleStarSong
    case HappyBirthday => HappyBirthdaySong
    case OdeToJoy => OdeToJoySong
  }

  /** A library whose every song is well formed. */
  predicate LibraryOk(lib: SongId -> Song)
  {
    forall id :: SongWellFormed(lib(id))
  }

  /** Every note and chord of every song lies inside its measure, and every song can be played. */
  lemma {:induction false} SheetsWellFormed()
    ensures LibraryOk(SheetOf)
  {
    forall id
      ensures SongWellFormed(SheetOf(id))
    {
      match id
      case TwinkleStar => TwinkleStarWellFormed();
      case HappyBirthday => HappyBirthdayWellFormed();
      case OdeToJoy => OdeToJoyWellFormed();
    }
  }

  lemma {:induction false} HappyBirthdayWellFormed()
    ensures SongWellFormed(HappyBirthdaySong)
  {
    var s := HappyBirthdaySong;
    forall i | 0 <= i < |s.measures|
      ensures MeasureFits(s.measures[i], s.beatsPerMeasure)
    {
    }
  }

  lemma {:induction false} TwinkleStarWellFormed()
    ensures SongWellFormed(TwinkleStarSong)
  {
    var s := TwinkleStarSong;
    forall i | 0 <= i < |s.measures|
      ensures MeasureFits(s.measures[i], s.beatsPerMeasure)
    {
    }
  }

  lemma {:induction false} OdeToJoyWellFormed()
    ensures SongWellFormed(OdeToJoySong)
  {
    var s := OdeToJoySong;
    forall i | 0 <= i < |s.measures|
      ensures MeasureFits(s.measures[i], s.beatsPerMeasure)
    {
    }
  }
}

/**
 One step of the procedural background music (`playNextNote` inside
 `AudioManager._playMusicLoop`): choose the song for the current speed ratio, play one
 measure of it, and compute when the next step is due.

 A step is a pure transition of the measure cursor. The Web Audio oscillators are not
 modelled; what a measure schedules is returned as data: one tone per melody note, one
 per chord voice, and the drum hits of `_addSimpleRhythm`.
 */
module Sequencer {
  import opened Common
  import opened MusicSheet

  // ---------------------------------------------------------------- song and tempo

  /** `_selectSong`: the slowest song up to ratio 1.3, the fastest from ratio 2. */
  function SelectSong(ratio: real): (id: SongId)
    ensures id == TwinkleStar <==> ratio < 1.3
    ensures id == HappyBirthday <==> 1.3 <= ratio < 2.0
    ensures id == OdeToJoy <==> 2.0 <= ratio
  {
    if ratio < 1.3 then TwinkleStar
    else if ratio < 2.0 then HappyBirthday
    else OdeToJoy
  }

  /** The songs in the order the speed ratio reaches them. */
  function SongRank(id: SongId): nat
  {
    match id
    case TwinkleStar => 0
    case HappyBirthday => 1
    case OdeToJoy => 2
  }

  /** Speeding up never goes back to an earlier song. */
  lemma {:induction false} SelectSongMonotone(r1: real, r2: real)
    requires r1 <= r2
    ensures SongRank(SelectSong(r1)) <= SongRank(SelectSong(r2))
  {
  }

  /** `songData.tempo || 120`. */
  function BaseTempo(s: Song): (t: real)
    requires s.tempo >= 0.0
    ensures t > 0.0
    ensures s.tempo > 0.0 ==> t == s.tempo
  {
    if s.tempo != 0.0 then s.tempo else 120.0
  }

  /** The speed factor of the tempo: the ratio, but never more than 2. */
  const MaxTempoFactor: real := 2.0

  /** Seconds per beat: `60 / (baseTempo * min(ratio, 2))`. */
  function BeatDuration(s: Song, ratio: real): (bd: real)
    requires s.tempo >= 0.0 && ratio > 0.0
    ensures bd > 0.0
    ensures bd * (BaseTempo(s) * Min(ratio, MaxTempoFactor)) == 60.0
  {
    60.0 / (BaseTempo(s) * Min(ratio, MaxTempoFactor))
  }

  lemma {:induction false} DivAntitone(c: real, a: real, b: real)
    requires 0.0 < a <= b && c >= 0.0
    ensures c / b <= c / a
  {
    var qa, qb := c / a, c / b;
    assert qa * a == c && qb * b == c;
    assert qa * b >= qa * a by {
      assert qa * (b - a) >= 0.0;
    }
  }

  /**
   A faster game never slows the beat, and past twice the initial speed the beat no
   longer changes: the tempo is capped at 2x.
   */
  lemma {:induction false} BeatDurationMonotone(s: Song, r1: real, r2: real)
    requires s.tempo >= 0.0 && 0.0 < r1 <= r2
    ensures BeatDuration(s, r2) <= BeatDuration(s, r1)
    ensures MaxTempoFactor <= r1 ==> BeatDuration(s, r1) == BeatDuration(s, r2)
  {
    var t := BaseTempo(s);
    var m1, m2 := Min(r1, MaxTempoFactor), Min(r2, MaxTempoFactor);
    var p1, p2 := t * m1, t * m2;
    assert 0.0 < p1 by {
      MulPositive(t, m1);
    }
    assert p1 <= p2 by {
      MulMono(m1, m2, t);
    }
    DivAntitone(60.0, p1, p2);
    assert BeatDuration(s, r1) == 60.0 / p1 && BeatDuration(s, r2) == 60.0 / p2;
  }

  /** For the songs of the library (tempo 120) a beat lasts half a second divided by the capped ratio, and never less than a quarter second. */
  lemma {:induction false} SheetBeatDuration(id: SongId, ratio: real)
    requires ratio > 0.0
    ensures BeatDuration(SheetOf(id), ratio) == 0.5 / Min(ratio, MaxTempoFactor)
    ensures BeatDuration(SheetOf(id), ratio) >= 0.25
  {
    var m := Min(ratio, MaxTempoFactor);
    var bd := BeatDuration(SheetOf(id), ratio);
    assert bd * (120.0 * m) == 60.0;
    assert (bd * m) * 120.0 == 60.0;
    assert bd * m == 0.5;
    DivAntitone(0.5, m, 2.0);
    assert 0.5 / 2.0 == 0.25;
  }

  // ---------------------------------------------------------------- scheduled sound

  datatype Wave = Sine | Triangle

  /** A call of `_playRealNote`: note name, start time and length in seconds, volume, wave. */
  datatype Tone = Tone(name: string, start: real, duration: real, volume: real, wave: Wave)

  /** A call of `_createDrumHit`: start time, frequency, length and volume. */
  datatype Drum = Drum(start: real, freq: real, duration: real, volume: real)

  /** `0.8 + speedRatio * 0.4`. */
  function VolumeMultiplier(ratio: real): real
  {
    0.8 + ratio * 0.4
  }

  /** The length in seconds of `beats` beats. */
  function Seconds(beats: real, bd: real): real
  {
    beats * bd
  }

  /** When a measure of `beats` beats that starts at `start` ends. */
  function MeasureEnd(start: real, beats: nat, bd: real): real
  {
    start + Seconds(beats as real, bd)
  }

  /** The seconds at which 1-based `beat` starts in a measure starting at `start`. */
  function BeatTime(start: real, beat: real, bd: real): real
  {
    start + (beat - 1.0) * bd
  }

  /** The melody: one sine tone per note at its beat, lasting its length in beats. */
  function MelodyTones(notes: seq<Note>, start: real, bd: real, vm: real): (r: seq<Tone>)
    ensures |r| == |notes|
    ensures forall i :: 0 <= i < |notes| ==>
              r[i] == Tone(notes[i].name, BeatTime(start, notes[i].beat, bd), Seconds(notes[i].duration, bd), vm * 1.2, Sine)
  {
    if notes == [] then []
    else
      var n := notes[0];
      [Tone(n.name, BeatTime(start, n.beat, bd), Seconds(n.duration, bd), vm * 1.2, Sine)]
        + MelodyTones(notes[1..], start, bd, vm)
  }

  /** The arpeggio stagger between consecutive chord voices, in seconds. */
  const Stagger: real := 0.03

  /**
   Voices `k`, `k + 1`, ... of a chord starting at `cs` and lasting `cd` seconds: voice `j`
   starts `j` staggers late and is shortened by as much, so every voice ends with the chord.
   */
  function Voices(names: seq<string>, cs: real, cd: real, vm: real, k: nat): (r: seq<Tone>)
    ensures |r| == |names|
    ensures forall j :: 0 <= j < |names| ==>
              && r[j].name == names[j] && r[j].wave == Triangle && r[j].volume == vm * 0.6
              && r[j].start == cs + Stagger * (k + j) as real
              && r[j].start + r[j].duration == cs + cd
    decreases |names|
  {
    if names == [] then []
    else
      var d := Stagger * k as real;
      var rest := Voices(names[1..], cs, cd, vm, k + 1);
      var r := [Tone(names[0], cs + d, cd - d, vm * 0.6, Triangle)] + rest;
      assert forall j :: 1 <= j < |r| ==> r[j] == rest[j - 1];
      r
  }

  /** The number of voices over all chords. */
  function VoiceCount(chords: seq<Chord>): nat
  {
    if chords == [] then 0 else |chords[0].names| + VoiceCount(chords[1..])
  }

  /**
   Voice `j` of chord `c` as the arpeggio schedules it: `j` staggers after the chord's
   start and shortened by as much, a triangle at 0.6 of the volume multiplier.
   */
  function VoiceTone(c: Chord, j: nat, start: real, bd: real, vm: real): Tone
    requires j < |c.names|
  {
    var delay := Stagger * j as real;
    Tone(c.names[j], BeatTime(start, c.beat, bd) + delay, Seconds(c.duration, bd) - delay, vm * 0.6, Triangle)
  }

  /** Every voice of every chord, as the arpeggio schedules it, is among `tones`. */
  predicate HasVoices(chords: seq<Chord>, start: real, bd: real, vm: real, tones: seq<Tone>)
  {
    forall i, j :: 0 <= i < |chords| && 0 <= j < |chords[i].names| ==>
      VoiceTone(chords[i], j, start, bd, vm) in tones
  }

  /** The harmony: every voice of every chord, chord by chord. */
  function HarmonyTones(chords: seq<Chord>, start: real, bd: real, vm: real): (r: seq<Tone>)
    ensures |r| == VoiceCount(chords)
    ensures forall j :: 0 <= j < |r| ==> r[j].wave == Triangle && r[j].volume == vm * 0.6
    ensures HasVoices(chords, start, bd, vm, r)
    decreases |chords|
  {
    if chords == [] then []
    else
      var c := chords[0];
      var vs := Voices(c.names, BeatTime(start, c.beat, bd), Seconds(c.duration, bd), vm, 0);
      var rest := HarmonyTones(chords[1..], start, bd, vm);
      assert forall j :: |vs| <= j < |vs + rest| ==> (vs + rest)[j] == rest[j - |vs|];
      HarmonyCons(chords, vs, rest, start, bd, vm);
      vs + rest
  }

  /** The first chord's voices followed by the other chords' harmony hold every voice of every chord. */
  lemma {:induction false} HarmonyCons(chords: seq<Chord>, vs: seq<Tone>, rest: seq<Tone>, start: real, bd: real, vm: real)
    requires |chords| > 0
    requires vs == Voices(chords[0].names, BeatTime(start, chords[0].beat, bd), Seconds(chords[0].duration, bd), vm, 0)
    requires HasVoices(chords[1..], start, bd, vm, rest)
    ensures HasVoices(chords, start, bd, vm, vs + rest)
  {
    forall i, j | 0 <= i < |chords| && 0 <= j < |chords[i].names|
      ensures VoiceTone(chords[i], j, start, bd, vm) in vs + rest
    {
      if i == 0 {
        assert vs[j] == VoiceTone(chords[0], j, start, bd, vm);
        assert (vs + rest)[j] == vs[j];
      } else {
        assert chords[i] == chords[1..][i - 1];
        assert VoiceTone(chords[1..][i - 1], j, start, bd, vm) in rest;
      }
    }
  }

  /** `_addSimpleRhythm` hard-codes four beats per measure, whatever the song's time signature. */
  const RhythmBeats: nat := 4

  /**
   The drum hits of one beat: a kick on beats 1 and 3; a snare on beats 2 and 4 above
   ratio 1.5; a hi-hat half a beat late above ratio 1.8.
   */
  function BeatHits(start: real, bd: real, ratio: real, beat: nat): seq<Drum>
  {
    var t := BeatTime(start, beat as real, bd);
    (if beat == 1 || beat == 3 then [Kick(t, ratio)] else [])
      + (if ratio > 1.5 && (beat == 2 || beat == 4) then [Snare(t, ratio)] else [])
      + (if ratio > 1.8 then [HiHat(t + bd * 0.5, ratio)] else [])
  }

  /** The beats `beat` to 4 of `_addSimpleRhythm`. */
  function RhythmFrom(start: real, bd: real, ratio: real, beat: nat): seq<Drum>
    requires beat >= 1
    decreases RhythmBeats + 1 - beat
  {
    if beat > RhythmBeats then [] else BeatHits(start, bd, ratio, beat) + RhythmFrom(start, bd, ratio, beat + 1)
  }

  /** How many drum hits a measure gets at a ratio: none, then kicks, then snares, then hi-hats. */
  function DrumCount(ratio: real): nat
  {
    if ratio <= 1.2 then 0 else if ratio <= 1.5 then 2 else if ratio <= 1.8 then 4 else 8
  }

  /**
   The rhythm is only added above ratio 1.2; every measure then gets exactly the drum
   hits its ratio band allows.
   */
  function Rhythm(start: real, bd: real, ratio: real): (r: seq<Drum>)
    ensures |r| == DrumCount(ratio)
    ensures 1.2 < ratio <= 1.5 ==> r == [Kick(start, ratio), Kick(start + 2.0 * bd, ratio)]
    ensures 1.5 < ratio <= 1.8 ==>
              r == [Kick(start, ratio), Snare(start + bd, ratio),
                    Kick(start + 2.0 * bd, ratio), Snare(start + 3.0 * bd, ratio)]
    ensures 1.8 < ratio ==>
              r == [Kick(start, ratio), HiHat(start + 0.5 * bd, ratio),
                    Snare(start + bd, ratio), HiHat(start + 1.5 * bd, ratio),
                    Kick(start + 2.0 * bd, ratio), HiHat(start + 2.5 * bd, ratio),
                    Snare(start + 3.0 * bd, ratio), HiHat(start + 3.5 * bd, ratio)]
  {
    if ratio > 1.2 then
      if ratio <= 1.5 then RhythmKicks(start, bd, ratio); RhythmFrom(start, bd, ratio, 1)
      else if ratio <= 1.8 then RhythmSnares(start, bd, ratio); RhythmFrom(start, bd, ratio, 1)
      else RhythmHiHats(start, bd, ratio); RhythmFrom(start, bd, ratio, 1)
    else []
  }

  /** The kick of beats 1 and 3: 60 Hz for 0.1 s. */
  function Kick(t: real, ratio: real): Drum { Drum(t, 60.0, 0.1, 0.04 * ratio) }

  /** The snare of beats 2 and 4: 200 Hz for 0.08 s. */
  function Snare(t: real, ratio: real): Drum { Drum(t, 200.0, 0.08, 0.03 * ratio) }

  /** The hi-hat half a beat after each beat: 8000 Hz for 0.03 s. */
  function HiHat(t: real, ratio: real): Drum { Drum(t, 8000.0, 0.03, 0.02 * ratio) }

  /** Between ratios 1.2 and 1.5 a measure gets the kicks of beats 1 and 3 only. */
  lemma {:induction false} RhythmKicks(start: real, bd: real, ratio: real)
    requires 1.2 < ratio <= 1.5
    ensures RhythmFrom(start, bd, ratio, 1) == [Kick(start, ratio), Kick(start + 2.0 * bd, ratio)]
  {
    RhythmBeats4(start, bd, ratio);
    assert BeatHits(start, bd, ratio, 1) == [Kick(start, ratio)] by { BeatAt(start, bd, ratio, 1); }
    assert BeatHits(start, bd, ratio, 2) == [] by { BeatAt(start, bd, ratio, 2); }
    assert BeatHits(start, bd, ratio, 3) == [Kick(start + 2.0 * bd, ratio)] by { BeatAt(start, bd, ratio, 3); }
    assert BeatHits(start, bd, ratio, 4) == [] by { BeatAt(start, bd, ratio, 4); }
    assert RhythmFrom(start, bd, ratio, 1) == [Kick(start, ratio)] + ([] + ([Kick(start + 2.0 * bd, ratio)] + []));
  }

  /** Between ratios 1.5 and 1.8 the snares of beats 2 and 4 join the kicks. */
  lemma {:induction false} RhythmSnares(start: real, bd: real, ratio: real)
    requires 1.5 < ratio <= 1.8
    ensures RhythmFrom(start, bd, ratio, 1)
         == [Kick(start, ratio), Snare(start + bd, ratio),
             Kick(start + 2.0 * bd, ratio), Snare(start + 3.0 * bd, ratio)]
  {
    RhythmBeats4(start, bd, ratio);
    assert BeatHits(start, bd, ratio, 1) == [Kick(start, ratio)] by { BeatAt(start, bd, ratio, 1); }
    assert BeatHits(start, bd, ratio, 2) == [Snare(start + bd, ratio)] by { BeatAt(start, bd, ratio, 2); }
    assert BeatHits(start, bd, ratio, 3) == [Kick(start + 2.0 * bd, ratio)] by { BeatAt(start, bd, ratio, 3); }
    assert BeatHits(start, bd, ratio, 4) == [Snare(start + 3.0 * bd, ratio)] by { BeatAt(start, bd, ratio, 4); }
    assert RhythmFrom(start, bd, ratio, 1)
        == [Kick(start, ratio)] + ([Snare(start + bd, ratio)]
         + ([Kick(start + 2.0 * bd, ratio)] + [Snare(start + 3.0 * bd, ratio)]));
  }

  /** Above ratio 1.8 every beat is followed by a hi-hat half a beat later. */
  lemma {:induction false} RhythmHiHats(start: real, bd: real, ratio: real)
    requires 1.8 < ratio
    ensures RhythmFrom(start, bd, ratio, 1)
         == [Kick(start, ratio), HiHat(start + 0.5 * bd, ratio),
             Snare(start + bd, ratio), HiHat(start + 1.5 * bd, ratio),
             Kick(start + 2.0 * bd, ratio), HiHat(start + 2.5 * bd, ratio),
             Snare(start + 3.0 * bd, ratio), HiHat(start + 3.5 * bd, ratio)]
  {
    RhythmBeats4(start, bd, ratio);
    assert BeatHits(start, bd, ratio, 1) == [Kick(start, ratio), HiHat(start + 0.5 * bd, ratio)] by {
      BeatAt(start, bd, ratio, 1);
    }
    assert BeatHits(start, bd, ratio, 2) == [Snare(start + bd, ratio), HiHat(start + 1.5 * bd, ratio)] by {
      BeatAt(start, bd, ratio, 2);
    }
    assert BeatHits(start, bd, ratio, 3) == [Kick(start + 2.0 * bd, ratio), HiHat(start + 2.5 * bd, ratio)] by {
      BeatAt(start, bd, ratio, 3);
    }
    assert BeatHits(start, bd, ratio, 4) == [Snare(start + 3.0 * bd, ratio), HiHat(start + 3.5 * bd, ratio)] by {
      BeatAt(start, bd, ratio, 4);
    }
    assert RhythmFrom(start, bd, ratio, 1)
        == [Kick(start, ratio), HiHat(start + 0.5 * bd, ratio)]
         + ([Snare(start + bd, ratio), HiHat(start + 1.5 * bd, ratio)]
         + ([Kick(start + 2.0 * bd, ratio), HiHat(start + 2.5 * bd, ratio)]
         + [Snare(start + 3.0 * bd, ratio), HiHat(start + 3.5 * bd, ratio)]));
  }

  /** The four beats laid end to end. */
  lemma {:induction false} RhythmBeats4(start: real, bd: real, ratio: real)
    ensures RhythmFrom(start, bd, ratio, 1)
         == BeatHits(start, bd, ratio, 1) + (BeatHits(start, bd, ratio, 2)
          + (BeatHits(start, bd, ratio, 3) + BeatHits(start, bd, ratio, 4)))
  {
    var h4 := BeatHits(start, bd, ratio, 4);
    assert RhythmFrom(start, bd, ratio, 5) == [];
    assert RhythmFrom(start, bd, ratio, 4) == h4 + [] == h4;
  }

  /** Beat `k` starts `k - 1` beat durations after `start`, its hi-hat half a beat later. */
  lemma {:induction false} BeatAt(start: real, bd: real, ratio: real, k: nat)
    requires 1 <= k <= RhythmBeats
    ensures var t := start + (k - 1) as real * bd;
            var main := if k % 2 == 1 then [Kick(t, ratio)]
                        else if ratio > 1.5 then [Snare(t, ratio)] else [];
            var h := if ratio > 1.8 then [HiHat(t + 0.5 * bd, ratio)] else [];
            BeatHits(start, bd, ratio, k) == main + h
  {
    assert BeatTime(start, k as real, bd) == start + (k - 1) as real * bd;
  }

  /** What `_playMeasureFromRealSheet` schedules for one measure. */
  datatype Sound = Sound(tones: seq<Tone>, drums: seq<Drum>)

  function PlayMeasure(m: Measure, start: real, bd: real, ratio: real): (r: Sound)
    ensures |r.drums| == DrumCount(ratio)
    ensures |r.tones| == |m.notes| + VoiceCount(m.harmony)
    ensures HasVoices(m.harmony, start, bd, VolumeMultiplier(ratio), r.tones)
    ensures forall i :: 0 <= i < |m.notes| ==> r.tones[i].name == m.notes[i].name && r.tones[i].wave == Sine
    ensures forall i :: |m.notes| <= i < |r.tones| ==> r.tones[i].wave == Triangle
  {
    var vm := VolumeMultiplier(ratio);
    Sound(MelodyTones(m.notes, start, bd, vm) + HarmonyTones(m.harmony, start, bd, vm), Rhythm(start, bd, ratio))
  }

  // ---------------------------------------------------------------- timing properties

  /** A tone starts no earlier than `lo`, lasts a positive time and is over by `hi`. */
  predicate Within(t: Tone, lo: real, hi: real)
  {
    lo <= t.start && t.duration > 0.0 && t.start + t.duration <= hi
  }

  lemma {:induction false} MulMono(a: real, b: real, c: real)
    requires a <= b && c >= 0.0
    ensures a * c <= b * c
  {
    assert (b - a) * c >= 0.0;
  }

  /** Something that fits its measure starts and ends inside the measure's time span. */
  lemma {:induction false} SpanFits(beat: real, duration: real, beats: nat, start: real, bd: real)
    requires bd > 0.0 && FitsMeasure(beat, duration, beats)
    ensures start <= BeatTime(start, beat, bd)
    ensures Seconds(duration, bd) > 0.0
    ensures BeatTime(start, beat, bd) + Seconds(duration, bd) <= MeasureEnd(start, beats, bd)
  {
    var off, len, span := (beat - 1.0) * bd, duration * bd, (beats as real) * bd;
    assert 0.0 <= off by {
      MulNonNegative(beat - 1.0, bd);
    }
    assert 0.0 < len by {
      MulPositive(duration, bd);
    }
    assert off + len <= span by {
      MulMono(beat - 1.0 + duration, beats as real, bd);
      assert off + len == (beat - 1.0 + duration) * bd;
    }
  }

  /** A note that fits its measure sounds inside the measure's time span. */
  lemma {:induction false} NoteWithin(n: Note, start: real, bd: real, vm: real, beats: nat)
    requires bd > 0.0 && FitsMeasure(n.beat, n.duration, beats)
    ensures Within(Tone(n.name, BeatTime(start, n.beat, bd), Seconds(n.duration, bd), vm * 1.2, Sine),
                   start, MeasureEnd(start, beats, bd))
  {
    SpanFits(n.beat, n.duration, beats, start, bd);
  }

  lemma {:induction false} MelodyWithin(notes: seq<Note>, start: real, bd: real, vm: real, beats: nat)
    requires bd > 0.0
    requires forall i :: 0 <= i < |notes| ==> FitsMeasure(notes[i].beat, notes[i].duration, beats)
    ensures AllWithin(MelodyTones(notes, start, bd, vm), start, MeasureEnd(start, beats, bd))
  {
    forall i | 0 <= i < |notes|
      ensures Within(MelodyTones(notes, start, bd, vm)[i], start, MeasureEnd(start, beats, bd))
    {
      NoteWithin(notes[i], start, bd, vm, beats);
    }
  }

  /**
   Every voice of a playable chord that fits its measure sounds inside the measure, as
   long as a beat lasts at least a quarter second: the stagger of at most two voices
   (0.06 s) never eats up a chord of at least one beat.
   */
  lemma {:induction false} ChordWithin(c: Chord, start: real, bd: real, vm: real, beats: nat)
    requires bd >= 0.25 && FitsMeasure(c.beat, c.duration, beats) && ChordPlayable(c)
    ensures AllWithin(Voices(c.names, BeatTime(start, c.beat, bd), Seconds(c.duration, bd), vm, 0),
                      start, MeasureEnd(start, beats, bd))
  {
    var cs, cd := BeatTime(start, c.beat, bd), Seconds(c.duration, bd);
    var vs := Voices(c.names, cs, cd, vm, 0);
    SpanFits(c.beat, c.duration, beats, start, bd);
    assert cd >= 0.25 by {
      MulMono(1.0, c.duration, bd);
    }
    forall j | 0 <= j < |vs|
      ensures Within(vs[j], start, MeasureEnd(start, beats, bd))
    {
      assert vs[j].start == cs + Stagger * j as real;
      assert vs[j].start + vs[j].duration == cs + cd;
      assert j <= 2;
      assert Stagger * j as real <= 0.06;
    }
  }

  /** Two lists of tones within a span make one. */
  predicate AllWithin(ts: seq<Tone>, lo: real, hi: real)
  {
    forall j :: 0 <= j < |ts| ==> Within(ts[j], lo, hi)
  }

  lemma {:induction false} ConcatWithin(a: seq<Tone>, b: seq<Tone>, lo: real, hi: real)
    requires AllWithin(a, lo, hi) && AllWithin(b, lo, hi)
    ensures AllWithin(a + b, lo, hi)
  {
    forall j | 0 <= j < |a + b|
      ensures Within((a + b)[j], lo, hi)
    {
      if j < |a| {
        assert (a + b)[j] == a[j];
      } else {
        assert (a + b)[j] == b[j - |a|];
      }
    }
  }

  lemma {:induction false} HarmonyWithin(chords: seq<Chord>, start: real, bd: real, vm: real, beats: nat)
    requires bd >= 0.25
    requires forall i :: 0 <= i < |chords| ==> FitsMeasure(chords[i].beat, chords[i].duration, beats)
    requires forall i :: 0 <= i < |chords| ==> ChordPlayable(chords[i])
    ensures AllWithin(HarmonyTones(chords, start, bd, vm), start, MeasureEnd(start, beats, bd))
    decreases |chords|
  {
    if chords != [] {
      var c := chords[0];
      ChordWithin(c, start, bd, vm, beats);
      HarmonyWithin(chords[1..], start, bd, vm, beats);
      var vs := Voices(c.names, BeatTime(start, c.beat, bd), Seconds(c.duration, bd), vm, 0);
      var rest := HarmonyTones(chords[1..], start, bd, vm);
      assert HarmonyTones(chords, start, bd, vm) == vs + rest;
      ConcatWithin(vs, rest, start, MeasureEnd(start, beats, bd));
    }
  }

  /** Every tone a well-formed song's measure schedules sounds within that measure. */
  lemma {:induction false} MeasureTonesWithin(s: Song, i: nat, start: real, ratio: real)
    requires SongWellFormed(s) && i < |s.measures| && ratio > 0.0
    requires BeatDuration(s, ratio) >= 0.25
    ensures var bd := BeatDuration(s, ratio);
            AllWithin(PlayMeasure(s.measures[i], start, bd, ratio).tones, start, MeasureEnd(start, s.beatsPerMeasure, bd))
  {
    var bd := BeatDuration(s, ratio);
    var m := s.measures[i];
    var vm := VolumeMultiplier(ratio);
    assert MeasureFits(m, s.beatsPerMeasure);
    MelodyWithin(m.notes, start, bd, vm, s.beatsPerMeasure);
    HarmonyWithin(m.harmony, start, bd, vm, s.beatsPerMeasure);
    ConcatWithin(MelodyTones(m.notes, start, bd, vm), HarmonyTones(m.harmony, start, bd, vm),
                 start, MeasureEnd(start, s.beatsPerMeasure, bd));
  }

  /** Every drum hit starts in `[lo, hi)`. */
  predicate DrumsWithin(ds: seq<Drum>, lo: real, hi: real)
  {
    forall j :: 0 <= j < |ds| ==> lo <= ds[j].start < hi
  }

  lemma {:induction false} DrumsConcat(a: seq<Drum>, b: seq<Drum>, lo: real, hi: real)
    requires DrumsWithin(a, lo, hi) && DrumsWithin(b, lo, hi)
    ensures DrumsWithin(a + b, lo, hi)
  {
    forall j | 0 <= j < |a + b|
      ensures lo <= (a + b)[j].start < hi
    {
      if j >= |a| {
        assert (a + b)[j] == b[j - |a|];
      }
    }
  }

  /** The hits of one beat start on that beat or half a beat later, before the fifth beat. */
  lemma {:induction false} BeatHitsWithin(start: real, bd: real, ratio: real, beat: nat)
    requires bd > 0.0 && 1 <= beat <= RhythmBeats
    ensures DrumsWithin(BeatHits(start, bd, ratio, beat),
                        BeatTime(start, beat as real, bd), BeatTime(start, RhythmBeats as real + 1.0, bd))
  {
    var t := BeatTime(start, beat as real, bd);
    var k := RhythmBeats as real + 1.0 - beat as real;
    assert BeatTime(start, RhythmBeats as real + 1.0, bd) == t + k * bd;
    MulMono(1.0, k, bd);
  }

  lemma {:induction false} BeatTimeStep(start: real, beat: nat, bd: real)
    ensures BeatTime(start, (beat + 1) as real, bd) == BeatTime(start, beat as real, bd) + bd
  {
  }

  lemma {:induction false} DrumsWiden(ds: seq<Drum>, lo: real, lo': real, hi: real)
    requires DrumsWithin(ds, lo, hi) && lo' <= lo
    ensures DrumsWithin(ds, lo', hi)
  {
  }

  /** Every drum hit from `beat` on starts within the beats `beat` to 4. */
  lemma {:induction false} RhythmFromWithin(start: real, bd: real, ratio: real, beat: nat)
    requires bd > 0.0 && beat >= 1
    ensures DrumsWithin(RhythmFrom(start, bd, ratio, beat),
                        BeatTime(start, beat as real, bd), BeatTime(start, RhythmBeats as real + 1.0, bd))
    decreases RhythmBeats + 1 - beat
  {
    if beat <= RhythmBeats {
      var lo := BeatTime(start, beat as real, bd);
      var hi := BeatTime(start, RhythmBeats as real + 1.0, bd);
      RhythmFromWithin(start, bd, ratio, beat + 1);
      BeatTimeStep(start, beat, bd);
      DrumsWiden(RhythmFrom(start, bd, ratio, beat + 1), BeatTime(start, (beat + 1) as real, bd), lo, hi);
      BeatHitsWithin(start, bd, ratio, beat);
      DrumsConcat(BeatHits(start, bd, ratio, beat), RhythmFrom(start, bd, ratio, beat + 1), lo, hi);
    }
  }

  /**
   The rhythm of a measure spans four beats from the measure's start: for the 4/4 songs
   every drum hit falls inside the measure.
   */
  lemma {:induction false} RhythmWithin(start: real, bd: real, ratio: real)
    requires bd > 0.0
    ensures var r := Rhythm(start, bd, ratio);
            forall j :: 0 <= j < |r| ==> start <= r[j].start < MeasureEnd(start, RhythmBeats, bd)
  {
    RhythmFromWithin(start, bd, ratio, 1);
    assert BeatTime(start, RhythmBeats as real + 1.0, bd) == MeasureEnd(start, RhythmBeats, bd);
  }

  /**
   `_addSimpleRhythm` ignores the time signature: for Happy Birthday in 3/4 above ratio
   1.5, the snare of the fourth beat lands exactly where the measure ends, on top of the
   next measure's first beat.
   */
  lemma {:induction false} RhythmOverrunsThreeFour(start: real, ratio: real)
    requires SelectSong(ratio) == HappyBirthday && ratio > 1.5
    ensures var s := SheetOf(HappyBirthday);
            var bd := BeatDuration(s, ratio);
            exists j :: 0 <= j < |Rhythm(start, bd, ratio)|
              && Rhythm(start, bd, ratio)[j].start == MeasureEnd(start, s.beatsPerMeasure, bd)
  {
    var s := SheetOf(HappyBirthday);
    var bd := BeatDuration(s, ratio);
    var r := Rhythm(start, bd, ratio);
    var h4 := BeatHits(start, bd, ratio, 4);
    assert RhythmFrom(start, bd, ratio, 5) == [];
    assert h4[0].start == start + 3.0 * bd;
    var pre := BeatHits(start, bd, ratio, 1) + BeatHits(start, bd, ratio, 2) + BeatHits(start, bd, ratio, 3);
    assert r == pre + h4;
    assert r[|pre|] == h4[0];
  }

  // ---------------------------------------------------------------- the measure cursor

  /** The closure state of `playNextNote`: the current song (none yet) and the measure counter. */
  datatype Cursor = Cursor(song: Option<SongId>, measure: nat)

  /** The state a new `_playMusicLoop` starts from. */
  const FreshCursor: Cursor := Cursor(None, 0)

  /** One step: the new cursor, the measure index played, what it schedules, and the delay to the next step. */
  datatype Step = Step(cursor: Cursor, played: nat, sound: Sound, delayMs: real)

  /**
   The cursor half of `playNextNote`: switch song (and restart at measure 0) when the
   ratio selects another one, and move past the measure played, `cursor mod length`.
   */
  function Advance(lib: SongId -> Song, c: Cursor, ratio: real): (r: (Cursor, nat))
    requires LibraryOk(lib)
    ensures var id := SelectSong(ratio);
            && r.0.song == Some(id)
            && r.1 < |lib(id).measures|
            && (c.song != Some(id) ==> r.1 == 0 && r.0.measure == 1)
            && (c.song == Some(id) ==> r.1 == c.measure % |lib(id).measures| && r.0.measure == c.measure + 1)
  {
    var id := SelectSong(ratio);
    assert SongWellFormed(lib(id));
    var m := if c.song == Some(id) then c.measure else 0;
    (Cursor(Some(id), m + 1), m % |lib(id).measures|)
  }

  /**
   `playNextNote` at audio time `now`, over a song library: advance the cursor, play the
   measure it names at the ratio's beat duration, and schedule the next step one measure
   later.
   */
  function MusicStep(lib: SongId -> Song, c: Cursor, ratio: real, now: real): (r: Step)
    requires LibraryOk(lib) && ratio > 0.0
    ensures r.cursor == Advance(lib, c, ratio).0 && r.played == Advance(lib, c, ratio).1
    ensures var s := lib(SelectSong(ratio));
            && r.played < |s.measures|
            && r.sound == PlayMeasure(s.measures[r.played], now, BeatDuration(s, ratio), ratio)
            && r.delayMs * (BaseTempo(s) * Min(ratio, MaxTempoFactor)) == 60000.0 * s.beatsPerMeasure as real
  {
    var s := lib(SelectSong(ratio));
    assert SongWellFormed(s);
    var (cursor, played) := Advance(lib, c, ratio);
    var bd := BeatDuration(s, ratio);
    var delay := bd * s.beatsPerMeasure as real * 1000.0;
    assert delay * (BaseTempo(s) * Min(ratio, MaxTempoFactor))
        == (bd * (BaseTempo(s) * Min(ratio, MaxTempoFactor))) * s.beatsPerMeasure as real * 1000.0;
    Step(cursor, played, PlayMeasure(s.measures[played], now, bd, ratio), delay)
  }

  /** The measure index the `k`-th of a run of steps at a fixed ratio plays (from 0). */
  function PlayedAt(lib: SongId -> Song, c: Cursor, ratio: real, k: nat): nat
    requires LibraryOk(lib)
    decreases k
  {
    var (cursor, played) := Advance(lib, c, ratio);
    if k == 0 then played else PlayedAt(lib, cursor, ratio, k - 1)
  }

  /**
   While the ratio stays in one song's band, the song plays its measures in order and
   starts over after the last: once the song is selected, step `k` plays measure
   `(n + k) mod length`.
   */
  lemma {:induction false} PlayedInOrder(lib: SongId -> Song, id: SongId, n: nat, ratio: real, k: nat)
    requires LibraryOk(lib) && SelectSong(ratio) == id
    ensures PlayedAt(lib, Cursor(Some(id), n), ratio, k) == (n + k) % |lib(id).measures|
    decreases k
  {
    if k > 0 {
      PlayedInOrder(lib, id, n + 1, ratio, k - 1);
    }
  }

  /** Entering a song's band restarts it from its first measure, whatever played before. */
  lemma {:induction false} SongChangeRestarts(lib: SongId -> Song, c: Cursor, ratio: real, k: nat)
    requires LibraryOk(lib) && c.song != Some(SelectSong(ratio))
    ensures PlayedAt(lib, c, ratio, k) == k % |lib(SelectSong(ratio)).measures|
  {
    if k > 0 {
      PlayedInOrder(lib, SelectSong(ratio), 1, ratio, k - 1);
    }
  }
}

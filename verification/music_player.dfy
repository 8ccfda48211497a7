/**
 The procedural background-music player of `AudioManager` (`_createProgrammaticMusic`,
 `_playMusicLoop`) as a state machine, and the two volume clamps `selectMusicBySpeed`
 and `setVolume`.

 The player's state is its `isPlaying` flag, whether `currentLoop` holds a scheduled
 step, and the measure cursor of the running loop. The audio context, mute flag and
 user-interaction flag are read-only inputs; the speed ratio and the audio clock are
 parameters of each transition.
 */
module MusicPlayer {
  import opened Common
  import opened MusicSheet
  import opened Sequencer

  /** What the player reads from the audio manager. */
  datatype AudioEnv = AudioEnv(muted: bool, hasContext: bool, interacted: bool, suspended: bool)

  /** Not muted, an audio context exists, and the user has interacted with the page. */
  predicate MayPlay(env: AudioEnv)
  {
    !env.muted && env.hasContext && env.interacted
  }

  /** `isPlaying`, whether a next step is scheduled (`currentLoop`), and the loop's cursor. */
  datatype Player = Player(isPlaying: bool, pending: bool, cursor: Cursor)

  /** The player as created: not playing, nothing scheduled. */
  const Stopped: Player := Player(false, false, FreshCursor)

  /** A step is only ever scheduled while the player is playing. */
  predicate PlayerValid(p: Player)
  {
    p.pending ==> p.isPlaying
  }

  /** The player after a transition, and the measure step it ran, if any. */
  datatype Transition = Transition(player: Player, step: Option<Step>)

  /**
   `_playMusicLoop`: give up when not playing, muted, without context or interaction, or
   while the context is suspended; otherwise start a fresh cursor and run the first step,
   which schedules the next.
   */
  function StartLoop(p: Player, env: AudioEnv, ratio: real, now: real): (r: Transition)
    requires ratio > 0.0
    ensures !p.isPlaying || !MayPlay(env) || env.suspended ==> r == Transition(p, None)
    ensures p.isPlaying && MayPlay(env) && !env.suspended ==>
              && r.player.isPlaying && r.player.pending
              && r.step.Some? && r.step.value.played == 0
              && r.player.cursor == r.step.value.cursor == Cursor(Some(SelectSong(ratio)), 1)
  {
    if !p.isPlaying || !MayPlay(env) || env.suspended then Transition(p, None)
    else
      SheetsWellFormed();
      var st := MusicStep(SheetOf, FreshCursor, ratio, now);
      Transition(Player(true, true, st.cursor), Some(st))
  }

  /**
   The procedural `play`: a no-op when music may not play or is already playing;
   otherwise set `isPlaying` and start the loop.
   */
  function Play(p: Player, env: AudioEnv, ratio: real, now: real): (r: Transition)
    requires ratio > 0.0
    ensures PlayerValid(p) ==> PlayerValid(r.player)
    ensures p.isPlaying || !MayPlay(env) ==> r == Transition(p, None)
    ensures !p.isPlaying && MayPlay(env) && !env.suspended ==>
              && r.player.isPlaying && r.player.pending
              && r.step.Some? && r.step.value.played == 0
              && r.player.cursor == Cursor(Some(SelectSong(ratio)), 1)
    ensures !p.isPlaying && MayPlay(env) && env.suspended ==>
              r == Transition(Player(true, p.pending, p.cursor), None)
  {
    if !MayPlay(env) || p.isPlaying then Transition(p, None)
    else StartLoop(p.(isPlaying := true), env, ratio, now)
  }

  /** The procedural `pause`: clear `isPlaying` and cancel the scheduled step. */
  function Pause(p: Player): (r: Player)
    ensures PlayerValid(r) && !r.isPlaying && !r.pending
  {
    Player(false, false, p.cursor)
  }

  /**
   The scheduled step fires (`playNextNote` from the timeout): it stops when the player
   was stopped, and otherwise plays the next measure and schedules another step.
   */
  function Fire(p: Player, ratio: real, now: real): (r: Transition)
    requires p.pending && ratio > 0.0
    ensures PlayerValid(p) ==> PlayerValid(r.player)
    ensures !p.isPlaying ==> r == Transition(p.(pending := false), None)
    ensures p.isPlaying ==>
              && r.player.isPlaying && r.player.pending
              && r.step.Some? && r.player.cursor == r.step.value.cursor
              && (p.cursor.song == Some(SelectSong(ratio)) ==>
                    r.step.value.played == p.cursor.measure % |SheetOf(SelectSong(ratio)).measures|
                    && r.player.cursor.measure == p.cursor.measure + 1)
              && (p.cursor.song != Some(SelectSong(ratio)) ==> r.step.value.played == 0)
  {
    if !p.isPlaying then Transition(p.(pending := false), None)
    else
      SheetsWellFormed();
      var st := MusicStep(SheetOf, p.cursor, ratio, now);
      Transition(Player(true, true, st.cursor), Some(st))
  }

  /** Pressing play twice plays once: the second press changes nothing. */
  lemma {:induction false} PlayIdempotent(p: Player, env: AudioEnv, ratio: real, now: real, now2: real)
    requires ratio > 0.0
    ensures var q := Play(p, env, ratio, now).player;
            Play(q, env, ratio, now2) == Transition(q, None)
  {
  }

  /**
   Pausing and playing again restarts the song from its first measure: the cursor lives
   in the loop that `pause` abandons.
   */
  lemma {:induction false} PauseThenPlayRestarts(p: Player, env: AudioEnv, ratio: real, now: real)
    requires ratio > 0.0 && MayPlay(env) && !env.suspended
    ensures var r := Play(Pause(p), env, ratio, now);
            r.player.isPlaying && r.player.pending && r.step.Some? && r.step.value.played == 0
  {
  }

  /**
   As written, a `play` while the audio context is still suspended sets `isPlaying` and
   then gives up without scheduling anything. Every later `play`, on a running context
   too, is then a no-op: the music stays silent until something pauses the player.
   */
  lemma {:induction false} SuspendedPlayStalls(p: Player, env: AudioEnv, env2: AudioEnv, ratio: real, now: real, now2: real)
    requires ratio > 0.0 && PlayerValid(p) && !p.isPlaying && MayPlay(env) && env.suspended
    ensures var q := Play(p, env, ratio, now).player;
            && q.isPlaying && !q.pending
            && Play(q, env2, ratio, now2) == Transition(q, None)
  {
  }

  /** The loop as evidently intended: giving up on a suspended context also clears `isPlaying`. */
  function StartLoopCorrected(p: Player, env: AudioEnv, ratio: real, now: real): (r: Transition)
    requires ratio > 0.0
    ensures env.suspended ==> r == Transition(p.(isPlaying := false), None)
    ensures !env.suspended ==> r == StartLoop(p, env, ratio, now)
  {
    if env.suspended then Transition(p.(isPlaying := false), None)
    else StartLoop(p, env, ratio, now)
  }

  /** `play` over the corrected loop. */
  function PlayCorrected(p: Player, env: AudioEnv, ratio: real, now: real): (r: Transition)
    requires ratio > 0.0
    ensures PlayerValid(p) ==> PlayerValid(r.player)
    ensures p.isPlaying || !MayPlay(env) ==> r == Transition(p, None)
    ensures !p.isPlaying && MayPlay(env) && env.suspended ==> r == Transition(p, None)
    ensures !p.isPlaying && MayPlay(env) && !env.suspended ==> r == Play(p, env, ratio, now)
  {
    if !MayPlay(env) || p.isPlaying then Transition(p, None)
    else StartLoopCorrected(p.(isPlaying := true), env, ratio, now)
  }

  /**
   With the correction, a `play` on a suspended context leaves the player stopped, so the
   next `play` once the context runs starts the music.
   */
  lemma {:induction false} CorrectedPlayResumes(p: Player, env: AudioEnv, env2: AudioEnv, ratio: real, now: real, now2: real)
    requires ratio > 0.0 && PlayerValid(p) && !p.isPlaying && MayPlay(env) && env.suspended
    requires MayPlay(env2) && !env2.suspended
    ensures var q := PlayCorrected(p, env, ratio, now).player;
            var r := PlayCorrected(q, env2, ratio, now2);
            !q.isPlaying && r.player.isPlaying && r.player.pending && r.step.Some?
  {
  }

  // ---------------------------------------------------------------- volume clamps

  /** The playback rate and volume `selectMusicBySpeed` gives a loaded music file. */
  datatype Mix = Mix(rate: real, volume: real)

  /**
   `selectMusicBySpeed`: nothing without a loaded music file; otherwise the rate moves
   one tenth as fast as the game, within [0.95, 1.15], and the volume by a twentieth,
   within [0.55, 0.7].
   */
  function SelectMusicBySpeed(loaded: bool, ratio: real): (r: Option<Mix>)
    ensures r.None? <==> !loaded
    ensures r.Some? ==> 0.95 <= r.value.rate <= 1.15 && 0.55 <= r.value.volume <= 0.7
    ensures r.Some? && 0.5 <= ratio <= 2.5 ==> r.value.rate == 1.0 + (ratio - 1.0) * 0.1
    ensures r.Some? && 0.0 <= ratio <= 3.0 ==> r.value.volume == 0.6 + (ratio - 1.0) * 0.05
  {
    if !loaded then None
    else Some(Mix(Clamp(1.0 + (ratio - 1.0) * 0.1, 0.95, 1.15),
                  Clamp(0.6 + (ratio - 1.0) * 0.05, 0.55, 0.7)))
  }

  /** A faster game never plays the music slower or quieter. */
  lemma {:induction false} MixMonotone(r1: real, r2: real)
    requires r1 <= r2
    ensures SelectMusicBySpeed(true, r1).value.rate <= SelectMusicBySpeed(true, r2).value.rate
    ensures SelectMusicBySpeed(true, r1).value.volume <= SelectMusicBySpeed(true, r2).value.volume
  {
    ClampMonotone(1.0 + (r1 - 1.0) * 0.1, 1.0 + (r2 - 1.0) * 0.1, 0.95, 1.15);
    ClampMonotone(0.6 + (r1 - 1.0) * 0.05, 0.6 + (r2 - 1.0) * 0.05, 0.55, 0.7);
  }

  datatype SoundKind = BackgroundTrack | Effect

  /** The share of the master volume each kind of sound gets. */
  function Share(k: SoundKind): real
  {
    if k == BackgroundTrack then 0.3 else 0.7
  }

  /**
   `setVolume`: clamp the master volume to [0, 1]; the background track plays at 0.3 of
   it and every other sound at 0.7.
   */
  function SetVolume(v: real, sounds: seq<SoundKind>): (r: (real, seq<real>))
    ensures 0.0 <= r.0 <= 1.0
    ensures 0.0 <= v <= 1.0 ==> r.0 == v
    ensures v < 0.0 ==> r.0 == 0.0
    ensures v > 1.0 ==> r.0 == 1.0
    ensures |r.1| == |sounds|
    ensures forall i :: 0 <= i < |sounds| ==> r.1[i] == Share(sounds[i]) * r.0
    ensures forall i :: 0 <= i < |sounds| ==> 0.0 <= r.1[i] <= Share(sounds[i])
  {
    var m := Max(0.0, Min(1.0, v));
    (m, seq(|sounds|, i requires 0 <= i < |sounds| => Share(sounds[i]) * m))
  }

  /** Setting the volume to the volume it already has changes nothing. */
  lemma {:induction false} SetVolumeIdempotent(v: real, sounds: seq<SoundKind>)
    ensures SetVolume(SetVolume(v, sounds).0, sounds) == SetVolume(v, sounds)
  {
  }
}

# TempleRun simulation core in Dafny

This project models the deterministic core of `game.js`: the `Game` simulation of an endless three-lane runner and the procedural background music of its `AudioManager`. The model is functional throughout. Each piece of game state is an immutable datatype, and each routine of the source is a pure function over it, with the facts the source relies on stated and proved.

The model has thirteen modules:

- `Common`: clamping, `Math.round`, `Math.floor(Math.random() * n)` and the three lane x-coordinates.
- `Catalog`: the pool capacities (30 segments, 30 obstacles, 50 coins) and the per-entity data fixed at creation. This is the obstacle type by index, the bonus flag and the stored coin value.
- `Difficulty`: the level `floor(distance / 200)` and the capped target speed, obstacle chance, coin chance and coin value. It also covers the two per-frame speed increments.
- `SegmentLength`: `_calculateDynamicSegmentLength`, which clamps the ratio, applies the ease-out curve, interpolates into [10, 50] and rounds.
- `Pools`: the object pools. A bank is a pool of entity ids plus the list of active entities. Pop-and-push, splice-out-of-the-middle and release-by-snapshot each preserve the conservation invariant. The invariant says the pool and the active ids together are exactly the ids `0 .. capacity-1`, each once.
- `Collectibles`: `_tryPlaceCollectibles` with its safety window, probability override and three-way split. It also covers the obstacle patterns (single, double, gap), the coin patterns (line, zigzag, wall, bonus, with circle falling back to line) and the clearing of a segment's span.
- `Track`: `_updateGround`, `_generateNextSegment` and `_generateInitialPath`. These recycle segments far behind the runner and refill the path to ten segments laid back to back from the frontier.
- `Collision`: `_checkCollisions`, where the first obstacle hit ends the game and touched coins are released and scored. It also has the score tiers of `_updateScoreLevel`.
- `Player`: lane moves, the jump intent and the jump physics.
- `Driver`: one frame of `Game.update`, `n` frames, and `Game.reset`.
- `MusicSheet`: the three songs of `_createMusicSheet`, as measures of notes and chords.
- `Sequencer`: one step of `playNextNote`. It selects the song for the speed ratio, advances the measure cursor, caps the tempo and computes what `_playMeasureFromRealSheet` and `_addSimpleRhythm` schedule, as data.
- `MusicPlayer`: the procedural `play` / `pause` / loop state machine, plus the `selectMusicBySpeed` and `setVolume` clamps.

Inputs the source reads from the environment become parameters:

- `Math.random()` results are a `seq<real>` of draws in [0, 1), consumed in source order. Each operation states how many draws it may use.
- The seconds since the game started stand in for `Date.now() - gameStartTime`.
- The bounding boxes of `Box3.setFromObject` are a box for the runner and a box function for entities.
- The speed ratio and the audio clock are parameters of each music step.
- The audio manager's mute, context, interaction and suspended flags are read-only inputs.

JavaScript doubles are idealised as Dafny `real`. `Math.round` is `Floor(x + 0.5)`.

Quirks of `game.js` the model keeps as written:
- Obstacles are withheld while the game is younger than 3 s OR the distance is below 15. Both thresholds must be passed before obstacles appear (game.js:1669).
- The "force the first obstacle" rule tests whether the active obstacle list is empty after the segment's span was cleared. It does not test whether an obstacle was ever placed (game.js:1682).
- Releasing an obstacle or coin has no guard against a double release (game.js:1944-1961). The model only ever releases entities that are active, so conservation holds without one.
- `_addSimpleRhythm` hard-codes four beats per measure, so on the 3/4 song its last beat falls on the next measure's downbeat (game.js:970). `Sequencer.RhythmOverrunsThreeFour` states this.
- After `reset` the initial path is laid with distance 0. The whole path therefore lies in the safety window and carries no obstacle (game.js:2191, 2225).

## Model

| member | source | states |
|---|---|---|
| Common.Round | game.js:2431 | `Math.round` gives the integer within half a unit of its argument |
| Common.PickIndex | game.js:1704-1705 | `floor(draw * n)` for a draw in [0, 1) is a valid index below `n`, namely the one whose unit interval contains `draw * n` |
| Catalog.ObstacleKindOf | game.js:1214-1233 | of the thirty obstacles, ids 0-14 are single blocks, 15-24 low barriers and 25-29 walls |
| Catalog.SingleHeight | game.js:1736-1742 | a single-pattern obstacle sits at height 0.5 exactly when it is a low barrier, 1.5 exactly when it is a wall, and 1 otherwise |
| Catalog.CoinValueOf | game.js:1266-1274 | every coin stores 10 or 30, and 30 exactly for the bonus coins (the last fifth of the pool) |
| Difficulty.Level | game.js:2284 | the level is the number of whole 200-unit stretches covered: `200·level <= distance < 200·(level+1)` |
| Difficulty.LevelMonotone | game.js:2284 | more distance never lowers the level |
| Difficulty.TargetSpeed | game.js:2292 | the target speed lies in [0.08, 0.8]; it is `0.08 + 0.025·level` below level 29 and the 0.8 cap from level 29 |
| Difficulty.ObstacleChance | game.js:2298 | the obstacle chance lies in [0.7, 0.8]; 0.7 at level 0, 0.75 at level 1, and capped at 0.8 from level 2 |
| Difficulty.CoinChance | game.js:2301 | the coin chance lies in [0.85, 0.95]; `0.85 + 0.02·level` below level 5 and capped at 0.95 from level 5 |
| Difficulty.CoinValue | game.js:2304 | the coin value is `floor(10·(1 + 0.15·level))`, which is `10 + floor(3·level / 2)`: never below the base value 10 and equal to it at level 0 |
| Difficulty.ParametersMonotone | game.js:2290-2305 | a higher level never lowers the target speed, either chance or the coin value |
| Difficulty.Accelerate | game.js:2338-2340 | the per-frame increment never slows the runner, and speeds it up exactly while below the maximum speed |
| Difficulty.Approach | game.js:2292-2295 | the approach step never slows the runner, and speeds it up exactly while below the level's target |
| Difficulty.SpeedStepStaysInRange | game.js:2338-2376 | the two increments of a frame keep the speed at least the initial speed and below the cap plus one approach step, and never lower it |
| Difficulty.SpeedFrozenAtCap | game.js:2292-2340 | at or above the maximum speed neither increment changes the speed |
| SegmentLength.Normalised | game.js:2422-2423 | the normalised speed lies in [0, 1]; 0 for ratios up to 1 and 1 from ratio 10 |
| SegmentLength.EaseOut | game.js:2426 | the ease-out curve maps [0, 1] into [0, 1] and fixes both ends |
| SegmentLength.DynamicLength | game.js:2414-2431 | the segment length is an integer in [10, 50]; 10 for ratio <= 1, 50 for ratio >= 10, and within half a unit of the curve's value |
| SegmentLength.DynamicLengthMonotone | game.js:2414-2431 | a faster run never gets shorter segments |
| SegmentLength.SampleLengths | game.js:2414-2431 | ratios 1, 2, 5 and 10 give lengths 10, 18, 38 and 50 |
| Pools.ConservedFacts | game.js:1266-1278 | a conserved bank holds exactly `capacity` entities between pool and active list, no id twice and none in both lists |
| Pools.Fresh | game.js:1214-1246 | a freshly built pool holds every id once and nothing is active; it is conserved |
| Pools.Spawn | game.js:1736-1746 | spawning moves the last pooled id to the end of the active list at the given position and leaves the older actives in place |
| Pools.SpawnConserves | game.js:1630-1644 | spawning from a non-empty pool keeps the bank conserved |
| Pools.Deactivate | game.js:1957-1961 | releasing an entity appends its id to the pool and removes every active entry with that id, keeping the others |
| Pools.DeactivateConserves | game.js:1944-1961 | releasing an active entity keeps the bank conserved and shortens the active list by one |
| Pools.ReleaseEachPartitions | game.js:1925-1942 | releasing over a snapshot equals the batch partition: the hit entities go to the pool in list order, and the rest stay active in order |
| Pools.ReleaseEachConserves | game.js:1925-1942 | releasing over a snapshot keeps the bank conserved; the pool grows by the number of hits |
| Pools.RemoveAt | game.js:1611-1613 | recycling the k-th active entry pushes its id to the pool and splices exactly that entry out |
| Pools.RemoveAtConserves | game.js:1607-1614 | recycling an active entry keeps the bank conserved |
| Pools.IndexOf | game.js:1910 | `indexOf` finds the first occurrence, or -1 exactly when the value is absent |
| Pools.SpliceOut | game.js:1908-1921 | splicing a pooled id out takes exactly one copy from the pool, a missing id leaves the pool alone, and the coin joins the active list |
| Pools.SpliceOutConserves | game.js:1910-1921 | splicing a pooled id out and activating it keeps the bank conserved |
| Pools.PopPlace | game.js:1836-1844 | popping `k` entities places them at the given positions, taking ids from the end of the pool in reverse order |
| Pools.PopPlaceAt | game.js:1836-1844 | after popping `k` entities the old actives are a prefix, and entry `|old| + i` sits at position `i` |
| Pools.PopPlaceConserves | game.js:1836-1844 | popping and placing any number of entities up to the pool size keeps the bank conserved |
| Pools.SpliceEach | game.js:1907-1922 | splicing several ids appends them, paired with their positions, to the active list |
| Pools.SpliceEachConserves | game.js:1907-1922 | splicing pooled ids keeps the bank conserved and removes exactly those ids from the pool multiset |
| Collectibles.AdjustedObstacleChance | game.js:1678-1690 | the effective obstacle chance is never below the base chance: 1 once 3 s have passed with no active obstacle, otherwise `max(base, 0.8)` before distance 100 and the base chance from distance 100 |
| Collectibles.Choose | game.js:1661-1698 | in the safety window obstacles are never chosen and coins exactly when the draw is below 0.7; past it, obstacles exactly when the draw is below the effective chance `p`, coins exactly when `p <= draw < p + coinChance`, and an empty obstacle list forces obstacles |
| Collectibles.ObstaclePatternFor | game.js:1701-1727 | the double pattern exactly when drawn at level >= 2, the gap pattern exactly when drawn at level >= 3; otherwise single |
| Collectibles.ObstacleZ | game.js:1735 | an obstacle's z lies within the first 80% of its segment |
| Collectibles.PlaceSingle | game.js:1729-1748 | one obstacle from a non-empty pool, in a lane on the segment at its type's height; nothing from an empty pool; conserved |
| Collectibles.OtherLanes | game.js:1757-1760 | the lanes still free after one is taken are the other two, in order |
| Collectibles.PlaceDouble | game.js:1750-1772 | with two or more pooled, two obstacles at height 1 in two different lanes; otherwise the single pattern; conserved |
| Collectibles.PlaceGap | game.js:1774-1793 | with two or more pooled, obstacles in exactly the two lanes other than the gap lane; otherwise the single pattern; conserved |
| Collectibles.PlaceObstacles | game.js:1701-1727 | an empty pool places nothing; otherwise one or two obstacles, two only at level >= 2 with two pooled, all in lanes on the segment; conserved |
| Collectibles.CoinPatternFor | game.js:1795-1827 | zigzag exactly when drawn at level >= 1, wall exactly when drawn at level >= 2, bonus exactly when drawn at level >= 3 with the second draw below 0.3; otherwise line (circle included) |
| Collectibles.PlaceLine | game.js:1829-1847 | `min(5, pool)` coins in one lane at height 1.2, each 3 units further on than the previous; conserved |
| Collectibles.ZigZagLaneStep | game.js:1866-1869 | the closed-form lane of coin `i + 1` is the source's update of coin `i`'s lane, advancing after every odd coin |
| Collectibles.PlaceZigZag | game.js:1849-1871 | `min(6, pool)` coins whose lanes follow the zigzag from the drawn first lane; conserved |
| Collectibles.PlaceWall | game.js:1873-1893 | `min(9, pool)` coins at pairwise different positions; no draw used; conserved |
| Collectibles.BonusIds | game.js:1897 | the bonus filter keeps exactly the pooled bonus coins, each at most as often as it is pooled |
| Collectibles.PlaceBonus | game.js:1895-1923 | with bonus coins pooled, `min(3, bonus)` bonus coins, coin `i` in lane `i`, no draw used; otherwise the line pattern; conserved |
| Collectibles.SpliceBonus | game.js:1905-1922 | splicing bonus coins onto a row keeps the bank conserved and puts one bonus coin per lane in order |
| Collectibles.PlaceCoins | game.js:1795-1827 | any coin pattern adds at most nine coins and keeps the older actives; it adds some exactly when the pool is not empty; conserved |
| Collectibles.ClearSpan | game.js:1925-1942 | clearing a segment leaves active exactly the entities outside its open z-span; conserved |
| Collectibles.TryPlaceCollectibles | game.js:1655-1698 | both banks stay conserved within six draws, and the segment's span is cleared of obstacles and coins first. With the decision draw taken over the cleared obstacle count: nothing more for an empty choice; coins placed on the cleared coin bank for a coin choice; obstacles on the segment, at least one when any are pooled, for an obstacle choice. In the safety window obstacles are only cleared, never placed; past it an empty obstacle list always gets an obstacle; every obstacle active afterwards was active before or lies on the segment |
| Track.GenerateNextSegment | game.js:1624-1653 | from a non-empty pool, one segment at the frontier and the frontier one length further on; an empty pool changes nothing; in the safety window no obstacle is added; any obstacle that is new lies on the new segment |
| Track.Refill | game.js:1617-1621 | the refill loop keeps all three banks conserved and uses six draws per missing segment |
| Track.RefillObstacles | game.js:1617-1621 | a refill only moves the frontier forward, and every obstacle active afterwards was active before or lies between the new and the old frontier |
| Track.RefillLays | game.js:1617-1621 | the refill loop lays exactly the missing segments back to back from the frontier, one length apart |
| Track.RefillInWindow | game.js:1655-1676 | in the safety window a refill never adds an obstacle, and leaves an empty obstacle bank untouched |
| Track.RecycleAt | game.js:1607-1614 | one recycling test leaves the whole track unchanged if the segment is within three lengths behind the runner; otherwise the segment returns to the pool and exactly the obstacles and coins strictly inside its span are released |
| Track.Recycle | game.js:1606-1615 | the backward recycling loop keeps, in order, exactly the segments within three lengths behind the runner; an obstacle or coin stays active exactly when it lies in the span of no recycled segment |
| Track.UpdateGround | game.js:1601-1622 | after recycling and refilling there are ten segments, the kept ones first in their order; all banks conserved |
| Track.UpdateGroundReleases | game.js:1601-1622 | after the ground update every active obstacle was active before and inside no recycled segment's span, or it lies on the stretch the refill laid |
| Track.ReturnSegments | game.js:2231-2235 | every active segment returns to the pool in path order, leaving the path empty and the rest untouched |
| Track.RefillFromEmpty | game.js:2240-2266 | from an empty path the refill lays ten segments, segment `i` at `frontier - i·length` |
| Track.InitialPath | game.js:2229-2269 | the initial path is ten segments back to back from the frontier; in the safety window it adds no obstacle |
| Collision.FirstHit | game.js:1967-1987 | the index found is the first touched obstacle, or -1 exactly when none is touched |
| Collision.ValueSum | game.js:1996-1997 | collected coins add between 10 and 30 each to the score |
| Collision.CoinScore | game.js:1996 | a coin scores its stored value, so the difficulty's coin value is never used |
| Collision.Collect | game.js:1990-2008 | collecting over a snapshot releases exactly the touched coins and adds their stored values |
| Collision.CheckCollisions | game.js:1963-2009 | a touched obstacle ends the game with score and coins unchanged; otherwise touched coins return to the pool in order, the rest stay active, and the score grows by their values; conserved |
| Collision.CollisionIdempotent | game.js:1990-2008 | a second check in the same place collects nothing more: a coin scores at most once |
| Collision.ScoreTier | game.js:2070-2081 | the tier's rank is the number of thresholds 500, 1500, 3000, 5000 the score has reached |
| Collision.ScoreTierMonotone | game.js:2070-2081 | a higher score never shows a lower tier |
| Player.MoveLeft | game.js:1509-1514 | one lane to the left unless in the leftmost lane; the lane stays in 0..2 |
| Player.MoveRight | game.js:1516-1521 | one lane to the right unless in the rightmost lane; the lane stays in 0..2 |
| Player.MovesInverse | game.js:1509-1521 | a move left then right, or right then left, away from the edge returns to the same lane |
| Player.Jump | game.js:1523-1529 | a jump starts only when grounded, with upward speed 0.5; a jump in the air changes nothing |
| Player.JumpStep | game.js:2383-2391 | a grounded runner is unchanged; in the air, height grows by the speed and gravity acts, and a step that would reach 0.5 or below lands the runner at 0.5, at rest and no longer jumping |
| Player.FlightProfile | game.js:2383-2391 | `n` frames into a jump from the ground the height is `0.5 + Rise(n)` |
| Player.JumpLands | game.js:2383-2391 | a jump stays airborne for 50 frames and lands on the ground, at rest, on frame 51 |
| Driver.Move | game.js:2338-2391 | a frame's movement never slows the runner or lowers the difficulty, advances the distance by exactly the run, and sets the segment length for the new speed |
| Driver.Tick | game.js:2317-2411 | a finished game does not change; otherwise the frame keeps every invariant, a touched obstacle ends the game with the score frozen, and no touched coin stays active |
| Driver.Run | game.js:2317-2411 | any number of frames keeps every invariant and never lowers score or speed |
| Driver.GameOverIsFinal | game.js:2318-2324 | once the game is over, any number of frames leaves it unchanged |
| Driver.ReleaseAll | game.js:2170-2173 | releasing every active entity empties the active list and returns all ids to the pool in order; conserved |
| Driver.FreshTrack | game.js:2170-2225 | a reset track has no obstacle and ten segments laid back from z = 0 |
| Driver.StartFrameValid | game.js:2190-2214 | the reset values (initial speed, distance 0, base chances and value, base length, runner at rest in the middle lane) make a valid frame |
| Driver.Reset | game.js:2166-2226 | after a reset the game is valid and running, with score 0, distance 0, initial speed, base length and the fresh track |
| MusicSheet.SheetsWellFormed | game.js:626-858 | every note and chord of every song lies within its measure, and every chord has one to three voices lasting at least a beat |
| MusicSheet.HappyBirthdayWellFormed | game.js:629-733 | Happy Birthday is well formed in 3/4 |
| MusicSheet.TwinkleStarWellFormed | game.js:734-793 | Twinkle Twinkle Little Star is well formed in 4/4 |
| MusicSheet.OdeToJoyWellFormed | game.js:794-857 | Ode to Joy is well formed in 4/4 |
| Sequencer.SelectSong | game.js:868-872 | Twinkle exactly below ratio 1.3, Happy Birthday exactly in [1.3, 2), Ode to Joy exactly from 2 |
| Sequencer.SelectSongMonotone | game.js:868-872 | a faster game never selects an earlier song |
| Sequencer.BaseTempo | game.js:592 | the base tempo is positive and is the song's tempo when it has one |
| Sequencer.BeatDuration | game.js:592-594 | a beat lasts a positive time, and beat duration times capped tempo is 60 seconds |
| Sequencer.BeatDurationMonotone | game.js:593-594 | a faster game never lengthens the beat, and past ratio 2 the beat no longer changes |
| Sequencer.SheetBeatDuration | game.js:592-594 | for the library songs a beat lasts `0.5 / min(ratio, 2)` s, never under a quarter second |
| Sequencer.MelodyTones | game.js:908-915 | one sine tone per note at `start + (beat - 1)·bd`, lasting `duration·bd`, at 1.2 times the volume multiplier |
| Sequencer.Voices | game.js:924-934 | chord voice `j` is a triangle tone at 0.6 times the volume, starting `0.03·j` s late and ending with the chord |
| Sequencer.HarmonyTones | game.js:918-936 | the harmony holds exactly one tone per voice of every chord, and for every chord `i` and voice `j` it holds that voice as the arpeggio schedules it: note `j`, starting `0.03·j` s after the chord's beat, shortened by as much, a triangle at 0.6 times the volume multiplier |
| Sequencer.Rhythm | game.js:968-991 | a measure gets no drums up to ratio 1.2; above it the exact hits in beat order: kicks (60 Hz, 0.1 s, 0.04·ratio) on beats 1 and 3; above 1.5 snares (200 Hz, 0.08 s, 0.03·ratio) on beats 2 and 4; above 1.8 a hi-hat (8000 Hz, 0.03 s, 0.02·ratio) half a beat after every beat |
| Sequencer.PlayMeasure | game.js:902-942 | a measure schedules its melody first, one sine tone per note in note order, then exactly one triangle tone per chord voice, among them every voice as the arpeggio schedules it, plus exactly the drum hits its ratio band allows |
| Sequencer.RhythmKicks | game.js:973-979 | between ratios 1.2 and 1.5 the four beats yield just the kicks at the measure start and two beats later |
| Sequencer.RhythmSnares | game.js:973-984 | between ratios 1.5 and 1.8 snares one and three beats after the start join the kicks, in beat order |
| Sequencer.RhythmHiHats | game.js:973-989 | above ratio 1.8 each of the four beats is followed by a hi-hat half a beat later, eight hits in time order |
| Sequencer.NoteWithin | game.js:908-914 | a note that fits its measure sounds within the measure's time span |
| Sequencer.MelodyWithin | game.js:908-915 | every melody tone of a fitting measure sounds within the measure |
| Sequencer.ChordWithin | game.js:918-935 | every voice of a playable fitting chord sounds within the measure, the stagger included, whenever a beat lasts at least 0.25 s |
| Sequencer.HarmonyWithin | game.js:918-936 | every harmony tone of a fitting measure sounds within the measure |
| Sequencer.MeasureTonesWithin | game.js:902-942 | every tone a well-formed song's measure schedules sounds within that measure |
| Sequencer.RhythmWithin | game.js:968-991 | every drum hit starts within the four-beat span of the measure |
| Sequencer.RhythmOverrunsThreeFour | game.js:968-991 | on the 3/4 song above ratio 1.5 a drum hit starts exactly at the measure's end, the next measure's downbeat |
| Sequencer.Advance | game.js:581-608 | a song change restarts at measure 0; the same song plays `measure mod length` and moves on by one |
| Sequencer.MusicStep | game.js:572-614 | a step plays the cursor's measure of the selected song at the capped tempo and schedules the next after `beatsPerMeasure` beats |
| Sequencer.PlayedInOrder | game.js:597-608 | while the song stays the same, step `k` plays measure `(n + k) mod length` |
| Sequencer.SongChangeRestarts | game.js:584-597 | after a song change, step `k` plays measure `k mod length` |
| MusicPlayer.StartLoop | game.js:553-560 | the loop gives up unless playing, unmuted, with a context, after interaction and not suspended; otherwise it plays the first measure of the selected song and schedules the next |
| MusicPlayer.Play | game.js:531-536 | `play` is a no-op when music may not play or already plays; otherwise it sets playing and starts the loop |
| MusicPlayer.Pause | game.js:538-544 | `pause` leaves the player stopped with nothing scheduled |
| MusicPlayer.Fire | game.js:572-614 | a scheduled step of a stopped player ends the loop; otherwise it plays the next measure and schedules another step |
| MusicPlayer.PlayIdempotent | game.js:531-536 | pressing play twice plays once |
| MusicPlayer.PauseThenPlayRestarts | game.js:531-560 | pausing then playing restarts the loop from the first measure |
| MusicPlayer.SuspendedPlayStalls | game.js:531-560 | a play on a suspended context marks the player playing with nothing scheduled, and every later play is a no-op |
| MusicPlayer.StartLoopCorrected | game.js:553-560 | the corrected loop clears the playing flag when it gives up on a suspended context, and is otherwise the loop as written |
| MusicPlayer.PlayCorrected | game.js:531-536 | the corrected play leaves the player unchanged on a suspended context, and otherwise behaves as written |
| MusicPlayer.CorrectedPlayResumes | game.js:531-560 | with the correction, the first play once the context runs starts the music |
| MusicPlayer.SelectMusicBySpeed | game.js:495-522 | nothing without loaded music; otherwise the rate lies in [0.95, 1.15] and follows `1 + (ratio - 1)/10` inside its band, and the volume lies in [0.55, 0.7] and follows `0.6 + (ratio - 1)/20` |
| MusicPlayer.MixMonotone | game.js:495-522 | a faster game never plays the music slower or quieter |
| MusicPlayer.SetVolume | game.js:330-341 | the master volume is clamped to [0, 1]; the background track plays at 0.3 of it and every other sound at 0.7 |
| MusicPlayer.SetVolumeIdempotent | game.js:330-341 | setting the volume it already has changes nothing |

## Left out

- The audio context lifecycle is not modelled: user-interaction listeners, iOS resume retries and fallback re-creation (game.js:22-209). It is browser I/O with promises and timers. Its outcome enters as the `AudioEnv` flags.
- Web Audio node construction, gain envelopes, `_noteToFrequency` and `_createDrumHit` are foreign audio APIs. What they would play is returned as `Tone` and `Drum` data.
- MP3 loading, the HTML-audio play/pause overrides and the sound-effect beeps are asset I/O. `selectMusicBySpeed` is modelled only as the rate and volume it computes.
- `_calculateTempo` (game.js:861-865) is never called by the source.
- The `catch` path of `playNextNote` (game.js:616-619) is not modelled. With a well-formed library no step can throw.
- `_playRealNote` and `_createDrumHit` skip scheduling while the context is suspended (game.js:946, 999). The model returns what a step asks to schedule.
- The music step's speed ratio is a parameter. The `gameRef`-absent fallback to ratio 1 (game.js:578) is the caller passing 1.0.
- `Driver.Tick` does not call `selectMusicBySpeed`. The music reacts to speed through the `ratio` parameter of `MusicPlayer`.
- Everything Three.js is left out as presentation: meshes, materials and glow, model loading, the animation mixer, coin and obstacle spin, and the camera lerp. The runner's sideways lerp is left out too. The lane index is the state.
- DOM and touch wiring, score effects and sounds, the game-over screen and the debug bookkeeping of `lastSegmentLength` are presentation.
- Servers and helper scripts are outside the game.
- Floating point is idealised as exact reals. Bit-exact IEEE results are not claimed.
- `setTimeout` rescheduling is a sequence of `MusicPlayer.Fire` transitions, not concurrency.
- Collectibles.PlaceZigZag: states the lanes and count of the coins, not their heights or their 4-unit z spacing.
- Collectibles.PlaceWall: states the count and that positions are pairwise distinct, not the 3x3 heights and rows.
- Collectibles.PlaceCoins: states the common effect of every coin pattern. Which pattern a draw selects is stated by `Collectibles.CoinPatternFor`.
- Collectibles.PlaceObstacles: states counts and placement. Which pattern a draw selects is stated by `Collectibles.ObstaclePatternFor`.
- Track.UpdateGround: states the number of segments and the kept prefix, not the positions of the new ones. `Track.RefillLays` states those.
- Track.UpdateGroundReleases: states the release through the whole update for obstacles only. A coin placement pattern can reach past its segment, so for coins the release is stated by `Track.Recycle` alone.
- Driver.Run: states the invariants and monotone score and speed, not the per-frame details that `Driver.Tick` states.
- Collision.ValueSum: bounds the collected value between 10 and 30 per coin rather than naming each coin's value. `Collision.CoinScore` names each value.

## Findings

| source | as written | input that shows it | evidently intended | confidence | as-written member | corrected member |
|---|---|---|---|---|---|---|
| game.js:531-536, 553-560 | `play` sets `isPlaying` before `_playMusicLoop`. The loop returns early on a suspended audio context without clearing it, so every later `play` returns at the `isPlaying` guard and the music stays silent until something pauses. | not playing, unmuted, context present, user interacted, context `suspended`; then `play` again after the context runs | giving up on a suspended context also clears `isPlaying`, so a later `play` starts the loop | not executed; medium | MusicPlayer.SuspendedPlayStalls | MusicPlayer.CorrectedPlayResumes |

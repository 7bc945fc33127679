# Sharpex2D core, modelled in Dafny

This project models five parts of the Sharpex2D game library and proves
properties about them:

- **The particle physics provider** (`Sharpex2D/Physics/PhysicProvider.cs`).
  Particles are subscribed to a list. Each tick then runs three steps for
  every listed particle in list order:
  - it integrates the particle: gravity, per-axis damping, the position
    update, the floor response and the world bounds;
  - it sweeps that particle against every listed particle, resolving each
    new intersecting pair with an elastic or a non-elastic impact;
  - at the end of the tick it clears the processed-pair set.

  The pure formulas live in module `Vigours`: fall velocity, damping, impact
  damping, elastic and non-elastic impacts, and kinetic energy. Module
  `Physics` holds two things:
  - specification functions for one particle step and one tick, written
    value by value;
  - the class `PhysicProvider`, which does the same work in place. Its
    methods are proved equal to those functions.

  Particles are records kept under their identity in the provider's `bodies`
  map. `OnPenetration` and `OnRecoil` calls are appended to an event log.
  The collision manager's intersection test is an arbitrary function that
  the provider is given.
- **The RIFF/WAVE reader** (`Sharpex2D/Audio/WaveOut/WaveStream.cs`),
  module `Wave`. It parses the header of the RIFF "WAVE" form, defined in the
  Microsoft/IBM Multimedia Programming Interface and Data Specifications 1.0:
  - the "RIFF" word, then the RIFF size, which is read and ignored;
  - the "WAVE" and "fmt " words;
  - the format chunk: its length, at least 16, then six fields, then the
    skipped remainder;
  - a search in steps of 4 bytes for the "data" word, then the data length,
    which must be positive;
  - the format-tag check.

  `ParseHeader` specifies the parse on a byte sequence. The `WaveStream`
  class consumes the same header through a cursor, and its methods are
  proved equal to that specification. The class also exposes the read-only
  window onto the data chunk: `Position`, `Seek` and `Read`; `Write` and
  `SetLength` are refused.
- **The Win32 key-state tracker**
  (`Sharpex.GameLibrary/Framework/Input/Devices/Win32Keyboard.cs`), module
  `Keyboard`. It holds the current key map and the snapshot taken each tick,
  the down, up and pressed queries, and the hook's message dispatch.
- **The game loop** (`Sharpex2D/GameLoop.cs`), module `Timing`:
  - the duplicate-free drawable and updateable lists;
  - the running flag;
  - one pass of the loop, which covers three steps:
    - the fixed-timestep catch-up;
    - the once-per-second counter reset;
    - the render decision.

  The catch-up is specified by `CatchUp`: how many update rounds run, and
  the time left over.
- **The mouse** (`Sharpex2D/Input/XPlatform/Mouse.cs`), module `MouseInput`.
  It holds the button-state map, which button events set and each update
  clears, and the last known position.

Several parts of the code are modelled as written, where the documented
design describes something else:
- `PhysicProvider.Subscribe` appends a particle that is already listed. Such
  a particle is then updated twice per tick (`DuplicateUpdatedTwice`).
- Y-damping has no clamp. A zero Y velocity becomes `damping / 15`, and a
  small positive one changes sign (`DampingY`).
- Collisions are resolved inside each particle's own update, right after it
  is integrated, not after all particles have moved. Only the current
  particle is rolled back to its position before the update; the other
  keeps its position (`InelasticPair`, `ElasticPair`, `SweepPositions`).
- In both impact formulas, only the second term is divided by the mass sum
  (C# precedence). The inelastic result does not conserve momentum
  (`NonElasticMomentumNotConserved`).
- Both particles in an inelastic pair get the same penetration energy, and
  it equals the other particle's kinetic energy before the impact.

## Model

| member | source | states |
|---|---|---|
| Lists.RemoveAbsent | Sharpex2D/Physics/PhysicProvider.cs:85-88 | `List.Remove` of an element that is not in the list leaves the list unchanged |
| Lists.RemoveAt | Sharpex2D/Physics/PhysicProvider.cs:85-88 | `List.Remove` of an element whose first occurrence is at index i yields the list without index i, the rest in order |
| Lists.RemovePresent | Sharpex2D/Physics/PhysicProvider.cs:85-88 | removing a present element leaves one element fewer, and the multiset loses exactly one copy of that element |
| Lists.DistinctTail | Sharpex2D/GameLoop.cs:105-123 | the tail of a duplicate-free list is duplicate-free and does not contain the head |
| Lists.RemoveShrinks | Sharpex2D/Physics/PhysicProvider.cs:85-88 | removal never introduces an element |
| Lists.RemoveFromDistinct | Sharpex2D/GameLoop.cs:129-147 | removing from a duplicate-free list removes the element entirely, keeps every other element and keeps the list duplicate-free |
| Lists.AppendDistinct | Sharpex2D/GameLoop.cs:105-123 | appending an absent element keeps a list duplicate-free |
| Vigours.VelocityOfFall | Sharpex2D/Physics/PhysicProvider.cs:301-315 | no contract of its own; characterised by `Physics.GravityOnlyY` |
| Vigours.ParticleDamping | Sharpex2D/Physics/PhysicProvider.cs:323-346 | no contract of its own; characterised by `Vigours.DampingX` and `Vigours.DampingY` |
| Vigours.DampOnImpact | Sharpex2D/Physics/PhysicProvider.cs:353-357 | no contract of its own; characterised by `Vigours.ElasticHeavyPartner`, `Vigours.ElasticGeneral` and `Vigours.ExchangeAt` |
| Vigours.ElasticImpact | Sharpex2D/Physics/PhysicProvider.cs:365-416 | no contract of its own; characterised by `Vigours.ElasticMirrorsX`, `Vigours.ElasticHeavyPartner`, `Vigours.ElasticTransfer` and `Vigours.ElasticGeneral` |
| Vigours.NonElasticImpact | Sharpex2D/Physics/PhysicProvider.cs:424-439 | no contract of its own; characterised by `Vigours.NonElasticMomentumNotConserved` and `Physics.InelasticPair` |
| Vigours.Ekin | Sharpex2D/Physics/PhysicProvider.cs:446-450 | no contract of its own; characterised by `Vigours.EkinNonNegative` and `Physics.FloorInelastic` |
| Vigours.DampingX | Sharpex2D/Physics/PhysicProvider.cs:323-335 | X-damping equals the reference "move `damping/15` toward zero, never past it": it never flips the sign and never increases the magnitude |
| Vigours.DampingY | Sharpex2D/Physics/PhysicProvider.cs:336-343 | Y-damping always subtracts `damping/15` from a positive component and adds it otherwise; zero becomes `damping/15`; a positive component below `damping/15` turns negative |
| Vigours.ElasticMirrorsX | Sharpex2D/Physics/PhysicProvider.cs:380-387 | ElasticImpact negates the X velocity of the second argument in place, and of the first one unless the partner is more than ten times heavier (then it is also damped) |
| Vigours.ElasticHeavyPartner | Sharpex2D/Physics/PhysicProvider.cs:389-395 | a partner more than ten times heavier returns `(0.8·e1·vx, −0.8·e1·vy)` for the first particle, leaves it holding the damped mirrored velocity, and returns the partner's mirrored velocity |
| Vigours.ElasticTransfer | Sharpex2D/Physics/PhysicProvider.cs:401-406 | a resting partner of equal mass (within 0.01) takes over the first particle's mirrored velocity, and the first particle stops |
| Vigours.ElasticGeneral | Sharpex2D/Physics/PhysicProvider.cs:397-415 | otherwise both results are `0.8·min(e1,e2)·(v1·m1 + (2·v2 − v1)·m2/(m1+m2))` per component, with the mirrored velocities and sides swapped for the second |
| Vigours.ExchangeAt | Sharpex2D/Physics/PhysicProvider.cs:407-414 | the damped, scaled exchange vector equals the per-component closed form |
| Vigours.NonElasticMomentumNotConserved | Sharpex2D/Physics/PhysicProvider.cs:435-436 | for unit masses at (2,0) and at rest, the common velocity is (2,0), so the momentum after the impact differs from the momentum before it |
| Vigours.EkinNonNegative | Sharpex2D/Physics/PhysicProvider.cs:446-450 | the kinetic energy `m·(vx²+vy²)/2` of a particle with positive mass is never negative |
| Physics.Gravitate | Sharpex2D/Physics/PhysicProvider.cs:178-182 | gravity leaves position and mass unchanged |
| Physics.GravityOnlyY | Sharpex2D/Physics/PhysicProvider.cs:301-315 | gravity changes only the Y velocity, adding exactly `gravity·elapsed/1000`, and only when the provider and the particle both enable it |
| Physics.Calibrate | Sharpex2D/Physics/PhysicProvider.cs:196-244 | no contract of its own; characterised by `Physics.CalibrateY` and `Physics.CalibrateX` |
| Physics.CalibrateY | Sharpex2D/Physics/PhysicProvider.cs:196-244 | with the ceiling above the floor, the committed Y lies between them; a candidate Y less than 0.2 above the floor ends exactly on the floor |
| Physics.CalibrateX | Sharpex2D/Physics/PhysicProvider.cs:229-239 | X at or past `−left` is set to `+left`, then X at or past `right` is set to `right`, in that order; X strictly between the bounds is kept |
| Physics.FloorImpact | Sharpex2D/Physics/PhysicProvider.cs:203-220 | no contract of its own; characterised by `Physics.FloorInelastic` and `Physics.FloorElastic` |
| Physics.FloorInelastic | Sharpex2D/Physics/PhysicProvider.cs:204-213 | an inelastic particle hitting the floor stops, and fires one penetration involving only itself whose energy is `m·(vx²+vy²)/2` of the damped velocity, never negative |
| Physics.FloorElastic | Sharpex2D/Physics/PhysicProvider.cs:214-220 | an elastic particle lighter than 9999.9 bounces as `(0.8·e·vx, −0.8·e·vy)` and fires one recoil involving only itself |
| Physics.Integrate | Sharpex2D/Physics/PhysicProvider.cs:174-244 | integration keeps the mass, saves the position before the update, and fires at most one event |
| Physics.IntegrateInFlight | Sharpex2D/Physics/PhysicProvider.cs:185-244 | a particle that stays above the floor gets the damped velocity, moves by it corrected only by the bounds, and fires nothing |
| Physics.IntegrateLands | Sharpex2D/Physics/PhysicProvider.cs:185-244 | a particle that reaches the floor takes the floor response of its damped state, moves by its damped velocity corrected by the bounds, ends exactly on the floor, and fires exactly the floor event |
| Physics.ResolvePair | Sharpex2D/Physics/PhysicProvider.cs:255-287 | a pair response keeps the set of particles and every mass |
| Physics.InelasticPair | Sharpex2D/Physics/PhysicProvider.cs:258-275 | two inelastic particles both get `v1·m1 + v2·m2/(m1+m2)`; both receive a penetration naming both, with energy equal to the other particle's kinetic energy; only the current particle moves back; the pair is recorded |
| Physics.ElasticPair | Sharpex2D/Physics/PhysicProvider.cs:276-287 | otherwise the two ElasticImpact results are applied; both receive a recoil naming both; only the current particle moves back; the pair is recorded |
| Physics.PairLeavesOthers | Sharpex2D/Physics/PhysicProvider.cs:255-287 | a pair response changes no particle other than the two involved |
| Physics.SweepStep | Sharpex2D/Physics/PhysicProvider.cs:246-256 | one sweep step keeps the set of particles and every mass |
| Physics.SweepStepResolves | Sharpex2D/Physics/PhysicProvider.cs:246-256 | a pair is resolved exactly when the other particle is a different object, the pair is not processed yet, and the detector reports an intersection; a resolved pair adds one reference and two events; otherwise nothing changes |
| Physics.SweepStepMoves | Sharpex2D/Physics/PhysicProvider.cs:246-287 | one sweep step moves no particle but the current one, and that one only back to its saved position |
| Physics.SweepPrefix | Sharpex2D/Physics/PhysicProvider.cs:246-291 | the sweep keeps every listed particle present and every mass unchanged |
| Physics.SweepPositions | Sharpex2D/Physics/PhysicProvider.cs:246-291 | the sweep moves no particle other than the current one, and moves that one only back to its position before the update |
| Physics.SweepReferences | Sharpex2D/Physics/PhysicProvider.cs:251-255 | the sweep only adds processed pairs, each made of the current particle and a different one |
| Physics.SweepKeepsReferences | Sharpex2D/Physics/PhysicProvider.cs:251-255 | the sweep keeps every processed pair recorded before it |
| Physics.SweepAddsPairs | Sharpex2D/Physics/PhysicProvider.cs:251-255 | every pair the sweep adds holds the current particle and has two distinct members |
| Physics.SweepEvents | Sharpex2D/Physics/PhysicProvider.cs:265-284 | the sweep only appends events, exactly two per resolved pair |
| Physics.SweepKeepsEvents | Sharpex2D/Physics/PhysicProvider.cs:265-284 | the events before the sweep stay, unchanged, at the front of the log |
| Physics.SweepCountsEvents | Sharpex2D/Physics/PhysicProvider.cs:265-284 | the sweep adds exactly two events per pair it records |
| Physics.UpdateParticle | Sharpex2D/Physics/PhysicProvider.cs:174-292 | one particle's update keeps every listed particle present and every mass unchanged |
| Physics.TickPrefix | Sharpex2D/Physics/PhysicProvider.cs:51-56 | any number of particle updates keeps every listed particle present and every mass unchanged |
| Physics.TickStep | Sharpex2D/Physics/PhysicProvider.cs:53-56 | one more iteration of the tick loop applies one particle update, for the next listed particle, to the state after the earlier iterations |
| Physics.DuplicateUpdatedTwice | Sharpex2D/Physics/PhysicProvider.cs:53-56 | a particle listed twice is updated twice in one tick |
| Physics.LandingScenario | Sharpex2D/Physics/PhysicProvider.cs:196-213 | an inelastic particle of mass 2 at y = 467.9 moving at (0,5) ends at (0,468) with velocity zero and one penetration of energy 25 |
| Physics.PhysicProvider.constructor | Sharpex2D/Physics/PhysicProvider.cs:140-152 | a new provider has floor 468, ceiling −99999, left and right 99999, gravity off, and no particles, references or events |
| Physics.PhysicProvider.Subscribe | Sharpex2D/Physics/PhysicProvider.cs:76-79 | subscribing always appends, even a particle that is already listed; the state already known for a listed particle is kept |
| Physics.PhysicProvider.Unsubscribe | Sharpex2D/Physics/PhysicProvider.cs:85-88 | unsubscribing removes the first occurrence and does nothing for an absent particle |
| Physics.PhysicProvider.AddParticleVelocity | Sharpex2D/Physics/PhysicProvider.cs:115-118 | adds the vector to that particle's velocity and changes nothing else |
| Physics.PhysicProvider.SetParticleVelocity | Sharpex2D/Physics/PhysicProvider.cs:125-128 | sets that particle's velocity and changes nothing else |
| Physics.PhysicProvider.MoveParticle | Sharpex2D/Physics/PhysicProvider.cs:178-244 | the in-place integration leaves exactly the state `Integrate` describes and returns the saved position |
| Physics.PhysicProvider.Land | Sharpex2D/Physics/PhysicProvider.cs:203-220 | the in-place floor response sets the velocity `FloorImpact` gives and logs its one event |
| Physics.PhysicProvider.ClampToBounds | Sharpex2D/Physics/PhysicProvider.cs:196-244 | the sequence of bound corrections and the final floor snap yields `Calibrate` of the candidate position under the provider's bounds |
| Physics.PhysicProvider.Collide | Sharpex2D/Physics/PhysicProvider.cs:255-287 | the in-place pair response leaves exactly the state `ResolvePair` describes |
| Physics.PhysicProvider.UpdateParticles | Sharpex2D/Physics/PhysicProvider.cs:174-292 | the in-place update of one particle, with its index loop over the list, equals `UpdateParticle` of the state before the call |
| Physics.PhysicProvider.SweepNext | Sharpex2D/Physics/PhysicProvider.cs:246-291 | one iteration of the index loop takes the state after i sweep steps to the state after i + 1 steps |
| Physics.PhysicProvider.UpdateNext | Sharpex2D/Physics/PhysicProvider.cs:53-56 | one iteration of the tick loop takes the state after k particle updates to the state after k + 1 |
| Physics.PhysicProvider.Update | Sharpex2D/Physics/PhysicProvider.cs:51-59 | a tick updates every listed particle in list order, as `TickPrefix` over the whole list, and ends with no processed pairs |
| Wave.Zeros | Sharpex2D/Audio/WaveOut/WaveStream.cs:206 | a fresh chunk buffer: n zero bytes |
| Wave.Chunk | Sharpex2D/Audio/WaveOut/WaveStream.cs:204-209 | a chunk word is always 4 characters; the cursor advances by 4, or to the end of the stream; with 4 bytes available the word is their ASCII decoding |
| Wave.ShortChunkNoWord | Sharpex2D/Audio/WaveOut/WaveStream.cs:204-209 | a word cut short by the end of the stream never equals a 4-letter word |
| Wave.Int16At | Sharpex2D/Audio/WaveOut/WaveStream.cs:242-247 | a little-endian signed 16-bit read lies in [−2^15, 2^15) |
| Wave.Int32At | Sharpex2D/Audio/WaveOut/WaveStream.cs:234 | a little-endian signed 32-bit read lies in [−2^31, 2^31) |
| Wave.FindData | Sharpex2D/Audio/WaveOut/WaveStream.cs:257-259 | the data search ends between its start and the end of the stream |
| Wave.FindDataFound | Sharpex2D/Audio/WaveOut/WaveStream.cs:257-262 | the search ends at the end of the stream, or just after a "data" word on the 4-byte grid from its start |
| Wave.FindDataFirst | Sharpex2D/Audio/WaveOut/WaveStream.cs:257-259 | no earlier position on that grid holds "data" |
| Wave.ParsePreamble | Sharpex2D/Audio/WaveOut/WaveStream.cs:217-238 | the preamble succeeds only with at least 20 bytes, and yields the Int32 at offset 16, which is at least 16 |
| Wave.ParseFormat | Sharpex2D/Audio/WaveOut/WaveStream.cs:240-255 | the format stage succeeds only when the whole `len`-byte format chunk fits |
| Wave.ParseData | Sharpex2D/Audio/WaveOut/WaveStream.cs:257-275 | on success, the data offset is 4 past the search result and within the stream, the length is the positive Int32 before it, and the tag is PCM or IEEE float |
| Wave.AsciiWord | Sharpex2D/Audio/WaveOut/WaveStream.cs:204-209 | bytes decode to an ASCII word exactly when they are its codes |
| Wave.ParseHeader | Sharpex2D/Audio/WaveOut/WaveStream.cs:213-278 | no contract of its own; characterised by `Wave.HeaderWords`, `Wave.HeaderFormat`, `Wave.HeaderLength`, `Wave.HeaderData`, `Wave.SizeIgnored` and `Wave.ShortFormatRejected` |
| Wave.HeaderWords | Sharpex2D/Audio/WaveOut/WaveStream.cs:169-232 | a stream that parses is readable and holds "RIFF" at 0, "WAVE" at 8 and "fmt " at 12 |
| Wave.HeaderFormat | Sharpex2D/Audio/WaveOut/WaveStream.cs:234-248 | a stream that parses has a format length of at least 16, its format is the six fields read in order from offset 20, and its tag is PCM or IEEE float |
| Wave.HeaderLength | Sharpex2D/Audio/WaveOut/WaveStream.cs:250-270 | in a stream that parses, the format chunk fits; the data offset lies past it and within the stream; the length is the positive Int32 just before the offset |
| Wave.HeaderData | Sharpex2D/Audio/WaveOut/WaveStream.cs:257-265 | the data offset is 8 bytes past the first "data" word on the 4-byte grid that starts where the format chunk ends |
| Wave.DataStage | Sharpex2D/Audio/WaveOut/WaveStream.cs:257-275 | when the data stage succeeds, its offset is 8 bytes past the first "data" word on the grid from where the stage starts |
| Wave.DataGrid | Sharpex2D/Audio/WaveOut/WaveStream.cs:257-262 | a search that stops before the end of the stream stopped just past the first "data" word on its 4-byte grid |
| Wave.SizeIgnored | Sharpex2D/Audio/WaveOut/WaveStream.cs:222 | overwriting the RIFF size at offset 4 never changes the result of the parse |
| Wave.ParseHeaderSame | Sharpex2D/Audio/WaveOut/WaveStream.cs:214-278 | two streams of equal length that agree outside bytes 4 to 7 parse to the same result |
| Wave.ShortFormatRejected | Sharpex2D/Audio/WaveOut/WaveStream.cs:234-238 | a format length below 16 after the three matching words is rejected as an invalid format |
| Wave.WaveStream.Wrap | Sharpex2D/Audio/WaveOut/WaveStream.cs:165-167 | the stream wraps the source bytes at position 0 |
| Wave.WaveStream.ReadChunk | Sharpex2D/Audio/WaveOut/WaveStream.cs:204-209 | reading a chunk through the cursor yields `Chunk` and advances the cursor as `Chunk` says |
| Wave.WaveStream.ReadInt32 | Sharpex2D/Audio/WaveOut/WaveStream.cs:234 | reading an Int32 yields the little-endian value and advances by 4, or fails at the end of the stream |
| Wave.WaveStream.ReadPreamble | Sharpex2D/Audio/WaveOut/WaveStream.cs:217-238 | the imperative preamble reads agree with `ParsePreamble` and, on success, leave the cursor at 20 |
| Wave.WaveStream.ReadFormat | Sharpex2D/Audio/WaveOut/WaveStream.cs:240-255 | the field reads and the byte-by-byte skip loop agree with `ParseFormat` and leave the cursor at `20 + len` |
| Wave.WaveStream.ReadData | Sharpex2D/Audio/WaveOut/WaveStream.cs:257-275 | the search loop, the length read and the checks agree with `ParseData`, and set the length and the data offset |
| Wave.WaveStream.ReadHeader | Sharpex2D/Audio/WaveOut/WaveStream.cs:214-278 | reading the header succeeds exactly when `ParseHeader` does and fails with the same error otherwise; on success it sets the format, the data length and the data offset that `ParseHeader` yields and leaves Position at 0 |
| Wave.WaveStream.Open | Sharpex2D/Audio/WaveOut/WaveStream.cs:165-175 | construction fails on an unreadable stream and otherwise exactly as the header parse does; a constructed stream is a new object at Position 0 |
| Wave.ReadFirstSamples | Sharpex2D/Audio/WaveOut/WaveStream.cs:106-175 | opening a readable source, seeking to 0 from Begin and reading 4 bytes gives nothing exactly when the header does not parse, and otherwise at most 4 bytes, namely the first 4 sample bytes when the data chunk declares and holds them |
| Wave.WaveStream.Position | Sharpex2D/Audio/WaveOut/WaveStream.cs:70-73 | no contract of its own; the underlying cursor less the data offset, used by the `Seek` and `Read` contracts |
| Wave.WaveStream.Seek | Sharpex2D/Audio/WaveOut/WaveStream.cs:106-121 | after a Begin seek, Position is the offset; after an End seek, it is length minus the offset; after a Current seek, it moves by the offset; a target before the stream start fails; the new Position is returned |
| Wave.WaveStream.Read | Sharpex2D/Audio/WaveOut/WaveStream.cs:130-134 | a read asks for `min(count, length − Position)` bytes, returns at most that many, advances the cursor by what it returns, returns exactly that many bytes of the source when they are there and otherwise all that remain, and fails when that amount is negative |
| Wave.WaveStream.Write | Sharpex2D/Audio/WaveOut/WaveStream.cs:142-145 | writing always fails |
| Wave.WaveStream.SetLength | Sharpex2D/Audio/WaveOut/WaveStream.cs:95-98 | setting the length always fails |
| Keyboard.Transition | Sharpex.GameLibrary/Framework/Input/Devices/Win32Keyboard.cs:103-131 | messages 0x0101 and 0x0105 release the key, and 0x0100 and 0x0104 press it; a negative code or any other message changes nothing |
| Keyboard.Win32Keyboard.constructor | Sharpex.GameLibrary/Framework/Input/Devices/Win32Keyboard.cs:145-155 | a new keyboard has both maps empty and is not enabled |
| Keyboard.Win32Keyboard.IsKeyDown | Sharpex.GameLibrary/Framework/Input/Devices/Win32Keyboard.cs:176-179 | no contract of its own; characterised by `Keyboard.Win32Keyboard.IsKeyUp` and `Keyboard.Win32Keyboard.IsKeyPressed` |
| Keyboard.Win32Keyboard.IsKeyUp | Sharpex.GameLibrary/Framework/Input/Devices/Win32Keyboard.cs:176-188 | a key is up exactly when it is not down, for every key |
| Keyboard.Win32Keyboard.IsKeyPressed | Sharpex.GameLibrary/Framework/Input/Devices/Win32Keyboard.cs:194-197 | a key is pressed exactly when it is down now and was not down at the last tick |
| Keyboard.Win32Keyboard.SetKeyState | Sharpex.GameLibrary/Framework/Input/Devices/Win32Keyboard.cs:162-169 | the key gets the state and every other key keeps its entry |
| Keyboard.Win32Keyboard.Tick | Sharpex.GameLibrary/Framework/Input/Devices/Win32Keyboard.cs:46-56 | when enabled, the entry-by-entry copy makes the snapshot equal to the current map, so no key is pressed afterwards; when disabled, nothing changes |
| Keyboard.Win32Keyboard.HookCallback | Sharpex.GameLibrary/Framework/Input/Devices/Win32Keyboard.cs:114-131 | the hook applies `Transition` to the key map and changes nothing else |
| Timing.Round | Sharpex2D/GameLoop.cs:253-259 | a round calls every subscriber once, in list order |
| Timing.RoundCallsOnce | Sharpex2D/GameLoop.cs:253-259 | with a duplicate-free list, a round calls each subscribed object exactly once and no other object |
| Timing.CatchUp | Sharpex2D/GameLoop.cs:198-209 | the catch-up leaves at most one frame time unprocessed; the remainder is the input less one frame time per round; rounds run exactly when more than one frame time is pending; after at least one round, the remainder is positive |
| Timing.CatchUpCharacterised | Sharpex2D/GameLoop.cs:198-209 | any split of the unprocessed time into n rounds and a remainder, where the remainder is at most one frame time and is positive once a round ran, is the one `CatchUp` gives |
| Timing.CatchUpFewest | Sharpex2D/GameLoop.cs:198-209 | one round fewer would leave more than a frame time unprocessed |
| Timing.Truncate | Sharpex2D/GameLoop.cs:201 | the `(int)` cast of the target time truncates toward zero |
| Timing.GameLoop.constructor | Sharpex2D/GameLoop.cs:45-55 | a new loop has target time 16.666, limited drawing, empty lists, and is not running |
| Timing.GameLoop.FrameTime | Sharpex2D/GameLoop.cs:195 | the frame time is positive and equals `frequency · targetTime / 1000` |
| Timing.GameLoop.SubscribeDrawable | Sharpex2D/GameLoop.cs:105-111 | appends a drawable only if it is absent, so the list never holds duplicates; it changes no other field of the loop |
| Timing.GameLoop.SubscribeUpdateable | Sharpex2D/GameLoop.cs:117-123 | appends an updateable only if it is absent, so the list never holds duplicates; it changes no other field of the loop |
| Timing.GameLoop.UnsubscribeDrawable | Sharpex2D/GameLoop.cs:129-135 | removes a present drawable and keeps the others in order; an absent one leaves the list unchanged; it changes no other field of the loop |
| Timing.GameLoop.UnsubscribeUpdateable | Sharpex2D/GameLoop.cs:141-147 | removes a present updateable and keeps the others in order; an absent one leaves the list unchanged; it changes no other field of the loop |
| Timing.GameLoop.Stop | Sharpex2D/GameLoop.cs:152-155 | stopping always clears the running flag and changes no other field |
| Timing.GameLoop.Start | Sharpex2D/GameLoop.cs:160-167 | starting sets the running flag only when it was clear, and only then starts the thread, which fails if it was started before; no other field changes |
| Timing.RestartAfterStop | Sharpex2D/GameLoop.cs:152-239 | on a fresh loop with one updateable, the first Start succeeds, a pass requests a frame exactly when more than one target step of ticks passed, and a Start after a Stop fails |
| Timing.GameLoop.UpdateSubscribers | Sharpex2D/GameLoop.cs:253-259 | the index loop calls Update on every updateable once, in list order |
| Timing.GameLoop.RenderSubscribers | Sharpex2D/GameLoop.cs:264-270 | the index loop calls Draw on every drawable once, in list order |
| Timing.GameLoop.CatchUpRound | Sharpex2D/GameLoop.cs:200-206 | one catch-up round stamps the elapsed game time as the unprocessed ticks in milliseconds, adds the truncated target time to the total and updates every updateable once |
| Timing.GameLoop.CatchUpRounds | Sharpex2D/GameLoop.cs:198-209 | the catch-up loop runs `CatchUp`'s number of update rounds and leaves its remainder; each round adds one truncated target time to the total game time; the last round stamps the elapsed game time; each round logs one update round |
| Timing.GameLoop.Pass | Sharpex2D/GameLoop.cs:188-239 | one pass runs `CatchUp`'s number of update rounds and keeps its remainder; render is requested exactly when a round ran; it adds one truncated target time per round to the total game time; once a second's worth of ticks has been counted, the counts become the measured rates and all three counters restart from zero; a frame is drawn when drawing is unlimited or a round ran |
| MouseInput.Mouse.constructor | Sharpex2D/Input/XPlatform/Mouse.cs:52-62 | a new mouse knows no button and is at (0,0) |
| MouseInput.Mouse.GetState | Sharpex2D/Input/XPlatform/Mouse.cs:89-92 | the state reports the current button map and position |
| MouseInput.Mouse.SetButtonState | Sharpex2D/Input/XPlatform/Mouse.cs:99-106 | the button gets the state and every other button keeps its entry |
| MouseInput.Mouse.MouseUp | Sharpex2D/Input/XPlatform/Mouse.cs:108-111 | a release sets the button to false |
| MouseInput.Mouse.MouseDown | Sharpex2D/Input/XPlatform/Mouse.cs:113-116 | a press sets the button to true |
| MouseInput.Mouse.Update | Sharpex2D/Input/XPlatform/Mouse.cs:39-42 | an update empties the button map, so no button is reported afterwards |

## Left out

- Floating point: `float` and `double` are modelled as exact reals, with no rounding, infinity or NaN. The source squares `Vector2.Length`; the model uses `x² + y²` instead.
- Physics.PhysicProvider.Subscribe: requires a positive mass, which the code does not check. Every impact formula divides by a mass or a mass sum, and a real cannot be divided by zero.
- Physics.PhysicProvider.AddParticleVelocity: requires the particle to be known to the provider, because particles are held in the provider's map.
- Physics.PhysicProvider.SetParticleVelocity: requires the particle to be known to the provider, for the same reason.
- Physics.FloorElastic: is stated only for masses below 9999.9. The heavier case is still modelled by `FloorImpact`.
- The collision manager is an arbitrary function of two particles. Its shape tests, and the UnknownShapeException they can throw, are not part of this model.
- Reference identity of collision pairs is modelled as an unordered pair of particle identities. The reference provider itself is not part of this model.
- `PhysicalConstants.Gravitation` is a constructor parameter.
- The floor's dummy particle has only mass 99999, elasticity 1 and zero velocity. Those are the only fields that ElasticImpact reads.
- The global registry `SGL.Components` and all wiring through it are left out: the physics provider's and keyboard's subscriptions to the game loop, the loop's SpriteBatch, content loading and disposal, and `Construct`.
- Timing.GameLoop.Pass: one call models one pass of `while (IsRunning)`. The stopwatch ticks passed and `Stopwatch.Frequency` are parameters. It requires a positive target time, because with any other value the catch-up never ends.
- Threads, the Stopwatch and `Thread.Sleep` are left out. So is the `Precision` setting, which only chooses the sleep.
- Timing.GameLoop.RenderSubscribers: records only which drawable was called, not the SpriteBatch or the game time it was given. UpdateSubscribers likewise does not record the game time.
- Win32 P/Invoke is left out: hook installation and removal, `CallNextHookEx` and its return value, and `Marshal.ReadInt32`. The virtual-key code is a parameter of HookCallback.
- Keyboard.Win32Keyboard.Tick: the snapshot copy walks the keys in insertion order. That order is an explicit field, because Dictionary enumeration order is not observable otherwise.
- The Guid, Description and Handle properties, and the empty `InitializeDevice` and `Render`, are left out.
- Mouse movement is left out: `surface_MouseMove` divides by the graphics device's scale, which is not part of this model. The WinForms event wiring is left out too.
- MouseInput.Mouse.GetState: returns a value snapshot. `MouseState` is not part of this model, so whether it shares the live dictionary is not captured.
- WaveStream's FileStream constructor, BinaryReader and Encoding objects, `Dispose`, `Close`, `Flush`, the finalizer and the `Length` property are left out.
- Wave.ParseHeader: the underlying stream is read from offset 0. The source reads from wherever the stream stands.
- Wave.WaveStream.Read: the buffer and offset arguments are left out, along with their argument checks and the `(int)` cast of the count. The underlying stream returns every available byte that was asked for.
- The PCM and IEEE-float tag values are parameters, because the `WaveFormats` enumeration is not part of this model.
- Wave.WaveStream.Seek: the underlying stream's refusal of a negative position is modelled as a failure that leaves the cursor unchanged.

# FMOD AudioEngine bookkeeping, in Dafny

This project models the `AudioEngine` class of an FMOD wrapper. The wrapper loads sound
files and FMOD Studio banks and events, and plays them in 2D or 3D. FMOD does all the
audio work. The wrapper keeps a few string-keyed registries in front of FMOD and
decides which FMOD call to make with which handle. This project models those registries.

- `fmod.dfy` (module `Fmod`): FMOD as the engine sees it. Every FMOD object pointer is a
  `Handle` (`Null` or `Ref(id)`). Every state-changing FMOD call the engine makes is a
  `Call` value.
- `std_map.dfy` (module `StdMap`): the three `std::map` operations the engine relies on.
  `insert` never overwrites. `count` is 0 or 1. `operator[]` inserts a null value for a
  missing key.
- `audio_engine.dfy` (module `Engine`): the class `AudioEngine`. Its fields are the five
  registries (`soundCache`, `channelMap`, `soundBanks`, `eventDescriptions`,
  `eventInstances`, each a `map<string, Handle>`), the listener pose, the `muted` flag
  and the constant `distanceFactor`. Two more fields stand for FMOD's side. `nextHandle`
  is the next object FMOD will create, so every created handle is fresh. `calls` is the
  ordered log of calls made to FMOD. Each operation is a method. Its `modifies` clause
  names the fields it may change, and its `ensures` clauses give the new registry
  contents and the calls appended to the log. `Valid()` is the class invariant: every
  stored handle was issued by FMOD, and both event maps have the same keys.
- `scenarios.dfy` (module `Scenarios`): call sequences on a new engine, each proving one
  behaviour a caller sees.

The header and the implementation file disagree on field names: `sounds` and
`loopsPlaying` in the header, `soundCache` and `channelMap` in the implementation file.
They also disagree on which operations exist. The model uses the implementation file's
operations and field names. It takes the field defaults (listener pose, `muted`,
`DISTANCEFACTOR`) and the documented contracts of the operations that have no
implementation from the header. Those operations are `stopSound`, `soundIsPlaying`,
`updateSoundLoopVolume`, `getSoundLengthInMS` and mute/unmute/`isMuted`. `stopSound`,
`soundIsPlaying` and `updateSoundLoopVolume` act on `channelMap`, which is the header's
`loopsPlaying`. `getSoundLengthInMS` reads `soundCache`, the header's `sounds`.
Mute, unmute and `isMuted` use the `muted` flag.

The header's default arguments are kept: `paramsValues = {}` becomes `[]`,
`instanceIndex = 0` stays 0, and `fadeSampleLength = 0` stays 0.

FMOD calls that create an object can fail. `ERRCHECK` only logs a failure, so the code
carries on and stores the pointer as it is. A failed bank, event description or event
instance stays NULL. A failed sound is left uninitialised, and the model stores Null for
it. The loaders take a flag saying whether FMOD's create call succeeded. The key is
recorded either way, so every later load of a path whose first load failed is skipped.

`DISTANCEFACTOR` is fixed at 1.0 in the header. Here it is a constructor argument, and
`DefaultDistanceFactor` is 1.0. With the argument free, the model shows which
coordinates get scaled.

## Behaviour worth knowing

The code does the following in places where a reader would expect something else. The
model follows the code in each case.

- **Reloading an event.** One would expect reloading an event name to replace the stored
  instance. In the code, `map::insert` keeps the first description and instance. The new
  instance is created and given its parameters, but no registry stores it
  (`LoadFmodStudioEvent`, `ReloadEventKeepsFirstInstance`).
- **Recording loop channels.** The header says the loops-playing map holds the channel
  of every playing sound loop (AudioEngine.h:243-248). The comments on `stopSound` and
  `soundIsPlaying` speak of a looping sound that is currently playing (AudioEngine.h:74-77,
  96-99). That is what the map records, so the model has both read `channelMap`.
  No operation in the code
  ever writes `channelMap`. So `soundIsPlaying` is false for every sound, `stopSound`
  does nothing, and `update3DSoundPosition` always takes its "wasn't loaded" branch
  (`StartedLoopIsNeverTracked`).
- **Listener vectors.** The header describes the arguments as the listener's forward and
  up vectors (AudioEngine.h:102-110). The code stores the position as given, but it swaps
  the x and y components of the forward and up vectors (`Set3DListenerPosition`,
  `ListenerReadBack`).
- **Distance factor.** One would expect the distance factor to be applied the same way
  everywhere. `play3DSoundFile` scales only x (AudioEngine.cpp:59, `Play3DPosition`).
  `update3DSoundPosition` scales x, y and z (AudioEngine.cpp:73, `Update3DPosition`).
  The two positions agree exactly when the factor is 1 or y and z are both 0
  (`PlayAndUpdatePositionsAgree`). With the header's factor of 1.0 the difference
  therefore never shows. The header's default listener position is scaled
  (AudioEngine.h:212), but the one `set3DListenerPosition` stores is taken as given
  (AudioEngine.cpp:82, `Set3DListenerPosition`).
- **Playing an unknown event.** Its own else branch shows `playEvent` means an unknown
  name to be a no-op. But it reads both event maps with `operator[]` before checking
  `count`. So an unknown name gets a null description and a null instance, the check
  passes, and `start` is called on the null instance (`PlayEvent`, `PlayUnknownEvent`).
- **Fade threshold.** The header says a fade of "less than 64" samples uses FMOD's
  default fade (AudioEngine.h:82-83). So 64 itself gets a custom ramp (`FadeCalls`).
- **Failed loads.** A load whose FMOD create call failed still records the key. Loading
  that path again is then skipped as "already loaded" (`LoadSoundFile`,
  `FailedLoadBlocksReload`).

## Model

| member | source | states |
|---|---|---|
| StdMap.Insert | AudioEngine.cpp:109-110 | `insert` adds the key and keeps every existing entry; the new value lands only when the key was absent |
| StdMap.Count | AudioEngine.cpp:146 | `count` is at most 1, and positive exactly when the key is present |
| StdMap.Subscript | AudioEngine.cpp:124-125 | `operator[]` leaves the key present and keeps every existing entry; it reads the stored value, or the null value it inserted for a missing key |
| Engine.PlayAndUpdatePositionsAgree | AudioEngine.cpp:57-79 | the position `play3DSoundFile` gives and the one `update3DSoundPosition` pushes for the same coordinates agree iff the distance factor is 1 or y = z = 0 |
| Engine.ParamCalls | AudioEngine.cpp:104-108 | the loop issues exactly as many calls as there are (name, value) pairs |
| Engine.ParamCallsIssueEachPair | AudioEngine.cpp:104-108 | call i is a `setParameterByName` on the given instance with the name and value of pair i |
| Engine.ParamCallsExtend | AudioEngine.cpp:104-108 | one more pass of the loop appends exactly the call for the next pair |
| Engine.ParamsAppliedInListOrder | AudioEngine.cpp:104-108 | after the parameter loop, each parameter holds the value of its last occurrence in the list |
| Engine.FadeCalls | AudioEngine.h:79-85 | a fade point is issued iff the fade is at least 64 samples; every call targets the loop's channel; the last call sets or ends at the new volume; a ramp starts at the current volume and clock and lasts the requested number of samples |
| Engine.AudioEngine.constructor | AudioEngine.h:209-233 | all registries start empty; the listener starts at (0, 0, -DISTANCEFACTOR), facing (0, 0, 1) with up (0, 1, 0); `muted` starts false |
| Engine.AudioEngine.SoundIsCached | AudioEngine.cpp:145-147 | true exactly when the path is in the sound cache |
| Engine.AudioEngine.GetSound | AudioEngine.cpp:149-151 | returns the cached sound; a missing path is inserted with a null sound |
| Engine.AudioEngine.LoadSoundFile | AudioEngine.cpp:20-30 | an uncached path gets a 2D sound with the loop mode set, cached whether or not creation succeeded (fresh handle, or Null on failure); the path is cached afterwards; a cached path leaves the cache and FMOD untouched |
| Engine.AudioEngine.PlaySoundFile | AudioEngine.cpp:32-40 | a cached sound is played unpaused on a fresh channel that no registry records, or on a Null channel when the sound is cached as Null; an uncached path changes nothing; the cache is unchanged either way |
| Engine.AudioEngine.Load3DSoundFile | AudioEngine.cpp:42-55 | an uncached path gets a 3D sound (fresh, or Null on failure) with min/max distances 0.5 and 5000 times the distance factor and the loop mode set; the cache it shares with `loadSoundFile` is otherwise unchanged |
| Engine.AudioEngine.Play3DSoundFile | AudioEngine.cpp:57-68 | a cached sound is started paused, given position `Play3DPosition` (cpp:59: x scaled, y and z not) and zero velocity, then unpaused, on a channel no registry records; a sound cached as Null gets a Null channel and the two channel calls still go to it; an uncached path changes nothing |
| Engine.AudioEngine.Update3DSoundPosition | AudioEngine.cpp:70-79 | a path with a recorded channel gets position `Update3DPosition` (cpp:73: x, y and z all scaled) and zero velocity; any other path changes nothing; no registry changes |
| Engine.AudioEngine.Set3DListenerPosition | AudioEngine.cpp:81-86 | the position is stored as given, forward and up with x and y swapped, and the stored pose is pushed to listener 0 |
| Engine.AudioEngine.LoadFmodStudioBank | AudioEngine.cpp:88-93 | the bank file is always loaded and the path is recorded afterwards, with the loaded bank or Null on failure; a path already recorded keeps its first bank |
| Engine.AudioEngine.LoadFmodStudioEvent | AudioEngine.cpp:95-111 | a description and an instance are created (fresh, or both Null when the event is not found), and the parameters are applied to the instance in list order; the name is in both maps afterwards; a name already present keeps its stored description and instance, and a newly created instance is stored nowhere |
| Engine.AudioEngine.GetEventInstance | AudioEngine.cpp:97-101 | `getEvent` then `createInstance` on the description it returned; both handles are fresh when the event is found and Null otherwise |
| Engine.AudioEngine.ApplyParams | AudioEngine.cpp:104-108 | the loop appends exactly the `setParameterByName` calls for the list, in order |
| Engine.AudioEngine.SetFmodEventParamValue | AudioEngine.cpp:113-120 | sets the parameter on the stored instance for a known name; an unknown name changes nothing; no map changes |
| Engine.AudioEngine.PlayEvent | AudioEngine.cpp:122-133 | both event maps gain a null entry for an unknown name; afterwards the name is in both; `start` is called on the stored (possibly null) instance |
| Engine.AudioEngine.StopEvent | AudioEngine.cpp:135-140 | stops the stored instance with fade-out for a known name; an unknown name changes nothing; no map changes |
| Engine.AudioEngine.SoundIsPlaying | AudioEngine.h:96-99 | true exactly when the sound's key has a recorded loop channel |
| Engine.AudioEngine.StopSound | AudioEngine.h:74-77 | a playing loop's channel is stopped and its entry removed; otherwise nothing changes |
| Engine.AudioEngine.UpdateSoundLoopVolume | AudioEngine.h:79-85 | a playing loop gets the calls `FadeCalls` gives for its channel; a sound that is not playing changes nothing |
| Engine.AudioEngine.GetSoundLengthInMs | AudioEngine.h:112-116 | 0 for a sound not in the cache, otherwise the length FMOD reports |
| Engine.AudioEngine.MuteAllSounds | AudioEngine.h:159-162 | sets `muted` and mutes the master output |
| Engine.AudioEngine.UnmuteAllSound | AudioEngine.h:164-167 | clears `muted` and unmutes the master output |
| Engine.AudioEngine.IsMuted | AudioEngine.h:169-172 | returns the `muted` flag |
| Scenarios.LoadTwiceKeepsOneEntry | AudioEngine.cpp:20-55 | loading one path as 2D and then as 3D creates one sound; the cache has one entry after both calls |
| Scenarios.StartedLoopIsNeverTracked | AudioEngine.cpp:42-79 | a loaded and started looping 3D sound is not reported as playing, and moving it issues no FMOD call |
| Scenarios.PlayUnloadedSoundDoesNothing | AudioEngine.h:65-72 | playing an unloaded sound, 2D or 3D, leaves the cache empty and calls nothing |
| Scenarios.PlayUnknownEvent | AudioEngine.cpp:122-133 | an unknown event name ends up with null description and instance entries, and `start` is called on the null instance |
| Scenarios.ReloadEventKeepsFirstInstance | AudioEngine.cpp:95-111 | after two loads of one event name, the stored instance is the one the first load's `createInstance` produced; the one the second load's `createInstance` produced differs from it and is not among the stored instances |
| Scenarios.PlayFailedSound | AudioEngine.cpp:32-68 | after a failed 3D load, both play variants issue `playSound` on the Null sound, get a Null channel, and `play3DSoundFile` still positions and unpauses that channel; no handle is created |
| Scenarios.NoOperationRecordsAChannel | AudioEngine.h:243-248 | after every operation of the engine in turn, the loops-playing map is still empty and the sound is not reported as playing |
| Scenarios.FailedLoadBlocksReload | AudioEngine.cpp:20-55 | after a load whose `createSound` failed, the path is cached as Null and later loads of it, 2D or 3D, make no FMOD call |
| Scenarios.ListenerReadBack | AudioEngine.cpp:81-84 | the position reads back as set; the forward and up vectors read back unchanged iff their x and y are equal |
| Scenarios.MuteFollowsCalls | AudioEngine.h:159-172 | the mute flag starts false, is true after mute and false after unmute |
| Scenarios.LengthOfUnloadedSound | AudioEngine.h:112-116 | a sound that was never loaded has length 0 |

## Left out

- Creating, initialising and updating the FMOD system (AudioEngine.cpp:8-18) are foreign calls with no bookkeeping. The constructor models only the field defaults, and `update()` is not modelled.
- `init`, `deactivate`, `loadSound`, `playSound`, `setEventVolume`, `eventIsPlaying`, `soundLoaded`, `set3dChannelPosition` and `initReverb` are declared in the header but have no implementation. The header documents a contract for `playSound`, and `PlaySoundFile` models that contract. The others are not modelled.
- FMOD's audio work is left out. `createSound`, `playSound`, `setMode`, `set3DMinMaxDistance`, `start`, `stop` and the other calls are recorded in `calls` as values, and a created object is a fresh handle.
- Failure of an FMOD create call is modelled only where the engine stores the result. That covers `createSound`, `loadBankFile` and `getEvent`; a failure leaves Null, which is recorded under the key. A failed sound's pointer is really left uninitialised (AudioEngine.cpp:23, 45); the model writes Null for it. `createInstance` is modelled as failing exactly when `getEvent` did. `playSound` is modelled as failing exactly when the sound it is given is Null, and its channel then stays Null. In the source the channel pointer is uninitialised, and `play3DSoundFile` calls `set3DAttributes` and `setPaused` on it unchecked (AudioEngine.cpp:60-64); the model records those calls on Null. Failures of calls that create nothing change no registry and are not modelled.
- Handle freshness ignores FMOD returning the same object twice. In particular, `getEvent` on a name FMOD already knows gets a fresh description handle in this model. Whether the event exists in a loaded bank is not modelled either.
- Queries to FMOD are not logged. These are `getLength`, `getDSPClock`, the channel's current volume, and the description queries in `printEventInfo`. Where a result matters, it is a method parameter.
- Console output, `ERRCHECK_fn` and `printEventInfo` (AudioEngine.cpp:155-173) are left out. They only write to the console.
- The reverb fields and `AUDIO_SAMPLE_RATE` are not modelled; no implementation uses them. `MAX_AUDIO_CHANNELS` is used only in the FMOD system set-up at AudioEngine.cpp:13, which is left out above.
- `instanceIndex` in `playEvent` and `stopEvent` is accepted and ignored, as in the code. Only one instance per name is stored.
- Floating-point rounding is not modelled. Coordinates, volumes and parameter values are reals. `unsigned int` lengths and clocks are unbounded naturals.
- SoundInfo.h is not part of this model. `SoundInfo` has only the key, the loop and 3D flags, and a position.
- UpdateSoundLoopVolume: the header documents only the 64-sample threshold. So the ramp is modelled as two fade points from the current volume to the new one. The volume written back into the caller's `SoundInfo&` is not modelled.
- MuteAllSounds, UnmuteAllSound: the header does not say how FMOD is muted. The model records a single master-output mute call.

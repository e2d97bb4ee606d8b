/**
  Call sequences on a newly constructed engine, each showing one behaviour a caller
  of the wrapper observes.
 */
module Scenarios {
  import opened Fmod
  import opened Engine

  /** Loading a path as a 2D sound and then as a 3D sound: both loaders share one
      cache, so the second call creates nothing and the cache keeps its one entry. */
  method LoadTwiceKeepsOneEntry(path: string, loop: bool)
    returns (afterFirst: map<string, Handle>, afterSecond: map<string, Handle>, created: nat)
    ensures afterFirst == afterSecond == map[path := Ref(0)]
    ensures created == 1
  {
    var engine := new AudioEngine(DefaultDistanceFactor);
    engine.LoadSoundFile(path, loop, true);
    afterFirst := engine.soundCache;
    engine.Load3DSoundFile(path, !loop, true);
    afterSecond := engine.soundCache;
    created := engine.nextHandle;
  }

  /** A looping 3D sound that has been loaded and started is never reported as
      playing, and moving it sends nothing to FMOD: no operation records a channel. */
  method StartedLoopIsNeverTracked(path: string, x: real, y: real, z: real)
    returns (playing: bool, moveCalls: seq<Call>)
    ensures !playing
    ensures moveCalls == []
  {
    var engine := new AudioEngine(DefaultDistanceFactor);
    engine.Load3DSoundFile(path, true, true);
    engine.Play3DSoundFile(path, x, y, z);
    playing := engine.SoundIsPlaying(SoundInfo(path, true, true, Vec3(x, y, z)));
    var before := engine.calls;
    engine.Update3DSoundPosition(path, x, y, z);
    moveCalls := engine.calls[|before|..];
  }

  /** Playing a sound that was never loaded sends nothing to FMOD and leaves the
      cache empty. */
  method PlayUnloadedSoundDoesNothing(path: string, x: real, y: real, z: real)
    returns (cache: map<string, Handle>, issued: seq<Call>)
    ensures cache == map[]
    ensures issued == []
  {
    var engine := new AudioEngine(DefaultDistanceFactor);
    engine.PlaySoundFile(path);
    engine.Play3DSoundFile(path, x, y, z);
    cache, issued := engine.soundCache, engine.calls;
  }

  /** Playing an event that was never loaded leaves Null entries for it in both event
      maps and calls start on the Null instance. */
  method PlayUnknownEvent(eventName: string)
    returns (description: Handle, instance: Handle, issued: seq<Call>)
    ensures description == Null && instance == Null
    ensures issued == [StartInstance(Null)]
  {
    var engine := new AudioEngine(DefaultDistanceFactor);
    engine.PlayEvent(eventName, 0);
    description := engine.eventDescriptions[eventName];
    instance := engine.eventInstances[eventName];
    issued := engine.calls;
  }

  /** Loading an event twice: the instance the first load created stays stored, and
      the one the second load created, though given its parameters, is not among the
      stored instances. */
  method ReloadEventKeepsFirstInstance(eventName: string, first: seq<(string, real)>, second: seq<(string, real)>)
    returns (firstCreate: Call, secondCreate: Call, stored: Handle, discarded: Handle, discardedIsStored: bool)
    ensures firstCreate == CreateInstance(Ref(0), stored)
    ensures secondCreate == CreateInstance(Ref(2), discarded)
    ensures stored != discarded
    ensures !discardedIsStored
  {
    var engine := new AudioEngine(DefaultDistanceFactor);
    engine.LoadFmodStudioEvent(eventName, first);
    firstCreate := engine.calls[1];
    assert firstCreate.CreateInstance?;
    var before := engine.calls;
    engine.LoadFmodStudioEvent(eventName, second);
    secondCreate := engine.calls[|before| + 1];
    assert secondCreate.CreateInstance?;
    stored := engine.eventInstances[eventName];
    assert stored == firstCreate.instance;
    discarded := secondCreate.instance;
    discardedIsStored := discarded in engine.eventInstances.Values;
  }

  /** A sound whose creation failed is cached as Null, and a later load of the same
      path, even one that would succeed, creates nothing. */
  method FailedLoadBlocksReload(path: string, loop: bool)
    returns (cached: Handle, reloadCalls: seq<Call>)
    ensures cached == Null
    ensures reloadCalls == []
  {
    var engine := new AudioEngine(DefaultDistanceFactor);
    engine.LoadSoundFile(path, loop, false);
    var before := engine.calls;
    engine.Load3DSoundFile(path, loop, true);
    engine.LoadSoundFile(path, loop, true);
    cached := engine.soundCache[path];
    reloadCalls := engine.calls[|before|..];
  }

  /** Playing a sound whose creation failed: playSound fails on the Null sound, and
      play3DSoundFile still positions and unpauses the channel it did not get. */
  method PlayFailedSound(path: string, x: real, y: real, z: real)
    returns (issued: seq<Call>, created: nat)
    ensures issued == [PlaySound(Null, false, Null),
                       PlaySound(Null, true, Null),
                       Set3DAttributes(Null, Vec3(x, y, z), Origin),
                       SetPaused(Null, false)]
    ensures created == 0
  {
    var engine := new AudioEngine(DefaultDistanceFactor);
    engine.Load3DSoundFile(path, false, false);
    var before := engine.calls;
    engine.PlaySoundFile(path);
    engine.Play3DSoundFile(path, x, y, z);
    issued := engine.calls[|before|..];
    created := engine.nextHandle;
  }

  /** A client going through every operation of the engine: no operation records a
      loop channel, so the loops-playing map stays empty and no sound is ever
      reported as playing. */
  method NoOperationRecordsAChannel(path: string, eventName: string, bankPath: string,
                                    paramsValues: seq<(string, real)>, parameterName: string,
                                    value: real, x: real, y: real, z: real,
                                    soundInfo: SoundInfo, clock: nat, volume: real)
    returns (channels: map<string, Handle>, playing: bool)
    ensures channels == map[]
    ensures !playing
  {
    var engine := new AudioEngine(DefaultDistanceFactor);
    RunSoundOperations(engine, path, x, y, z);
    RunEventOperations(engine, eventName, bankPath, paramsValues, parameterName, value);
    engine.UpdateSoundLoopVolume(soundInfo, value, clock := clock, currentVolume := volume);
    engine.StopSound(soundInfo);
    var length := engine.GetSoundLengthInMs(soundInfo, clock);
    engine.MuteAllSounds();
    engine.UnmuteAllSound();
    var muted := engine.IsMuted();
    playing := engine.SoundIsPlaying(soundInfo);
    channels := engine.channelMap;
  }

  /** The sound and listener operations, which leave the loops-playing map as it was. */
  method RunSoundOperations(engine: AudioEngine, path: string, x: real, y: real, z: real)
    requires engine.Valid()
    modifies engine
    ensures engine.Valid()
    ensures engine.channelMap == old(engine.channelMap)
  {
    engine.LoadSoundFile(path, true, true);
    engine.Load3DSoundFile(path, true, true);
    engine.PlaySoundFile(path);
    engine.Play3DSoundFile(path, x, y, z);
    engine.Update3DSoundPosition(path, x, y, z);
    engine.Set3DListenerPosition(x, y, z, x, y, z, x, y, z);
  }

  /** The bank and event operations, which leave the loops-playing map as it was. */
  method RunEventOperations(engine: AudioEngine, eventName: string, bankPath: string,
                            paramsValues: seq<(string, real)>, parameterName: string, value: real)
    requires engine.Valid()
    modifies engine
    ensures engine.Valid()
    ensures engine.channelMap == old(engine.channelMap)
  {
    engine.LoadFmodStudioBank(bankPath, true);
    engine.LoadFmodStudioEvent(eventName, paramsValues);
    engine.SetFmodEventParamValue(eventName, parameterName, value);
    engine.PlayEvent(eventName);
    engine.StopEvent(eventName);
  }

  /** Reading the listener back after setting it: the position comes back as given,
      the forward and up vectors only when their x and y components are equal. */
  method ListenerReadBack(position: Vec3, forward: Vec3, up: Vec3)
    returns (storedPosition: Vec3, storedForward: Vec3, storedUp: Vec3)
    ensures storedPosition == position
    ensures storedForward == forward <==> forward.x == forward.y
    ensures storedUp == up <==> up.x == up.y
  {
    var engine := new AudioEngine(DefaultDistanceFactor);
    engine.Set3DListenerPosition(position.x, position.y, position.z,
                                 forward.x, forward.y, forward.z,
                                 up.x, up.y, up.z);
    storedPosition, storedForward, storedUp := engine.listenerPos, engine.forward, engine.up;
  }

  /** The mute flag starts clear and follows mute and unmute. */
  method MuteFollowsCalls() returns (initially: bool, afterMute: bool, afterUnmute: bool)
    ensures !initially && afterMute && !afterUnmute
  {
    var engine := new AudioEngine(DefaultDistanceFactor);
    initially := engine.IsMuted();
    engine.MuteAllSounds();
    afterMute := engine.IsMuted();
    engine.UnmuteAllSound();
    afterUnmute := engine.IsMuted();
  }

  /** Asking for the length of a sound that was never loaded gives 0, whatever FMOD
      would report. */
  method LengthOfUnloadedSound(soundInfo: SoundInfo, reportedLength: nat) returns (ms: nat)
    ensures ms == 0
  {
    var engine := new AudioEngine(DefaultDistanceFactor);
    ms := engine.GetSoundLengthInMs(soundInfo, reportedLength);
  }
}

/**
  The AudioEngine class of the FMOD wrapper: the registries it keeps in front of FMOD
  (sound cache, loop channels, banks, event descriptions, event instances), the
  listener pose, the mute flag and the distance factor, with one method per operation.

  Each method states its whole effect: which registry it changes and how, and which
  FMOD calls it appends to `calls`. The modifies clauses name exactly the fields a
  method may change, so everything else is unchanged for the caller.
 */
module Engine {
  import opened Fmod
  import StdMap

  /** Stand-in for SoundInfo (SoundInfo.h is not part of this model): the key the
      registries use, the playback policy and the coordinates. */
  datatype SoundInfo = SoundInfo(uniqueKey: string, isLoop: bool, is3D: bool, position: Vec3)

  datatype Option<T> = None | Some(value: T)

  /** The value the header gives DISTANCEFACTOR (units per metre). */
  const DefaultDistanceFactor: real := 1.0

  /** Fade lengths below this many samples use FMOD's default volume change. */
  const MinCustomFadeSamples: nat := 64

  /** The 3D min/max audible distances a 3D sound is given, before scaling. */
  const MinDistance3D: real := 0.5
  const MaxDistance3D: real := 5000.0

  /** The handle an FMOD create call leaves in the engine's pointer: the next fresh
      handle when the call succeeds, Null when it fails (ERRCHECK only logs, so the
      engine carries on with the pointer as it is). */
  function CreatedHandle(succeeded: bool, next: nat): Handle
  {
    if succeeded then Ref(next) else Null
  }

  /** The position play3DSoundFile gives a new channel: only x is scaled. */
  function Play3DPosition(x: real, y: real, z: real, distanceFactor: real): Vec3
  {
    Vec3(x * distanceFactor, y, z)
  }

  /** The position update3DSoundPosition pushes: every component is scaled. */
  function Update3DPosition(x: real, y: real, z: real, distanceFactor: real): Vec3
  {
    Vec3(x * distanceFactor, y * distanceFactor, z * distanceFactor)
  }

  /** Starting a 3D sound and later moving it to the same place push the same position
      only when the distance factor is 1 or the sound sits on the x axis. */
  lemma PlayAndUpdatePositionsAgree(x: real, y: real, z: real, distanceFactor: real)
    ensures Play3DPosition(x, y, z, distanceFactor) == Update3DPosition(x, y, z, distanceFactor)
            <==> distanceFactor == 1.0 || (y == 0.0 && z == 0.0)
  {
    if Play3DPosition(x, y, z, distanceFactor) == Update3DPosition(x, y, z, distanceFactor) && distanceFactor != 1.0 {
      var d := distanceFactor - 1.0;
      calc {
        y;
        y * d / d;
        (y * distanceFactor - y) / d;
        0.0;
      }
      calc {
        z;
        z * d / d;
        (z * distanceFactor - z) / d;
        0.0;
      }
    }
  }

  /** The setParameterByName calls loadFMODStudioEvent makes on `instance`, one per
      (name, value) pair, in list order. */
  function ParamCalls(instance: Handle, paramsValues: seq<(string, real)>): (issued: seq<Call>)
    ensures |issued| == |paramsValues|
  {
    if paramsValues == [] then []
    else
      var last := paramsValues[|paramsValues| - 1];
      ParamCalls(instance, paramsValues[..|paramsValues| - 1]) + [SetParameterByName(instance, last.0, last.1)]
  }

  /** Call i sets the name and value of pair i, on the given instance. */
  lemma {:induction false} ParamCallsIssueEachPair(instance: Handle, paramsValues: seq<(string, real)>)
    ensures forall i :: 0 <= i < |paramsValues| ==>
              ParamCalls(instance, paramsValues)[i] == SetParameterByName(instance, paramsValues[i].0, paramsValues[i].1)
  {
    if paramsValues != [] {
      var prefix := paramsValues[..|paramsValues| - 1];
      ParamCallsIssueEachPair(instance, prefix);
      forall i | 0 <= i < |paramsValues|
        ensures ParamCalls(instance, paramsValues)[i] == SetParameterByName(instance, paramsValues[i].0, paramsValues[i].1)
      {
        if i < |prefix| {
          assert ParamCalls(instance, paramsValues)[i] == ParamCalls(instance, prefix)[i];
        }
      }
    }
  }

  /** The calls for one more pair are those for the shorter prefix and one more call. */
  lemma ParamCallsExtend(instance: Handle, paramsValues: seq<(string, real)>, i: nat)
    requires i < |paramsValues|
    ensures ParamCalls(instance, paramsValues[..i + 1])
         == ParamCalls(instance, paramsValues[..i]) + [SetParameterByName(instance, paramsValues[i].0, paramsValues[i].1)]
  {
    assert paramsValues[..i + 1][..i] == paramsValues[..i];
  }

  /** The value FMOD holds for parameter `name` of `instance` once `issued` has been
      sent in order: that of the last setParameterByName for the pair, if any. */
  function ParamValue(issued: seq<Call>, instance: Handle, name: string): Option<real>
  {
    if issued == [] then None
    else
      var c := issued[|issued| - 1];
      if c.SetParameterByName? && c.instance == instance && c.name == name then Some(c.value)
      else ParamValue(issued[..|issued| - 1], instance, name)
  }

  /** The value paired with the last occurrence of `name` in a parameter list. */
  function LastValue(paramsValues: seq<(string, real)>, name: string): Option<real>
  {
    if paramsValues == [] then None
    else if paramsValues[|paramsValues| - 1].0 == name then Some(paramsValues[|paramsValues| - 1].1)
    else LastValue(paramsValues[..|paramsValues| - 1], name)
  }

  /** Parameters are applied in list order: when a name occurs more than once, the
      instance ends up with the value of its last occurrence. */
  lemma {:induction false} ParamsAppliedInListOrder(instance: Handle, paramsValues: seq<(string, real)>, name: string)
    ensures ParamValue(ParamCalls(instance, paramsValues), instance, name) == LastValue(paramsValues, name)
  {
    if paramsValues != [] {
      var prefix := paramsValues[..|paramsValues| - 1];
      var issued := ParamCalls(instance, paramsValues);
      assert issued[..|issued| - 1] == ParamCalls(instance, prefix);
      ParamsAppliedInListOrder(instance, prefix, name);
    }
  }

  predicate IssuesFadePoint(issued: seq<Call>)
  {
    exists c :: c in issued && c.AddFadePoint?
  }

  /** The FMOD calls updateSoundLoopVolume makes on a playing loop's channel. Below
      MinCustomFadeSamples FMOD's default fade is used (a plain volume change);
      otherwise a ramp from the channel's current volume at DSP clock `clock` to
      `newVolume` that lasts `fadeSampleLength` samples. */
  function FadeCalls(channel: Handle, newVolume: real, fadeSampleLength: nat, clock: nat, currentVolume: real): (issued: seq<Call>)
    ensures IssuesFadePoint(issued) <==> fadeSampleLength >= MinCustomFadeSamples
    ensures forall c | c in issued :: (c.SetVolume? || c.AddFadePoint?) && c.channel == channel
    ensures issued != [] && issued[|issued| - 1].volume == newVolume
    ensures IssuesFadePoint(issued) ==>
              && issued[0] == AddFadePoint(channel, clock, currentVolume)
              && issued[|issued| - 1].AddFadePoint?
              && issued[|issued| - 1].clock == clock + fadeSampleLength
  {
    if fadeSampleLength < MinCustomFadeSamples then
      [SetVolume(channel, newVolume)]
    else
      var ramp := [AddFadePoint(channel, clock, currentVolume), AddFadePoint(channel, clock + fadeSampleLength, newVolume)];
      assert ramp[0] in ramp;
      ramp
  }

  class AudioEngine {
    // DISTANCEFACTOR: units per metre
    const distanceFactor: real

    // Registries, keyed by file path or event name
    var soundCache: map<string, Handle>
    var channelMap: map<string, Handle>
    var soundBanks: map<string, Handle>
    var eventDescriptions: map<string, Handle>
    var eventInstances: map<string, Handle>

    // Listener pose
    var listenerPos: Vec3
    var forward: Vec3
    var up: Vec3

    var muted: bool

    // FMOD as the engine sees it: the next handle FMOD hands out, and the calls made so far
    var nextHandle: nat
    var calls: seq<Call>

    /** A handle FMOD has already handed out (or Null). */
    predicate Issued(h: Handle)
      reads this`nextHandle
    {
      h.Null? || h.id < nextHandle
    }

    predicate AllIssued(m: map<string, Handle>)
      reads this`nextHandle
    {
      forall k :: k in m ==> Issued(m[k])
    }

    /** Every stored handle came from FMOD, so a newly created one is never already
        stored; every event name has both a description and an instance entry. */
    ghost predicate Valid()
      reads this`nextHandle, this`soundCache, this`channelMap, this`soundBanks
      reads this`eventDescriptions, this`eventInstances
    {
      && AllIssued(soundCache)
      && AllIssued(channelMap)
      && AllIssued(soundBanks)
      && AllIssued(eventDescriptions)
      && AllIssued(eventInstances)
      && eventDescriptions.Keys == eventInstances.Keys
    }

    /** Whether some registry stores `h`. */
    ghost predicate Stored(h: Handle)
      reads this
    {
      || h in soundCache.Values
      || h in channelMap.Values
      || h in soundBanks.Values
      || h in eventDescriptions.Values
      || h in eventInstances.Values
    }

    /** A handle FMOD has not handed out yet is in no registry. */
    lemma UnissuedNotStored(h: Handle)
      requires Valid()
      requires !Issued(h)
      ensures !Stored(h)
    {
    }

    constructor (distanceFactor: real)
      ensures Valid()
      ensures this.distanceFactor == distanceFactor
      ensures soundCache == map[] && channelMap == map[] && soundBanks == map[]
      ensures eventDescriptions == map[] && eventInstances == map[]
      ensures listenerPos == Vec3(0.0, 0.0, -1.0 * distanceFactor)
      ensures forward == Vec3(0.0, 0.0, 1.0)
      ensures up == Vec3(0.0, 1.0, 0.0)
      ensures !muted
      ensures nextHandle == 0 && calls == []
    {
      this.distanceFactor := distanceFactor;
      soundCache, channelMap, soundBanks := map[], map[], map[];
      eventDescriptions, eventInstances := map[], map[];
      listenerPos := Vec3(0.0, 0.0, -1.0 * distanceFactor);
      forward := Vec3(0.0, 0.0, 1.0);
      up := Vec3(0.0, 1.0, 0.0);
      muted := false;
      nextHandle, calls := 0, [];
    }

    /** FMOD creating an object: the handle is one no registry holds. */
    method NewHandle() returns (h: Handle)
      requires Valid()
      modifies this`nextHandle
      ensures Valid()
      ensures h == Ref(old(nextHandle)) && nextHandle == old(nextHandle) + 1
      ensures !Stored(h)
    {
      UnissuedNotStored(Ref(nextHandle));
      h := Ref(nextHandle);
      nextHandle := nextHandle + 1;
    }

    /** An FMOD create call that may fail: on success a fresh handle is handed out,
        on failure the pointer stays Null and no handle is used up. */
    method Create(succeeded: bool) returns (h: Handle)
      requires Valid()
      modifies this`nextHandle
      ensures Valid()
      ensures h == CreatedHandle(succeeded, old(nextHandle))
      ensures nextHandle == old(nextHandle) + (if succeeded then 1 else 0)
      ensures !Stored(Ref(old(nextHandle)))
    {
      if succeeded {
        h := NewHandle();
      } else {
        UnissuedNotStored(Ref(nextHandle));
        h := Null;
      }
    }

    method SoundIsCached(filepath: string) returns (cached: bool)
      ensures cached <==> filepath in soundCache
    {
      cached := StdMap.Count(soundCache, filepath) > 0;
    }

    /** operator[] on the cache: a missing path is inserted with Null. */
    method GetSound(filepath: string) returns (sound: Handle)
      requires Valid()
      modifies this`soundCache
      ensures Valid()
      ensures soundCache == StdMap.Insert(old(soundCache), filepath, Null)
      ensures sound == soundCache[filepath]
      ensures filepath in old(soundCache) ==> soundCache == old(soundCache) && sound == old(soundCache)[filepath]
    {
      var r := StdMap.Subscript(soundCache, filepath, Null);
      soundCache, sound := r.0, r.1;
    }

    /** Creates a 2D sound and caches it under `filepath`, unless the path is cached
        already, in which case nothing changes. `created` is whether FMOD's
        createSound succeeded: a failed sound is cached as Null all the same, so
        later loads of the path are skipped. */
    method LoadSoundFile(filepath: string, loop: bool, created: bool)
      requires Valid()
      modifies this`soundCache, this`nextHandle, this`calls
      ensures Valid()
      ensures filepath in soundCache
      ensures soundCache == StdMap.Insert(old(soundCache), filepath, CreatedHandle(created, old(nextHandle)))
      ensures filepath in old(soundCache) ==> nextHandle == old(nextHandle) && calls == old(calls)
      ensures filepath !in old(soundCache) ==>
                var sound := CreatedHandle(created, old(nextHandle));
                && nextHandle == old(nextHandle) + (if created then 1 else 0)
                && calls == old(calls) + [CreateSound(filepath, Mode2D, sound), SetLoopMode(sound, loop)]
    {
      var cached := SoundIsCached(filepath);
      if !cached {
        var sound := Create(created);
        calls := calls + [CreateSound(filepath, Mode2D, sound)];
        calls := calls + [SetLoopMode(sound, loop)];
        soundCache := StdMap.Insert(soundCache, filepath, sound);
      }
    }

    /** Starts a cached sound on a new, unpaused channel. The channel is not recorded
        anywhere; an uncached path changes nothing. A sound cached as Null (its
        creation failed) makes playSound fail, and the channel stays Null. */
    method PlaySoundFile(filepath: string)
      requires Valid()
      modifies this`soundCache, this`nextHandle, this`calls
      ensures Valid()
      ensures soundCache == old(soundCache)
      ensures filepath !in soundCache ==> nextHandle == old(nextHandle) && calls == old(calls)
      ensures filepath in soundCache ==>
                var playable := soundCache[filepath] != Null;
                && nextHandle == old(nextHandle) + (if playable then 1 else 0)
                && calls == old(calls) + [PlaySound(soundCache[filepath], false, CreatedHandle(playable, old(nextHandle)))]
    {
      var cached := SoundIsCached(filepath);
      if cached {
        var sound := GetSound(filepath);
        var channel := Create(sound != Null);
        calls := calls + [PlaySound(sound, false, channel)];
      }
    }

    /** Creates a 3D sound with scaled min/max distances and caches it under
        `filepath`, unless the path is cached already (by either loader). `created`
        is whether FMOD's createSound succeeded: a failed sound is cached as Null. */
    method Load3DSoundFile(filepath: string, loop: bool, created: bool)
      requires Valid()
      modifies this`soundCache, this`nextHandle, this`calls
      ensures Valid()
      ensures filepath in soundCache
      ensures soundCache == StdMap.Insert(old(soundCache), filepath, CreatedHandle(created, old(nextHandle)))
      ensures filepath in old(soundCache) ==> nextHandle == old(nextHandle) && calls == old(calls)
      ensures filepath !in old(soundCache) ==>
                var sound := CreatedHandle(created, old(nextHandle));
                && nextHandle == old(nextHandle) + (if created then 1 else 0)
                && calls == old(calls) + [CreateSound(filepath, Mode3D, sound),
                                          Set3DMinMaxDistance(sound, MinDistance3D * distanceFactor, MaxDistance3D * distanceFactor),
                                          SetLoopMode(sound, loop)]
    {
      var cached := SoundIsCached(filepath);
      if !cached {
        var sound := Create(created);
        calls := calls + [CreateSound(filepath, Mode3D, sound)];
        calls := calls + [Set3DMinMaxDistance(sound, MinDistance3D * distanceFactor, MaxDistance3D * distanceFactor)];
        calls := calls + [SetLoopMode(sound, loop)];
        soundCache := StdMap.Insert(soundCache, filepath, sound);
      }
    }

    /** Starts a cached sound on a new channel: paused, positioned (x scaled, y and z
        not) with zero velocity, then unpaused. The channel is not recorded anywhere;
        an uncached path changes nothing. A sound cached as Null makes playSound fail;
        the two channel calls that follow are made all the same, on a Null channel. */
    method Play3DSoundFile(filepath: string, x: real, y: real, z: real)
      requires Valid()
      modifies this`soundCache, this`nextHandle, this`calls
      ensures Valid()
      ensures soundCache == old(soundCache)
      ensures filepath !in soundCache ==> nextHandle == old(nextHandle) && calls == old(calls)
      ensures filepath in soundCache ==>
                var playable := soundCache[filepath] != Null;
                var channel := CreatedHandle(playable, old(nextHandle));
                && nextHandle == old(nextHandle) + (if playable then 1 else 0)
                && calls == old(calls) + [PlaySound(soundCache[filepath], true, channel),
                                          Set3DAttributes(channel, Play3DPosition(x, y, z, distanceFactor), Origin),
                                          SetPaused(channel, false)]
    {
      var cached := SoundIsCached(filepath);
      if cached {
        var position := Play3DPosition(x, y, z, distanceFactor);
        var velocity := Origin;
        var sound := GetSound(filepath);
        var channel := Create(sound != Null);
        calls := calls + [PlaySound(sound, true, channel)];
        calls := calls + [Set3DAttributes(channel, position, velocity)];
        calls := calls + [SetPaused(channel, false)];
      }
    }

    /** Moves the channel recorded for `filepath` to the scaled position, with zero
        velocity; a path with no recorded channel changes nothing. */
    method Update3DSoundPosition(filepath: string, x: real, y: real, z: real)
      requires Valid()
      modifies this`calls
      ensures Valid()
      ensures filepath !in channelMap ==> calls == old(calls)
      ensures filepath in channelMap ==>
                calls == old(calls) + [Set3DAttributes(channelMap[filepath], Update3DPosition(x, y, z, distanceFactor), Origin)]
    {
      if StdMap.Count(channelMap, filepath) > 0 {
        // the key is present, so operator[] inserts nothing
        var channel := StdMap.Subscript(channelMap, filepath, Null).1;
        var position := Update3DPosition(x, y, z, distanceFactor);
        var velocity := Origin;
        calls := calls + [Set3DAttributes(channel, position, velocity)];
      }
    }

    /** Stores the listener pose and pushes it to FMOD. The position is kept as given;
        the forward and up vectors are kept with their x and y components swapped. */
    method Set3DListenerPosition(posX: real, posY: real, posZ: real,
                                 forwardX: real, forwardY: real, forwardZ: real,
                                 upX: real, upY: real, upZ: real)
      requires Valid()
      modifies this`listenerPos, this`forward, this`up, this`calls
      ensures Valid()
      ensures listenerPos == Vec3(posX, posY, posZ)
      ensures forward == Vec3(forwardY, forwardX, forwardZ)
      ensures up == Vec3(upY, upX, upZ)
      ensures calls == old(calls) + [Set3DListenerAttributes(0, listenerPos, forward, up)]
    {
      listenerPos := Vec3(posX, posY, posZ);
      forward := Vec3(forwardY, forwardX, forwardZ);
      up := Vec3(upY, upX, upZ);
      calls := calls + [Set3DListenerAttributes(0, listenerPos, forward, up)];
    }

    /** Loads a bank file and records it under `filepath`; the bank file is loaded
        again on a repeat call, but the first bank stays recorded. `loaded` is
        whether FMOD's loadBankFile succeeded: a failed bank is recorded as Null. */
    method LoadFmodStudioBank(filepath: string, loaded: bool)
      requires Valid()
      modifies this`soundBanks, this`nextHandle, this`calls
      ensures Valid()
      ensures filepath in soundBanks
      ensures nextHandle == old(nextHandle) + (if loaded then 1 else 0)
      ensures calls == old(calls) + [LoadBankFile(filepath, CreatedHandle(loaded, old(nextHandle)))]
      ensures soundBanks == StdMap.Insert(old(soundBanks), filepath, CreatedHandle(loaded, old(nextHandle)))
    {
      var bank := Create(loaded);
      calls := calls + [LoadBankFile(filepath, bank)];
      soundBanks := StdMap.Insert(soundBanks, filepath, bank);
    }

    /** Looks up the event, creates an instance, applies the parameters to it in list
        order and records description and instance under `eventName`. A name already
        recorded keeps its first description and instance: the new instance is
        created and configured but stored nowhere. `found` is whether FMOD's getEvent
        found the event: when it did not, the description stays Null, so does the
        instance created from it, and both Nulls are recorded under the name. */
    method LoadFmodStudioEvent(eventName: string, paramsValues: seq<(string, real)> := [], found: bool := true)
      requires Valid()
      modifies this`eventInstances, this`eventDescriptions, this`nextHandle, this`calls
      ensures Valid()
      ensures eventName in eventDescriptions && eventName in eventInstances
      ensures
        var description := CreatedHandle(found, old(nextHandle));
        var instance := CreatedHandle(found, old(nextHandle) + 1);
        && nextHandle == old(nextHandle) + (if found then 2 else 0)
        && calls == old(calls) + [GetEvent(eventName, description), CreateInstance(description, instance)]
                               + ParamCalls(instance, paramsValues)
        && eventInstances == StdMap.Insert(old(eventInstances), eventName, instance)
        && eventDescriptions == StdMap.Insert(old(eventDescriptions), eventName, description)
      ensures eventName in old(eventInstances) ==>
                && eventInstances == old(eventInstances)
                && eventDescriptions == old(eventDescriptions)
                && (found ==> !Stored(Ref(old(nextHandle) + 1)))
    {
      var description, instance := GetEventInstance(eventName, found);
      ApplyParams(instance, paramsValues);
      eventInstances := StdMap.Insert(eventInstances, eventName, instance);
      eventDescriptions := StdMap.Insert(eventDescriptions, eventName, description);
    }

    /** The getEvent and createInstance calls of loadFMODStudioEvent. */
    method GetEventInstance(eventName: string, found: bool) returns (description: Handle, instance: Handle)
      requires Valid()
      modifies this`nextHandle, this`calls
      ensures Valid()
      ensures description == CreatedHandle(found, old(nextHandle))
      ensures instance == CreatedHandle(found, old(nextHandle) + 1)
      ensures nextHandle == old(nextHandle) + (if found then 2 else 0)
      ensures calls == old(calls) + [GetEvent(eventName, description), CreateInstance(description, instance)]
      ensures !Stored(Ref(old(nextHandle) + 1))
    {
      UnissuedNotStored(Ref(nextHandle + 1));
      description := Create(found);
      instance := Create(found);
      calls := calls + [GetEvent(eventName, description), CreateInstance(description, instance)];
    }

    /** The parameter loop of loadFMODStudioEvent: one setParameterByName per pair,
        in list order. */
    method ApplyParams(instance: Handle, paramsValues: seq<(string, real)>)
      requires Valid()
      modifies this`calls
      ensures Valid()
      ensures calls == old(calls) + ParamCalls(instance, paramsValues)
    {
      for i := 0 to |paramsValues|
        invariant calls == old(calls) + ParamCalls(instance, paramsValues[..i])
      {
        ParamCallsExtend(instance, paramsValues, i);
        calls := calls + [SetParameterByName(instance, paramsValues[i].0, paramsValues[i].1)];
      }
      assert paramsValues[..|paramsValues|] == paramsValues;
      assert unchanged(this`nextHandle, this`soundCache, this`channelMap, this`soundBanks,
                       this`eventDescriptions, this`eventInstances);
    }

    /** Sets a parameter of the instance recorded for `eventName`; an unknown name
        changes nothing. */
    method SetFmodEventParamValue(eventName: string, parameterName: string, value: real)
      requires Valid()
      modifies this`calls
      ensures Valid()
      ensures eventName !in eventInstances ==> calls == old(calls)
      ensures eventName in eventInstances ==>
                calls == old(calls) + [SetParameterByName(eventInstances[eventName], parameterName, value)]
    {
      if StdMap.Count(eventInstances, eventName) > 0 {
        calls := calls + [SetParameterByName(eventInstances[eventName], parameterName, value)];
      }
    }

    /** Starts the instance recorded for `eventName`. Both lookups use operator[]
        before the presence check, so an unknown name gets Null entries in both maps,
        the check then passes and start is called on the Null instance. */
    method PlayEvent(eventName: string, instanceIndex: int := 0)
      requires Valid()
      modifies this`eventDescriptions, this`eventInstances, this`calls
      ensures Valid()
      ensures eventDescriptions == StdMap.Insert(old(eventDescriptions), eventName, Null)
      ensures eventInstances == StdMap.Insert(old(eventInstances), eventName, Null)
      ensures eventName in eventDescriptions && eventName in eventInstances
      ensures calls == old(calls) + [StartInstance(eventInstances[eventName])]
      ensures eventName !in old(eventInstances) ==>
                eventDescriptions[eventName] == Null && eventInstances[eventName] == Null
    {
      // printEventInfo only queries the description it is handed
      eventDescriptions := StdMap.Subscript(eventDescriptions, eventName, Null).0;
      eventInstances := StdMap.Subscript(eventInstances, eventName, Null).0;
      if StdMap.Count(eventInstances, eventName) > 0 {
        var eventInstance := eventInstances[eventName];
        calls := calls + [StartInstance(eventInstance)];
      }
    }

    /** Stops the instance recorded for `eventName`, letting it fade out; an unknown
        name changes nothing. */
    method StopEvent(eventName: string, instanceIndex: int := 0)
      requires Valid()
      modifies this`calls
      ensures Valid()
      ensures eventName !in eventInstances ==> calls == old(calls)
      ensures eventName in eventInstances ==>
                calls == old(calls) + [StopInstance(eventInstances[eventName], true)]
    {
      if StdMap.Count(eventInstances, eventName) > 0 {
        calls := calls + [StopInstance(eventInstances[eventName], true)];
      }
    }

    /** Whether a looping sound is playing: its key has a recorded channel. */
    method SoundIsPlaying(soundInfo: SoundInfo) returns (playing: bool)
      ensures playing <==> soundInfo.uniqueKey in channelMap
    {
      playing := StdMap.Count(channelMap, soundInfo.uniqueKey) > 0;
    }

    /** Stops a looping sound and forgets its channel, if it is playing; otherwise
        nothing changes. */
    method StopSound(soundInfo: SoundInfo)
      requires Valid()
      modifies this`channelMap, this`calls
      ensures Valid()
      ensures soundInfo.uniqueKey !in old(channelMap) ==> channelMap == old(channelMap) && calls == old(calls)
      ensures soundInfo.uniqueKey in old(channelMap) ==>
                && channelMap == old(channelMap) - {soundInfo.uniqueKey}
                && calls == old(calls) + [StopChannel(old(channelMap)[soundInfo.uniqueKey])]
    {
      var key := soundInfo.uniqueKey;
      if StdMap.Count(channelMap, key) > 0 {
        calls := calls + [StopChannel(channelMap[key])];
        channelMap := channelMap - {key};
      }
    }

    /** Changes the volume of a playing loop: with FMOD's default fade below
        MinCustomFadeSamples, otherwise with a ramp of the requested length. `clock`
        and `currentVolume` are what FMOD reports for the channel. A sound that is
        not playing changes nothing. */
    method UpdateSoundLoopVolume(soundInfo: SoundInfo, newVolume: real, fadeSampleLength: nat := 0,
                                 clock: nat, currentVolume: real)
      requires Valid()
      modifies this`calls
      ensures Valid()
      ensures soundInfo.uniqueKey !in channelMap ==> calls == old(calls)
      ensures soundInfo.uniqueKey in channelMap ==>
                calls == old(calls) + FadeCalls(channelMap[soundInfo.uniqueKey], newVolume, fadeSampleLength, clock, currentVolume)
    {
      var key := soundInfo.uniqueKey;
      if StdMap.Count(channelMap, key) > 0 {
        calls := calls + FadeCalls(channelMap[key], newVolume, fadeSampleLength, clock, currentVolume);
      }
    }

    /** Length of a loaded sound in milliseconds, as FMOD reports it
        (`reportedLength`); 0 for a sound that has not been loaded. */
    method GetSoundLengthInMs(soundInfo: SoundInfo, reportedLength: nat) returns (ms: nat)
      ensures soundInfo.uniqueKey !in soundCache ==> ms == 0
      ensures soundInfo.uniqueKey in soundCache ==> ms == reportedLength
    {
      var loaded := SoundIsCached(soundInfo.uniqueKey);
      ms := if loaded then reportedLength else 0;
    }

    method MuteAllSounds()
      requires Valid()
      modifies this`muted, this`calls
      ensures Valid()
      ensures muted
      ensures calls == old(calls) + [SetMasterMute(true)]
    {
      muted := true;
      calls := calls + [SetMasterMute(true)];
    }

    method UnmuteAllSound()
      requires Valid()
      modifies this`muted, this`calls
      ensures Valid()
      ensures !muted
      ensures calls == old(calls) + [SetMasterMute(false)]
    {
      muted := false;
      calls := calls + [SetMasterMute(false)];
    }

    method IsMuted() returns (m: bool)
      ensures m == muted
    {
      m := muted;
    }
  }
}

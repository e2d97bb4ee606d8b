/**
  The part of FMOD that the audio engine talks to, seen from the engine's side.

  Every FMOD object the engine holds (Sound*, Channel*, Bank*, EventDescription*,
  EventInstance*) is a Handle. FMOD's own work (decoding, mixing, spatialisation)
  is not modelled: each state-changing call the engine makes is recorded as a Call,
  in the order it is made, and each call that creates an object hands out a fresh
  handle.
 */
module Fmod {

  /** An FMOD object pointer. Null is the value std::map::operator[] stores for a
      key it had to insert. */
  datatype Handle = Null | Ref(id: nat)

  /** FMOD_VECTOR, with reals for floats: rounding is not modelled. */
  datatype Vec3 = Vec3(x: real, y: real, z: real)

  const Origin: Vec3 := Vec3(0.0, 0.0, 0.0)

  /** The FMOD_2D / FMOD_3D mode flag a sound is created with. */
  datatype Dimension = Mode2D | Mode3D

  /** A state-changing FMOD call, with the handle it created or acted on. */
  datatype Call =
    | CreateSound(path: string, dimension: Dimension, sound: Handle)
    | SetLoopMode(sound: Handle, loop: bool)
    | Set3DMinMaxDistance(sound: Handle, minDistance: real, maxDistance: real)
    | PlaySound(sound: Handle, paused: bool, channel: Handle)
    | Set3DAttributes(channel: Handle, position: Vec3, velocity: Vec3)
    | SetPaused(channel: Handle, paused: bool)
    | SetVolume(channel: Handle, volume: real)
    | AddFadePoint(channel: Handle, clock: nat, volume: real)
    | StopChannel(channel: Handle)
      // set3DListenerAttributes; the velocity pointer is always null, so FMOD keeps its own
    | Set3DListenerAttributes(listener: nat, position: Vec3, forward: Vec3, up: Vec3)
    | SetMasterMute(mute: bool)
    | LoadBankFile(path: string, bank: Handle)
    | GetEvent(path: string, description: Handle)
    | CreateInstance(description: Handle, instance: Handle)
    | SetParameterByName(instance: Handle, name: string, value: real)
    | StartInstance(instance: Handle)
    | StopInstance(instance: Handle, allowFadeout: bool)
}

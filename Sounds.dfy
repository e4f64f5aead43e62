/** The sound mixer: six looping sounds, each with a play flag and a volume
    percentage, a master volume and a mute switch. The audio elements are
    represented only by the set of ids that have one; playing and pausing
    them is left out. */
module Sounds {
  import opened Common

  datatype Sound = Sound(id: string, name: string, isPlaying: bool, volume: int)

  const SoundIds := ["rain", "ocean", "forest", "fireplace", "whitenoise", "cafe"]
  const SoundNames := ["Rain", "Ocean Waves", "Forest", "Fireplace", "White Noise", "Coffee Shop"]

  predicate IsPlaying(s: Sound) {
    s.isPlaying
  }

  /** `playingCount`: how many sounds play; 0 exactly when none does. */
  function PlayingCount(sounds: seq<Sound>): (n: nat)
    ensures n <= |sounds|
    ensures n == 0 <==> forall k :: 0 <= k < |sounds| ==> !sounds[k].isPlaying
  {
    NoneIffZero(sounds);
    Count(sounds, IsPlaying)
  }

  /** The volume given to an audio element: 0 when muted, else the product of the two percentages. */
  function EffectiveVolume(volume: int, master: int, muted: bool): (v: real)
    requires 0 <= volume <= 100 && 0 <= master <= 100
    ensures 0.0 <= v <= 1.0
    ensures muted ==> v == 0.0
    ensures !muted && volume == 100 && master == 100 ==> v == 1.0
    ensures !muted ==> v * 10000.0 == (volume * master) as real
  {
    if muted then 0.0
    else
      var a, b := volume as real / 100.0, master as real / 100.0;
      assert 0.0 <= a <= 1.0 && 0.0 <= b <= 1.0;
      assert a * b <= 1.0 * b;
      a * b
  }

  // ------------------------------------------------------------- the list, value by value

  function ToggleOne(s: Sound, id: string): Sound {
    if s.id == id then s.(isPlaying := !s.isPlaying) else s
  }

  function SetVolumeOne(s: Sound, id: string, volume: int): Sound {
    if s.id == id then s.(volume := volume) else s
  }

  function StopOne(s: Sound): Sound {
    s.(isPlaying := false)
  }

  /** The `map` in `toggleSound`: only the sound with that id flips. */
  function Toggled(sounds: seq<Sound>, id: string): (r: seq<Sound>)
    ensures |r| == |sounds|
    ensures forall k :: 0 <= k < |r| ==> r[k] == ToggleOne(sounds[k], id)
  {
    seq(|sounds|, k requires 0 <= k < |sounds| => ToggleOne(sounds[k], id))
  }

  /** The `map` in `updateSoundVolume`. */
  function WithVolume(sounds: seq<Sound>, id: string, volume: int): (r: seq<Sound>)
    ensures |r| == |sounds|
    ensures forall k :: 0 <= k < |r| ==> r[k] == SetVolumeOne(sounds[k], id, volume)
  {
    seq(|sounds|, k requires 0 <= k < |sounds| => SetVolumeOne(sounds[k], id, volume))
  }

  /** The `map` in `stopAllSounds`. */
  function Stopped(sounds: seq<Sound>): (r: seq<Sound>)
    ensures |r| == |sounds|
    ensures forall k :: 0 <= k < |r| ==> r[k] == StopOne(sounds[k])
  {
    seq(|sounds|, k requires 0 <= k < |sounds| => StopOne(sounds[k]))
  }

  /** After stopping everything nothing plays, and every volume is as it was. */
  lemma StopAllSilences(sounds: seq<Sound>)
    ensures PlayingCount(Stopped(sounds)) == 0
    ensures forall k :: 0 <= k < |sounds| ==> Stopped(sounds)[k].volume == sounds[k].volume
  {
  }

  lemma {:induction false} NoneIffZero(s: seq<Sound>)
    ensures Count(s, IsPlaying) == 0 <==> forall k :: 0 <= k < |s| ==> !s[k].isPlaying
  {
    if s != [] {
      NoneIffZero(s[1..]);
      assert forall k :: 1 <= k < |s| ==> s[k] == s[1..][k - 1];
    }
  }

  /** With unique ids, toggling a present sound changes the number playing by exactly one. */
  lemma ToggleChangesCountByOne(sounds: seq<Sound>, k: nat)
    requires k < |sounds|
    requires forall i, j :: 0 <= i < j < |sounds| ==> sounds[i].id != sounds[j].id
    ensures PlayingCount(Toggled(sounds, sounds[k].id))
            == PlayingCount(sounds) + (if sounds[k].isPlaying then -1 else 1)
  {
    var id := sounds[k].id;
    var r := Toggled(sounds, id);
    assert r == sounds[k := ToggleOne(sounds[k], id)];
    CountUpdate(sounds, IsPlaying, k, ToggleOne(sounds[k], id));
  }

  /** Toggling the same sound twice restores the list. */
  lemma ToggleTwiceRestores(sounds: seq<Sound>, id: string)
    ensures Toggled(Toggled(sounds, id), id) == sounds
  {
  }

  // ------------------------------------------------------------- the mixer

  class Mixer {
    /** The sound list and the audio elements are set up once, at mount;
        afterwards only the list's elements change. */
    const sounds: array<Sound>
    const audio: set<string>
    var masterVolume: int
    var isMuted: bool

    /** The six sounds keep their ids in order; volumes are slider positions. */
    ghost predicate Valid()
      reads this, sounds
    {
      && sounds.Length == |SoundIds|
      && (forall k :: 0 <= k < sounds.Length ==> sounds[k].id == SoundIds[k])
      && (forall k :: 0 <= k < sounds.Length ==> 0 <= sounds[k].volume <= 100)
      && 0 <= masterVolume <= 100
    }

    /** The initial list: six sounds, none playing, each at 50; master 70, not muted.
        Mounting gives every sound an audio element. */
    constructor ()
      ensures Valid() && fresh(sounds) && audio == set k | 0 <= k < |SoundIds| :: SoundIds[k]
      ensures forall k :: 0 <= k < sounds.Length ==> sounds[k] == Sound(SoundIds[k], SoundNames[k], false, 50)
      ensures PlayingCount(sounds[..]) == 0
      ensures masterVolume == 70 && !isMuted
    {
      sounds := new Sound[|SoundIds|](k requires 0 <= k < |SoundIds| => Sound(SoundIds[k], SoundNames[k], false, 50));
      audio := set k | 0 <= k < |SoundIds| :: SoundIds[k];
      masterVolume := 70;
      isMuted := false;
    }

    /** `toggleSound`: a no-op without an audio element; otherwise only that sound flips. */
    method ToggleSound(id: string)
      requires Valid()
      modifies sounds
      ensures Valid()
      ensures id !in audio ==> sounds[..] == old(sounds[..])
      ensures id in audio ==> sounds[..] == Toggled(old(sounds[..]), id)
    {
      if id !in audio {
        return;
      }
      for i := 0 to sounds.Length
        invariant forall k :: 0 <= k < i ==> sounds[k] == ToggleOne(old(sounds[k]), id)
        invariant forall k :: i <= k < sounds.Length ==> sounds[k] == old(sounds[k])
      {
        if sounds[i].id == id {
          sounds[i] := sounds[i].(isPlaying := !sounds[i].isPlaying);
        }
      }
    }

    /** `updateSoundVolume`: only that sound's volume changes. */
    method UpdateSoundVolume(id: string, volume: int)
      requires Valid() && 0 <= volume <= 100
      modifies sounds
      ensures Valid() && sounds[..] == WithVolume(old(sounds[..]), id, volume)
    {
      for i := 0 to sounds.Length
        invariant forall k :: 0 <= k < i ==> sounds[k] == SetVolumeOne(old(sounds[k]), id, volume)
        invariant forall k :: i <= k < sounds.Length ==> sounds[k] == old(sounds[k])
      {
        if sounds[i].id == id {
          sounds[i] := sounds[i].(volume := volume);
        }
      }
    }

    /** `stopAllSounds`. */
    method StopAllSounds()
      requires Valid()
      modifies sounds
      ensures Valid() && sounds[..] == Stopped(old(sounds[..]))
    {
      for i := 0 to sounds.Length
        invariant forall k :: 0 <= k < i ==> sounds[k] == StopOne(old(sounds[k]))
        invariant forall k :: i <= k < sounds.Length ==> sounds[k] == old(sounds[k])
      {
        sounds[i] := sounds[i].(isPlaying := false);
      }
    }

    /** The master slider. */
    method SetMasterVolume(volume: int)
      requires Valid() && 0 <= volume <= 100
      modifies this
      ensures Valid() && masterVolume == volume && isMuted == old(isMuted)
      ensures sounds[..] == old(sounds[..])
    {
      masterVolume := volume;
    }

    /** The mute button. */
    method ToggleMute()
      requires Valid()
      modifies this
      ensures Valid() && isMuted == !old(isMuted) && masterVolume == old(masterVolume)
      ensures sounds[..] == old(sounds[..])
    {
      isMuted := !isMuted;
    }
  }
}

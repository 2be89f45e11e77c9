/** The sound engine of sound_engine.py: a cache from path to loaded mixer
    sound, filled by play_sound and stop_sound, and the six cue functions
    built from them (three looped background sounds, three one-shot chimes).
    The mixer is seen only through the calls it receives. */
module Sound {
  import opened Util

  /** A loaded mixer sound: the file it was loaded from and the volume set on
      it, None while set_volume was never called. */
  datatype Sound = Sound(file: string, volume: Option<real>)

  /** What the mixer is asked to do, naming the sound by its cache key. */
  datatype MixerCall =
    | Load(file: string)
    | SetVolume(path: string, volume: real)
    | Play(path: string, loops: int)
    | Stop(path: string)

  // ------------------------------------------------------------ paths

  /** Python's str.replace with one-character arguments: every a becomes b. */
  function Replace(s: string, a: char, b: char): string
  {
    seq(|s|, i requires 0 <= i < |s| => if s[i] == a then b else s[i])
  }

  /** No a is left, no character appears that was not there or is not b,
      and a string without a is returned unchanged. */
  lemma ReplaceCorrect(s: string, a: char, b: char)
    ensures a != b ==> a !in Replace(s, a, b)
    ensures forall c :: c in Replace(s, a, b) ==> c == b || c in s
    ensures a !in s ==> Replace(s, a, b) == s
  {
  }

  /** The file a path is loaded from: every '/' and every '\' becomes the
      platform separator sep, and every other character stays. */
  function Canonical(path: string, sep: char): (c: string)
    ensures |c| == |path|
    ensures forall i :: 0 <= i < |path| ==>
              c[i] == if path[i] == '/' || path[i] == '\\' then sep else path[i]
  {
    Replace(Replace(path, '/', sep), '\\', sep)
  }

  // ------------------------------------------------------------ cache operations

  /** The cache after play_sound: a missing path is loaded and given the
      requested volume; a cached sound is left exactly as it was. */
  function AfterPlay(lib: map<string, Sound>, path: string, volume: real, sep: char): map<string, Sound>
  {
    if path in lib then lib else lib[path := Sound(Canonical(path, sep), Some(volume))]
  }

  /** The mixer calls of play_sound. */
  function PlayCalls(lib: map<string, Sound>, path: string, loops: int, volume: real, sep: char): seq<MixerCall>
  {
    (if path in lib then [] else [Load(Canonical(path, sep)), SetVolume(path, volume)]) + [Play(path, loops)]
  }

  /** The cache after stop_sound: a missing path is loaded, without a volume. */
  function AfterStop(lib: map<string, Sound>, path: string, sep: char): map<string, Sound>
  {
    if path in lib then lib else lib[path := Sound(Canonical(path, sep), None)]
  }

  /** The mixer calls of stop_sound. */
  function StopCalls(lib: map<string, Sound>, path: string, sep: char): seq<MixerCall>
  {
    (if path in lib then [] else [Load(Canonical(path, sep))]) + [Stop(path)]
  }

  /** play_sound caches the path under the path itself (not its canonical
      form), never replaces or reloads a cached sound, and sets the volume
      exactly when it loads the sound. */
  lemma PlayCaches(lib: map<string, Sound>, path: string, loops: int, volume: real, sep: char)
    ensures AfterPlay(lib, path, volume, sep).Keys == lib.Keys + {path}
    ensures forall p :: p in lib ==> AfterPlay(lib, path, volume, sep)[p] == lib[p]
    ensures path !in lib ==> AfterPlay(lib, path, volume, sep)[path] == Sound(Canonical(path, sep), Some(volume))
    ensures (exists v :: SetVolume(path, v) in PlayCalls(lib, path, loops, volume, sep)) <==> path !in lib
    ensures (Load(Canonical(path, sep)) in PlayCalls(lib, path, loops, volume, sep)) <==> path !in lib
  {
    var calls := PlayCalls(lib, path, loops, volume, sep);
    if path !in lib {
      assert calls[1] == SetVolume(path, volume);
    } else {
      assert calls == [Play(path, loops)];
    }
  }

  /** stop_sound caches the path, never replaces a cached sound, and never
      sets a volume: a sound it loads has none. */
  lemma StopCaches(lib: map<string, Sound>, path: string, sep: char)
    ensures AfterStop(lib, path, sep).Keys == lib.Keys + {path}
    ensures forall p :: p in lib ==> AfterStop(lib, path, sep)[p] == lib[p]
    ensures path !in lib ==> AfterStop(lib, path, sep)[path] == Sound(Canonical(path, sep), None)
    ensures forall call :: call in StopCalls(lib, path, sep) ==> !call.SetVolume?
  {
  }

  // ------------------------------------------------------------ cues

  const SirenSound: string := "../sounds/siren.wav"
  const PlayingSound: string := "../sounds/playing.wav"
  const ChargingSound: string := "../sounds/charging.wav"
  const OffRampSound: string := "../sounds/off_ramp.wav"
  const LevelUnlockedSound: string := "../sounds/level_unlocked.wav"
  const LevelCompleteSound: string := "../sounds/level_complete.wav"

  /** The sounds the three background cues loop. */
  const LoopedSounds: seq<string> := [SirenSound, PlayingSound, ChargingSound]

  /** The six cue functions of the engine. */
  datatype Cue = Charging | Danger | Playing | OffRamp | LevelUnlocked | LevelComplete

  predicate Looped(c: Cue)
  {
    c.Charging? || c.Danger? || c.Playing?
  }

  function CuePath(c: Cue): string
  {
    match c
    case Charging => ChargingSound
    case Danger => SirenSound
    case Playing => PlayingSound
    case OffRamp => OffRampSound
    case LevelUnlocked => LevelUnlockedSound
    case LevelComplete => LevelCompleteSound
  }

  function CueVolume(c: Cue): real
  {
    match c
    case Danger => 0.6
    case OffRamp => 0.2
    case _ => 1.0
  }

  /** A background sound loops forever (-1); a chime plays once (0). */
  function CueLoops(c: Cue): int
  {
    if Looped(c) then -1 else 0
  }

  /** The cache after stopping the three looped sounds, in order. */
  function AfterStopLooped(lib: map<string, Sound>, sep: char): map<string, Sound>
  {
    AfterStop(AfterStop(AfterStop(lib, SirenSound, sep), PlayingSound, sep), ChargingSound, sep)
  }

  function StopLoopedCalls(lib: map<string, Sound>, sep: char): seq<MixerCall>
  {
    var lib1 := AfterStop(lib, SirenSound, sep);
    var lib2 := AfterStop(lib1, PlayingSound, sep);
    StopCalls(lib, SirenSound, sep) + StopCalls(lib1, PlayingSound, sep) + StopCalls(lib2, ChargingSound, sep)
  }

  /** The cache before a cue's play_sound. */
  function BeforePlay(lib: map<string, Sound>, c: Cue, sep: char): map<string, Sound>
  {
    if Looped(c) then AfterStopLooped(lib, sep) else lib
  }

  /** The cache after a cue. */
  function AfterCue(lib: map<string, Sound>, c: Cue, sep: char): map<string, Sound>
  {
    AfterPlay(BeforePlay(lib, c, sep), CuePath(c), CueVolume(c), sep)
  }

  /** The mixer calls of a cue. */
  function CueCalls(lib: map<string, Sound>, c: Cue, sep: char): seq<MixerCall>
  {
    (if Looped(c) then StopLoopedCalls(lib, sep) else [])
      + PlayCalls(BeforePlay(lib, c, sep), CuePath(c), CueLoops(c), CueVolume(c), sep)
  }

  /** Cues one after another. */
  function AfterCues(lib: map<string, Sound>, cs: seq<Cue>, sep: char): map<string, Sound>
    decreases |cs|
  {
    if cs == [] then lib else AfterCues(AfterCue(lib, cs[0], sep), cs[1..], sep)
  }

  predicate IsPlay(call: MixerCall) { call.Play? }

  predicate IsStop(call: MixerCall) { call.Stop? }

  /** The calls of a log that satisfy p, in order. */
  function Select(calls: seq<MixerCall>, p: MixerCall -> bool): seq<MixerCall>
    decreases |calls|
  {
    if calls == [] then [] else (if p(calls[0]) then [calls[0]] else []) + Select(calls[1..], p)
  }

  lemma {:induction false} SelectAppend(a: seq<MixerCall>, b: seq<MixerCall>, p: MixerCall -> bool)
    ensures Select(a + b, p) == Select(a, p) + Select(b, p)
    decreases |a|
  {
    if a == [] {
      assert a + b == b;
    } else {
      assert (a + b)[0] == a[0];
      assert (a + b)[1..] == a[1..] + b;
      SelectAppend(a[1..], b, p);
      var head := if p(a[0]) then [a[0]] else [];
      assert head + (Select(a[1..], p) + Select(b, p)) == head + Select(a[1..], p) + Select(b, p);
    }
  }

  /** The stop and play calls of one stop_sound and of one play_sound. */
  lemma StopPlaySelect(lib: map<string, Sound>, path: string, loops: int, volume: real, sep: char)
    ensures Select(StopCalls(lib, path, sep), IsStop) == [Stop(path)]
    ensures Select(StopCalls(lib, path, sep), IsPlay) == []
    ensures Select(PlayCalls(lib, path, loops, volume, sep), IsStop) == []
    ensures Select(PlayCalls(lib, path, loops, volume, sep), IsPlay) == [Play(path, loops)]
  {
    var pre := if path in lib then [] else [Load(Canonical(path, sep))];
    var preV := if path in lib then [] else [Load(Canonical(path, sep)), SetVolume(path, volume)];
    SelectAppend(pre, [Stop(path)], IsStop);
    SelectAppend(pre, [Stop(path)], IsPlay);
    SelectAppend(preV, [Play(path, loops)], IsStop);
    SelectAppend(preV, [Play(path, loops)], IsPlay);
    if path !in lib {
      assert Select(pre, IsStop) == [] && Select(pre, IsPlay) == [] by {
        assert pre[1..] == [];
      }
      assert Select(preV, IsStop) == [] && Select(preV, IsPlay) == [] by {
        assert preV[1..][1..] == [];
      }
    }
    assert [Stop(path)][1..] == [] && [Play(path, loops)][1..] == [];
  }

  /** Selecting from three logs that each contribute at most one call. */
  lemma SelectThree(s0: seq<MixerCall>, s1: seq<MixerCall>, s2: seq<MixerCall>, p: MixerCall -> bool,
                    r0: seq<MixerCall>, r1: seq<MixerCall>, r2: seq<MixerCall>)
    requires Select(s0, p) == r0 && Select(s1, p) == r1 && Select(s2, p) == r2
    ensures Select(s0 + s1 + s2, p) == r0 + r1 + r2
  {
    SelectAppend(s0, s1, p);
    SelectAppend(s0 + s1, s2, p);
  }

  /** Stopping the looped sounds stops each of them once, in order, and
      plays nothing. */
  lemma StopLoopedSelect(lib: map<string, Sound>, sep: char)
    ensures Select(StopLoopedCalls(lib, sep), IsStop) == [Stop(SirenSound), Stop(PlayingSound), Stop(ChargingSound)]
    ensures Select(StopLoopedCalls(lib, sep), IsPlay) == []
  {
    var lib1 := AfterStop(lib, SirenSound, sep);
    var lib2 := AfterStop(lib1, PlayingSound, sep);
    var s0 := StopCalls(lib, SirenSound, sep);
    var s1 := StopCalls(lib1, PlayingSound, sep);
    var s2 := StopCalls(lib2, ChargingSound, sep);
    StopPlaySelect(lib, SirenSound, 0, 0.0, sep);
    StopPlaySelect(lib1, PlayingSound, 0, 0.0, sep);
    StopPlaySelect(lib2, ChargingSound, 0, 0.0, sep);
    SelectThree(s0, s1, s2, IsStop, [Stop(SirenSound)], [Stop(PlayingSound)], [Stop(ChargingSound)]);
    SelectThree(s0, s1, s2, IsPlay, [], [], []);
    assert [Stop(SirenSound)] + [Stop(PlayingSound)] + [Stop(ChargingSound)]
        == [Stop(SirenSound), Stop(PlayingSound), Stop(ChargingSound)];
  }

  /** A background cue stops all three looped sounds, in order, and then
      starts exactly its own, looping forever; a chime stops nothing and
      plays its sound once. */
  lemma CueStopsAndPlays(lib: map<string, Sound>, c: Cue, sep: char)
    ensures Select(CueCalls(lib, c, sep), IsStop)
            == if Looped(c) then [Stop(SirenSound), Stop(PlayingSound), Stop(ChargingSound)] else []
    ensures Select(CueCalls(lib, c, sep), IsPlay) == [Play(CuePath(c), CueLoops(c))]
    ensures Looped(c) <==> CueLoops(c) == -1
  {
    var before := BeforePlay(lib, c, sep);
    var stops := if Looped(c) then StopLoopedCalls(lib, sep) else [];
    var play := PlayCalls(before, CuePath(c), CueLoops(c), CueVolume(c), sep);
    StopPlaySelect(before, CuePath(c), CueLoops(c), CueVolume(c), sep);
    SelectAppend(stops, play, IsStop);
    SelectAppend(stops, play, IsPlay);
    if Looped(c) {
      StopLoopedSelect(lib, sep);
    }
  }

  /** Stopping the looped sounds caches all three and sets no volume: each of
      them keeps the volume it had, or has none when stop_sound loaded it. */
  lemma StopLoopedKeepsVolumes(lib: map<string, Sound>, sep: char)
    ensures forall p :: p in LoopedSounds ==> p in AfterStopLooped(lib, sep)
    ensures forall p :: p in LoopedSounds ==>
              AfterStopLooped(lib, sep)[p].volume == if p in lib then lib[p].volume else None
    ensures forall p :: p in lib ==> p in AfterStopLooped(lib, sep) && AfterStopLooped(lib, sep)[p] == lib[p]
    ensures forall p :: p in AfterStopLooped(lib, sep) ==> p in lib || p in LoopedSounds
    ensures forall call :: call in StopLoopedCalls(lib, sep) ==> !call.SetVolume?
  {
    var lib1 := AfterStop(lib, SirenSound, sep);
    var lib2 := AfterStop(lib1, PlayingSound, sep);
    StopCaches(lib, SirenSound, sep);
    StopCaches(lib1, PlayingSound, sep);
    StopCaches(lib2, ChargingSound, sep);
    forall p | p in LoopedSounds
      ensures AfterStopLooped(lib, sep)[p].volume == if p in lib then lib[p].volume else None
    {
      assert p == SirenSound || p == PlayingSound || p == ChargingSound;
    }
  }

  /** A background cue never applies its volume: by the time its play_sound
      runs, its sound is already cached (stop_sound loaded it, without a
      volume, if nothing had), so neither the cache nor the mixer calls
      carry the cue's volume. */
  lemma LoopedCueNeverSetsVolume(lib: map<string, Sound>, c: Cue, sep: char)
    requires Looped(c)
    ensures AfterCue(lib, c, sep)[CuePath(c)].volume
            == if CuePath(c) in lib then lib[CuePath(c)].volume else None
    ensures forall call :: call in CueCalls(lib, c, sep) ==> !call.SetVolume?
  {
    StopLoopedKeepsVolumes(lib, sep);
    var before := AfterStopLooped(lib, sep);
    assert CuePath(c) in LoopedSounds;
    assert CuePath(c) in before;
    PlayCaches(before, CuePath(c), CueLoops(c), CueVolume(c), sep);
  }

  /** No looped sound in the cache has a volume. */
  predicate LoopsQuiet(lib: map<string, Sound>)
  {
    forall p :: p in lib && p in LoopedSounds ==> lib[p].volume.None?
  }

  /** Every cue keeps the looped sounds without a volume: a background cue
      sets none, and a chime sets only its own sound's, which never loops. */
  lemma CueKeepsLoopsQuiet(lib: map<string, Sound>, c: Cue, sep: char)
    requires LoopsQuiet(lib)
    ensures LoopsQuiet(AfterCue(lib, c, sep))
  {
    var before := BeforePlay(lib, c, sep);
    StopLoopedKeepsVolumes(lib, sep);
    assert LoopsQuiet(before);
    PlayCaches(before, CuePath(c), CueLoops(c), CueVolume(c), sep);
    if !Looped(c) {
      assert CuePath(c) !in LoopedSounds;
    } else {
      assert CuePath(c) in before;
    }
  }

  /** Whatever cues run from the empty cache, the siren never plays at the
      0.6 volume danger asks for: its cached sound never has a volume. */
  lemma {:induction false} SirenVolumeNeverApplied(lib: map<string, Sound>, cs: seq<Cue>, sep: char)
    requires LoopsQuiet(lib)
    ensures LoopsQuiet(AfterCues(lib, cs, sep))
    ensures SirenSound in AfterCues(lib, cs, sep) ==> AfterCues(lib, cs, sep)[SirenSound].volume.None?
    decreases |cs|
  {
    if cs != [] {
      CueKeepsLoopsQuiet(lib, cs[0], sep);
      SirenVolumeNeverApplied(AfterCue(lib, cs[0], sep), cs[1..], sep);
    }
  }

  // ------------------------------------------------------------ the engine

  /** The module's sound library as an object: the cache, the platform
      separator, and the calls the mixer received. */
  class SoundEngine {
    var library: map<string, Sound>
    const sep: char
    ghost var calls: seq<MixerCall>

    /** The library starts empty. */
    constructor (sep: char)
      ensures library == map[] && this.sep == sep && calls == []
    {
      library := map[];
      this.sep := sep;
      calls := [];
    }

    method PlaySound(path: string, loops: int, volume: real)
      modifies this`library, this`calls
      ensures library == AfterPlay(old(library), path, volume, sep)
      ensures calls == old(calls) + PlayCalls(old(library), path, loops, volume, sep)
    {
      var sound: Option<Sound> := if path in library then Some(library[path]) else None;
      if sound == None {
        var canonicalizedPath := Canonical(path, sep);
        var loaded := Sound(canonicalizedPath, None);
        calls := calls + [Load(canonicalizedPath)];
        loaded := loaded.(volume := Some(volume));
        calls := calls + [SetVolume(path, volume)];
        library := library[path := loaded];
      }
      calls := calls + [Play(path, loops)];
    }

    method StopSound(path: string)
      modifies this`library, this`calls
      ensures library == AfterStop(old(library), path, sep)
      ensures calls == old(calls) + StopCalls(old(library), path, sep)
    {
      var sound: Option<Sound> := if path in library then Some(library[path]) else None;
      if sound == None {
        var canonicalizedPath := Canonical(path, sep);
        calls := calls + [Load(canonicalizedPath)];
        library := library[path := Sound(canonicalizedPath, None)];
      }
      calls := calls + [Stop(path)];
    }

    method StopLooped()
      modifies this`library, this`calls
      ensures library == AfterStopLooped(old(library), sep)
      ensures calls == old(calls) + StopLoopedCalls(old(library), sep)
    {
      StopSound(SirenSound);
      StopSound(PlayingSound);
      StopSound(ChargingSound);
    }

    method Charging()
      modifies this`library, this`calls
      ensures library == AfterCue(old(library), Cue.Charging, sep)
      ensures calls == old(calls) + CueCalls(old(library), Cue.Charging, sep)
    {
      StopLooped();
      PlaySound(ChargingSound, -1, 1.0);
    }

    method Danger()
      modifies this`library, this`calls
      ensures library == AfterCue(old(library), Cue.Danger, sep)
      ensures calls == old(calls) + CueCalls(old(library), Cue.Danger, sep)
    {
      StopLooped();
      PlaySound(SirenSound, -1, 0.6);
    }

    method Playing()
      modifies this`library, this`calls
      ensures library == AfterCue(old(library), Cue.Playing, sep)
      ensures calls == old(calls) + CueCalls(old(library), Cue.Playing, sep)
    {
      StopLooped();
      PlaySound(PlayingSound, -1, 1.0);
    }

    method OffRamp()
      modifies this`library, this`calls
      ensures library == AfterCue(old(library), Cue.OffRamp, sep)
      ensures calls == old(calls) + CueCalls(old(library), Cue.OffRamp, sep)
    {
      PlaySound(OffRampSound, 0, 0.2);
    }

    method LevelUnlocked()
      modifies this`library, this`calls
      ensures library == AfterCue(old(library), Cue.LevelUnlocked, sep)
      ensures calls == old(calls) + CueCalls(old(library), Cue.LevelUnlocked, sep)
    {
      PlaySound(LevelUnlockedSound, 0, 1.0);
    }

    method LevelComplete()
      modifies this`library, this`calls
      ensures library == AfterCue(old(library), Cue.LevelComplete, sep)
      ensures calls == old(calls) + CueCalls(old(library), Cue.LevelComplete, sep)
    {
      PlaySound(LevelCompleteSound, 0, 1.0);
    }
  }
}

/**
 * The audio manager: background music, one-shot effects, and the enemy's ambient loop. The loop
 * is a one-slot register: which clip array it plays and whether a loop task is running. A
 * running coroutine is the value of currentLoop; stopping it empties the slot. Waiting between
 * iterations is not modelled; one iteration is a method whose random draws are choices within
 * the engine's ranges.
 */
module Audio {
  import opened Wrappers

  class AudioClip {}

  /** An AudioSource: its music clip and flags, pitch, volume and the one-shots it has played. */
  class AudioSource {
    var clip: AudioClip?
    var loop: bool
    var playing: bool
    var pitch: real
    var volume: real
    var oneShots: seq<(AudioClip, real)>

    constructor ()
      ensures clip == null && !loop && !playing && pitch == 1.0 && volume == 1.0 && oneShots == []
    {
      clip, loop, playing := null, false, false;
      pitch, volume := 1.0, 1.0;
      oneShots := [];
    }

    method Stop()
      modifies this`playing
      ensures !playing
    {
      playing := false;
    }

    method Play()
      modifies this`playing
      ensures playing
    {
      playing := true;
    }

    /** PlayOneShot(clip, volumeScale) */
    method PlayOneShot(c: AudioClip, volumeScale: real)
      modifies this`oneShots
      ensures oneShots == old(oneShots) + [(c, volumeScale)]
    {
      oneShots := oneShots + [(c, volumeScale)];
    }
  }

  /** A running PlayRandomSFXCoroutine: where it plays, which clips, and its interval range. */
  datatype LoopTask = LoopTask(source: AudioSource?, clips: array<AudioClip>, minInterval: real, maxInterval: real)

  /** Random.Range over floats draws from the closed interval [lo, hi]. */
  predicate InRange(x: real, lo: real, hi: real) { lo <= x <= hi }

  const PatrolInterval: (real, real) := (3.0, 6.0)
  const ChaseInterval: (real, real) := (1.0, 3.0)
  const InvestigateInterval: (real, real) := (2.0, 5.0)

  /** The static AudioManager.I. */
  class AudioRegistry {
    var I: AudioManager?

    constructor ()
      ensures I == null
    {
      I := null;
    }
  }

  class AudioManager {
    const bgmSource: AudioSource?
    const sfxSource: AudioSource?
    const levelTheme: AudioClip?
    const bigPoo: AudioClip?
    const patrolClips: array<AudioClip>
    const chaseClips: array<AudioClip>
    const investigateClips: array<AudioClip>

    var currentClipArray: array?<AudioClip>
    var currentLoop: Option<LoopTask>
    /** Destroy(gameObject) was called on this duplicate. */
    var destroyed: bool
    /** DontDestroyOnLoad was called: the instance survives scene loads. */
    var persistent: bool

    /** A running loop plays the remembered clip array. */
    ghost predicate Valid()
      reads this
    {
      currentLoop.Some? ==> currentClipArray == currentLoop.value.clips
    }

    constructor (bgmSource: AudioSource?, sfxSource: AudioSource?, levelTheme: AudioClip?, bigPoo: AudioClip?,
                 patrolClips: array<AudioClip>, chaseClips: array<AudioClip>, investigateClips: array<AudioClip>)
      ensures this.bgmSource == bgmSource && this.sfxSource == sfxSource
      ensures this.levelTheme == levelTheme && this.bigPoo == bigPoo
      ensures this.patrolClips == patrolClips && this.chaseClips == chaseClips
      ensures this.investigateClips == investigateClips
      ensures currentClipArray == null && currentLoop == None && !destroyed && !persistent
      ensures Valid()
    {
      this.bgmSource := bgmSource;
      this.sfxSource := sfxSource;
      this.levelTheme := levelTheme;
      this.bigPoo := bigPoo;
      this.patrolClips := patrolClips;
      this.chaseClips := chaseClips;
      this.investigateClips := investigateClips;
      currentClipArray := null;
      currentLoop := None;
      destroyed := false;
      persistent := false;
    }

    /** The first manager to wake becomes I; every later one destroys itself. */
    method Awake(registry: AudioRegistry)
      modifies registry, this`destroyed, this`persistent
      ensures old(registry.I) != null ==> registry.I == old(registry.I) && destroyed && persistent == old(persistent)
      ensures old(registry.I) == null ==> registry.I == this && persistent && destroyed == old(destroyed)
    {
      if registry.I != null {
        destroyed := true;
        return;
      }
      registry.I := this;
      persistent := true;
    }

    /** Play clip as music; nothing happens without a clip or a music source. */
    method PlayBGM(clip: AudioClip?, loop: bool)
      modifies bgmSource
      ensures clip == null || bgmSource == null ==> bgmSource == null || unchanged(bgmSource)
      ensures clip != null && bgmSource != null ==>
        bgmSource.clip == clip && bgmSource.loop == loop && bgmSource.playing
        && bgmSource.pitch == old(bgmSource.pitch) && bgmSource.volume == old(bgmSource.volume)
        && bgmSource.oneShots == old(bgmSource.oneShots)
    {
      if clip == null || bgmSource == null {
        return;
      }
      bgmSource.Stop();
      bgmSource.clip := clip;
      bgmSource.loop := loop;
      bgmSource.Play();
    }

    /** Start: the level theme, looping. */
    method Start()
      modifies bgmSource
      ensures levelTheme == null || bgmSource == null ==> bgmSource == null || unchanged(bgmSource)
      ensures levelTheme != null && bgmSource != null ==>
        bgmSource.clip == levelTheme && bgmSource.loop && bgmSource.playing
        && bgmSource.pitch == old(bgmSource.pitch) && bgmSource.volume == old(bgmSource.volume)
        && bgmSource.oneShots == old(bgmSource.oneShots)
    {
      PlayBGM(levelTheme, true);
    }

    method StopBGM()
      modifies bgmSource
      ensures bgmSource != null ==>
        !bgmSource.playing && bgmSource.clip == old(bgmSource.clip) && bgmSource.oneShots == old(bgmSource.oneShots)
        && bgmSource.loop == old(bgmSource.loop) && bgmSource.pitch == old(bgmSource.pitch)
        && bgmSource.volume == old(bgmSource.volume)
    {
      if bgmSource != null {
        bgmSource.Stop();
      }
    }

    /** Play a one-shot effect; nothing happens without a clip or an effects source. */
    method PlaySFX(clip: AudioClip?, volume: real)
      modifies sfxSource
      ensures clip == null || sfxSource == null ==> sfxSource == null || unchanged(sfxSource)
      ensures clip != null && sfxSource != null ==>
        sfxSource.oneShots == old(sfxSource.oneShots) + [(clip, volume)]
        && sfxSource.playing == old(sfxSource.playing) && sfxSource.clip == old(sfxSource.clip)
        && sfxSource.loop == old(sfxSource.loop) && sfxSource.pitch == old(sfxSource.pitch)
        && sfxSource.volume == old(sfxSource.volume)
    {
      if clip == null || sfxSource == null {
        return;
      }
      sfxSource.PlayOneShot(clip, volume);
    }

    method PlayBigPoop()
      modifies sfxSource
      ensures bigPoo != null && sfxSource != null ==>
        sfxSource.oneShots == old(sfxSource.oneShots) + [(bigPoo, 1.0)]
        && sfxSource.playing == old(sfxSource.playing) && sfxSource.clip == old(sfxSource.clip)
        && sfxSource.loop == old(sfxSource.loop) && sfxSource.pitch == old(sfxSource.pitch)
        && sfxSource.volume == old(sfxSource.volume)
      ensures bigPoo == null || sfxSource == null ==> sfxSource == null || unchanged(sfxSource)
    {
      PlaySFX(bigPoo, 1.0);
    }

    /** Stop the running loop, if any; the remembered clip array stays. */
    method StopRandomSFX()
      requires Valid()
      modifies this`currentLoop
      ensures Valid()
      ensures currentLoop == None && currentClipArray == old(currentClipArray)
    {
      if currentLoop.Some? {
        currentLoop := None;
      }
    }

    /**
     * Keep the running loop if it already plays this clip array (compared by reference);
     * otherwise stop it and start a loop of clips on source.
     */
    method SwitchEnemyLoop(source: AudioSource?, clips: array<AudioClip>, minInterval: real, maxInterval: real)
      requires Valid()
      modifies this`currentClipArray, this`currentLoop
      ensures old(currentClipArray) == clips && old(currentLoop).Some? ==>
        currentClipArray == old(currentClipArray) && currentLoop == old(currentLoop)
      ensures !(old(currentClipArray) == clips && old(currentLoop).Some?) ==>
        currentClipArray == clips && currentLoop == Some(LoopTask(source, clips, minInterval, maxInterval))
      ensures Valid()
      ensures currentClipArray == clips && currentLoop.Some? && currentLoop.value.clips == clips
    {
      if currentClipArray == clips && currentLoop.Some? {
        return;
      }
      if currentLoop.Some? {
        currentLoop := None;
      }
      currentClipArray := clips;
      currentLoop := Some(LoopTask(source, clips, minInterval, maxInterval));
    }

    method PlayEnemyPatrolLoop(source: AudioSource?)
      requires Valid()
      modifies this`currentClipArray, this`currentLoop
      ensures Valid()
      ensures currentClipArray == patrolClips && currentLoop.Some? && currentLoop.value.clips == patrolClips
      ensures !(old(currentClipArray) == patrolClips && old(currentLoop).Some?) ==>
        currentLoop == Some(LoopTask(if source != null then source else sfxSource, patrolClips,
                                     PatrolInterval.0, PatrolInterval.1))
      ensures old(currentClipArray) == patrolClips && old(currentLoop).Some? ==> currentLoop == old(currentLoop)
    {
      SwitchEnemyLoop(if source != null then source else sfxSource, patrolClips, 3.0, 6.0);
    }

    method PlayEnemyChaseLoop(source: AudioSource?)
      requires Valid()
      modifies this`currentClipArray, this`currentLoop
      ensures Valid()
      ensures currentClipArray == chaseClips && currentLoop.Some? && currentLoop.value.clips == chaseClips
      ensures !(old(currentClipArray) == chaseClips && old(currentLoop).Some?) ==>
        currentLoop == Some(LoopTask(if source != null then source else sfxSource, chaseClips,
                                     ChaseInterval.0, ChaseInterval.1))
      ensures old(currentClipArray) == chaseClips && old(currentLoop).Some? ==> currentLoop == old(currentLoop)
    {
      SwitchEnemyLoop(if source != null then source else sfxSource, chaseClips, 1.0, 3.0);
    }

    method PlayEnemyInvestigateLoop(source: AudioSource?)
      requires Valid()
      modifies this`currentClipArray, this`currentLoop
      ensures Valid()
      ensures currentClipArray == investigateClips && currentLoop.Some? && currentLoop.value.clips == investigateClips
      ensures !(old(currentClipArray) == investigateClips && old(currentLoop).Some?) ==>
        currentLoop == Some(LoopTask(if source != null then source else sfxSource, investigateClips,
                                     InvestigateInterval.0, InvestigateInterval.1))
      ensures old(currentClipArray) == investigateClips && old(currentLoop).Some? ==> currentLoop == old(currentLoop)
    {
      SwitchEnemyLoop(if source != null then source else sfxSource, investigateClips, 2.0, 5.0);
    }

    /**
     * One iteration of the loop coroutine after its wait: if there are clips and a source,
     * play a randomly chosen clip at a random pitch in [0.9, 1.1] and volume in [0.7, 1].
     */
    method PlayRandomIteration(source: AudioSource?, clips: array<AudioClip>)
      modifies source
      ensures clips.Length == 0 && source != null ==> unchanged(source)
      ensures clips.Length > 0 && source != null ==>
        && 0.9 <= source.pitch <= 1.1 && 0.7 <= source.volume <= 1.0
        && (exists k :: 0 <= k < clips.Length && source.oneShots == old(source.oneShots) + [(clips[k], 1.0)])
        && source.clip == old(source.clip) && source.playing == old(source.playing)
        && source.loop == old(source.loop)
    {
      if clips.Length > 0 && source != null {
        var k :| 0 <= k < clips.Length;
        var clip := clips[k];
        assert InRange(1.0, 0.9, 1.1) && InRange(1.0, 0.7, 1.0);
        var pitch: real :| InRange(pitch, 0.9, 1.1);
        var volume: real :| InRange(volume, 0.7, 1.0);
        source.pitch := pitch;
        source.volume := volume;
        source.PlayOneShot(clip, 1.0);
        assert InRange(pitch, 0.9, 1.1) && InRange(volume, 0.7, 1.0);
      }
    }

    /**
     * One iteration of the running enemy loop: it plays a clip of the remembered clip array,
     * on the source the loop was started with.
     */
    method PlayLoopIteration()
      requires Valid() && currentLoop.Some?
      modifies currentLoop.value.source
      ensures var src := currentLoop.value.source;
        src != null && currentClipArray.Length == 0 ==> unchanged(src)
      ensures var src := currentLoop.value.source;
        src != null && currentClipArray.Length > 0 ==>
        && 0.9 <= src.pitch <= 1.1 && 0.7 <= src.volume <= 1.0
        && (exists k :: 0 <= k < currentClipArray.Length
              && src.oneShots == old(src.oneShots) + [(currentClipArray[k], 1.0)])
        && src.clip == old(src.clip) && src.playing == old(src.playing) && src.loop == old(src.loop)
    {
      PlayRandomIteration(currentLoop.value.source, currentLoop.value.clips);
    }

    /** One iteration of the older loop on the effects source, which checks only the clips. */
    method PlayRandomSfxIteration(clips: array<AudioClip>)
      requires clips.Length > 0 ==> sfxSource != null
      modifies sfxSource
      ensures clips.Length == 0 && sfxSource != null ==> unchanged(sfxSource)
      ensures clips.Length > 0 ==>
        && 0.9 <= sfxSource.pitch <= 1.1 && 0.7 <= sfxSource.volume <= 1.0
        && (exists k :: 0 <= k < clips.Length && sfxSource.oneShots == old(sfxSource.oneShots) + [(clips[k], 1.0)])
        && sfxSource.clip == old(sfxSource.clip) && sfxSource.playing == old(sfxSource.playing)
        && sfxSource.loop == old(sfxSource.loop)
    {
      PlayRandomIteration(sfxSource, clips);
    }
  }

  /** Asking twice in a row for the same category leaves the loop of the first request running. */
  method ChaseLoopTwice(manager: AudioManager, source: AudioSource?)
    requires manager.Valid()
    modifies manager`currentClipArray, manager`currentLoop
    ensures manager.Valid()
    ensures manager.currentClipArray == manager.chaseClips && manager.currentLoop.Some?
    ensures manager.currentLoop.value.clips == manager.chaseClips
    ensures old(manager.currentClipArray) == manager.chaseClips && old(manager.currentLoop).Some? ==>
      manager.currentLoop == old(manager.currentLoop)
    ensures !(old(manager.currentClipArray) == manager.chaseClips && old(manager.currentLoop).Some?) ==>
      manager.currentLoop == Some(LoopTask(if source != null then source else manager.sfxSource,
                                           manager.chaseClips, 1.0, 3.0))
  {
    manager.PlayEnemyChaseLoop(source);
    manager.PlayEnemyChaseLoop(source);
  }

  /** After a stop, asking for the same category starts a fresh loop on the remembered array. */
  method StopThenPatrol(manager: AudioManager, source: AudioSource?)
    requires manager.Valid()
    modifies manager`currentClipArray, manager`currentLoop
    ensures manager.currentClipArray == manager.patrolClips
    ensures manager.currentLoop == Some(LoopTask(if source != null then source else manager.sfxSource,
                                                 manager.patrolClips, 3.0, 6.0))
  {
    manager.StopRandomSFX();
    manager.PlayEnemyPatrolLoop(source);
  }
}

/**
 * `AudioManager`: a key-to-clip table of sound effects built once on start-up,
 * a fixed pool of effect voices used round-robin, and one background-music source.
 * Audio sources are modelled as the values of their settings; playback itself
 * is a counter of `Play` calls per source.
 */
module Audio {
  import opened Wrappers

  /** An imported sound asset, identified by its asset id. */
  datatype AudioClip = AudioClip(id: int)

  /** `NamedClip`: `key` and `clip` are None when the inspector field is null. */
  datatype NamedClip = NamedClip(key: Option<string>, clip: Option<AudioClip>, volume: real, spatial: bool)

  datatype Vector3 = Vector3(x: real, y: real, z: real)

  const Origin := Vector3(0.0, 0.0, 0.0)

  /** The settings of one `AudioSource`, and how often `Play` was called on it. */
  datatype Source = Source(clip: Option<AudioClip>, volume: real, spatialBlend: real, position: Vector3,
                           loop: bool, playing: bool, plays: nat)

  /** A voice as created on start-up: 2D, not looping, silent. */
  const FreshVoice := Source(None, 1.0, 0.0, Origin, false, false, 0)

  /** The background-music source created when none is assigned: 2D and looping. */
  const FreshBgm := Source(None, 1.0, 0.0, Origin, true, false, 0)

  /** An entry enters the table only with a non-empty key and a clip. */
  predicate Accepted(nc: NamedClip)
  {
    nc.key.Some? && nc.key.value != "" && nc.clip.Some?
  }

  /** Entry `nc` is an accepted entry for key `k`. */
  predicate Provides(nc: NamedClip, k: string)
  {
    Accepted(nc) && nc.key.value == k
  }

  /** Among the first `n` entries, `clips[i]` is the last accepted one for `k`. */
  predicate LastProvider(clips: seq<NamedClip>, n: int, i: int, k: string)
    requires n <= |clips|
  {
    0 <= i < n && Provides(clips[i], k) && forall j :: i < j < n ==> !Provides(clips[j], k)
  }

  /**
   * The index of the last accepted entry for `k` among the first `n` entries,
   * or -1 when there is none.
   */
  function LastIndex(clips: seq<NamedClip>, n: int, k: string): (r: int)
    requires 0 <= n <= |clips|
    ensures -1 <= r < n
    ensures r >= 0 ==> LastProvider(clips, n, r, k)
    ensures r == -1 <==> forall i :: 0 <= i < n ==> !Provides(clips[i], k)
    decreases n
  {
    if n == 0 then -1
    else if Provides(clips[n - 1], k) then n - 1
    else LastIndex(clips, n - 1, k)
  }

  /**
   * `m` is the table built from the first `n` entries: it maps exactly the keys of the
   * accepted ones, each to the last accepted entry with that key.
   */
  ghost predicate TableOf(m: map<string, NamedClip>, clips: seq<NamedClip>, n: int)
    requires 0 <= n <= |clips|
  {
    forall k :: (k in m <==> LastIndex(clips, n, k) >= 0) && (k in m ==> m[k] == clips[LastIndex(clips, n, k)])
  }

  /** `m` is the table built from all of `clips` (later entries overwrite earlier ones). */
  ghost predicate IsSfxMapOf(m: map<string, NamedClip>, clips: seq<NamedClip>)
  {
    TableOf(m, clips, |clips|)
  }

  /** The table start-up builds from the inspector list. */
  method BuildSfxMap(clips: seq<NamedClip>) returns (m: map<string, NamedClip>)
    ensures forall k :: k in m <==> exists i :: 0 <= i < |clips| && Provides(clips[i], k)
    ensures forall k :: k in m ==> exists i :: LastProvider(clips, |clips|, i, k) && m[k] == clips[i]
    ensures IsSfxMapOf(m, clips)
  {
    m := map[];
    var n := 0;
    while n < |clips|
      invariant 0 <= n <= |clips|
      invariant TableOf(m, clips, n)
    {
      var nc := clips[n];
      if Accepted(nc) {
        m := m[nc.key.value := nc];
      }
      n := n + 1;
    }
    forall k | k in m
      ensures exists i :: LastProvider(clips, |clips|, i, k) && m[k] == clips[i]
    {
      var i := LastIndex(clips, |clips|, k);
      assert LastProvider(clips, |clips|, i, k) && m[k] == clips[i];
    }
  }

  /** The table is determined by the list: two tables built from the same list are equal. */
  lemma SfxMapUnique(m1: map<string, NamedClip>, m2: map<string, NamedClip>, clips: seq<NamedClip>)
    requires IsSfxMapOf(m1, clips) && IsSfxMapOf(m2, clips)
    ensures m1 == m2
  {
    assert m1.Keys == m2.Keys;
  }

  /** `Mathf.Clamp01`. */
  function Clamp01(v: real): (r: real)
    ensures 0.0 <= r <= 1.0
    ensures 0.0 <= v <= 1.0 ==> r == v
    ensures v < 0.0 ==> r == 0.0
    ensures v > 1.0 ==> r == 1.0
  {
    if v < 0.0 then 0.0 else if v > 1.0 then 1.0 else v
  }

  /** The voice after the one at `i` in a pool of `n` voices, wrapping to the first. */
  function Advance(i: int, n: int): (j: int)
    requires 0 <= i < n
    ensures 0 <= j < n
    ensures j == (i + 1) % n
  {
    if i + 1 < n then i + 1 else 0
  }

  /** The voices `k` successive effects use, starting with voice `start`. */
  function Rotation(start: int, n: int, k: nat): seq<int>
    requires 0 <= start < n
    decreases k
  {
    if k == 0 then [] else [start] + Rotation(Advance(start, n), n, k - 1)
  }

  /**
   * Round-robin use of the pool: the `j`-th of `k` successive effects plays on voice
   * `start + j` modulo `n`, and up to `n` successive effects never share a voice.
   */
  lemma {:induction false} RotationCycles(start: int, n: int, k: nat)
    requires 0 <= start < n && k <= n
    ensures |Rotation(start, n, k)| == k
    ensures forall j :: 0 <= j < k ==>
      Rotation(start, n, k)[j] == if start + j < n then start + j else start + j - n
    ensures forall j1, j2 :: 0 <= j1 < j2 < k ==> Rotation(start, n, k)[j1] != Rotation(start, n, k)[j2]
    decreases k
  {
    if k > 0 {
      var next := Advance(start, n);
      RotationCycles(next, n, k - 1);
      var r := Rotation(start, n, k);
      var rest := Rotation(next, n, k - 1);
      assert r == [start] + rest;
      forall j | 0 <= j < k
        ensures r[j] == if start + j < n then start + j else start + j - n
      {
        if j > 0 {
          assert r[j] == rest[j - 1];
        }
      }
    }
  }

  /** With as many effects as voices, every voice is used exactly once. */
  lemma RotationCoversPool(start: int, n: int)
    requires 0 <= start < n
    ensures forall v :: 0 <= v < n ==> v in Rotation(start, n, n)
  {
    RotationCycles(start, n, n);
    var r := Rotation(start, n, n);
    forall v | 0 <= v < n
      ensures v in r
    {
      if v >= start {
        assert r[v - start] == v;
      } else {
        assert r[v - start + n] == v;
      }
    }
  }

  class AudioManager {
    const sfxClips: seq<NamedClip>
    const sfxMap: map<string, NamedClip>
    const sfxSources: array<Source>
    var nextVoice: int
    var bgmSource: Source

    /** The next voice is always in the pool (or 0 when the pool is empty). */
    ghost predicate Valid()
      reads this
    {
      && IsSfxMapOf(sfxMap, sfxClips)
      && 0 <= nextVoice
      && (nextVoice < sfxSources.Length || nextVoice == 0)
    }

    /**
     * `Awake`: builds the table, creates `sfxVoices` fresh 2D voices, and creates a
     * looping 2D music source unless one is assigned.
     */
    constructor (clips: seq<NamedClip>, sfxVoices: int, assignedBgm: Option<Source>)
      requires sfxVoices >= 0
      ensures Valid()
      ensures sfxClips == clips && fresh(sfxSources) && sfxSources.Length == sfxVoices
      ensures forall i :: 0 <= i < sfxSources.Length ==> sfxSources[i] == FreshVoice
      ensures nextVoice == 0
      ensures bgmSource == if assignedBgm.Some? then assignedBgm.value else FreshBgm
    {
      sfxClips := clips;
      var m := BuildSfxMap(clips);
      sfxMap := m;
      sfxSources := new Source[sfxVoices](_ => FreshVoice);
      nextVoice := 0;
      bgmSource := if assignedBgm.Some? then assignedBgm.value else FreshBgm;
    }

    /** Hands out the next voice and advances round-robin. */
    method NextSfxSource() returns (i: int)
      requires Valid() && sfxSources.Length > 0
      modifies this
      ensures i == old(nextVoice) && 0 <= i < sfxSources.Length
      ensures nextVoice == Advance(i, sfxSources.Length)
      ensures Valid() && bgmSource == old(bgmSource)
    {
      i := nextVoice;
      nextVoice := (nextVoice + 1) % sfxSources.Length;
    }

    /** The voice after `PlaySFX`/`PlaySFXAt` set it up for `nc` and started it. */
    function Played(s: Source, nc: NamedClip, position: Vector3, spatialBlend: real): Source
    {
      s.(clip := nc.clip, volume := nc.volume, spatialBlend := spatialBlend, position := position,
         playing := true, plays := s.plays + 1)
    }

    /**
     * Plays the effect for `key` in 2D on the next voice; an unknown key changes nothing.
     * A known key needs a non-empty pool.
     */
    method PlaySFX(key: string)
      requires Valid() && (key in sfxMap ==> sfxSources.Length > 0)
      modifies this, sfxSources
      ensures Valid() && bgmSource == old(bgmSource)
      ensures key !in sfxMap ==> nextVoice == old(nextVoice) && sfxSources[..] == old(sfxSources[..])
      ensures key in sfxMap ==>
        && nextVoice == Advance(old(nextVoice), sfxSources.Length)
        && sfxSources[..] == old(sfxSources[..])[old(nextVoice) := Played(old(sfxSources[nextVoice]), sfxMap[key], Origin, 0.0)]
    {
      if key in sfxMap {
        var nc := sfxMap[key];
        var i := NextSfxSource();
        sfxSources[i] := Played(sfxSources[i], nc, Origin, 0.0);
      }
    }

    /** Plays the effect for `key` at `worldPos`, in 3D exactly when its entry is spatial. */
    method PlaySFXAt(key: string, worldPos: Vector3)
      requires Valid() && (key in sfxMap ==> sfxSources.Length > 0)
      modifies this, sfxSources
      ensures Valid() && bgmSource == old(bgmSource)
      ensures key !in sfxMap ==> nextVoice == old(nextVoice) && sfxSources[..] == old(sfxSources[..])
      ensures key in sfxMap ==>
        && nextVoice == Advance(old(nextVoice), sfxSources.Length)
        && sfxSources[..] == old(sfxSources[..])[old(nextVoice) :=
             Played(old(sfxSources[nextVoice]), sfxMap[key], worldPos, if sfxMap[key].spatial then 1.0 else 0.0)]
    {
      if key in sfxMap {
        var nc := sfxMap[key];
        var i := NextSfxSource();
        sfxSources[i] := Played(sfxSources[i], nc, worldPos, if nc.spatial then 1.0 else 0.0);
      }
    }

    /** Restarts the music with `clip`, the volume clamped to [0, 1]; a missing clip changes nothing. */
    method PlayBGM(clip: Option<AudioClip>, volume: real, loop: bool)
      modifies this
      ensures nextVoice == old(nextVoice)
      ensures clip.None? ==> bgmSource == old(bgmSource)
      ensures clip.Some? ==>
        bgmSource == old(bgmSource).(clip := clip, volume := Clamp01(volume), loop := loop,
                                     playing := true, plays := old(bgmSource).plays + 1)
      ensures old(Valid()) ==> Valid()
    {
      if clip.None? {
        return;
      }
      bgmSource := bgmSource.(playing := false);
      bgmSource := bgmSource.(clip := clip, volume := Clamp01(volume), loop := loop);
      bgmSource := bgmSource.(playing := true, plays := bgmSource.plays + 1);
    }

    /** Stops the music and unloads its clip. */
    method StopBGM()
      modifies this
      ensures nextVoice == old(nextVoice)
      ensures bgmSource == old(bgmSource).(playing := false, clip := None)
      ensures old(Valid()) ==> Valid()
    {
      bgmSource := bgmSource.(playing := false, clip := None);
    }
  }
}

/** The mixer engine of `AudioMixer`: the parallel lists of tracks, audio
    elements and per-track gains, the master gain, the transport and the upload
    flow. Web Audio and HTMLAudio objects are plain records; the audio context is
    a present/absent flag. Times and volumes are exact reals. */
module Mixer {

  import opened Wrappers
  import opened Store

  /** Files larger than this many bytes are refused before any request. */
  const MaxUploadBytes: nat := 10000000

  /** The gain of a freshly created Web Audio gain node. */
  const UnityGain: real := 1.0

  /** Seconds moved by the fast-forward and rewind buttons. */
  const SkipSeconds: real := 10.0

  /** One `HTMLAudioElement`: its URL, its loop flag, its playback position, its
      reported duration and whether it is playing. */
  datatype Element = Element(src: string, loop: bool, currentTime: real, duration: real, playing: bool)

  /** `new Audio(url)` followed by `audio.loop = true`. */
  function NewElement(src: string): Element
  {
    Element(src, true, 0.0, 0.0, false)
  }

  /** Every element after `play()` (b) or `pause()` (not b) was called on it. */
  function WithPlaying(es: seq<Element>, b: bool): seq<Element>
  {
    seq(|es|, i requires 0 <= i < |es| => es[i].(playing := b))
  }

  /** Every element after `audio.currentTime = t`. */
  function WithTime(es: seq<Element>, t: real): seq<Element>
  {
    seq(|es|, i requires 0 <= i < |es| => es[i].(currentTime := t))
  }

  /** The elements `createAudioNodes` builds for `ts`, in track order. */
  function ElementsFor(apiUrl: string, ts: seq<Track>): seq<Element>
  {
    seq(|ts|, i requires 0 <= i < |ts| => NewElement(apiUrl + ts[i].file))
  }

  /** A slider value as a gain. */
  function GainOf(v: real): real
  {
    v / 100.0
  }

  /** `Math.min(currentTime + 10, duration)`: ten seconds on, but never past the end. */
  function ForwardTarget(t: real, d: real): (r: real)
    ensures r <= d && r <= t + SkipSeconds && (r == d || r == t + SkipSeconds)
    ensures 0.0 <= t <= d ==> t <= r <= d
  {
    if t + SkipSeconds < d then t + SkipSeconds else d
  }

  /** `Math.max(currentTime - 10, 0)`: ten seconds back, but never before the start. */
  function RewindTarget(t: real): (r: real)
    ensures r >= 0.0 && r >= t - SkipSeconds && (r == 0.0 || r == t - SkipSeconds)
    ensures t >= 0.0 ==> 0.0 <= r <= t
  {
    if t - SkipSeconds > 0.0 then t - SkipSeconds else 0.0
  }

  /** `(value / 100) * duration`: the slider value read as a percentage. It is
      not clamped: within [0, 100] it lands inside the song, above 100 past its end. */
  function SeekTarget(v: real, d: real): (r: real)
    ensures d >= 0.0 && 0.0 <= v <= 100.0 ==> 0.0 <= r <= d
    ensures v == 0.0 ==> r == 0.0
    ensures v == 100.0 ==> r == d
    ensures d > 0.0 && v > 100.0 ==> r > d
  {
    var f := v / 100.0;
    assert d - f * d == (1.0 - f) * d;
    assert d >= 0.0 && 0.0 <= f <= 1.0 ==> f * d >= 0.0 && (1.0 - f) * d >= 0.0;
    assert d > 0.0 && f > 1.0 ==> (f - 1.0) * d > 0.0;
    f * d
  }

  /** Ten seconds on and ten back return to the starting position when the
      song has ten seconds left. */
  lemma ForwardThenRewind(p: real, d: real)
    requires 0.0 <= p && p + SkipSeconds <= d
    ensures RewindTarget(ForwardTarget(p, d)) == p
  {
  }

  /** Ten seconds back and ten on return to the starting position when at
      least ten seconds have played. */
  lemma RewindThenForward(p: real, d: real)
    requires SkipSeconds <= p <= d
    ensures ForwardTarget(RewindTarget(p), d) == p
  {
  }

  /** The file picked in the upload input. */
  datatype FileInfo = FileInfo(name: string, size: nat)

  /** One descriptor of the service's `instruments` list. */
  datatype Instrument = Instrument(name: string, file: string, volume: real)

  /** How the `/analyze` request ended: `fetch` rejected, or a reply with its
      `ok` flag and its JSON body (None when the body does not parse). */
  datatype UploadResponse = NetworkFailure | Reply(ok: bool, body: Option<seq<Instrument>>)

  /** The reply from which a song is made. */
  predicate Accepted(r: UploadResponse)
  {
    r.Reply? && r.ok && r.body.Some?
  }

  /** The progress values `handleFileChange` sets, in order, once a file is past
      the size gate: 0 and 10 before the request, 80 when a reply arrives, 100
      when the song has been ingested. */
  function ProgressTrail(r: UploadResponse): (trail: seq<int>)
    ensures 2 <= |trail| <= 4 && trail[0] == 0 && trail[1] == 10
    ensures forall i, j :: 0 <= i < j < |trail| ==> trail[i] < trail[j]
    ensures forall i :: 0 <= i < |trail| ==> 0 <= trail[i] <= 100
    ensures (|trail| >= 3) == r.Reply?
    ensures (trail[|trail| - 1] == 100) == Accepted(r)
  {
    match r
    case NetworkFailure => [0, 10]
    case Reply(ok, body) => if ok && body.Some? then [0, 10, 80, 100] else [0, 10, 80]
  }

  /** `ts` are distinct track objects carrying the descriptors' fields, in order. */
  ghost predicate TracksFrom(ts: seq<Track>, ins: seq<Instrument>)
    reads set i | 0 <= i < |ts| :: ts[i]
  {
    |ts| == |ins| &&
    (forall i :: 0 <= i < |ts| ==>
       ts[i].name == ins[i].name && ts[i].file == ins[i].file && ts[i].volume == ins[i].volume) &&
    (forall i, j :: 0 <= i < j < |ts| ==> ts[i] != ts[j])
  }

  /** `response.json()` handing over `data.instruments`: one new track object
      per descriptor. */
  method MakeTracks(ins: seq<Instrument>) returns (ts: seq<Track>)
    ensures TracksFrom(ts, ins)
    ensures forall i :: 0 <= i < |ts| ==> fresh(ts[i])
  {
    ts := [];
    var i := 0;
    while i < |ins|
      invariant 0 <= i <= |ins| && |ts| == i
      invariant forall k :: 0 <= k < i ==> fresh(ts[k])
      invariant forall k :: 0 <= k < i ==>
                  ts[k].name == ins[k].name && ts[k].file == ins[k].file && ts[k].volume == ins[k].volume
      invariant forall k, j :: 0 <= k < j < i ==> ts[k] != ts[j]
    {
      var t := new Track(ins[i].name, ins[i].file, ins[i].volume);
      ts := ts + [t];
      i := i + 1;
    }
  }

  class AudioMixer {
    /** `VITE_TUNESPLIT_API_URL`. */
    const apiUrl: string
    /** The song store the component reads through `useAudioStore`. */
    const store: SongStore

    var tracks: seq<Track>
    /** `audioElementsRef.current`. */
    var elements: seq<Element>
    /** Elements dropped from `audioElementsRef` by a later `createAudioNodes`:
        nothing pauses or disconnects them, so they keep their state. */
    var orphans: seq<Element>
    /** The gains of `gainNodesRef.current`. */
    var gains: seq<real>
    /** `audioContextRef.current` and `masterGainNodeRef.current` exist. */
    var contextPresent: bool
    var masterGain: real
    var masterVolume: real
    var isPlaying: bool
    var currentTime: real
    var duration: real
    var currentSongId: Option<string>
    var progress: int
    var isProcessing: bool
    var isLoading: bool
    var file: Option<FileInfo>

    /** Elements and tracks are index-parallel, every element loops and points
        at its track's file; gains are either all there, index-parallel too,
        or absent (no context when the nodes were built). */
    ghost predicate Valid()
      reads this
    {
      |elements| == |tracks| &&
      (forall i :: 0 <= i < |elements| ==> elements[i].src == apiUrl + tracks[i].file && elements[i].loop) &&
      (gains == [] || |gains| == |elements|) &&
      (!contextPresent ==> gains == [])
    }

    /** The loaded song is the one the store finds under `currentSongId`, with
        the very same track objects. */
    ghost predicate ShowsStoredSong()
      reads this, store
    {
      currentSongId.Some? &&
      store.GetSong(currentSongId.value).Some? &&
      store.GetSong(currentSongId.value).value.tracks == tracks
    }

    /** The first render: the initial `useState` values and empty refs. */
    constructor (apiUrl: string, store: SongStore)
      ensures Valid()
      ensures this.apiUrl == apiUrl && this.store == store
      ensures tracks == [] && elements == [] && orphans == [] && gains == []
      ensures !contextPresent && masterVolume == 100.0 && !isPlaying
      ensures currentTime == 0.0 && duration == 0.0 && currentSongId == None
      ensures progress == 0 && !isProcessing && !isLoading && file == None
    {
      this.apiUrl := apiUrl;
      this.store := store;
      tracks, elements, orphans, gains := [], [], [], [];
      contextPresent, masterGain, masterVolume := false, UnityGain, 100.0;
      isPlaying, currentTime, duration, currentSongId := false, 0.0, 0.0, None;
      progress, isProcessing, isLoading, file := 0, false, false, None;
    }

    /** The mount effect: an audio context and a master gain node at unity,
        wired to the output. */
    method Mount()
      requires Valid()
      modifies this`contextPresent, this`masterGain
      ensures Valid() && contextPresent && masterGain == UnityGain
    {
      contextPresent, masterGain := true, UnityGain;
    }

    /** `updateProgress`: position and duration are sampled from the first
        element only. */
    method Poll()
      requires Valid()
      modifies this`currentTime, this`duration
      ensures Valid()
      ensures |elements| > 0 ==> currentTime == elements[0].currentTime && duration == elements[0].duration
      ensures |elements| == 0 ==> currentTime == old(currentTime) && duration == old(duration)
    {
      if |elements| > 0 {
        currentTime := elements[0].currentTime;
        duration := elements[0].duration;
      }
    }

    /** The browser's `loadedmetadata` step, which the component does not
        handle itself: every current element now reports duration `d`, and
        nothing else about it changes. */
    method MetadataLoaded(d: real)
      requires Valid()
      modifies this`elements
      ensures Valid()
      ensures elements == seq(|old(elements)|, i requires 0 <= i < |old(elements)| => old(elements)[i].(duration := d))
    {
      var es := elements;
      elements := seq(|es|, i requires 0 <= i < |es| => es[i].(duration := d));
    }

    /** Once the elements report a duration, the next poll shows it: the slider
        range comes from element 0. */
    method MetadataThenPoll(d: real)
      requires Valid() && |elements| > 0
      modifies this`elements, this`currentTime, this`duration
      ensures Valid()
      ensures duration == d && currentTime == old(elements)[0].currentTime
    {
      MetadataLoaded(d);
      Poll();
    }

    /** `createAudioNodes`: one looping element per track, in track order, and
        a unity gain node for each when the context exists. The previous
        elements are neither paused nor disconnected. */
    method CreateAudioNodes(ts: seq<Track>)
      modifies this`elements, this`gains, this`orphans
      ensures elements == ElementsFor(apiUrl, ts)
      ensures gains == if contextPresent then seq(|ts|, _ => UnityGain) else []
      ensures orphans == old(orphans) + old(elements)
    {
      orphans := orphans + elements;
      elements := ElementsFor(apiUrl, ts);
      gains := if contextPresent then seq(|elements|, _ => UnityGain) else [];
    }

    /** Calls `play()` (b) or `pause()` (not b) on every element. */
    method SetAllPlaying(b: bool)
      modifies this`elements
      ensures elements == WithPlaying(old(elements), b)
    {
      var i := 0;
      while i < |elements|
        invariant 0 <= i <= |elements| == |old(elements)|
        invariant forall j :: 0 <= j < i ==> elements[j] == old(elements[j]).(playing := b)
        invariant forall j :: i <= j < |elements| ==> elements[j] == old(elements[j])
      {
        elements := elements[i := elements[i].(playing := b)];
        i := i + 1;
      }
    }

    /** Sets `currentTime = t` on every element. */
    method SetAllTimes(t: real)
      modifies this`elements
      ensures elements == WithTime(old(elements), t)
    {
      var i := 0;
      while i < |elements|
        invariant 0 <= i <= |elements| == |old(elements)|
        invariant forall j :: 0 <= j < i ==> elements[j] == old(elements[j]).(currentTime := t)
        invariant forall j :: i <= j < |elements| ==> elements[j] == old(elements[j])
      {
        elements := elements[i := elements[i].(currentTime := t)];
        i := i + 1;
      }
    }

    /** `togglePlay`: pause every element when playing, play every element
        otherwise, and flip `isPlaying`. */
    method TogglePlay()
      requires Valid()
      modifies this`elements, this`isPlaying
      ensures Valid()
      ensures isPlaying == !old(isPlaying)
      ensures elements == WithPlaying(old(elements), !old(isPlaying))
    {
      SetAllPlaying(!isPlaying);
      isPlaying := !isPlaying;
    }

    /** `handleVolumeChange(index, [v])`: the track object's volume becomes v
        and, when gain node `index` exists, its gain becomes v / 100. The track
        object is the one the store's song holds, so the store sees the change.
        An index past the track list makes `newTracks[index].volume` throw a
        TypeError before anything is set: `threw` is then true and nothing
        changes. */
    method HandleVolumeChange(index: nat, v: real) returns (threw: bool)
      requires Valid()
      modifies tracks, this`gains
      ensures Valid()
      ensures threw <==> index >= |tracks|
      ensures threw ==> gains == old(gains) &&
                        forall j :: 0 <= j < |tracks| ==> tracks[j].volume == old(tracks[j].volume)
      ensures !threw ==> tracks[index].volume == v
      ensures !threw ==> forall j :: 0 <= j < |tracks| && tracks[j] != tracks[index] ==>
                           tracks[j].volume == old(tracks[j].volume)
      ensures !threw ==> gains == if index < |old(gains)| then old(gains)[index := GainOf(v)] else old(gains)
      ensures !threw && ShowsStoredSong() ==> store.GetSong(currentSongId.value).value.tracks[index].volume == v
    {
      if index >= |tracks| {
        return true;
      }
      threw := false;
      tracks[index].volume := v;
      if index < |gains| {
        gains := gains[index := GainOf(v)];
      }
    }

    /** `handleMasterVolumeChange([v])`: the master volume becomes v and, when
        the context exists, the master gain becomes v / 100. */
    method HandleMasterVolumeChange(v: real)
      requires Valid()
      modifies this`masterVolume, this`masterGain
      ensures Valid()
      ensures masterVolume == v
      ensures masterGain == if contextPresent then GainOf(v) else old(masterGain)
    {
      masterVolume := v;
      if contextPresent {
        masterGain := GainOf(v);
      }
    }

    /** `loadSong(id)`: stop playback and pause every element; when the store
        finds `id`, take that song's tracks and build fresh elements for them. */
    method LoadSong(id: string)
      requires Valid()
      modifies this`isLoading, this`isPlaying, this`elements, this`currentSongId,
               this`tracks, this`gains, this`orphans
      ensures Valid()
      ensures !isPlaying && !isLoading
      ensures match store.GetSong(id)
              case Some(s) =>
                currentSongId == Some(id) && tracks == s.tracks && ShowsStoredSong() &&
                elements == ElementsFor(apiUrl, s.tracks) &&
                gains == (if contextPresent then seq(|s.tracks|, _ => UnityGain) else []) &&
                orphans == old(orphans) + WithPlaying(old(elements), false)
              case None =>
                currentSongId == old(currentSongId) && tracks == old(tracks) &&
                elements == WithPlaying(old(elements), false) &&
                gains == old(gains) && orphans == old(orphans)
    {
      isLoading := true;
      isPlaying := false;
      SetAllPlaying(false);
      var song := store.GetSong(id);
      if song.Some? {
        currentSongId := Some(id);
        tracks := song.value.tracks;
        CreateAudioNodes(song.value.tracks);
      }
      isLoading := false;
    }

    /** `handleSeek([v])`: every element and the displayed time move to
        v percent of the known duration. */
    method HandleSeek(v: real)
      requires Valid()
      modifies this`elements, this`currentTime
      ensures Valid()
      ensures currentTime == SeekTarget(v, duration)
      ensures elements == WithTime(old(elements), currentTime)
    {
      var newTime := SeekTarget(v, duration);
      SetAllTimes(newTime);
      currentTime := newTime;
    }

    /** `handleFastForward`: every element and the displayed time move ten
        seconds on, capped at the duration. */
    method HandleFastForward()
      requires Valid()
      modifies this`elements, this`currentTime
      ensures Valid()
      ensures currentTime == ForwardTarget(old(currentTime), duration)
      ensures elements == WithTime(old(elements), currentTime)
    {
      var newTime := ForwardTarget(currentTime, duration);
      SetAllTimes(newTime);
      currentTime := newTime;
    }

    /** `handleRewind`: every element and the displayed time move ten seconds
        back, floored at zero. */
    method HandleRewind()
      requires Valid()
      modifies this`elements, this`currentTime
      ensures Valid()
      ensures currentTime == RewindTarget(old(currentTime))
      ensures elements == WithTime(old(elements), currentTime)
    {
      var newTime := RewindTarget(currentTime);
      SetAllTimes(newTime);
      currentTime := newTime;
    }

    /** The success path of `handleFileChange`: a new song made of fresh track
        objects is appended to the store, becomes the current song and gets its
        elements and gains. The old elements are not paused. */
    method IngestSong(name: string, ins: seq<Instrument>, newId: string)
      requires Valid()
      modifies this`currentSongId, this`tracks, this`elements, this`gains, this`orphans, store`songs
      ensures Valid()
      ensures store.songs == old(store.songs) + [Song(newId, name, tracks)]
      ensures currentSongId == Some(newId) && TracksFrom(tracks, ins)
      ensures forall i :: 0 <= i < |tracks| ==> fresh(tracks[i])
      ensures elements == ElementsFor(apiUrl, tracks) && orphans == old(orphans) + old(elements)
      ensures gains == if contextPresent then seq(|tracks|, _ => UnityGain) else []
      ensures !HasId(old(store.songs), newId) ==> ShowsStoredSong()
    {
      var ts := MakeTracks(ins);
      var song := Song(newId, name, ts);
      ghost var before := store.songs;
      store.AddSong(song);
      currentSongId := Some(newId);
      tracks := ts;
      CreateAudioNodes(ts);
      if !HasId(before, newId) {
        AddedSongIsFound(before, song);
      }
    }

    /** `handleFileChange`, with the request's outcome and the generated id as
        inputs. With no file, or one over the size limit, nothing changes.
        Otherwise the progress values of `ProgressTrail` are set in order; an
        accepted reply appends a new song to the store and makes it the
        current one (old elements are not paused); any other outcome leaves
        the store and the session as they were. Processing ends in every case. */
    method HandleFileChange(selected: Option<FileInfo>, response: UploadResponse, newId: string)
      returns (trail: seq<int>)
      requires Valid()
      modifies this`file, this`isProcessing, this`progress, this`currentSongId, this`tracks,
               this`elements, this`gains, this`orphans, store`songs
      ensures Valid()
      ensures selected.None? || selected.value.size > MaxUploadBytes ==>
                trail == [] && unchanged(this) && store.songs == old(store.songs)
      ensures selected.Some? && selected.value.size <= MaxUploadBytes ==>
                trail == ProgressTrail(response) && progress == trail[|trail| - 1] &&
                !isProcessing && file == selected
      ensures selected.Some? && selected.value.size <= MaxUploadBytes && Accepted(response) ==>
                store.songs == old(store.songs) + [Song(newId, selected.value.name, tracks)] &&
                currentSongId == Some(newId) &&
                TracksFrom(tracks, response.body.value) &&
                (forall i :: 0 <= i < |tracks| ==> fresh(tracks[i])) &&
                elements == ElementsFor(apiUrl, tracks) &&
                gains == (if contextPresent then seq(|tracks|, _ => UnityGain) else []) &&
                orphans == old(orphans) + old(elements) &&
                (!HasId(old(store.songs), newId) ==> ShowsStoredSong())
      ensures !(selected.Some? && selected.value.size <= MaxUploadBytes && Accepted(response)) ==>
                store.songs == old(store.songs) && currentSongId == old(currentSongId) &&
                tracks == old(tracks) && elements == old(elements) &&
                gains == old(gains) && orphans == old(orphans)
    {
      if selected.None? || selected.value.size > MaxUploadBytes {
        return [];
      }
      var f := selected.value;
      file := selected;
      isProcessing := true;
      progress := 0;
      trail := [0];
      progress := 10;
      trail := trail + [10];
      if response.Reply? {
        progress := 80;
        trail := trail + [80];
        if response.ok && response.body.Some? {
          IngestSong(f.name, response.body.value, newId);
          progress := 100;
          trail := trail + [100];
        }
      }
      isProcessing := false;
    }

    /** Pressing a track's mute button twice leaves the same state as pressing
        it once: volume 0 and, when the gain node exists, gain 0. */
    method MuteTrackTwice(index: nat)
      requires Valid() && index < |tracks|
      modifies tracks, this`gains
      ensures Valid()
      ensures tracks[index].volume == 0.0
      ensures forall j :: 0 <= j < |tracks| && tracks[j] != tracks[index] ==>
                tracks[j].volume == old(tracks[j].volume)
      ensures gains == if index < |old(gains)| then old(gains)[index := 0.0] else old(gains)
    {
      var first := HandleVolumeChange(index, 0.0);
      var second := HandleVolumeChange(index, 0.0);
    }

    /** Pressing the master mute button twice leaves the same state as pressing
        it once. */
    method MuteMasterTwice()
      requires Valid()
      modifies this`masterVolume, this`masterGain
      ensures Valid()
      ensures masterVolume == 0.0
      ensures masterGain == if contextPresent then 0.0 else old(masterGain)
    {
      HandleMasterVolumeChange(0.0);
      HandleMasterVolumeChange(0.0);
    }

    /** Fast-forward then rewind, with ten seconds of song left, puts every
        element and the display back where they were. */
    method ForwardThenRewindRestores()
      requires Valid() && 0.0 <= currentTime && currentTime + SkipSeconds <= duration
      modifies this`elements, this`currentTime
      ensures Valid()
      ensures currentTime == old(currentTime)
      ensures elements == WithTime(old(elements), old(currentTime))
    {
      HandleFastForward();
      HandleRewind();
      ForwardThenRewind(old(currentTime), duration);
      assert elements == WithTime(old(elements), currentTime);
    }

    /** An accepted upload while playing leaves the previous first element
        playing among the orphans, and `isPlaying` still set, while the new
        elements stay paused. */
    method UploadWhilePlaying(f: FileInfo, response: UploadResponse, newId: string)
      returns (trail: seq<int>)
      requires Valid() && isPlaying && |elements| > 0 && elements[0].playing
      requires f.size <= MaxUploadBytes && Accepted(response)
      modifies this`file, this`isProcessing, this`progress, this`currentSongId, this`tracks,
               this`elements, this`gains, this`orphans, store`songs
      ensures Valid()
      ensures isPlaying
      ensures |orphans| > |old(orphans)| && orphans[|old(orphans)|].playing
      ensures forall i :: 0 <= i < |elements| ==> !elements[i].playing
    {
      trail := HandleFileChange(Some(f), response, newId);
    }
  }
}

# TuneSplit mixer engine in Dafny

This project models the browser mixer of TuneSplit. The user uploads a song. A
remote service splits it into instrument stems. The page then plays the stems
together, with one volume control per stem and one master control.

The model covers two parts of the source.

- The **song store** (`useAudioStore`) is an append-only list of songs. Lookup
  by id returns the first match. In `store.dfy`, `Track` is a class, because the
  mixer changes a track's `volume` in place on the same object the stored song
  holds.
- The **mixer engine** (`AudioMixer`) is the class `Mixer.AudioMixer` in
  `mixer.dfy`. It has the component's state and refs as fields: the tracks,
  one record per audio element, the per-track gains, the master gain and
  volume, the transport fields and the upload fields. Each handler is a method
  whose contract gives the new state. The 1-second position poll is the method
  `Poll`. The upload handler takes the request's outcome and the generated id as
  inputs.
- **`formatTime`** is in `clock.dfy`. It is paired with `ParseClock`, which
  reads an `m:ss` clock back. The round trip shows that the display is the
  number of whole seconds elapsed, truncated and never rounded.

The main invariant is `AudioMixer.Valid`:

- elements and tracks are index-parallel;
- every element loops and points at `apiUrl + file`;
- gains are either absent or index-parallel too.

Elements that `createAudioNodes` drops are kept in the `orphans` field. The
source never pauses or disconnects them, so they keep playing if they were
playing. The model makes this visible.

Behaviour worth noting, as the code has it:

- `handleSeek` reads the slider value as a percentage of the duration, though
  the slider's scale is seconds (`max={duration}`), and it does not clamp.
  `SeekTarget` states this.
- New gain nodes start at unity gain. They do not start at the track's
  `volume / 100`. A track's slider can therefore show a volume that its gain
  does not have until the slider is moved.
- `handleFileChange` does not pause the old elements before replacing them, and
  it leaves `isPlaying` as it was. `UploadWhilePlaying` shows the result: the
  old audio keeps playing while the new elements stay paused.
- A track's volume is whatever the service sends for it. The code sets no
  default.
- The size limit is 10,000,000 bytes, and the check is strict (`>`).
- Playing starts every element from wherever it is; no handler sets the
  position to zero on play. A track whose audio fails to load is treated like
  every other track. No handler checks whether a load or upload has since been
  superseded.
- `handleVolumeChange` with an index past the track list throws a TypeError at
  `newTracks[index].volume` before it sets anything. `HandleVolumeChange`
  reports this as `threw` and changes nothing.

Assumptions about inputs:

- The API base URL is the constructor parameter `apiUrl`. The song store is
  passed in as a parameter too.
- The result of `fetch` and `response.json()` is the `UploadResponse` input.
- The id from `uuidv4` is the parameter `newId`.

## Model

| member | source | states |
|---|---|---|
| `Store.Track.constructor` | src/audioStore.ts:3-7 | a track object carries the given name, file and volume |
| `Store.FindSong` | src/audioStore.ts:24 | returns None exactly when no song has the id; otherwise it returns a stored song with that id, and no earlier song has it (first match) |
| `Store.FindAfterAppend` | src/audioStore.ts:23-24 | after an append, a lookup that already succeeded still returns the same song; a lookup that failed now finds the appended song exactly when its id matches |
| `Store.AddedSongIsFound` | src/audioStore.ts:23-24 | after adding a song whose id was absent, `getSong` of that id returns the song |
| `Store.DuplicateIsShadowed` | src/audioStore.ts:23-24 | there is no de-duplication: after adding a song whose id is already stored, lookups by that id still return the earlier song |
| `Store.SongStore.constructor` | src/audioStore.ts:22 | the store starts empty |
| `Store.SongStore.GetSong` | src/audioStore.ts:24 | a read-only lookup over the current songs: not found exactly when no stored song has the id, and otherwise a stored song with that id (the first one, by `FindSong`) |
| `Store.SongStore.AddSong` | src/audioStore.ts:23 | the new song list is the old list, in order, followed by the song; the length grows by exactly one |
| `Clock.IntString` | src/AudioMixer.tsx:210 | `toString` of an integer: a non-negative number reads back as itself; a negative one is '-' followed by digits that read back as its magnitude |
| `Clock.JsRemainder` | src/AudioMixer.tsx:209 | JavaScript's `%`: with a positive modulus the remainder has the dividend's sign and is smaller in magnitude than the modulus |
| `Clock.PadStart` | src/AudioMixer.tsx:210 | the result has length max(\|s\|, n), ends with s and is filled with the pad character before it |
| `Clock.SecondsOfMinute` | src/AudioMixer.tsx:208-209 | for t >= 0 the minute count is non-negative, `floor(t % 60)` is in [0, 60), and minutes·60 + seconds = floor(t) |
| `Clock.DecimalRoundTrip` | src/AudioMixer.tsx:210 | reading back the decimal numeral of n gives n |
| `Clock.PaddedSeconds` | src/AudioMixer.tsx:210 | a seconds value below 60, padded with '0' to two characters, is exactly its two digits |
| `Clock.ReadoutLayout` | src/AudioMixer.tsx:210 | with minutes >= 0 and seconds in [0, 60), the template is the decimal minutes, ':' and two second digits |
| `Clock.FormatTimeFields` | src/AudioMixer.tsx:207-211 | for t >= 0 the readout is floor(t/60) in decimal, ':' and floor(t mod 60) as exactly two digits below 60 |
| `Clock.FormatTime` | src/AudioMixer.tsx:207-211 | the readout `${minutes}:${seconds}` has at least four characters, and for t >= 0 the colon is followed by exactly two characters; its fields are given by `FormatTimeFields` and its meaning by `ClockRoundTrip` |
| `Clock.ParseClockLayout` | src/AudioMixer.tsx:210 | the `m:ss` reader inverts the readout layout |
| `Clock.ClockRoundTrip` | src/AudioMixer.tsx:207-211 | for t >= 0, reading `formatTime(t)` back gives floor(t) seconds: truncation, no rounding |
| `Clock.FormatTimeExamples` | src/AudioMixer.tsx:207-211 | 65 gives "1:05", 5 gives "0:05", 0 gives "0:00" |
| `Mixer.ForwardTarget` | src/AudioMixer.tsx:192 | the target is min(t + 10, duration); for t in [0, duration] it stays in [t, duration] |
| `Mixer.RewindTarget` | src/AudioMixer.tsx:200 | the target is max(t − 10, 0); for t >= 0 it stays in [0, t] |
| `Mixer.SeekTarget` | src/AudioMixer.tsx:184 | a slider value v in [0, 100] lands in [0, duration]; 0 and 100 give the ends; above 100 it goes past the end (no clamping) |
| `Mixer.ForwardThenRewind` | src/AudioMixer.tsx:191-205 | from p with p + 10 <= duration, fast-forward then rewind returns to p |
| `Mixer.RewindThenForward` | src/AudioMixer.tsx:191-205 | from p with 10 <= p <= duration, rewind then fast-forward returns to p |
| `Mixer.ProgressTrail` | src/AudioMixer.tsx:78-107 | past the size gate, progress goes 0, 10, then 80 once a reply arrives, then 100 only for an accepted reply; the values are strictly increasing and within [0, 100] |
| `Mixer.MakeTracks` | src/AudioMixer.tsx:95-99 | one fresh, distinct track object per instrument descriptor, in order, with its name, file and volume |
| `Mixer.AudioMixer.constructor` | src/AudioMixer.tsx:17-30 | the initial state: no tracks, elements, gains or context; master volume 100; not playing; position and duration 0; no current song; progress 0 |
| `Mixer.AudioMixer.Mount` | src/AudioMixer.tsx:41-45 | the mount effect creates the context and a master gain at unity |
| `Mixer.AudioMixer.Poll` | src/AudioMixer.tsx:53-60 | with at least one element, the displayed position and duration are copied from element 0 only; otherwise nothing changes |
| `Mixer.AudioMixer.MetadataLoaded` | src/AudioMixer.tsx:58 | the browser's metadata load, which the component only observes: every current element reports duration d, and nothing else about it changes |
| `Mixer.AudioMixer.MetadataThenPoll` | src/AudioMixer.tsx:53-60 | once the elements report a duration, the next poll shows it and element 0's position |
| `Mixer.AudioMixer.CreateAudioNodes` | src/AudioMixer.tsx:116-131 | one looping element per track, in track order, with src = API URL + file; unity gains of the same length when the context exists, none otherwise; the previous elements go to `orphans` unchanged (not paused) |
| `Mixer.AudioMixer.SetAllPlaying` | src/AudioMixer.tsx:139-141 | play or pause has been applied to every element and to nothing else |
| `Mixer.AudioMixer.SetAllTimes` | src/AudioMixer.tsx:185-187 | every element has the given position and nothing else has changed |
| `Mixer.AudioMixer.TogglePlay` | src/AudioMixer.tsx:133-144 | `isPlaying` flips; every element is paused if it was playing, otherwise every element is played |
| `Mixer.AudioMixer.HandleVolumeChange` | src/AudioMixer.tsx:146-155 | it throws exactly when `index` is past the track list, and then nothing changes; otherwise track `index` gets volume v, and gain `index` gets v/100 when it exists; the other tracks and gains are unchanged; the store's song, which shares the track object, sees the new volume |
| `Mixer.AudioMixer.HandleMasterVolumeChange` | src/AudioMixer.tsx:157-162 | only the master volume (set to v) and, when the context exists, the master gain (set to v/100) change |
| `Mixer.AudioMixer.LoadSong` | src/AudioMixer.tsx:164-181 | afterwards not playing and not loading, with every previous element paused; a song the store finds becomes current, with its tracks and fresh elements; when the id is not found, tracks and current song are unchanged |
| `Mixer.AudioMixer.HandleSeek` | src/AudioMixer.tsx:183-189 | every element and the displayed time get (v/100)·duration |
| `Mixer.AudioMixer.HandleFastForward` | src/AudioMixer.tsx:191-197 | every element and the displayed time get min(t + 10, duration) |
| `Mixer.AudioMixer.HandleRewind` | src/AudioMixer.tsx:199-205 | every element and the displayed time get max(t − 10, 0) |
| `Mixer.AudioMixer.IngestSong` | src/AudioMixer.tsx:95-106 | a new song with the generated id, the file's name and fresh tracks is appended to the store and becomes the current one with its elements; with a new id the store finds it under `currentSongId` |
| `Mixer.AudioMixer.HandleFileChange` | src/AudioMixer.tsx:67-114 | with no file or more than 10,000,000 bytes, nothing changes and no progress is set; otherwise the progress trail is set and processing ends; only an accepted reply adds a song, and any other outcome leaves the store, tracks, elements and current song unchanged |
| `Mixer.AudioMixer.MuteTrackTwice` | src/AudioMixer.tsx:320 | pressing a track's mute button twice leaves the same state as pressing it once |
| `Mixer.AudioMixer.MuteMasterTwice` | src/AudioMixer.tsx:305 | pressing the master mute button twice leaves the same state as pressing it once |
| `Mixer.AudioMixer.ForwardThenRewindRestores` | src/AudioMixer.tsx:191-205 | with ten seconds of song left, fast-forward then rewind puts the display and every element back at the starting position |
| `Mixer.AudioMixer.UploadWhilePlaying` | src/AudioMixer.tsx:102-106 | an accepted upload during playback leaves `isPlaying` set and the old first element still playing, while every new element is paused |

## Left out

- Rendering, sliders, buttons, `Math.round` labels, `alert` and `console` calls: these are display only.
- Web Audio and HTMLAudio internals are left out. This covers `createMediaElementSource`, connecting nodes, the `crossOrigin` attribute and `setValueAtTime`, which the model treats as an immediate assignment. Elements and gains are plain values, and the context is a flag.
- `togglePlay`'s `resume()` of a suspended context is left out, and so is a rejected `play()` promise. These are platform behaviour.
- A media element's own clock is not modelled: a playing element does not advance its position. A fresh element has duration 0, which stands for the browser's NaN before metadata loads. The browser setting the duration is the explicit step `MetadataLoaded`.
- Floating point is not modelled: times, volumes and gains are exact reals.
- `fetch`, `FormData`, `response.json()` and `uuidv4` are not modelled. Their outcomes are inputs. A body without an `instruments` list is not modelled, and descriptor fields other than name, file and volume are ignored.
- Asynchronous interleaving is left out. Each handler runs to completion. In the source, other handlers can run while the upload's `fetch` or `loadSong`'s `await` is pending, and a handler reads the state of the render it was created in.
- The unmount cleanup (`close()` of the context, `clearInterval`) is left out, and so is the development-mode double mount. The `setInterval` timer itself is replaced by explicit `Poll` calls.
- `handleLogout`, the other pages, routing, login, theming and bootstrapping are outside the mixer and the store.

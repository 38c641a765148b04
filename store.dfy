/** The song store (`useAudioStore`): an append-only list of processed songs
    with first-match lookup by id. */
module Store {

  import opened Wrappers

  /** One separated instrument stem. The mixer changes `volume` in place on the
      very object that the store's song also holds, so a track is an object. */
  class Track {
    const name: string
    const file: string
    var volume: real

    constructor (name: string, file: string, volume: real)
      ensures this.name == name && this.file == file && this.volume == volume
    {
      this.name := name;
      this.file := file;
      this.volume := volume;
    }
  }

  /** A processed upload: its id, the uploaded file's name and its stems, in the
      order the separation service returned them. */
  datatype Song = Song(id: string, name: string, tracks: seq<Track>)

  /** True when some song in `songs` has id `id`. */
  predicate HasId(songs: seq<Song>, id: string)
  {
    exists i :: 0 <= i < |songs| && songs[i].id == id
  }

  /** `Array.prototype.find` by id: the first song in sequence order whose id is
      `id`, or None when there is none. */
  function FindSong(songs: seq<Song>, id: string): (r: Option<Song>)
    ensures r.None? <==> !HasId(songs, id)
    ensures r.Some? ==> exists i :: 0 <= i < |songs| && songs[i] == r.value && r.value.id == id
                                    && forall j :: 0 <= j < i ==> songs[j].id != id
  {
    if |songs| == 0 then None
    else if songs[0].id == id then Some(songs[0])
    else
      var rest := FindSong(songs[1..], id);
      assert HasId(songs, id) ==> songs[0].id == id || HasId(songs[1..], id) by {
        if HasId(songs, id) {
          var i :| 0 <= i < |songs| && songs[i].id == id;
          if i > 0 { assert songs[1..][i - 1].id == id; }
        }
      }
      assert HasId(songs[1..], id) ==> HasId(songs, id) by {
        if HasId(songs[1..], id) {
          var i :| 0 <= i < |songs[1..]| && songs[1..][i].id == id;
          assert songs[i + 1].id == id;
        }
      }
      if rest.Some? then
        assert exists i :: 0 <= i < |songs| && songs[i] == rest.value && rest.value.id == id
                           && forall j :: 0 <= j < i ==> songs[j].id != id by {
          var i :| 0 <= i < |songs[1..]| && songs[1..][i] == rest.value && rest.value.id == id
                   && forall j :: 0 <= j < i ==> songs[1..][j].id != id;
          assert songs[i + 1] == rest.value;
          forall j | 0 <= j < i + 1 ensures songs[j].id != id {
            if j > 0 { assert songs[j] == songs[1..][j - 1]; }
          }
        }
        rest
      else
        rest
  }

  /** Lookup after an append: a song already findable keeps being found (the
      appended one is shadowed), otherwise the appended song is found exactly
      when its id matches. */
  lemma {:induction false} FindAfterAppend(songs: seq<Song>, s: Song, id: string)
    ensures FindSong(songs + [s], id) ==
            match FindSong(songs, id)
            case Some(t) => Some(t)
            case None => if s.id == id then Some(s) else None
  {
    if |songs| > 0 {
      assert (songs + [s])[0] == songs[0];
      assert (songs + [s])[1..] == songs[1..] + [s];
      if songs[0].id != id {
        FindAfterAppend(songs[1..], s, id);
      }
    } else {
      assert songs + [s] == [s];
    }
  }

  /** After adding a song whose id is new, looking that id up yields the song. */
  lemma AddedSongIsFound(songs: seq<Song>, s: Song)
    requires !HasId(songs, s.id)
    ensures FindSong(songs + [s], s.id) == Some(s)
  {
    FindAfterAppend(songs, s, s.id);
  }

  /** No de-duplication: adding a song whose id is already stored grows the
      store, but lookups by that id still return the earlier song. */
  lemma DuplicateIsShadowed(songs: seq<Song>, s: Song)
    requires HasId(songs, s.id)
    ensures FindSong(songs + [s], s.id) == FindSong(songs, s.id)
  {
    FindAfterAppend(songs, s, s.id);
  }

  /** The zustand store: `songs` is replaced wholesale by each `addSong`. */
  class SongStore {
    var songs: seq<Song>

    /** The store starts empty. */
    constructor ()
      ensures songs == []
    {
      songs := [];
    }

    /** `addSong`: the old songs, in order, followed by `s`; nothing is removed
        or merged. */
    method AddSong(s: Song)
      modifies this`songs
      ensures songs == old(songs) + [s]
      ensures |songs| == |old(songs)| + 1 && songs[|songs| - 1] == s
    {
      songs := songs + [s];
    }

    /** `getSong`: a read-only lookup, found exactly when some stored song has
        the id, and then a stored song with that id. */
    function GetSong(id: string): (r: Option<Song>)
      reads this
      ensures r.None? <==> !HasId(songs, id)
      ensures r.Some? ==> r.value.id == id && r.value in songs
    {
      FindSong(songs, id)
    }
  }
}

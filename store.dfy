/** The playlist store: a JSON file on disk holding the list, read in full and
    written in full by every operation. */
module Store {
  import opened JsValues
  import opened Songs

  /** The playlist file: not created yet, holding a parsed list, or present but not
      readable as a list (unreadable, or cut short by a failed write). */
  datatype FileState = Missing | Present(songs: seq<Song>) | Unreadable

  /** What happened to one whole-file write: it completed, it failed before touching
      the file, or it failed part way and left a file that no longer parses. */
  datatype WriteOutcome = Written | NotWritten | Torn

  const INVALID_INDEX: string := "Index tidak valid"

  datatype AddResult = Added(song: Song, totalSongs: nat)
  datatype DeleteResult = Deleted(deleted: Song, totalSongs: nat) | DeleteFailed(error: string)
  datatype UpdateResult = Updated(song: Song) | UpdateFailed(error: string)

  /** What a JSON file can hold once parsed: a list without NaN anywhere. */
  predicate FileIsJson(f: FileState) {
    f.Present? ==> JsonNormalPlaylist(f.songs)
  }

  // ---------------------------------------------------------------------------
  // Specification of loading and saving

  /** The file after `savePlaylist(p)`; a failed write is not rolled back. */
  function Save(f: FileState, p: seq<Song>, w: WriteOutcome): (r: FileState)
    ensures FileIsJson(f) ==> FileIsJson(r)
    ensures w == Written ==> r.Present? && |r.songs| == |p| && JsonNormalPlaylist(r.songs)
    ensures w != Written ==> r == f || r == Unreadable
    ensures w == Written ==> r == Present(JsonPlaylist(p))
    ensures w == NotWritten ==> r == f
    ensures w == Torn ==> r == Unreadable
  {
    match w
    case Written => Present(JsonPlaylist(p))
    case NotWritten => f
    case Torn => Unreadable
  }

  /** The list `loadPlaylist` returns: the parsed file when there is one, and the
      bootstrap list when the file is missing or cannot be read. No error escapes. */
  function Load(f: FileState): (r: seq<Song>)
    ensures FileIsJson(f) ==> JsonNormalPlaylist(r)
    ensures f.Present? || r == DefaultPlaylist
  {
    DefaultPlaylistIsJsonNormal();
    if f.Present? then f.songs else DefaultPlaylist
  }

  /** The file after `loadPlaylist`: a missing file is bootstrapped with the default
      list; any other file is left alone. */
  function AfterLoad(f: FileState, w: WriteOutcome): (r: FileState)
    ensures FileIsJson(f) ==> FileIsJson(r)
    ensures r != f ==> f.Missing?
  {
    if f.Missing? then Save(f, DefaultPlaylist, w) else f
  }

  // ---------------------------------------------------------------------------
  // The store object

  class PlaylistStore {
    var file: FileState

    ghost predicate Valid()
      reads this
    {
      FileIsJson(file)
    }

    constructor (initial: FileState)
      requires FileIsJson(initial)
      ensures Valid() && file == initial
    {
      file := initial;
    }

    /** Writes the whole list; reports whether the write completed. */
    method SavePlaylist(playlist: seq<Song>, w: WriteOutcome) returns (ok: bool)
      requires Valid()
      modifies this
      ensures Valid()
      ensures ok <==> w == Written
      ensures file == Save(old(file), playlist, w)
    {
      match w
      case Written =>
        file := Present(JsonPlaylist(playlist));
        ok := true;
      case NotWritten =>
        ok := false;
      case Torn =>
        file := Unreadable;
        ok := false;
    }

    /** Reads the whole list, bootstrapping a missing file with the default list
      (`w` is the outcome of that bootstrap write). */
    method LoadPlaylist(w: WriteOutcome) returns (playlist: seq<Song>)
      requires Valid()
      modifies this
      ensures Valid()
      ensures playlist == Load(old(file))
      ensures file == AfterLoad(old(file), w)
    {
      match file
      case Present(songs) =>
        playlist := songs;
      case Missing =>
        var _ := SavePlaylist(DefaultPlaylist, w);
        playlist := DefaultPlaylist;
      case Unreadable =>
        playlist := DefaultPlaylist;
    }

    method GetPlaylist(w: WriteOutcome) returns (playlist: seq<Song>)
      requires Valid()
      modifies this
      ensures Valid()
      ensures playlist == Load(old(file))
      ensures file == AfterLoad(old(file), w)
    {
      playlist := LoadPlaylist(w);
    }

    /** Appends the song built from `songData` and writes the list back
      (`wLoad` and `wSave` are the outcomes of the two possible writes). */
    method AddSong(songData: SongData, wLoad: WriteOutcome, wSave: WriteOutcome) returns (r: AddResult)
      requires Valid()
      modifies this
      ensures Valid()
      ensures r.song == NewSong(songData)
      ensures r.totalSongs == |Load(old(file))| + 1
      ensures file == Save(AfterLoad(old(file), wLoad), Load(old(file)) + [NewSong(songData)], wSave)
    {
      var playlist := LoadPlaylist(wLoad);
      var newSong := NewSong(songData);
      playlist := playlist + [newSong];
      var _ := SavePlaylist(playlist, wSave);
      r := Added(newSong, |playlist|);
    }

    /** Removes the song at `index` and writes the list back; an index outside the
      list is rejected without a second write. */
    method DeleteSong(index: int, wLoad: WriteOutcome, wSave: WriteOutcome) returns (r: DeleteResult)
      requires Valid()
      modifies this
      ensures Valid()
      ensures var before := Load(old(file));
        if 0 <= index < |before| then
          r == Deleted(before[index], |before| - 1)
          && file == Save(AfterLoad(old(file), wLoad), RemoveAt(before, index), wSave)
        else
          r == DeleteFailed(INVALID_INDEX) && file == AfterLoad(old(file), wLoad)
    {
      var playlist := LoadPlaylist(wLoad);
      if index < 0 || index >= |playlist| {
        return DeleteFailed(INVALID_INDEX);
      }
      var deleted := playlist[index];
      playlist := RemoveAt(playlist, index);
      var _ := SavePlaylist(playlist, wSave);
      r := Deleted(deleted, |playlist|);
    }

    /** Overwrites the truthy fields of `songData` onto the song at `index`, one field
      after the other, and writes the list back; an index outside the list is
      rejected without a second write. */
    method UpdateSong(index: int, songData: SongData, wLoad: WriteOutcome, wSave: WriteOutcome)
      returns (r: UpdateResult)
      requires Valid()
      modifies this
      ensures Valid()
      ensures var before := Load(old(file));
        if 0 <= index < |before| then
          r == Updated(ApplyPatch(before[index], songData))
          && file == Save(AfterLoad(old(file), wLoad),
                          before[index := ApplyPatch(before[index], songData)], wSave)
        else
          r == UpdateFailed(INVALID_INDEX) && file == AfterLoad(old(file), wLoad)
    {
      var playlist := LoadPlaylist(wLoad);
      if index < 0 || index >= |playlist| {
        return UpdateFailed(INVALID_INDEX);
      }
      var song := playlist[index];
      if Truthy(songData.name) { song := song.(name := songData.name); }
      if Truthy(songData.id) { song := song.(id := ParseInt(songData.id)); }
      if Truthy(songData.artist) { song := song.(artist := songData.artist); }
      if Truthy(songData.duration) { song := song.(duration := songData.duration); }
      if Truthy(songData.imageId) { song := song.(imageId := ParseInt(songData.imageId)); }
      assert song == ApplyPatch(playlist[index], songData);
      playlist := playlist[index := song];
      var _ := SavePlaylist(playlist, wSave);
      r := Updated(playlist[index]);
    }
  }

  // ---------------------------------------------------------------------------
  // Properties of sequences of operations

  /** The first use of the store returns the four bootstrap songs, and once the
      bootstrap write completed the file holds exactly those songs. */
  lemma FirstUseBootstraps()
    ensures Load(Missing) == DefaultPlaylist && |DefaultPlaylist| == 4
    ensures AfterLoad(Missing, Written) == Present(DefaultPlaylist)
    ensures Load(AfterLoad(Missing, Written)) == DefaultPlaylist
  {
    DefaultPlaylistIsJsonNormal();
  }

  /** A load followed by another load returns the same list, whatever happened to
      the bootstrap write in between. */
  lemma LoadIsStable(f: FileState, w: WriteOutcome)
    ensures Load(AfterLoad(f, w)) == Load(f)
  {
    DefaultPlaylistIsJsonNormal();
  }

  /** A write that fails part way leaves a file from which the store reads the
      bootstrap list. */
  lemma TornWriteFallsBack(f: FileState, p: seq<Song>)
    ensures Load(Save(f, p, Torn)) == DefaultPlaylist
  {
  }

  /** A completed write followed by a load gives back the list that was written,
      with NaN fields turned into `null`. */
  lemma SaveThenLoad(f: FileState, p: seq<Song>)
    ensures Load(Save(f, p, Written)) == JsonPlaylist(p)
    ensures JsonNormalPlaylist(p) ==> Load(Save(f, p, Written)) == p
  {
    if JsonNormalPlaylist(p) {
      JsonPlaylistOfNormal(p);
    }
  }

  /** After an `addSong` whose final write completed, the next load shows the earlier
      songs unchanged followed by the new song. */
  lemma AddThenLoad(f: FileState, d: SongData, wLoad: WriteOutcome)
    requires FileIsJson(f)
    ensures var after := Load(Save(AfterLoad(f, wLoad), Load(f) + [NewSong(d)], Written));
      |after| == |Load(f)| + 1
      && after[..|Load(f)|] == Load(f)
      && after[|Load(f)|] == JsonSong(NewSong(d))
  {
    var before := Load(f);
    JsonPlaylistAppend(before, NewSong(d));
    JsonPlaylistOfNormal(before);
  }

  /** After a `deleteSong` of a valid index whose final write completed, the next load
      shows the list without that song, the others in their original order. */
  lemma DeleteThenLoad(f: FileState, index: nat, wLoad: WriteOutcome)
    requires FileIsJson(f) && index < |Load(f)|
    ensures Load(Save(AfterLoad(f, wLoad), RemoveAt(Load(f), index), Written))
         == Load(f)[..index] + Load(f)[index + 1..]
  {
    var before := Load(f);
    var after := RemoveAt(before, index);
    assert JsonNormalPlaylist(after);
    JsonPlaylistOfNormal(after);
  }

  /** After an `updateSong` of a valid index whose final write completed, the next load
      shows the patched song at that index and every other song unchanged. */
  lemma UpdateThenLoad(f: FileState, index: nat, d: SongData, wLoad: WriteOutcome)
    requires FileIsJson(f) && index < |Load(f)|
    ensures var before := Load(f);
      var after := Load(Save(AfterLoad(f, wLoad), before[index := ApplyPatch(before[index], d)], Written));
      |after| == |before|
      && after[index] == JsonSong(ApplyPatch(before[index], d))
      && forall k :: 0 <= k < |before| && k != index ==> after[k] == before[k]
  {
  }

  /** An update whose patch has no truthy field writes back the list it read. */
  lemma FalsyUpdateKeepsList(f: FileState, index: nat, d: SongData, wLoad: WriteOutcome)
    requires FileIsJson(f) && index < |Load(f)| && AllFalsy(d)
    ensures var before := Load(f);
      Load(Save(AfterLoad(f, wLoad), before[index := ApplyPatch(before[index], d)], Written)) == before
  {
    var before := Load(f);
    FalsyPatchIsIdentity(before[index], d);
    assert before[index := ApplyPatch(before[index], d)] == before;
    JsonPlaylistOfNormal(before);
  }

  /** The empty patch in particular writes back the list it read. */
  lemma EmptyUpdateKeepsList(f: FileState, index: nat, wLoad: WriteOutcome)
    requires FileIsJson(f) && index < |Load(f)|
    ensures var before := Load(f);
      Load(Save(AfterLoad(f, wLoad), before[index := ApplyPatch(before[index], EmptyData)], Written)) == before
  {
    FalsyUpdateKeepsList(f, index, EmptyData, wLoad);
  }

  /** A store used for the first time returns the bootstrap list; deleting position 0
      then returns the first bootstrap song and leaves the other three in order. */
  method FirstUseScenario()
  {
    var store := new PlaylistStore(Missing);
    var songs := store.GetPlaylist(Written);
    assert songs == DefaultPlaylist;
    var r := store.DeleteSong(0, Written, Written);
    assert r == Deleted(DefaultPlaylist[0], 3);
    JsonPlaylistOfNormal(DefaultPlaylist[1..]);
    var rest := store.GetPlaylist(Written);
    assert rest == DefaultPlaylist[1..];
  }

  /** Updating position 99 of a four-song list fails and leaves the file as it was. */
  method InvalidUpdateScenario()
  {
    DefaultPlaylistIsJsonNormal();
    var store := new PlaylistStore(Present(DefaultPlaylist));
    var bad := store.UpdateSong(99, EmptyData.(name := Str("X")),
                                Written, Written);
    assert bad == UpdateFailed(INVALID_INDEX);
    assert store.file == Present(DefaultPlaylist);
  }
}

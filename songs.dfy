/** Songs as the playlist store handles them: the record of fields, the four
    bootstrap songs, building a song for `addSong`, merging a patch for
    `updateSong`, removal by position for `deleteSong`, and what a JSON write
    followed by a JSON read does to a song. */
module Songs {
  import opened JsValues

  /** The image asset every bootstrap song uses, and the one `addSong` falls back to. */
  const DEFAULT_IMAGE_ID: int := 6031097225
  const UNKNOWN_ARTIST: string := "Unknown Artist"
  const UNKNOWN_REQUESTER: string := "Unknown"

  /** One playlist entry. A field that the object does not have is `Undefined`;
      the bootstrap songs have no `requestedBy`. `extra` holds every other property
      the parsed object carries (`playerUserId`, say), by name; the store never
      reads or writes those, but keeps them through every operation. A parsed
      object has each property at most once, so `extra` never holds one of the
      six field names (`ExtraKeysDistinct`). */
  datatype Song = Song(name: JsVal, id: JsVal, artist: JsVal, duration: JsVal,
                       imageId: JsVal, requestedBy: JsVal, extra: map<string, JsVal>)

  /** The loosely shaped object a caller passes to `addSong` or `updateSong`;
      any field may be missing (`Undefined`) or of any type. */
  datatype SongData = SongData(name: JsVal, id: JsVal, artist: JsVal, duration: JsVal,
                               imageId: JsVal, requestedBy: JsVal)

  /** A patch in which every field is missing. */
  const EmptyData: SongData := SongData(Undefined, Undefined, Undefined, Undefined, Undefined, Undefined)

  function BootstrapSong(name: string, id: int, artist: string, duration: int): Song {
    Song(Str(name), Num(id), Str(artist), Num(duration), Num(DEFAULT_IMAGE_ID), Undefined, map[])
  }

  /** The list written the first time the store is used. */
  const DefaultPlaylist: seq<Song> := [
    BootstrapSong("Summer Vibes", 1234567890, "DJ Example", 180),
    BootstrapSong("Night Club Mix", 9876543210, "Producer X", 240),
    BootstrapSong("Chill House", 5555555555, "Beat Maker", 200),
    BootstrapSong("Deep Bass", 7777777777, "Bass Lord", 220)
  ]

  /** The four bootstrap songs: their names, ids, artists and durations in order,
      all with the fallback image, none with a requester or any other property. */
  lemma DefaultPlaylistContents()
    ensures |DefaultPlaylist| == 4
    ensures forall i :: 0 <= i < 4 ==>
      DefaultPlaylist[i].imageId == Num(DEFAULT_IMAGE_ID) && DefaultPlaylist[i].requestedBy == Undefined
      && DefaultPlaylist[i].extra == map[]
    ensures DefaultPlaylist[0].name == Str("Summer Vibes") && DefaultPlaylist[0].id == Num(1234567890)
         && DefaultPlaylist[0].artist == Str("DJ Example") && DefaultPlaylist[0].duration == Num(180)
    ensures DefaultPlaylist[1].name == Str("Night Club Mix") && DefaultPlaylist[1].id == Num(9876543210)
         && DefaultPlaylist[1].artist == Str("Producer X") && DefaultPlaylist[1].duration == Num(240)
    ensures DefaultPlaylist[2].name == Str("Chill House") && DefaultPlaylist[2].id == Num(5555555555)
         && DefaultPlaylist[2].artist == Str("Beat Maker") && DefaultPlaylist[2].duration == Num(200)
    ensures DefaultPlaylist[3].name == Str("Deep Bass") && DefaultPlaylist[3].id == Num(7777777777)
         && DefaultPlaylist[3].artist == Str("Bass Lord") && DefaultPlaylist[3].duration == Num(220)
  {
  }

  // ---------------------------------------------------------------------------
  // addSong: the new song

  /** The song `addSong` builds from its input. The name is copied as given and the
      id is parsed; artist, duration, image and requester fall back to their
      defaults exactly when the input field is falsy. */
  function NewSong(d: SongData): (r: Song)
    ensures r.name == d.name
    ensures r.id == ParseInt(d.id) && (r.id.Num? || r.id.NaN?)
    ensures Truthy(d.artist) ==> r.artist == d.artist
    ensures !Truthy(d.artist) ==> r.artist == Str(UNKNOWN_ARTIST)
    ensures Truthy(d.duration) ==> r.duration == d.duration
    ensures !Truthy(d.duration) ==> r.duration == Num(0)
    ensures Truthy(d.imageId) ==> r.imageId == ParseInt(d.imageId)
    ensures !Truthy(d.imageId) ==> r.imageId == Num(DEFAULT_IMAGE_ID)
    ensures Truthy(d.requestedBy) ==> r.requestedBy == d.requestedBy
    ensures !Truthy(d.requestedBy) ==> r.requestedBy == Str(UNKNOWN_REQUESTER)
    ensures r.extra == map[]
  {
    Song(d.name,
         ParseInt(d.id),
         Or(d.artist, Str(UNKNOWN_ARTIST)),
         Or(d.duration, Num(0)),
         if Truthy(d.imageId) then ParseInt(d.imageId) else Num(DEFAULT_IMAGE_ID),
         Or(d.requestedBy, Str(UNKNOWN_REQUESTER)),
         map[])
  }

  /** Whatever the input, the artist and the requester of a new song are truthy,
      and its image is an integer or NaN. */
  lemma NewSongFieldsPresent(d: SongData)
    ensures Truthy(NewSong(d).artist) && Truthy(NewSong(d).requestedBy)
    ensures NewSong(d).imageId.Num? || NewSong(d).imageId.NaN?
  {
  }

  /** An input carrying only an id gets every default; the name stays missing. */
  lemma NewSongFromIdOnly(id: int)
    ensures NewSong(SongData(Undefined, Num(id), Undefined, Undefined, Undefined, Undefined))
         == Song(Undefined, Num(id), Str(UNKNOWN_ARTIST), Num(0), Num(DEFAULT_IMAGE_ID), Str(UNKNOWN_REQUESTER), map[])
  {
    ParseIntOfNumber(id);
  }

  // ---------------------------------------------------------------------------
  // updateSong: merging a patch

  /** The song after `updateSong` assigned the truthy fields of the patch to it:
      `id` and `imageId` are parsed, the other fields are taken as given, and a
      falsy patch field leaves the field as it was. `requestedBy` is never patched. */
  function ApplyPatch(s: Song, d: SongData): (r: Song)
    ensures Truthy(d.name) ==> r.name == d.name
    ensures Truthy(d.id) ==> r.id == ParseInt(d.id)
    ensures Truthy(d.artist) ==> r.artist == d.artist
    ensures Truthy(d.duration) ==> r.duration == d.duration
    ensures Truthy(d.imageId) ==> r.imageId == ParseInt(d.imageId)
    ensures !Truthy(d.name) ==> r.name == s.name
    ensures !Truthy(d.id) ==> r.id == s.id
    ensures !Truthy(d.artist) ==> r.artist == s.artist
    ensures !Truthy(d.duration) ==> r.duration == s.duration
    ensures !Truthy(d.imageId) ==> r.imageId == s.imageId
    ensures r.requestedBy == s.requestedBy && r.extra == s.extra
  {
    s.(name := Or(d.name, s.name),
       id := if Truthy(d.id) then ParseInt(d.id) else s.id,
       artist := Or(d.artist, s.artist),
       duration := Or(d.duration, s.duration),
       imageId := if Truthy(d.imageId) then ParseInt(d.imageId) else s.imageId)
  }

  predicate AllFalsy(d: SongData) {
    !Truthy(d.name) && !Truthy(d.id) && !Truthy(d.artist) && !Truthy(d.duration) && !Truthy(d.imageId)
  }

  /** A patch without a truthy field (the empty patch among them) changes nothing. */
  lemma FalsyPatchIsIdentity(s: Song, d: SongData)
    requires AllFalsy(d)
    ensures ApplyPatch(s, d) == s
  {
  }

  /** In particular the patch with every field missing changes nothing. */
  lemma EmptyPatchIsIdentity(s: Song)
    ensures ApplyPatch(s, EmptyData) == s
  {
    FalsyPatchIsIdentity(s, EmptyData);
  }

  /** Applying the same patch twice is applying it once. */
  lemma PatchIdempotent(s: Song, d: SongData)
    ensures ApplyPatch(ApplyPatch(s, d), d) == ApplyPatch(s, d)
  {
  }

  /** The fields of `later` that are truthy win over those of `earlier`. */
  function MergePatches(earlier: SongData, later: SongData): SongData {
    SongData(Or(later.name, earlier.name), Or(later.id, earlier.id), Or(later.artist, earlier.artist),
             Or(later.duration, earlier.duration), Or(later.imageId, earlier.imageId),
             Or(later.requestedBy, earlier.requestedBy))
  }

  /** Two updates in a row amount to one update with the merged patch. */
  lemma PatchesCompose(s: Song, earlier: SongData, later: SongData)
    ensures ApplyPatch(ApplyPatch(s, earlier), later) == ApplyPatch(s, MergePatches(earlier, later))
  {
  }

  // ---------------------------------------------------------------------------
  // deleteSong: `splice(index, 1)`

  /** The list without its element at position `i`; the other elements keep their
      relative order and those after `i` move down by one. */
  function RemoveAt<T>(p: seq<T>, i: nat): (r: seq<T>)
    requires i < |p|
    ensures |r| == |p| - 1
    ensures forall k :: 0 <= k < i ==> r[k] == p[k]
    ensures forall k :: i <= k < |r| ==> r[k] == p[k + 1]
    ensures multiset(r) + multiset{p[i]} == multiset(p)
  {
    assert p == p[..i] + [p[i]] + p[i + 1..];
    p[..i] + p[i + 1..]
  }

  // ---------------------------------------------------------------------------
  // The JSON round trip

  /** What `JSON.stringify` followed by `JSON.parse` makes of a field value: NaN is
      written as `null`; a missing field stays missing; every other value is kept. */
  function JsonValue(v: JsVal): (r: JsVal)
    ensures r != NaN
    ensures v == NaN ==> r == Null
    ensures v != NaN ==> r == v
    ensures Truthy(r) == Truthy(v)
  {
    if v == NaN then Null else v
  }

  /** The other properties after the round trip: one whose value is `undefined` is
      not written and so is gone; the others keep their names and round-trip their values. */
  function JsonExtra(m: map<string, JsVal>): (r: map<string, JsVal>)
    ensures forall k :: k in r <==> k in m && m[k] != Undefined
    ensures forall k :: k in r ==> r[k] == JsonValue(m[k])
  {
    map k | k in m && m[k] != Undefined :: JsonValue(m[k])
  }

  /** The six properties the store reads and writes. */
  const FIELD_NAMES: set<string> := {"name", "id", "artist", "duration", "imageId", "requestedBy"}

  /** `extra` holds only properties other than the six fields. */
  predicate ExtraKeysDistinct(s: Song) {
    forall k :: k in s.extra ==> k !in FIELD_NAMES
  }

  /** No operation introduces a property named after one of the six fields. */
  lemma ExtraKeysStayDistinct(s: Song, d: SongData)
    ensures ExtraKeysDistinct(NewSong(d))
    ensures forall i :: 0 <= i < |DefaultPlaylist| ==> ExtraKeysDistinct(DefaultPlaylist[i])
    ensures ExtraKeysDistinct(s) ==> ExtraKeysDistinct(ApplyPatch(s, d)) && ExtraKeysDistinct(JsonSong(s))
  {
    NoExtraKeysDistinct(NewSong(d));
    forall i | 0 <= i < |DefaultPlaylist| ensures ExtraKeysDistinct(DefaultPlaylist[i]) {
      DefaultPlaylistContents();
      NoExtraKeysDistinct(DefaultPlaylist[i]);
    }
    if ExtraKeysDistinct(s) {
      assert ApplyPatch(s, d).extra == s.extra;
      JsonSongKeepsKeysDistinct(s);
    }
  }

  lemma NoExtraKeysDistinct(s: Song)
    requires s.extra == map[]
    ensures ExtraKeysDistinct(s)
  {
  }

  lemma JsonSongKeepsKeysDistinct(s: Song)
    requires ExtraKeysDistinct(s)
    ensures ExtraKeysDistinct(JsonSong(s))
  {
    var r := JsonSong(s);
    forall k | k in r.extra ensures k !in FIELD_NAMES {
      assert k in s.extra;
    }
  }

  predicate JsonNormalExtra(m: map<string, JsVal>) {
    forall k :: k in m ==> m[k] != NaN && m[k] != Undefined
  }

  predicate JsonNormal(s: Song) {
    s.name != NaN && s.id != NaN && s.artist != NaN && s.duration != NaN
    && s.imageId != NaN && s.requestedBy != NaN && JsonNormalExtra(s.extra)
  }

  /** A song after the round trip: every field and every other property goes through
      `JsonValue`, and properties whose value is `undefined` are dropped. */
  function JsonSong(s: Song): (r: Song)
    ensures r.name == JsonValue(s.name) && r.id == JsonValue(s.id)
    ensures r.artist == JsonValue(s.artist) && r.duration == JsonValue(s.duration)
    ensures r.imageId == JsonValue(s.imageId) && r.requestedBy == JsonValue(s.requestedBy)
    ensures r.extra == JsonExtra(s.extra)
    ensures JsonNormal(r)
    ensures JsonNormal(s) ==> r == s
  {
    var extra := JsonExtra(s.extra);
    assert JsonNormalExtra(s.extra) ==> extra == s.extra;
    Song(JsonValue(s.name), JsonValue(s.id), JsonValue(s.artist), JsonValue(s.duration),
         JsonValue(s.imageId), JsonValue(s.requestedBy), extra)
  }

  predicate JsonNormalPlaylist(p: seq<Song>) {
    forall i :: 0 <= i < |p| ==> JsonNormal(p[i])
  }

  /** The list as the next read of the file returns it after it was written. */
  function JsonPlaylist(p: seq<Song>): (r: seq<Song>)
    ensures |r| == |p|
    ensures forall i :: 0 <= i < |p| ==> r[i] == JsonSong(p[i])
    ensures JsonNormalPlaylist(r)
  {
    seq(|p|, i requires 0 <= i < |p| => JsonSong(p[i]))
  }

  /** A list read back from JSON comes back unchanged from another round trip. */
  lemma JsonPlaylistOfNormal(p: seq<Song>)
    requires JsonNormalPlaylist(p)
    ensures JsonPlaylist(p) == p
  {
  }

  /** The round trip of a list with one more song at the end. */
  lemma JsonPlaylistAppend(p: seq<Song>, s: Song)
    ensures JsonPlaylist(p + [s]) == JsonPlaylist(p) + [JsonSong(s)]
  {
  }

  /** The bootstrap songs survive a round trip through the file unchanged. */
  lemma DefaultPlaylistIsJsonNormal()
    ensures JsonNormalPlaylist(DefaultPlaylist)
    ensures JsonPlaylist(DefaultPlaylist) == DefaultPlaylist
  {
    JsonPlaylistOfNormal(DefaultPlaylist);
  }
}

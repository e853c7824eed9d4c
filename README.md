# Playlist store model

A Dafny model of the playlist store of a small music-request server (`playlist.js`).
The store keeps an ordered list of songs in one JSON file. Every operation reads
the whole file, makes one change to the list in memory (append, remove at a
position, or overwrite some fields at a position) and writes the whole list back.
A missing file is created with four bootstrap songs. A file that cannot be read
makes the store fall back to those four songs; no error reaches the caller.

Modules:

- `JsValues` (`js_values.dfy`): the JavaScript values a song field can hold, truthiness,
  `ToString`, and `parseInt` with no radix argument. `parseInt` skips leading white
  space, takes an optional sign, reads `0x`/`0X` as radix 16, then reads the longest
  run of digits; with no digit the result is NaN. The lemmas prove that it reads back
  the decimal notation of any integer, that it leaves numbers alone and is idempotent,
  where it stops, and which values give NaN.
- `Songs` (`songs.dfy`): the song record and the four bootstrap songs. A song has the
  six fields the store touches, plus a map of any other properties the parsed object
  carries (such as `playerUserId`); every operation keeps that map unchanged. Also the song
  `addSong` builds, the patch merge `updateSong` performs, `splice(index, 1)` as
  `RemoveAt`, and what a JSON write followed by a JSON read does to a list: NaN is
  written as `null`, a missing field stays missing, and a property whose value is
  `undefined` is dropped.
- `Store` (`store.dfy`): the file as `Missing | Present(list) | Unreadable`. The class
  `PlaylistStore` holds that file state in a field. Its methods `LoadPlaylist`,
  `SavePlaylist`, `GetPlaylist`, `AddSong`, `DeleteSong` and `UpdateSong` follow the
  source step by step. Each method's postcondition gives the returned result and the
  new file state in terms of the specification functions `Load`, `AfterLoad` and
  `Save`. Lemmas then describe what the next load sees.

Effects on the environment are parameters. Each write to the file is given a
`WriteOutcome`:

- `Written`: the write completed.
- `NotWritten`: it failed before touching the file.
- `Torn`: it failed part way and left a file that does not parse.

A failed write is reported as `false` and is not rolled back. The callers ignore
that flag.

Points where the code's behaviour is easy to misread:

- The list read from the file is used as it was parsed. No field is filled in or
  converted on load.
- `addSong` copies `name` as given, so a song added without a name has none.
- A truthy `imageId` that does not parse becomes NaN, not the fallback image. The file
  then stores it as `null`.
- `updateSong` overwrites only the fields whose patch value is truthy. Nothing else
  about the song is checked or changed.

## Model

| member | source | states |
|---|---|---|
| JsValues.FalsyValues | playlist.js:140-144 | the values that fail an `if (x)` test are exactly `undefined`, `null`, `false`, `0`, NaN and `""` |
| JsValues.Or | playlist.js:92-95 | JavaScript's logical or of `a` and `b` is one of its operands: `b` when `a` is falsy, otherwise `a`. It is truthy exactly when one of them is |
| JsValues.ParseInt | playlist.js:91 | `parseInt` of any value is an integer or NaN |
| JsValues.ParseIntString | playlist.js:94 | `parseInt` of any string is an integer or NaN |
| JsValues.ParseIntOfIntString | playlist.js:141 | reading back the decimal notation of any integer, negative ones included, returns that integer |
| JsValues.ParseIntOfNegative | playlist.js:144 | a minus sign followed by the digits of a positive number is read as the negated number |
| JsValues.ParseIntOfNumber | playlist.js:91 | `parseInt` returns an integer number unchanged |
| JsValues.ParseIntIdempotent | playlist.js:141 | parsing an already parsed id or image id changes nothing |
| JsValues.ParseIntStopsAtNonDigit | playlist.js:94 | a decimal number followed by a character that ends it is read as that number; `0` followed by `x`/`X` is excluded because it starts a hexadecimal number |
| JsValues.ParseIntOfNonDigit | playlist.js:91 | a string starting with a character that is neither a sign, white space nor a digit gives NaN |
| JsValues.ParseIntOfNonNumbers | playlist.js:91 | `undefined`, `null`, booleans, NaN and the empty string give NaN |
| JsValues.ParseIntSkipsWhitespace | playlist.js:144 | a leading white-space character does not change the result |
| Songs.DefaultPlaylistContents | playlist.js:10-39 | the bootstrap list is four songs with the listed names, ids, artists and durations in order; each has image `6031097225` and no requester or other property |
| Songs.NewSong | playlist.js:89-96 | the name is copied as given and never defaulted. The id is parsed. Artist, duration, image id and requester take the input value when it is truthy, and otherwise `'Unknown Artist'`, `0`, `6031097225` and `'Unknown'`. A truthy image id is parsed. The new song has no other property |
| Songs.NewSongFieldsPresent | playlist.js:92-95 | for every input, the new song's artist and requester are truthy and its image id is an integer or NaN |
| Songs.NewSongFromIdOnly | playlist.js:89-96 | an input holding only a numeric id gives a song with that id, every default, and no name |
| Songs.ApplyPatch | playlist.js:140-144 | each of name, id, artist, duration and image id is overwritten exactly when the patch field is truthy; id and image id are parsed. Falsy fields, `requestedBy` and every other property keep their old values |
| Songs.FalsyPatchIsIdentity | playlist.js:140-144 | a patch with no truthy field, the empty patch among them, leaves the song identical |
| Songs.EmptyPatchIsIdentity | playlist.js:140-144 | the patch with every field missing leaves the song identical |
| Songs.PatchIdempotent | playlist.js:140-144 | applying the same patch twice equals applying it once |
| Songs.PatchesCompose | playlist.js:140-144 | two patches in a row equal one patch in which the later patch's truthy fields win |
| Songs.RemoveAt | playlist.js:119 | removal at a valid position shortens the list by one. Earlier songs keep their positions and later songs move down by one. The result plus the removed song is the same multiset as the input |
| Songs.JsonValue | playlist.js:72 | the JSON round trip turns NaN into `null`, keeps every other value, and never changes truthiness |
| Songs.JsonExtra | playlist.js:72 | the song's other properties after the round trip: those whose value is `undefined` are gone, and the rest keep their names and round-trip their values |
| Songs.JsonSong | playlist.js:72 | each of the six fields of a song goes through the value round trip and its other properties through the property round trip; the result has no NaN, and a song without NaN comes back unchanged |
| Songs.ExtraKeysStayDistinct | playlist.js:89-96 | building a song, patching it and the JSON round trip never give a song another property named after one of its six fields, and no bootstrap song has one |
| Songs.JsonPlaylist | playlist.js:72 | the round trip of a list keeps its length and applies the song round trip position by position |
| Songs.JsonPlaylistOfNormal | playlist.js:56 | a list parsed from JSON is unchanged by another write and read |
| Songs.JsonPlaylistAppend | playlist.js:98-99 | the round trip of a list with one more song is the round trip of the list followed by that song's round trip |
| Songs.DefaultPlaylistIsJsonNormal | playlist.js:10-39 | the four bootstrap songs survive a write and read unchanged |
| Store.Save | playlist.js:69-79 | a completed write stores the JSON image of the written list, with the same length and no NaN. A write that failed before touching the file leaves it as it was; one that failed part way leaves it unreadable |
| Store.Load | playlist.js:50-66 | a missing or unreadable file yields the bootstrap list. A list read from a JSON file has no NaN |
| Store.AfterLoad | playlist.js:54-61 | loading changes the file only when it was missing |
| Store.PlaylistStore.constructor | playlist.js:7 | the store starts with the given file state |
| Store.PlaylistStore.SavePlaylist | playlist.js:69-79 | the result is true exactly when the write completed. The new file state is `Save` of the old one |
| Store.PlaylistStore.LoadPlaylist | playlist.js:50-66 | returns `Load` of the old file; the file is bootstrapped only if missing |
| Store.PlaylistStore.GetPlaylist | playlist.js:82-84 | same result and effect as `LoadPlaylist` |
| Store.PlaylistStore.AddSong | playlist.js:87-106 | returns `NewSong(songData)` and the old length plus one. Writes back the loaded list with that song appended |
| Store.PlaylistStore.DeleteSong | playlist.js:109-127 | an index outside `[0, length)` gives `'Index tidak valid'` and no second write. A valid index returns the song there and the new length, and writes back the list without it |
| Store.PlaylistStore.UpdateSong | playlist.js:130-152 | an index outside `[0, length)` gives `'Index tidak valid'` and no second write. A valid index returns the patched song and writes back the list with only that position replaced |
| Store.FirstUseBootstraps | playlist.js:54-61 | first use returns the four bootstrap songs. After a completed bootstrap write, the file and the next load hold exactly those songs |
| Store.LoadIsStable | playlist.js:50-66 | two loads in a row return the same list, whatever happened to the bootstrap write |
| Store.TornWriteFallsBack | playlist.js:62-65 | after a write that failed part way, the store reads the bootstrap list |
| Store.SaveThenLoad | playlist.js:72 | after a completed write the next load returns the written list, with NaN turned into `null` |
| Store.AddThenLoad | playlist.js:88-104 | after a completed add, the next load returns the earlier songs unchanged, then the new song as the last element |
| Store.DeleteThenLoad | playlist.js:110-125 | after a completed delete, the next load returns `old[..index] + old[index+1..]` |
| Store.UpdateThenLoad | playlist.js:131-150 | after a completed update, the next load has the same length and the patched song at the index. Every other song is unchanged |
| Store.FalsyUpdateKeepsList | playlist.js:140-146 | an update whose patch has no truthy field writes back exactly the loaded list |
| Store.EmptyUpdateKeepsList | playlist.js:140-146 | an update with the empty patch writes back exactly the loaded list |

## Left out

- The HTTP layer (`server.js`): routing, required-field checks, the `isNaN` check on the path index, responses, and start-up and shutdown. It belongs to the caller. The store's index parameter is an integer.
- The file system and JSON text. `fs`, `path`, `ensureDataFolder` and the text form of the file are replaced by the file state and the write outcomes. The JSON round trip is modelled only as far as it changes a value: NaN becomes `null`, and a missing field stays missing.
- A file that parses to something other than a list of song objects. `Present` always holds a list. The order of a song's properties in the file text and any nested object values are not represented.
- Aliasing of the shared default list. `loadPlaylist` returns the shared default array itself, so a later `push` or field assignment in the same process changes what later fallbacks return. The model treats the defaults as an immutable constant.
- JavaScript numbers are modelled as unbounded integers. There are no fractions, no infinities, no loss of precision above 2^53, and no exponent notation of `String(n)` for numbers of 10^21 and more. Objects and arrays as field values are not modelled.
- JsValues.ParseInt: does not model `parseInt` on objects and arrays, which are converted to strings through their own methods. It also does not model the rounding of large results to the nearest double.
- Console logging.
- Concurrency. Interleaved requests and lost updates are out of scope; the model is single-threaded.
- Store.PlaylistStore.constructor: the store is built on a given file state, standing for whatever file exists when the module is loaded. The constructor requires that state to be free of NaN, which holds of anything `JSON.parse` produces.

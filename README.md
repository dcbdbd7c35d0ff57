# Playlist and catalog layer of the lyrics viewer, in Dafny

This project models the playlist and catalog logic of a browser lyrics viewer, `index.js`. The viewer keeps songs and playlists in a hosted document database:

- every user has a song library and a set of playlists;
- the entries of a playlist are documents keyed by song id, each carrying an `order` and a `transpose`;
- a share inbox receives playlists sent by other users;
- an admin can broadcast the current song to a live-session document.

The viewer itself keeps an in-memory state: the song catalog (`loadedSongs`), the playlist catalog (`loadedPlaylists`), the current playlist key, the current song and its transposition.

The modules follow the program's parts:

| Module | What it models |
|---|---|
| `Common` | `Option` and JavaScript's `a \|\| b` on strings. |
| `Keys` | The composite playlist key `owner__pid`: `makePlKey` and `parsePlKey`. |
| `Text` | `slugifyName` and the string helpers it needs: lower-casing, ECMAScript whitespace trimming, collapsing runs of whitespace. |
| `Chords` | `getTransposedChord`, both as written and corrected (see Findings). |
| `Docs` | The database documents: songs, playlists, entries, inbox messages of the two flavours `Copy` and `Link`, grants and the live document. |
| `Catalog` | The aggregation in `populatePlaylistsAndSongs`, the initial-key choice, and `preferUserOrNewest`. |
| `Storage` | The database. `Db` is its value; class `Store` holds the same collections in mutable fields. It has the copy-flavour import, the delete-or-mark consumption of inbox messages, the legacy `songs` array, and `removeSongFromAllPlaylists`. Ids from `add` come from a counter and are fresh. |
| `Entries` | Playlist entries: collecting a query's rows, the sort by `order`, resolving entries to available songs, choosing the current song, the `goPrevNextSong` index arithmetic, the next order for an appended entry, and splitting local text into title and body. |
| `Viewer` | The viewer's session. `Session` is its value; class `App` holds the same globals in fields. `App` has the operations `loadSelectedSong`, `populatePlaylistsAndSongs`, `loadEntriesForCurrentPlaylist`, `saveCurrentEntryTranspose`, the transpose buttons, the link-flavour import, the inbox sweep, `addCurrentLocalToPlaylist` and `goPrevNextSong`. |

Every state-changing `App` and `Store` method is proved to produce exactly the value that a function of the old state computes, stated by cases where the code branches. The properties the program promises are lemmas about those functions. For example:

- repeated delivery of an inbox message writes nothing;
- a copy import of n items adds n new songs with entry orders 10, 20, …, 10·n;
- a read-only shared playlist is never written;
- cleanup touches only the caller's own playlists;
- next and previous undo each other.

## Model

| member | source | states |
|---|---|---|
| Common.OrElse | index.js:622 | `a \|\| b` on strings: the result is one of the two, it is `a` whenever `a` is non-empty, and it is non-empty when either is. |
| Keys.IndexOfSep | index.js:997 | `indexOf('__')`: the first position of the separator, or none exactly when the key holds no `__`. |
| Keys.ParsePlKey | index.js:996-1000 | A key without `__` parses to (current user, key). Otherwise the parts rebuild the key through `makePlKey`, and the owner part holds no `__` and does not end in `_`. |
| Keys.FirstSepOfKey | index.js:995-997 | In `makePlKey(o, p)` with a valid owner `o`, the first `__` sits right after the owner. |
| Keys.ParseMakeRoundTrip | index.js:995-1000 | `parsePlKey(makePlKey(o, p)) == (o, p)` if and only if `o` holds no `__` and does not end in `_`. |
| Keys.MakePlKeyInjective | index.js:995 | Two valid owners with equal composite keys have the same owner and the same playlist id. |
| Text.ToLower | index.js:334 | Lower-casing keeps the length and maps exactly the ASCII capitals to their lower-case letters. |
| Text.TrimStart | index.js:334 | The result is a suffix of the input, it does not start with whitespace, and everything removed was whitespace. |
| Text.TrimEnd | index.js:334 | The result is a prefix of the input, it does not end with whitespace, and everything removed was whitespace. |
| Text.Trim | index.js:334 | The trimmed string neither starts nor ends with whitespace. |
| Text.TrimSlice | index.js:334 | `trim` removes only whitespace at the two ends: the result is a contiguous slice of the input, and every character before or after that slice is whitespace. |
| Text.CollapseSpaces | index.js:334 | After `replace(/\s+/g,'-')` no whitespace character is left. `Text.CollapseRun`, `Text.CollapseKeeps` and `Text.CollapseAppend` give the contents. |
| Text.TrimStartAppend | index.js:334 | Trimming leading whitespace stops at the first non-space: text after it is untouched. |
| Text.TrimStartRun | index.js:334 | A whitespace run in front of a non-space, or of nothing, is removed whole. |
| Text.CollapseAppend | index.js:334 | Text that ends in a non-space is collapsed on its own, followed by the collapsed rest: no run straddles the boundary. |
| Text.CollapseRun | index.js:334 | A maximal run of whitespace becomes exactly one `-`. |
| Text.CollapseKeeps | index.js:334 | A non-space character is kept, in its place. |
| Text.KeepSlugChars | index.js:334 | After `replace(/[^a-z0-9\-]/g,'')` only `a-z`, `0-9` and `-` are left, and the string is no longer than before. A character occurs in the result exactly when it occurs in the input and is a slug character. |
| Text.KeepSlugAppend | index.js:334 | The filter distributes over concatenation, so it keeps the order of the kept characters. |
| Text.KeepSlugOne | index.js:334 | One character is kept exactly when it is `a-z`, `0-9` or `-`. |
| Text.Slugify | index.js:333-335 | `slugifyName` always yields 1 to 60 characters, all of them `a-z`, `0-9` or `-`. |
| Text.SlugKept | index.js:333-335 | A name that is already a slug of 1 to 60 characters slugifies to itself. |
| Text.SlugifyIdempotent | index.js:333-335 | Slugifying a slug gives the same slug. |
| Chords.NoteIndex | index.js:150 | `sharps.indexOf`: the index of the name in the table, or -1 exactly when the name is not in the table. |
| Chords.JsRem | index.js:152 | JavaScript `%`: it agrees with the mathematical remainder on non-negative operands. On a negative dividend it is at most 0, and the dividend is n times the quotient truncated toward zero plus the result. It lies strictly between -n and n. |
| Chords.Spell | index.js:153-154 | The spelled note is the table entry of the index, from the sharps or the flats. |
| Chords.IndexOfChar | index.js:141 | `indexOf('/')`: the first position of the character, or none exactly when it does not occur. |
| Chords.TransposeRecognised | index.js:138-156 | A recognised root moves to pitch (idx + semitones) mod 12, spelled from the flats when the root holds `b` and the target is not C or F. The suffix, including any `/bass`, is copied unchanged. |
| Chords.TransposeUnrecognised | index.js:148-151 | A chord whose matched root is not in the table is returned unchanged, in both modes. |
| Chords.TransposeYieldsNoteName | index.js:152-155 | For a recognised root the result is a table note name followed by the original suffix. |
| Chords.SpellIsSelfIndexed | index.js:149-154 | Spelling a root's own pitch with its own flat flag gives back the root as written. |
| Chords.TransposeZero | index.js:138-156 | Transposing by 0 leaves every chord unchanged. This includes chords split at `/`. |
| Chords.TransposeZeroRoot | index.js:148-155 | A matched, recognised chord transposed by 0 is unchanged. |
| Chords.TransposeOctave | index.js:138-156 | Shifting by 12 more semitones gives the same chord. |
| Chords.AsWrittenAgrees | index.js:152 | For shifts of at least -12, the source's truncating arithmetic gives the intended result on every chord. |
| Chords.AsWrittenRecognised | index.js:150-155 | As written, a recognised chord renders its root as "undefined" exactly when the shifted index plus 12 is negative and not a multiple of 12. In every other case it agrees with the corrected transposition. |
| Chords.JsRemNegative | index.js:152 | On a negative dividend, JavaScript's remainder by 12 is 0 exactly on multiples of 12 and negative otherwise. |
| Chords.NewRootAsWritten | index.js:152-153 | The same case split for the new root alone. |
| Chords.AsWrittenUndefinedBelowOctave | index.js:152-153 | As written, "C" at -13 becomes the text "undefined". The corrected function gives "B". |
| Catalog.Put | index.js:619 | `Map.set`: the value is stored under the key. A new key is appended to the insertion order and an existing key keeps its place. |
| Catalog.PutOwned | index.js:615-629 | Setting the owned playlists keeps the catalog well-formed and only appends to the key order. |
| Catalog.PutGrants | index.js:632-649 | Setting the grants keeps the catalog well-formed and only appends to the key order. |
| Catalog.BuildPlaylists | index.js:613-649 | The clear-then-set loops over owned playlists and grants compute exactly `AggregatePlaylists`. |
| Catalog.AggregatePlaylists | index.js:613-649 | The rebuilt playlist catalog is a well-formed insertion-ordered map. |
| Catalog.PutOwnedKeys | index.js:616-628 | A key is present after the owned loop if and only if it was present before or is `makePlKey(userId, id)` of some owned row. |
| Catalog.PutOwnedLast | index.js:616-628 | The last owned row with a given id determines its record: key `makePlKey(userId, id)`, `shared=false`, name defaulting to the id. |
| Catalog.PutOwnedFirst | index.js:616-619 | Into an empty catalog, the first owned row gives the first key. |
| Catalog.PutGrantsKeys | index.js:633-648 | A key is present after the grant loop if and only if it was present before or some usable grant sets it. |
| Catalog.PutGrantsKeeps | index.js:633-648 | A record that no grant sets is left as it was. |
| Catalog.PutGrantsLast | index.js:633-648 | The last grant that sets a key determines its record. |
| Catalog.AggregateKeys | index.js:613-649 | The catalog is rebuilt from scratch. A key is present if and only if it is an owned playlist's key or a usable grant's key. Grants without owner or playlist id are skipped. |
| Catalog.AggregateOwned | index.js:616-628 | An owned playlist that no later row and no grant overrides appears under `makePlKey(userId, id)` with `shared=false`. |
| Catalog.AggregateGrant | index.js:633-648 | A usable grant that no later grant overrides appears under `makePlKey(ownerUid, playlistId)` with `shared=true`. Its role defaults to `viewer`. |
| Catalog.AggregateFirstKey | index.js:613-658 | With at least one owned playlist, the first key of the catalog is that playlist's key. |
| Catalog.SelectInitialKey | index.js:655-659 | A current key is kept. Otherwise the last-viewed key is chosen if it is present, else the first key. With an empty catalog nothing is chosen. |
| Catalog.PutSongs | index.js:663-672 | A song id is present after a loop if and only if it was before or some listable row has it. |
| Catalog.PutSongsKeyed | index.js:663-672 | Every cached song stays stored under its own id. |
| Catalog.AggregateSongs | index.js:662-672 | The song cache is rebuilt from scratch. An id is present if and only if a public or user row with that id has a non-empty title and defined content. |
| Catalog.BuildSongs | index.js:662-672 | The clear-then-set loops over public and user songs compute exactly `AggregateSongs`. |
| Catalog.PutSongsLast | index.js:663-672 | The last listable row with a given id determines its cached song. |
| Catalog.PutSongsKeeps | index.js:663-672 | A cached song that no row overrides keeps its value. |
| Catalog.AggregateSongsUserWins | index.js:668-672 | A user song overwrites a public song with the same id. |
| Catalog.AggregateSongsPublicKept | index.js:663-667 | A public song that no user song overrides stays in the cache with scope `public`. |
| Catalog.PreferUserOrNewest | index.js:1004-1011 | The choice is always one of its arguments. It is none only when both are none. It never loses to the other on rank, nor on timestamp at equal rank. On a full tie of rank and timestamp it is the first argument. |
| Catalog.PreferSymmetric | index.js:1004-1011 | When the two hits differ in rank or timestamp, the choice does not depend on argument order. |
| Storage.Decimal | index.js:408 | Decimal digits of a counter value: at least one digit, and at least two from 10 on. |
| Storage.DecimalInjective | index.js:408 | Different counter values give different digit strings. |
| Storage.AutoIdInjective | index.js:408 | Different counter values give different auto-ids. |
| Storage.AddSongKeepsFresh | index.js:408 | `add` stores the song under an id not yet in the library, and the counter's later ids stay unused. |
| Storage.Consume | index.js:362-366 | Consuming a message deletes it, or falls back to marking it `processed: true`. Unless both writes fail it is no longer pending. Every other collection and every other message is unchanged. |
| Storage.BaseName | index.js:356 | The playlist name of a copy message is never empty. |
| Storage.BaseNameDefault | index.js:356 | The name is the trimmed `playlistName` when that is not blank, and `Shared` otherwise. |
| Storage.AddItem | index.js:396-411 | One item advances the id counter by one and leaves the inbox, playlists and live document alone. |
| Storage.AddItemEffect | index.js:396-411 | One item writes exactly one song of the recipient and one entry of the target, both under the counter's id. |
| Storage.AddItems | index.js:394-412 | n items advance the counter by n. |
| Storage.PartialItems | index.js:393-412 | When item k's writes throw, the items before k are written, and also item k's song if only its entry write threw. The counter advances by k, or k + 1. The inbox, playlists and live document are unchanged. |
| Storage.PartialItemsKeepsFresh | index.js:393-412 | A loop stopped part-way keeps the counter's later ids unused. |
| Storage.CopyImportOrphanSong | index.js:360-412 | When item k's entry write throws after its song was added, the import fails and item k's song is in the library with no entry. A later delivery of the message only consumes it, so the song stays an orphan. |
| Storage.CreateShared | index.js:378-391 | The merge-write puts the shared playlist document under `shared-<msgId>` and touches no song, entry or inbox document. |
| Storage.CopyImport | index.js:351-420 | A copy import either leaves the playlists alone or adds exactly the shared playlist document. |
| Storage.CopyImportLeavesTarget | index.js:357-412 | Unless the message was empty, an import by a signed-in user leaves the target playlist `shared-<msgId>` in place. This holds even when a later item write fails. |
| Storage.CopyImportIdempotent | index.js:360-368 | Delivering the same message again after any import that did not drop it finds the target and only consumes the message. It writes no playlist, song or entry. |
| Storage.CopyImportEmpty | index.js:370-375 | A message without items only consumes the message. |
| Storage.CopyImportKeepsPlaylists | index.js:351-420 | An import never removes a playlist or changes an existing one. |
| Storage.KeepsSamePlaylists | index.js:378-391 | A merge-write of a new shared playlist keeps every existing playlist. |
| Storage.ItemIdsDistinct | index.js:408 | The items of one message get distinct song ids. |
| Storage.AddItemKeepsFresh | index.js:408-410 | One item's write keeps the counter's later ids unused. |
| Storage.AddItemsKeepsFresh | index.js:394-412 | The item loop keeps the counter's later ids unused. |
| Storage.AddItemsSongs | index.js:396-408 | Item i becomes a song of the recipient under the i-th new id, with source `inboxShared`, its title defaulting to `Untitled` and its content to "". |
| Storage.AddItemsEntries | index.js:394-411 | Item i gets an entry in the target with order 10·(i+1), and transpose equal to the item's numeric transpose, else 0. |
| Storage.AddItemsOthers | index.js:394-412 | The item loop touches no other user's songs and no other playlist's entries. |
| Storage.AddItemsOwn | index.js:394-412 | The recipient's existing songs are kept, and every added song id is one of the n new ids. |
| Storage.AddItemsKeepsOld | index.js:394-412 | The recipient's existing songs are kept unchanged. |
| Storage.AddItemsNewIds | index.js:394-412 | Every song id that was not there before is one of the n new ids. |
| Storage.AddItemsSnoc | index.js:395-412 | The loop over the first i+1 items is the loop over the first i items followed by item i. |
| Storage.CopyImportContents | index.js:377-419 | A successful import of n items creates the named playlist marked `createdByShare`, with n new songs and their entries at orders 10, 20, …, 10·n. It advances the counter by n and consumes the message. |
| Storage.ImportedSongs | index.js:396-408 | After a successful import, item i's song exists and is new. |
| Storage.ImportedEntries | index.js:394-411 | After a successful import, item i's entry exists with order 10·(i+1). |
| Storage.CopyImportAddsOnly | index.js:393-412 | A successful import writes no other user's songs, keeps every existing song of the recipient, and adds only the n new ids. |
| Storage.AddToLegacy | index.js:825-827 | The `arrayUnion` write changes only the playlists. |
| Storage.AddToLegacyUnion | index.js:825-827 | `arrayUnion` keeps the old array as a prefix, contains exactly the old ids and the new one, keeps the playlist's other fields and other playlists, and is idempotent. |
| Storage.AddToLegacyArray | index.js:825-827 | The legacy array contains exactly the old ids plus the song, with the old array as its prefix. |
| Storage.AddToLegacyFrame | index.js:825-827 | The write touches only the `songs` field of that one playlist. |
| Storage.AddToLegacyTwice | index.js:825-827 | A second `arrayUnion` of the same id changes nothing. |
| Storage.RemoveAll | index.js:754 | `arrayRemove` removes every occurrence of the id and keeps every other element. |
| Storage.StripLegacy | index.js:750-756 | The legacy array no longer holds the song, and every other field is unchanged. |
| Storage.CleanNothing | index.js:742-744 | Before the loop, nothing is cleaned. |
| Storage.CleanOneMore | index.js:744-758 | Cleaning one more playlist deletes its entry for the song and strips its legacy array. |
| Storage.RemoveSongIsolation | index.js:738-761 | When every write succeeds, none of the caller's playlists holds the song afterwards, in its entries or in its legacy array. No song is deleted, no other owner's playlists or entries change, and no playlist is added or removed. |
| Storage.Store.constructor | index.js:290-330 | A store starts from a database whose later ids are unused. |
| Storage.Store.Add | index.js:408 | `add` stores the song under `AutoId(nextId)` and returns that id. |
| Storage.Store.PutEntry | index.js:409-410 | A merge-write of one entry document. |
| Storage.Store.PutEntryTranspose | index.js:687-690 | A merge-write of one entry's `transpose`. Its `order` is kept. |
| Storage.Store.AddToLegacyOf | index.js:825-827 | The `arrayUnion` write, in place. |
| Storage.Store.AppendEntry | index.js:820-827 | The entry write followed by the legacy `arrayUnion`. |
| Storage.Store.Broadcast | index.js:164-172 | The live document becomes the broadcast record. |
| Storage.Store.ConsumeMessage | index.js:415-419 | Delete, else mark `processed: true`, in place. |
| Storage.Store.AddItemTo | index.js:396-411 | One iteration of the item loop, with `order` equal to 10·(i+1). |
| Storage.Store.AddCopyItems | index.js:393-412 | The item loop writes all items. If item k's song write throws, it writes exactly the items before k. If only item k's entry write throws, it also writes item k's song. Either way it reports failure. |
| Storage.Store.ImportCopy | index.js:351-420 | The copy import performed step by step equals `CopyImport`. |
| Storage.Store.DeleteEntryOf | index.js:747 | Deleting one entry document. A missing document is not an error. |
| Storage.Store.StripLegacyOf | index.js:750-756 | The `arrayRemove` write on one playlist, by cases. If the legacy array holds the song, the playlist becomes `StripLegacy` of it. Otherwise nothing changes, and stripping would be the identity. |
| Storage.Store.RemoveSongFromAllPlaylists | index.js:738-761 | The loop over the caller's playlists equals `RemoveSongEverywhere`. |
| Entries.CollectEntries | index.js:520-527 | One loaded entry per row, in query order. `order` and `transpose` default to 0. |
| Entries.CollectTranspose | index.js:528 | The transpose cache has exactly the ids of the rows. |
| Entries.CollectTransposeLast | index.js:528 | The last row for an id determines its cached transpose. |
| Entries.CollectRows | index.js:520-529 | The `forEach` that pushes entries and fills the cache computes both functions. |
| Entries.Insert | index.js:532 | Insertion adds exactly one element. |
| Entries.SortByOrder | index.js:532 | The sort is a permutation of its input. |
| Entries.InsertSorted | index.js:532 | Inserting into a sorted list keeps it sorted. |
| Entries.SortByOrderSorted | index.js:532 | The sorted entries are ascending by `order` and a permutation of the input. |
| Entries.SortByOrderStable | index.js:532 | The sort is stable: entries with equal `order` keep their relative order. |
| Entries.InsertWithOrder | index.js:532 | Inserting an entry places it after every existing entry with the same `order`. |
| Entries.WithOrderAppend | index.js:532 | Selecting by `order` distributes over concatenation. |
| Entries.InsertFrontWithOrder | index.js:532 | Prepending an entry whose order is below a sorted list's first adds it at the end of the selection by its own `order`. |
| Entries.NoneWithOrder | index.js:532 | Selecting an order below every entry's order gives nothing. |
| Entries.SortByOrderSortedInput | index.js:509-532 | Input already ordered by the query comes out of the sort unchanged. |
| Entries.SortedPrefix | index.js:532 | A prefix of a sorted list is sorted, and its orders are at most the last one. |
| Entries.InsertAtEnd | index.js:532 | An entry with the largest order is inserted at the end. |
| Entries.AppendSorted | index.js:817-822 | Appending an entry whose order is at least every other keeps the list sorted. |
| Entries.ResolveEntries | index.js:535-559 | The loop that looks up each entry's song computes `Resolve`. |
| Entries.ResolveAvailable | index.js:535-559 | The resolved list is exactly the available songs in entry order. Fetching from the owner adds to the cache, never changes a cached song, and never changes what a lookup finds. |
| Entries.AvailableMembers | index.js:535-559 | A song is in the list if and only if some entry's lookup finds it. Entries whose song is missing are skipped. |
| Entries.ResolveKnows | index.js:545-546 | Every listed song is in the cache under its own id. |
| Entries.PickCurrent | index.js:561-571 | There is no current song exactly when the list is empty. A current song in the list is kept. Otherwise the choice is the id of the list's first song. |
| Entries.IndexOfSong | index.js:920 | `findIndex`: the first position of the current song, or -1 when it is not in the list. |
| Entries.NextIndex | index.js:923-930 | The new index always lies in the list. |
| Entries.NextWraps | index.js:923-930 | Next moves one forward and wraps from the last song to the first. Previous moves one back and wraps from the first to the last. From "not found" (-1), next goes to the first song and previous to the last. |
| Entries.ModOnce | index.js:929 | The remainder of a value up to 2n. |
| Entries.NextPrevInverse | index.js:923-930 | Previous after next, and next after previous, return to the same index. |
| Entries.MaxOrderIsMax | index.js:817-818 | The maximum order is non-negative, at least every entry's order, and either 0 or attained by some entry. |
| Entries.NextOrder | index.js:817-819 | The loop computes max + 10, which is at least 10 and above every entry's order. |
| Entries.SplitLines | index.js:799 | The split yields at least one line, and no line holds a line break. |
| Entries.SplitJoin | index.js:799-803 | Joining the split lines with `\n` gives the text with each `\r\n`, `\r` and `\n` replaced by `\n`. |
| Entries.BlankTrimStart | index.js:800 | A blank line trims to nothing. |
| Entries.BlankIsTrimEmpty | index.js:800 | A line counts as blank exactly when it trims to "". |
| Entries.FirstNonBlank | index.js:800-801 | `findIndex` of the first non-blank line: every earlier line is blank, and -1 means all are blank. |
| Viewer.SelectSong | index.js:461-481 | Selecting a song changes only the current song and the transposition. A cached id becomes current with its saved transpose, or 0. Any other id clears the current song and leaves the transposition as it was. |
| Viewer.SelectSongLive | index.js:482-492 | The live write is made exactly when the user is an admin, a live session is attached and the selected song is cached. It carries the selected song and its transposition. |
| Viewer.PopulateSelects | index.js:603-660 | A current key is kept. With no current key, the chosen key is in the catalog exactly when the catalog is non-empty, and the last-viewed key wins when present. |
| Viewer.ResolvedAfterClear | index.js:496-498 | Clearing the lists first does not change the outcome of the load. |
| Viewer.PickAndLoadKeeps | index.js:561-573 | Picking and loading changes only the current song, the transposition and the live document. |
| Viewer.PickAndLoadCurrent | index.js:561-573 | There is no current song exactly when no entry resolved. A current song still in the list is kept; otherwise the first song is chosen, and it is cached. |
| Viewer.ResolvedShows | index.js:519-559 | The loaded entries are the query rows, and the list is the available songs in `order` order. Every listed song is cached. |
| Viewer.LoadEntriesShows | index.js:495-579 | Loading a playlist shows its entries and available songs and writes nothing but the live document. |
| Viewer.SaveTransposeRule | index.js:678-695 | Without owner or editor rights nothing is written and nothing changes. With them only the current entry's `transpose` is written, in the current playlist, and its `order` and the other entries are kept. The cached transpose is then what a later selection restores. |
| Viewer.LinkImport | index.js:1342-1380 | A link import keeps the catalog well-formed. |
| Viewer.LinkImportCases | index.js:1342-1380 | The message is always consumed. An incomplete link or a key already in the catalog leaves the session unchanged. Otherwise exactly one record is appended under `makePlKey(fromUid, playlistId)`, with `shared=true` and role defaulting to `viewer`, and it becomes the current and last-viewed key. |
| Viewer.ImportStep | index.js:351-432 | One message of either flavour keeps the catalog well-formed. |
| Viewer.Sweep | index.js:338-349 | The sweep keeps the catalog well-formed. |
| Viewer.SweepSnoc | index.js:1333-1336 | The sweep over one more message is that message's import after the sweep over the others. |
| Viewer.StepDone | index.js:351-432 | After its import, even one that failed part-way, a message is done: a later delivery writes nothing. |
| Viewer.StepKeepsDone | index.js:338-349 | Importing another message keeps a done message done. The failure of one message does not undo another's import. |
| Viewer.DoneStepQuiet | index.js:360-375 | Importing a done message changes nothing but the inbox. |
| Viewer.SweepDone | index.js:338-349 | After a sweep every swept message is done. |
| Viewer.SweepQuiet | index.js:338-349 | A sweep over done messages changes nothing but the inbox. |
| Viewer.SweepIdempotent | index.js:338-349 | Sweeping the same messages again changes the session and the database only in the inbox. |
| Viewer.LocalDoc | index.js:799-809 | The song made from local text always has content. |
| Viewer.AppendSong | index.js:816-831 | Appending writes no song and does not touch the song cache. |
| Viewer.AddSongToLibrary | index.js:811-814 | The new song is added under an id not used before, is cached, and the later ids stay unused. |
| Viewer.AddSongToPlaylist | index.js:816-822 | The new entry's order lies above every loaded entry's order, with transpose 0, and is pushed to the loaded entries. Sorted entries stay sorted. |
| Viewer.AppendSongEntries | index.js:817-822 | The append writes exactly one entry, with order max + 10 and transpose 0, and pushes the same entry. |
| Viewer.AddSongToLegacy | index.js:824-831 | The user's playlist lists the new song in its legacy array, and the new song becomes current. |
| Viewer.AddLocalRule | index.js:790-809 | Without a signed-in owner of the current playlist, or with blank text, nothing happens. Otherwise the song's title is the first non-blank line and its body the lines after it. |
| Viewer.GoPrevNextWraps | index.js:917-936 | Which song becomes current. With no current song in the list, next picks the first and previous the last. Otherwise next picks the following song, wrapping from last to first, and previous the preceding one, wrapping from first to last. |
| Viewer.GoPrevNextStaysInPlaylist | index.js:917-936 | Navigation keeps the list and always selects a song of the same playlist. |
| Viewer.PrevUndoesNext | index.js:917-936 | With distinct ids, stepping back after stepping forward, or forward after back, returns to the same song. |
| Viewer.RetransposeEffect | index.js:1063-1065 | A button changes the transposition by -1, +1 or to 0. It broadcasts exactly when the live condition holds, and persists only with write rights. |
| Viewer.App.constructor | index.js:136 | A fresh session: nothing loaded, no current playlist or song, transposition 0. |
| Viewer.App.SyncLive | index.js:164-173 | The live write, performed in place, gives `LiveAfter`. |
| Viewer.App.LoadSelectedSong | index.js:461-493 | `loadSelectedSong` performed step by step equals `LoadSong`. |
| Viewer.App.PopulatePlaylistsAndSongs | index.js:603-673 | The rebuild of both catalogs and the key choice equals `Populate`. |
| Viewer.App.LoadEntriesForCurrentPlaylist | index.js:495-579 | The whole load equals `LoadEntries`. |
| Viewer.App.ShowRows | index.js:508-573 | The non-empty branch of the load equals `LoadRows`. |
| Viewer.App.ResolveCurrentEntries | index.js:519-559 | Collecting, sorting and resolving equal `Resolved`. |
| Viewer.App.PickAndLoadSong | index.js:561-573 | The final pick and load equal `PickAndLoad`. |
| Viewer.App.SaveCurrentEntryTranspose | index.js:678-695 | The guarded write equals `SaveTranspose`. |
| Viewer.App.PressTranspose | index.js:1063-1065 | A button handler equals `Retranspose`. |
| Viewer.App.ImportLink | index.js:1342-1380 | The link import in place equals `LinkImport`. |
| Viewer.App.ImportMessage | index.js:351-432 | One message of either flavour equals `ImportStep`. |
| Viewer.App.ProcessInboxOnce | index.js:338-349 | The loop over the pending messages equals `Sweep`. Each message's failure is contained in its own step. |
| Viewer.App.AddCurrentLocalToPlaylist | index.js:790-834 | The guarded add equals `AddLocal`. |
| Viewer.App.AddSongDoc | index.js:811-831 | The add for a given song document equals `AddSongTo`. |
| Viewer.App.AppendSongEntry | index.js:816-831 | Steps 2 to 4 of the add equal `AppendSong`. |
| Viewer.App.RecordAppend | index.js:816-830 | The entry write, the legacy write and the local push, with order max + 10. |
| Viewer.App.GoPrevNextSong | index.js:917-936 | The navigation equals `GoPrevNext`. Which song that selects is `Viewer.GoPrevNextWraps`. |

## Left out

- DOM rendering, `processInput`, the chord-wrapping regex, toasts, timers, font fitting, search (including its Unicode normalisation), voice, swipe gestures, sign-in and the service worker. They are user-interface and browser plumbing. `isAdmin` is a given flag.
- `liveSessionRef` is never assigned in `index.js`. It is modelled as a flag, `hasLiveRef`, that the session is given.
- Query results are parameters of the operations: the snapshots of owned playlists, user and public songs, grants, playlist entries and pending inbox messages. Reads never fail in the model. The read-failure `catch` paths that only log are left out.
- Timestamps (`Date.now()`, `serverTimestamp()`), `processedAt`, `_filename` and the toast texts are not modelled.
- Storage failures are modelled only where the code branches on them:
  - an item write of a copy import that throws stops the loop, either at the song write or at the entry write after the song was added;
  - the delete-or-mark fallback is `Faults`;
  - a failing transpose save;
  - the entry write that throws when the playlist id is empty in the local add.
  Other write failures of the local add, and the refresh after an import, are not modelled. Neither are the entry delete and the `arrayRemove` write of `removeSongFromAllPlaylists` (index.js:747, index.js:752-755): the code swallows their failures with `.catch(()=>{})`, so a failed write there leaves the song in that playlist. The model lets both writes always succeed.
- `onSnapshot` watchers and the runtime rebinding of the inbox functions are left out. The sweep dispatches on the message's `Copy` or `Link` tag instead. In the code as written, after the rebinding the link importer handles every message.
- The trailing `populatePlaylistsAndSongs`/`loadEntriesForCurrentPlaylist` calls after an import are separate steps of the model: `App.PopulatePlaylistsAndSongs` and `App.LoadEntriesForCurrentPlaylist`.
- A link import writes no grant. A later rebuild of the catalog therefore drops the linked playlist unless a grant for it exists. The model shows this and does not change it.
- A copy retry after a partial failure does not add the missing items. The existence check consumes the message. The model follows the code (`Storage.CopyImportIdempotent`).
- Storage.CopyImport: a failure of the playlist merge-write (index.js:378-391) is not modelled. In the code it throws before anything else is written, and the message stays pending for the next sweep. The model always writes the playlist, so `Viewer.StepDone` holds for every import.
- Text.ToLower: maps ASCII letters only. JavaScript's `toLowerCase` also maps non-ASCII capitals, and playlist names with such letters can slugify differently.
- Chords.TransposeWith: the regular expression `^([CDEFGAB][b#]?)(.*)$/i` is written out as the predicate `RootMatches`. No regular-expression engine is modelled.
- JavaScript falsy values (`null`, `undefined`, `""`) in string fields are the empty string. Fields whose type the code tests are `Option`s.
- Song ids from `add` come from a counter, `AutoId(nextId)`. The database's random ids are left out.

## Findings

| source | as written | input that shows it | evidently intended | confidence | as-written member | corrected member |
|---|---|---|---|---|---|---|
| index.js:152 | `(idx + semitones + sharps.length) % sharps.length` uses JavaScript's truncating `%`. Below an octave down the index is negative, `sharps[nidx]` is `undefined`, and the chord renders as the text "undefined". The buttons at index.js:1063 decrement without bound. | chord "C", semitones -13 | "B": the pitch taken modulo 12 | not executed | Chords.AsWrittenUndefinedBelowOctave (Chords.AsWrittenRecognised) | Chords.TransposeChord (Chords.TransposeOctave, Chords.AsWrittenAgrees) |

# Chunked, parallel and resumable uploads: a verified model

This project models the parts of the file-list server's storage drivers that cut files apart and put
them together again, and proves what they promise.

* **Chunker** (`drivers/chunker`): a storage that splits one logical file into chunks spread over
  several remotes and commits them through a small metadata file. Each remote is a map from paths to
  directories and bytes; each storage operation is one atomic step that may fail. The modules
  `ChunkNames`, `ChunkNameMatching`, `ChunkNameLaws`, `Json`, `JsonLaws`, `ChunkMetadata` and `ChunkInit`
  model file names, the metadata codec and the options; `ChunkView` says what a logical name lists as;
  `ChunkListing`, `ChunkReader` and `ChunkAccess` are the listing and reading code proved against
  that; `ChunkStates`, `Striping`, `BaseWrite`, `BaseSweep`, `StrayChunks`, `ChunkUpload`, `PutMeta`, `PutSmall`,
  `PutBare` and `ChunkPut` are Put; `ChunkTransfer`, `TransferViews`, `Mirror`,
  `ChunkMoves` and `ChunkRename` are Move, Copy, Remove and Rename of files; `DirOps` the directory
  operations.
* **Parallel upload** (`drivers/139`): `Sha256`, `ParallelParts`, `ParallelUpload`.
* **Resumable upload** (`drivers/baidu_netdisk`, `drivers/base`): `UploadProgress`, `BaiduUpload`.
* **Link trees** (`drivers/123_link`): `LinkTree`, `LinkText`, `LinkBuild`, `LinkSize`, `LinkLookup`,
  `LinkPrint`.
* **Shared limiters** (`drivers/aliyundrive_open`): `UserLimiter`, `LimiterRuns`.
* **Codecs and part plans**: `Base64Hex` (`drivers/189`), `Md5Mask` (`drivers/baidu_netdisk`),
  `PartPlans` (`drivers/115`, `drivers/115_open`, `drivers/189pc`, `drivers/baidu_netdisk`).

`dafny verify dfyconfig.toml` checks everything.

The chunker theorems speak of a run as the sequence of states its steps leave behind, so a promise
about every state of a run is a promise about stopping anywhere. They also say what is asked of the
remotes, call by call, in `RemoteOps.Mounts.log`; which calls meet with trouble is an arbitrary function of
their position there, so a run can fail anywhere, and it fails exactly where a call does. They take the
configuration as a parameter with laws (`ChunkView.Lawful`); `ChunkInit.InitIsLawful` shows that Init returns a
configuration that obeys them. `ChunkView.ViewOf` is the specification of listing, and
`ChunkListing.ListDirObjects` is the program proved to compute it. The listing takes every file whose name
reads as a chunk for that chunk, also with more digits than the chunker writes or an id of the old style, so
`ViewOf` looks at the files through `ChunkView.Seen`, which holds each under the canonical name of what it
reads as. Where one remote holds two spellings of one chunk, which of them counts is left open
(`ChunkView.Pick`). Link, Move and Rename look under the canonical name only.

Where the code does less than one would expect, the exact condition is proved and a concrete input
exhibited; those of the chunker are in `ChunkWitnesses`, in a storage as Init returns it:

* A base file that is metadata-shaped but has no chunk lists as a plain file and turns into metadata
  the moment any chunk of a new upload appears beside it (`PutMeta.UploadingView`;
  `ChunkWitnesses.DormantWakes`).
* A Put of more than 10000000 chunks commits metadata that no reader accepts (`PutMeta.CommittedView`;
  `ChunkWitnesses.TooManyChunks`).
* Put does not reject a name that itself reads as a chunk name, in whatever spelling. Such a file, small or
  metadata, never lists, and it can show up in the object whose chunk it reads as (`PutMeta.CommittedView`,
  `PutSmall.SmallView`, `BaseWrite.LandedOthers`; `ChunkWitnesses.ChunkNameSwallowed`,
  `ChunkWitnesses.PaddedNameSwallowed`). A plain
  or metadata object renamed to such a name is lost in the same way and can show up elsewhere
  (`ChunkRename.RenameComplete`, `ChunkRename.RenameKeepsOthers`; `ChunkWitnesses.RenamedIntoChunk`).
* A large Put in format none under such a name removes that chunk of the other object, which may be gone
  (`BaseSweep.SweptOthers`, `BaseSweep.SweptEverywhere`; `ChunkWitnesses.ChunkPlucked`). The same step removes
  a directory of that name on any remote with everything in it (`ChunkWitnesses.DirectorySwept`).
* Init accepts a negative number base, under which no chunked object ever lists as it was put
  (`PutMeta.OnlyListable`, `PutBare.OnlySpellable`; `ChunkWitnesses.NegativeBaseNeverLists`,
  `ChunkWitnesses.UnspellableShows`).
* A small file whose own text is metadata-shaped reads as metadata if a chunk of its name is left over
  (`PutSmall.SmallView`; `ChunkWitnesses.SmallTurnsToMeta`).
* A chunk that is there in a spelling the chunker does not write is listed, but Link does not find it, and a
  Move, Copy or Rename stops at it (`ChunkAccess.ReadObject`, `ChunkMoves.TransferFile`,
  `ChunkRename.RenameFile`; `ChunkWitnesses.PaddedNameSwallowed`).
* Without metadata the result depends on every base file being removed, whose errors Put ignores, and
  on no stray untagged chunk being around, in any spelling (`PutBare.PutBare`; `ChunkWitnesses.StrayJoins`,
  `ChunkWitnesses.PaddedStray`).
* Metadata without any chunk does not survive a Move, Copy or Rename as the same object
  (`ChunkMoves.TransferComplete`, `ChunkRename.RenameComplete`; `ChunkWitnesses.MetadataAloneIsLost`).
* Resuming an upload with another slice size than it was begun with creates an incomplete file, unless the
  number of blocks stays the same and none has been sent, or fails where the list goes beyond the new end
  (`BaiduUpload.Put`, `BaiduUpload.OtherSliceSize`; `BaiduUpload.ResumedTwice`).
* A second expired upload id within one call falls out of the two-attempt loop into creating the file
  (`BaiduUpload.Put`; `BaiduUpload.ExpiredTwice`).
* Splitting a file of exactly nine gigabytes, and of no other size, indexes an empty list
  (`PartPlans.SplitFile`).
* The comment over the link-tree parser allows a modification time without a size; the code reads a
  single number as the size, and the model follows the code.

## Model

| member | source | states |
|---|---|---|
| ChunkNames.XactId | drivers/chunker/driver.go:357-363 | A transaction id made from the clock is four to nine base-36 characters |
| ChunkNameLaws.XactIdIsTheClock | drivers/chunker/driver.go:357-363 | The id read as a base-36 number is the clock up to whole periods of 36 to the ninth nanoseconds |
| ChunkNameLaws.XactIdsDiffer | drivers/chunker/driver.go:357-363 | Two Puts at times less than 28 hours apart, 36 to the ninth nanoseconds, get different ids |
| ChunkNameMatching.SearchFindsName | drivers/chunker/util.go:72-120 | Under leftmost, non-greedy matching the name group of a made name is the whole true name, even if that name looks like a chunk name itself |
| ChunkNameLaws.ParseOfMake | drivers/chunker/util.go:156-196 | Reading a made name returns its parts, the transaction id padded to four characters, and no control type |
| ChunkNameLaws.ControlReads | drivers/chunker/util.go:165-196 | A name with a control type of three to seven characters, a letter first, reads as a control chunk of that type and id |
| ChunkNameLaws.OldSuffixReads | drivers/chunker/util.go:165-196 | A name with an old-style suffix of ten to thirteen digits reads as that chunk, under the id made of the digits |
| ChunkNameLaws.RoundTrip | drivers/chunker/util.go:156-196 | For the default format the round trip holds if and only if the chunk number with its base is in range and the id is empty or at least four characters long |
| ChunkNameLaws.ParseRange | drivers/chunker/util.go:165-196 | Whatever reads as a chunk has a main name, a number in range or a control type of three to seven characters, and an id of the shape the writer uses |
| ChunkNameLaws.ParseNormalises | drivers/chunker/util.go:156-196 | Every data chunk name has one canonical spelling that reads as the same chunk |
| ChunkNameLaws.AnyPaddingReads | drivers/chunker/util.go:165-196 | However many digits a chunk number is padded to, three or more, the name reads as the same chunk |
| ChunkNameLaws.OldXactIsXact | drivers/chunker/util.go:186-194 | An old-style ten to thirteen digit suffix converts to an id of the current shape |
| ChunkNameLaws.OldXactValue | drivers/chunker/util.go:186-194 | That id is the suffix's number in base 36 |
| ChunkNameLaws.UnspellableUnread | drivers/chunker/util.go:156-196 | A made name whose number, with the base, leaves the range or whose main name is empty or has several lines does not read as a chunk at all |
| Numerals.AtoiOfFormatInt | drivers/chunker/util.go:170-180 | A printed, zero-padded chunk number reads back |
| JsonLaws.ReadOfWrite | drivers/chunker/types.go:48-55 | JSON text of a flat object of ASCII members, with escapes, reads back as the same members in the same order |
| JsonLaws.ReadOfSay | drivers/chunker/util.go:218-240 | Every JSON value of ASCII strings, numerals and the three words, nested to any depth and written with any white space, reads back |
| Json.ReadTextOf | drivers/chunker/util.go:198-216 | An escaped JSON string reads back, whatever ASCII text it holds |
| ChunkMetadata.UnmarshalOfMarshal | drivers/chunker/util.go:198-262 | Unmarshalling what was marshalled gives the same fields, version 1 exactly when there is no transaction id, if and only if the size is not negative, the count is 1 to 10000000 and the hashes are well formed; otherwise it is rejected |
| ChunkMetadata.MarshalFits | drivers/chunker/util.go:198-216 | Marshalling a record a Put writes never meets the 255-byte limit: it stays under 200 bytes |
| ChunkMetadata.UnmarshalAccepts | drivers/chunker/util.go:218-262 | Whatever is accepted is an object of at most 255 bytes with version 1 or 2, a non-negative size, a count in range and hexadecimal hashes |
| ChunkMetadata.AnyCase | drivers/chunker/util.go:218-240 | Keys are compared without regard to the case of their letters |
| ChunkInit.InitIsLawful | drivers/chunker/driver.go:34-69 | Init fails exactly on a bad size, metadata format or hash type; the configuration it returns is lawful, never counts chunks from zero, and can print the number of a first chunk if and only if the number base is not negative, which Init does not ask for |
| ChunkInit.WrittenMetaReadsBack | drivers/chunker/util.go:198-262 | A record of a Put marshals and reads back, unless it counts more than 10000000 chunks, and then it is rejected |
| RemoteOps.Mounts.EnsureDir | drivers/chunker/util.go:442-448 | MakeDir creates every missing directory on the way, touches no file, and changes nothing when it fails, which it does exactly in trouble or where a file stands in the way, and never for the root |
| RemoteOps.Mounts.Put | drivers/chunker/driver.go:399-404 | One atomic write of one path on one remote, logged; it fails exactly in trouble or where a directory or a file is in the way |
| RemoteOps.Mounts.Remove | drivers/chunker/util.go:790-809 | One atomic removal, logged; removing what is absent changes nothing |
| RemoteOps.Mounts.Move | drivers/chunker/driver.go:181-201 | One atomic move of a file or tree on one remote, logged; it fails exactly in trouble, without a source or without a destination |
| RemoteOps.Mounts.Copy | drivers/chunker/driver.go:267-287 | One atomic copy of a file or tree on one remote, logged; it fails exactly in trouble, without a source or without a destination |
| RemoteOps.Mounts.Rename | drivers/chunker/driver.go:221-240 | One atomic rename on one remote, logged; it fails exactly in trouble or without a source |
| ChunkView.ViewIgnoresFresh | drivers/chunker/util.go:600-709 | Chunks of a fresh transaction, however spelled, never change what a name lists as, unless its base file is metadata-shaped and had no chunk at all |
| ChunkView.ViewFrame | drivers/chunker/util.go:600-709 | What a name lists as depends only on its base file and on the files that read as its chunks, in any spelling |
| ChunkView.CanonicalSeen | drivers/chunker/util.go:383-404 | Where chunk files are spelled the way the chunker spells them, what counts as a chunk is the file of that very name |
| ChunkView.PartsAre | drivers/chunker/util.go:740-749 | An ascending list with the right members is the list of parts: lowest remote wins, order by number |
| ChunkListing.GroupRemote | drivers/chunker/util.go:361-418 | Grouping one remote's entries keeps, for every name, the lowest remote's base file and chunk of each number and transaction, every chunk file counting as the chunk it reads as; of two spellings on one remote one is kept |
| ChunkListing.BuildListedObject | drivers/chunker/util.go:600-709 | A group lists as the specified view: metadata only with a small readable base file and some chunk, chunks without metadata, or a plain file; an unreadable base file lists as plain |
| ChunkListing.SortParts | drivers/chunker/util.go:740-749 | Parts come out in ascending order of number, all of them |
| ChunkListing.ListDirObjects | drivers/chunker/util.go:337-429 | The listing reports exactly the sub-directories and the views of all names over all remotes, a chunk file of any spelling counting as the chunk it reads as, unless a remote spells one chunk in two ways, and then the views with one of the two taken; it fails exactly if a remote is down or a file stands where the directory is asked for, and is not found exactly if no remote has it |
| ChunkListing.SpellingSettled | drivers/chunker/util.go:383-404 | Unless a remote spells one chunk in two ways a listing is right for the files taken under their canonical names exactly if it is right for the remotes as they are |
| ChunkReader.CollectSections | drivers/chunker/util.go:839-870 | The section readers concatenate to the part of the requested window that the chunks cover |
| ChunkReader.OpenChunkReader | drivers/chunker/util.go:830-875 | The loop returns exactly the specified slice or error |
| ChunkReader.RangeRead | drivers/chunker/util.go:830-875 | A range read is the clamped slice of the concatenated chunks; it reports missing data if and only if the clamped range is non-empty and ends beyond them |
| ChunkReader.OutOfBounds | drivers/chunker/util.go:830-833 | A read is out of bounds if and only if it starts before or behind the object |
| ChunkReader.WrappedRangeFails | drivers/chunker/util.go:834-838 | A request whose end overflows 64 bits is not clamped and always fails for missing data |
| ChunkReader.PrefixRead | drivers/chunker/util.go:830-875 | With only the first chunks present a read gives the same answer or fails for missing data, never other bytes |
| ChunkAccess.LinkParts | drivers/chunker/driver.go:120-150 | Link opens each chunk on the remote the listing found it, under its canonical name, and succeeds if and only if all are there |
| ChunkAccess.ReadObject | drivers/chunker/driver.go:105-151 | A range read through Link of a freshly listed object: a plain file through its remote's own link, a chunked one through the chunk reader; not found if some chunk is there in another spelling only, and the listed bytes wherever the spellings are canonical |
| ChunkAccess.ProperIsLinked | drivers/chunker/driver.go:105-131 | Canonically spelled chunks of a listed object are all opened, with the bytes listed |
| ChunkAccess.WholeReads | drivers/chunker/util.go:830-875 | An object whose chunks hold a byte string whole serves every clamped slice of it |
| Striping.RunCoversTargets | drivers/chunker/util.go:294-324 | A run of as many chunks as there are targets uses every target exactly once and no other remote; the primary is a target if and only if it is alone or the option says so |
| Striping.TargetIs | drivers/chunker/util.go:294-324 | Chunks go round the remotes in order, beginning with the primary, or behind it if it is spared |
| ChunkStates.ConcatOfSplit | drivers/chunker/driver.go:369-407 | The chunks of a stream concatenate to the stream, for any chunk size |
| ChunkStates.NumbersOkExact | drivers/chunker/util.go:156-163 | The numbers of a run of chunks all print as names that read back if and only if the base is not negative and the last number, base included, has 64 bits |
| ChunkStates.WriteChunk | drivers/chunker/driver.go:369-407 | One chunk write adds that chunk on its target and changes nothing else |
| ChunkStates.OthersFrame | drivers/chunker/util.go:600-709 | If only files of one name differ, every other name lists as before |
| BaseWrite.LandedOthers | drivers/chunker/util.go:383-417 | A file written under a name leaves every other listing as it was if and only if what then counts as the chunk that the name reads as, in whatever spelling, does not disturb an object: it lists that chunk, or is woken up by it; unless the primary holds another spelling of it that is the file written |
| BaseWrite.ShiftView | drivers/chunker/util.go:600-709 | The object whose chunk a name reads as, in whatever spelling, keeps its listing if and only if the winning copy of that chunk stays the same, or it neither lists that chunk, nor is woken up by it, nor needed it to stay awake |
| BaseWrite.SparedSpelled | drivers/chunker/util.go:600-709 | So in every state in which only files of two names and what lies at the path of one of them differ |
| ChunkUpload.ListedLocations | drivers/chunker/util.go:772-788 | Every location of a listed object is where its remote holds that file or, for a chunk, some spelling of it |
| ChunkUpload.ListedIsRemovable | drivers/chunker/util.go:772-788 | The object as it was listed at some time, or none, can be handed to Put as the one to replace, whatever has happened to its files since, if and only if no directory lies at one of its locations |
| ChunkUpload.Cleanup | drivers/chunker/util.go:790-809 | Cleanup asks for the removal of every location that is not kept, in order, whatever fails, and reports an error exactly if one did; it removes only those, in every state it passes through |
| ChunkUpload.UploadChunks | drivers/chunker/driver.go:342-407 | The chunk loop asks for the directory on the primary and then for every chunk on its target in order, with the directory on each target used for the first time, and stops exactly at the first failure; when it is done every chunk lies on its target, the stream has been hashed whole, and no state on the way showed anything but chunks of this transaction; for names and numbers of every kind only the files made have appeared |
| StrayChunks.TouchedOthers | drivers/chunker/util.go:361-418 | Wherever only the files made and the name's own differ, all others list as before, but for chunk files that cannot be found again, if and only if what then counts as the chunk that the name reads as, in any spelling, does not disturb its object |
| StrayChunks.StrayShows | drivers/chunker/util.go:369-382 | A chunk file that cannot be found again lists as a file of its own |
| StrayChunks.NoStrayFile | drivers/chunker/util.go:156-196 | There are none if the name is one line and the numbers print |
| PutMeta.UploadingView | drivers/chunker/driver.go:357-407 | While chunks are uploaded a name lists as before if and only if it has no dormant metadata-shaped base beside which some chunk, in any spelling, now lies; all other names list as before |
| PutMeta.CommittedView | drivers/chunker/driver.go:409-438 | With the metadata written a name lists as the whole new object if and only if it does not read as a chunk name and has at most 10000000 chunks; with too many it lists as the metadata text |
| PutMeta.OnlyListable | drivers/chunker/util.go:600-709 | In no state whatever does a name list as a new object with metadata unless it is one line, does not read as a chunk name, its chunk numbers print and their count is accepted |
| PutMeta.PrunedCommit | drivers/chunker/util.go:790-809 | No removal of the cleanup changes what the committed object or any other name lists as |
| PutMeta.PutWithMeta | drivers/chunker/driver.go:342-450 | Atomic replacement in every state of a run that may stop anywhere: the old listing before the metadata write, from it on the new object if and only if that is listable, and other names as before if and only if what then counts as the chunk that the name reads as, in any spelling, disturbs none of them; for a name or a base whose chunks cannot be found again, which files every state has; what is asked of the remotes, in order, and that the Put fails exactly where one of these calls does |
| PutMeta.ScatteredViews | drivers/chunker/driver.go:342-450 | Under whatever name and number base, before the metadata write all other names list as before but for chunk files that cannot be found again; from then on each of these is a file of its own and the others stay if and only if what then counts as the chunk that the name reads as, in any spelling, disturbs none of them |
| PutSmall.SmallView | drivers/chunker/driver.go:330-335 | A small file lists as itself if and only if its name does not read as a chunk name and it is not metadata-shaped beside a chunk of that name, in any spelling; other names list as before if and only if what then counts as the chunk that the name reads as disturbs none of them |
| PutSmall.PutSmall | drivers/chunker/driver.go:330-335 | A small Put changes no listing up to its single write and has that result in every later state; after success a chunk of the name is there exactly if a file that reads as one was that the replaced object does not account for; it asks for the directory, the write and the removals and fails exactly where one of these does |
| PutBare.BareResult | drivers/chunker/driver.go:440-449 | Without metadata a finished Put lists as exactly the new chunks only if no base file is left and every other file that reads as an untagged chunk belonged to the replaced object or is shadowed; and if so, unless a new chunk has come to lie beside another spelling of it |
| PutBare.PutBare | drivers/chunker/driver.go:342-450 | The finished run lists as exactly the new chunks only if they can be found again, every remote that held a base file had it removed, and no stray untagged chunk in any spelling was there before, and if so, unless a new chunk has come to lie beside another spelling of it; in every state other names list as if only the base path had been removed where it has been, and at the end as before the call if and only if that removal spares them, but for chunk files that cannot be found again |
| PutBare.ClearBase | drivers/chunker/driver.go:440-446 | The base path is removed on every remote, one attempt each, errors ignored |
| PutBare.OwnChunksAreNoStrays | drivers/chunker/util.go:772-809 | Overwriting an untagged object as it is listed, or a name that is not there, meets all those conditions if there is no base file, its untagged chunks are spelled canonically and no chunk number lies on two remotes |
| PutBare.BesideElsewhere | drivers/chunker/driver.go:440-449 | So what neither lies below the base path nor is the object whose chunk the name reads as, nor is a chunk file that cannot be found again, lists as before in every state |
| BaseSweep.SurvivesExactly | drivers/chunker/util.go:600-709 | When some remotes lose all their files of a directory, a name there lists as before if and only if none of the copies it lists was on those and its metadata, if any, keeps a chunk beside it |
| BaseSweep.SweptOthers | drivers/chunker/driver.go:440-446 | The removal at the base path, with whatever outcome on each remote, leaves every other listing as it was if and only if no winning copy of a name below the path was on a remote where a directory went, nor the last chunk beside metadata, and the chunk that the path reads as, in any spelling, does not disturb its object by its loss |
| BaseSweep.SweptEverywhere | drivers/chunker/driver.go:440-446 | When it succeeds on every remote: if and only if nothing was listed below the path, and what is left of the chunk that the path reads as, nothing if it had no other spelling, does not disturb its object |
| ChunkPut.Put | drivers/chunker/driver.go:319-450 | All three kinds of Put, dispatched on size and metadata format, for any name and for an object to replace that is fresh, stale or missing, with what the name and all others list as in every state, what is asked of the remotes in which order, and failure exactly where one of these calls fails |
| ChunkPut.NewViewHoldsStream | drivers/chunker/driver.go:357-450 | The new object holds the stream whole for any chunk size, number of targets and placement |
| ChunkPut.NewViewHashes | drivers/chunker/util.go:751-763 | The new object reports the stream's own digest, of the kind the options ask for and no other |
| ChunkPut.AtomicReplacement | drivers/chunker/driver.go:357-450 | Every range read, listing and Link together, in every state of a Put with metadata gives either what it gave before or the clamped slice of the new stream; every other name lists and reads as before |
| ChunkPut.ClockIsFresh | drivers/chunker/driver.go:357-363 | Where all chunk files and the metadata of a name stem from Puts at other times of the last 28 hours, an id from the clock is one that nothing uses |
| ChunkPut.NextPutIsFresh | drivers/chunker/driver.go:357-363 | Whatever state a Put has come to, wherever it stopped, the id a later one takes from the clock is not in use there, as long as all Puts of the name have been less than 28 hours before; so that one is atomic in its turn |
| ChunkPut.BareReplacement | drivers/chunker/driver.go:342-450 | Without metadata an untagged object without base file, its chunks canonically spelled and none on two remotes, is replaced by exactly the new chunks, and every range read through Link is served from the new stream |
| ChunkTransfer.TransferObject | drivers/chunker/driver.go:181-201 | The loop asks for one operation on every location in order, making the destination directory on each remote used for the first time, and stops exactly at the first failure; every recorded state is a prefix |
| ChunkTransfer.Transfer.Step | drivers/chunker/driver.go:181-201 | One location handled: the file is at the destination, or gone, and nothing else differs |
| TransferViews.SourceVanishes | drivers/chunker/driver.go:307-316 | After k locations the source is unlisted if and only if no base copy and no file reading as an untagged chunk of it, in any spelling, lay outside them |
| TransferViews.ProperIsUnobstructed | drivers/chunker/driver.go:161-201 | Where the listed chunks are spelled canonically every location exists and no directory can be in the way |
| ChunkMoves.TaggedIsLone | drivers/chunker/util.go:772-788 | For a tagged object without a second base copy or untagged chunks in any spelling the first step is enough for that, and so is every later one |
| TransferViews.DestLists | drivers/chunker/driver.go:181-201 | A fresh destination lists the metadata text first and then the object with its first chunks, where no remote spells one of them in two ways |
| TransferViews.PlainArrives | drivers/chunker/driver.go:161-179 | A plain file arrives in one step |
| ChunkMoves.TransferFile | drivers/chunker/driver.go:157-202 | Every state of a Move, Copy or Remove run keeps source, destination and all other names as described; it asks for the locations in order and fails exactly where a call does; a Move or Copy succeeds only if every chunk is there in its canonical spelling |
| ChunkMoves.HalfMovedReads | drivers/chunker/driver.go:181-201 | Once a chunk has reached the destination every range read there through Link gives the bytes listed at the source, which are those it gave if spelled canonically, or fails for missing data |
| ChunkMoves.TransferComplete | drivers/chunker/driver.go:267-287 | A finished Move or Copy lists the object unchanged if and only if it has chunks |
| Mirror.MirrorLists | drivers/chunker/util.go:600-709 | What a directory lists that mirrors the first chunks of an object, with or without the metadata |
| ChunkRename.RenameFile | drivers/chunker/driver.go:204-241 | A rename asks for the chunks as they are listed and then for the base file, and fails exactly where one of these calls does; to any other name, of one line if there are chunks, it has then renamed the first files of the object and nothing else, wherever it stopped, at the latest at a chunk listed in another spelling only, and all of them if it reports no error |
| ChunkRename.RenameComplete | drivers/chunker/driver.go:204-241 | A finished rename of a plain or chunked object, with no chunk spelled in two ways on one remote, to a fresh name lists it there unchanged if and only if the new name carries its files (one line for chunks, no chunk name for a base file) and it is not metadata without chunks |
| ChunkRename.RenameVacates | drivers/chunker/driver.go:204-241 | After a finished rename the old name is unlisted if and only if no other base copy and no other file that reads as an untagged chunk of it, in any spelling, was there and its base file was not renamed to an untagged chunk of itself |
| ChunkRename.RenameKeepsOthers | drivers/chunker/driver.go:204-241 | After any number of renames every third name lists as before, but for a finished one whose base file shows up in the object whose chunk the new name reads as, in any spelling: an exact condition |
| Mirror.AbsentExactly | drivers/chunker/util.go:600-709 | A name is unlisted if and only if it has no base file and no file reads as an untagged chunk of it |
| ChunkWitnesses.DormantWakes | drivers/chunker/util.go:600-634 | In a storage from Init: metadata text without chunks lists as a plain file, and the first chunk of a new upload turns it into an empty object |
| ChunkWitnesses.TooManyChunks | drivers/chunker/util.go:218-241 | With a chunk size of one byte every stream of 10000001 bytes ends up listed as its metadata text |
| ChunkWitnesses.SmallTurnsToMeta | drivers/chunker/util.go:600-634 | A small file of metadata text beside a left-over chunk lists as an empty object |
| ChunkWitnesses.StrayJoins | drivers/chunker/driver.go:440-449 | A plain file replaced in format none, with an untagged chunk lying around that it hid: the chunk ends up in the new object although everything succeeded |
| ChunkWitnesses.PaddedStray | drivers/chunker/util.go:383-404 | A chunk 5 of x spelled with four digits is stray for every Put of fewer chunks in format none that does not replace it; a chunk 0 spelled so mixes with the new one |
| ChunkWitnesses.MetadataAloneIsLost | drivers/chunker/driver.go:267-287 | An object of metadata without chunks lists as its metadata text after a copy |
| ChunkWitnesses.ChunkNameSwallowed | drivers/chunker/util.go:383-417 | A file put under the name x.rclone_chunk.001 never lists and makes the name x appear, which was not there |
| ChunkWitnesses.PaddedNameSwallowed | drivers/chunker/util.go:383-404 | A file put under the name x.rclone_chunk.0001, with a digit more than the chunker writes, never lists and makes the name x appear, which was not there and cannot be opened |
| ChunkWitnesses.RenamedIntoChunk | drivers/chunker/driver.go:210-219 | A plain file y renamed to that name: neither name lists, and x appears |
| ChunkWitnesses.ChunkPlucked | drivers/chunker/driver.go:440-446 | A large Put in format none under the name x.rclone_chunk.001 succeeds and lists whole, and has removed that chunk of the untagged object x, which is gone |
| ChunkWitnesses.DirectorySwept | drivers/chunker/driver.go:440-446 | A Put in format none of a name under which another remote has a directory takes the files in it along |
| ChunkWitnesses.NegativeBaseNeverLists | drivers/chunker/driver.go:34-53 | With a negative number base, which Init accepts, no state lists any name as a new chunked object |
| ChunkWitnesses.UnspellableShows | drivers/chunker/util.go:156-196 | A chunk whose number does not print, or whose main name has several lines, lists as a file of its own |
| DirOps.RelocateMovesTree | drivers/chunker/util.go:489-518 | Moving a directory puts the whole tree at the destination and leaves nothing at the source |
| DirOps.CopyCopiesTree | drivers/chunker/util.go:520-554 | Copying a directory puts the whole tree at the destination and leaves the source |
| DirOps.ExistingLocations | drivers/chunker/util.go:460-472 | Exactly the remotes that have the directory, in ascending order; an error exactly if a remote cannot be asked |
| DirOps.AcrossTargets | drivers/chunker/util.go:489-598 | Move, copy, rename and removal give every remote that has the source its turn, whatever fails on the others, and ask nothing of the rest; a remote is done if the steps of its turn, in order, all succeeded, and otherwise as it was but for new directories on the way; success means that no call failed; a missing source is an error except for a copy, which asks every remote again; an error before the first turn changes nothing |
| DirOps.ViewTransport | drivers/chunker/util.go:600-709 | The merged view of every name below the destination is the one that was below the source, winners included |
| DirOps.UnionCommutes | drivers/chunker/util.go:337-429 | After success the merged listing of every sub-path, chunk files in any spelling, commutes with the operation, and nothing is left at the source of a move, rename or removal |
| DirOps.RespellingCommutes | drivers/chunker/util.go:337-429 | So does it where a remote spells one chunk in two ways, whichever it takes |
| DirOps.OutsideStays | drivers/chunker/util.go:489-598 | Every name outside the source and the destination lists as before, wherever no remote has a plain file in the place of the source directory or that file is none of the name's own |
| DirOps.ApartListing | drivers/chunker/util.go:489-598 | The merged listing, sub-directories included, of a directory that neither contains nor lies in the source or the destination stays as it was |
| Sha256.FoldAppend | drivers/139/upload_parallel.go:72-123 | Folding the compression over two stretches of whole blocks is folding over one after the other |
| Sha256.Hasher.Write | drivers/139/upload_parallel.go:110-112 | The streaming hasher covers all bytes written so far, however they were cut |
| Sha256.Hasher.Sum | drivers/139/upload_parallel.go:119-122 | The digest is that of section 6.2 of FIPS 180-4 on the bytes written |
| Sha256.Midstate | drivers/139/upload_parallel.go:51-68 | The exported state gives the registers after all whole blocks and the number of bytes written |
| Sha256.PaddingIs | drivers/139/upload_parallel.go:72-123 | The padding is that of section 5.1.1 of FIPS 180-4: a one bit, fewer than a block of zeros, and the number of bits in the last eight bytes |
| Sha256.FinishIsDigest | drivers/139/upload_parallel.go:72-123 | Finishing from the registers at a block boundary gives the digest of the whole message |
| ParallelParts.PlanTiles | drivers/139/upload_parallel.go:84-117 | Parts are numbered in order, tile the file, and all but the last have the part size |
| ParallelParts.CopyInto | drivers/139/upload_parallel.go:114-116 | The copy loop hashes exactly the section of the file that exists |
| ParallelParts.PlanParallelParts | drivers/139/upload_parallel.go:72-123 | Planning fails if and only if the part size is not a multiple of 64 or the file ends before the last part starts; otherwise every part carries the registers over all earlier bytes and the digest is the file's |
| ParallelParts.VerifiedPartsHashAsPlanned | drivers/139/upload_parallel.go:28-44 | Parts that verify one by one, each taking its registers to the next part's, make up a file with the planned digest |
| ParallelParts.OwnPiecesVerify | drivers/139/upload_parallel.go:28-44 | The file's own pieces verify |
| ParallelParts.VerifiedPartIsTheFiles | drivers/139/upload_parallel.go:28-44 | A different part that verifies exhibits a collision of the compression function |
| ParallelUpload.CollectAddresses | drivers/139/upload_parallel.go:172-225 | The batches of at most a hundred make up all parts, answers that name what they were asked about name every part, and it fails exactly if a later request does |
| ParallelUpload.Bucket.SendPart | drivers/139/upload_parallel.go:242-275 | A worker sends the slice of the part the server named, and fails exactly if the server does not take it or on a number it does not know |
| ParallelUpload.Bucket.SendAll | drivers/139/upload_parallel.go:230-285 | Every part addressed is stored when no worker failed and the call was not cancelled, in any order, and it fails exactly otherwise |
| ParallelUpload.PutParallel | drivers/139/upload_parallel.go:154-293 | The upload reports a file already there exactly if the server says so or gives no addresses, fails exactly if a request, a worker or the completion does or the caller gives up, and otherwise completes under the file's digest; nothing but right pieces is stored, and every part if the server names what it was asked about |
| ParallelUpload.StoredIsFile | drivers/139/upload_parallel.go:240-293 | The stored pieces in order of part number are the file |
| UploadProgress.Store.Save | drivers/base/upload.go:16-21 | Saving replaces the entry of its key and no other |
| UploadProgress.Store.Take | drivers/base/upload.go:25-31 | Taking returns the entry and deletes it; a saved nil counts as none |
| UploadProgress.KeysDiffer | drivers/base/upload.go:16-31 | Different tokens or content digests never share an entry |
| BaiduUpload.PlanOf | drivers/baidu_netdisk/driver.go:225-233 | The number of blocks and the size of the last one add up to the file |
| BaiduUpload.BlockInside | drivers/baidu_netdisk/driver.go:318-322 | Block offsets and sizes stay inside the file and join end to end |
| BaiduUpload.SendSlice | drivers/baidu_netdisk/driver.go:323-342 | A slice upload stores the block's own bytes, cut by the plan of this call, under the current id; only an acknowledged one is struck off the list, and one beyond the end of the file never is |
| BaiduUpload.SendAll | drivers/baidu_netdisk/driver.go:298-345 | If an attempt reports no error nothing is left to send; in any order of workers, skipped or failed, what was struck off is stored as a block of this plan and what was stored besides stays as it was |
| BaiduUpload.SentExactly | drivers/baidu_netdisk/driver.go:298-345 | Then every listed block did exist, and what is stored is complete if and only if what the call had found suited its plan |
| BaiduUpload.FilterConserves | drivers/baidu_netdisk/driver.go:351 | Dropping the struck-off entries loses no block |
| BaiduUpload.Precreate | drivers/baidu_netdisk/driver.go:390-422 | A new upload id starts with every block stored or listed |
| BaiduUpload.Restart | drivers/baidu_netdisk/driver.go:350-373 | After a failure the progress is saved as it was carried on; an expired id is replaced by a new one, every block of which is stored or listed, with nothing sent under it |
| BaiduUpload.Attempts | drivers/baidu_netdisk/driver.go:298-375 | Fewer than two expiries: nothing is left to send when the loop ends; with two it falls through with nothing sent under the last id; where every upload is acknowledged it ends at once, unless the list names a block beyond the end, and then it fails |
| BaiduUpload.Put | drivers/baidu_netdisk/driver.go:197-387 | On whatever an earlier call left, cut by whatever slice size: create is called at most once, and its id is completely stored if and only if it is new or what was found suits this call's plan, unless two ids expired in this call; a saved list with a block beyond the end never gets that far; what the next call may find |
| BaiduUpload.SendAndCreate | drivers/baidu_netdisk/driver.go:302-385 | Whatever the slices, precreates and the cancellation answered accounts for the end of the call |
| BaiduUpload.Session | drivers/baidu_netdisk/driver.go:197-387 | Over any calls for one content, with any slice sizes and with saved progress vanishing or not, every id that a file was created for after fewer than two expiries is complete exactly if it was new or the progress found suited its plan |
| BaiduUpload.SameSliceSize | drivers/baidu_netdisk/driver.go:197-387 | As long as the slice size stays the same, saved progress is conserved through the session, and so every such id is complete |
| BaiduUpload.CompleteIsFile | drivers/baidu_netdisk/driver.go:313-342 | The blocks of a complete upload, put together, are the file |
| BaiduUpload.Resume | drivers/baidu_netdisk/driver.go:255-385 | On a server that acknowledges everything a call creates the file if and only if the saved list lies within its own block count, and the file is complete if and only if the saved progress suits its plan |
| BaiduUpload.OtherSliceSize | drivers/baidu_netdisk/driver.go:216-330 | Conserved progress of another slice size suits a call, so far as its list exists there, if and only if both cut the file into as many blocks and none has been struck off yet |
| BaiduUpload.ResumedTwice | drivers/baidu_netdisk/driver.go:216-385 | On an obliging server, four bytes in slices of one with only the second to be sent, resumed in slices of two: an incomplete file is created; with only the last to be sent the call fails |
| BaiduUpload.ExpiredTwice | drivers/baidu_netdisk/driver.go:298-385 | A server that calls every id expired drives one call into creating a file under its third id, incomplete |
| LinkTree.KidsAreChildren | drivers/123_link/parse.go:32-86 | Walking from span to span finds exactly the lines whose parent, by definition, is the folder, in order |
| LinkTree.PreorderIsLines | drivers/123_link/parse.go:32-86 | Preorder of the tree is the list of non-blank lines |
| LinkTree.SubtreeAt | drivers/123_link/parse.go:32-86 | The subtrees of a node are the trees of its children in order |
| LinkTree.LayoutRoundTrip | drivers/123_link/parse.go:32-86 | The lines of a levelled tree build that tree again |
| LinkBuild.Pop | drivers/123_link/parse.go:55-60 | Popping stops at the first node above the level and never takes the root |
| LinkBuild.PoppedStack | drivers/123_link/parse.go:55-60 | What stays on the stack are exactly the open folders above the level |
| LinkBuild.AppendLine | drivers/123_link/parse.go:61-84 | The parent of a new line, by definition, is the top of the popped stack, and earlier parents stay |
| LinkBuild.AddNode | drivers/123_link/parse.go:61-84 | Hanging a node under the top keeps the heap linked as the definition of parent says |
| LinkBuild.BuildTree | drivers/123_link/parse.go:32-86 | Null exactly when some line is bad; otherwise one node per non-blank line, each holding what its line says and linked to the lines whose parent it is, in order |
| LinkBuild.ChildListIsKids | drivers/123_link/parse.go:32-86 | The child list of a heap node is the walk from span to span, so the heap is the tree of the lines |
| LinkText.ParseLineIs | drivers/123_link/parse.go:36-84 | A line by its indentation, text and white space: odd indentation is bad, no text blank, a colon at the end a folder of half the indentation, and the rest a file line |
| LinkText.ParseFileIs | drivers/123_link/parse.go:88-107 | A file line has a url and nothing in front of it, or a size and perhaps a time; anything else is refused |
| LinkText.ParseInfoIs | drivers/123_link/parse.go:114-136 | Size and time in front of a url: a colon at the end, a numeral for the size, and another for the time unless the clock gives it; anything else is refused |
| LinkText.NameOfUrl | drivers/123_link/parse.go:108-113 | A file is named after the last segment of its url, with any number of slashes behind it: unescaped if every percent sign has two hexadecimal digits behind it, as it stands otherwise, and back to the text that any percent-encoding stands for |
| LinkPrint.ParseInfoOf | drivers/123_link/parse.go:94-139 | Printed size and modification time read back |
| LinkPrint.ParseLineOf | drivers/123_link/parse.go:32-139 | A printed folder or file line reads back as its item |
| LinkPrint.ItemsOfText | drivers/123_link/parse.go:32-86 | The lines of a printed text are the items printed |
| LinkPrint.PrintBuildRoundTrip | drivers/123_link/parse.go:32-139 | Printing a tree and building it gives the tree back, for names without a leading space and urls with one scheme and no trailing space or colon |
| LinkLookup.FindsFirst | drivers/123_link/types.go:20-37 | Lookup finds a location if and only if some chain of names matches, and then the leftmost, also when folders share a name |
| LinkLookup.FoundIsFirstInPreorder | drivers/123_link/types.go:20-37 | The node found is the first in preorder among all that match |
| LinkLookup.RankIsIndex | drivers/123_link/types.go:20-37 | The rank of a location is where its node stands in preorder |
| LinkLookup.PathFinds | drivers/123_link/parse.go:141-152 | A path splits into its names below the root; "/" is the root |
| LinkSize.CalSize | drivers/123_link/types.go:43-53 | In place, every folder at and below the node gets the 64-bit sum of the files below it; files and links stay |
| LinkSize.TotalIsSum | drivers/123_link/types.go:43-53 | That total is the wrapped sum over all files of the subtree, whatever overflowed on the way |
| LinkSize.ResizeIdempotent | drivers/123_link/types.go:43-53 | Doing it again changes nothing |
| UserLimiter.EmptyInv | drivers/aliyundrive_open/limiter.go:35-38 | The empty registry satisfies the invariant |
| UserLimiter.StepKeeps | drivers/aliyundrive_open/limiter.go:40-87 | Every step of Init, with either outcome, and of Drop keeps each count equal to the live holders and every held limiter registered |
| UserLimiter.NothingIdleStays | drivers/aliyundrive_open/limiter.go:40-62 | The limiter a storage gets is the one registered for its user, what others hold stays registered, and every other entry but the global one that nobody uses is gone |
| LimiterRuns.RunKeeps | drivers/aliyundrive_open/driver.go:37-72 | So does every interleaving of any storages |
| LimiterRuns.WholeLife | drivers/aliyundrive_open/driver.go:37-72 | An idle storage can always go through an Init that succeeds, and a Drop, or through one that fails, whatever the others are at, and is idle again |
| LimiterRuns.SharedByUser | drivers/aliyundrive_open/limiter.go:40-62 | Two live storages hold the same limiter if and only if they are of the same user |
| LimiterRuns.HeldStays | drivers/aliyundrive_open/limiter.go:40-62 | A held limiter is never evicted by another storage's step |
| LimiterRuns.GlobalStays | drivers/aliyundrive_open/limiter.go:40-62 | The global entry, once created, stays the same limiter for good |
| UserLimiter.DropIdle | drivers/aliyundrive_open/driver.go:67-72 | Dropping a storage that never got a limiter changes no count |
| UserLimiter.Process.GetLimiterForUser | drivers/aliyundrive_open/limiter.go:40-62 | The method with its deferred sweep computes the specified step in place |
| UserLimiter.Process.Perform | drivers/aliyundrive_open/driver.go:37-72 | Init and Drop in place compute the specified steps and keep the invariant |
| Base64Hex.B64ToHex | drivers/189/help.go:53-85 | The loop computes the transducer, and indexes outside its table where the specification has no result |
| Base64Hex.RestIsHex | drivers/189/help.go:49-85 | It succeeds if and only if all characters are of the alphabet or padding, and writes lower-case hexadecimal only: no digit above 15 |
| Base64Hex.HexOfEncoded | drivers/189/help.go:53-85 | For every byte string, converting its padded base64 gives its lower-case hexadecimal |
| Md5Mask.EncryptMd5 | drivers/baidu_netdisk/util.go:447-462 | The loop computes the specified masking |
| Md5Mask.DecryptMd5 | drivers/baidu_netdisk/util.go:427-445 | The loop computes the specified unmasking, for every byte string |
| Md5Mask.XorIs | drivers/baidu_netdisk/util.go:427-462 | The masking combines bit by bit: one exactly where the digit and its place differ |
| Md5Mask.XorIntIs | drivers/baidu_netdisk/util.go:427-445 | Of any number, negative ones as well, only the lowest four bits are combined with the place |
| Md5Mask.FormatHexReads | drivers/baidu_netdisk/util.go:427-462 | A digit is written as the number it stands for, with a minus sign below zero |
| Md5Mask.UnmaskOfAny | drivers/baidu_netdisk/util.go:427-445 | Unmasking what is no digit takes it for zero, and the tenth character may be a capital |
| Md5Mask.DecodesExactly | drivers/baidu_netdisk/util.go:427-430 | What counts as a plain digest: an even number of digits and letters from a to f in either case |
| Md5Mask.DecryptOfEncrypt | drivers/baidu_netdisk/util.go:427-462 | Decrypting what was encrypted gives every digest back |
| Md5Mask.EncryptOfDecrypt | drivers/baidu_netdisk/util.go:427-462 | Encrypting what was decrypted gives every masked digest back |
| Md5Mask.MaskedIsNotHex | drivers/baidu_netdisk/util.go:427-430 | The tenth character of a masked digest is never hexadecimal, so the early return is not taken |
| Md5Mask.PlainStays | drivers/baidu_netdisk/util.go:427-430 | A plain digest is left alone |
| PartPlans.SplitFileByPartNum | drivers/115/util.go:523-547 | The exact number of parts, end to end, equal but for the last; the exact error conditions |
| PartPlans.SplitFileByPartSize | drivers/115/util.go:551-578 | Parts of the given size, end to end; the exact error conditions |
| PartPlans.SplitFile | drivers/115/util.go:498-519 | Evenly into a thousand parts for every gigabyte begun, at most 10000, or, if these would be below 100KB, into parts of that size; so at most 10000 parts tile the file and none but the last is below 100KB; it panics exactly at nine gigabytes and fails exactly below a thousand bytes |
| PartPlans.CalPartSizeLimit | drivers/115_open/upload.go:17-35 | The limit of 10000 parts is kept if and only if the file is at most 50000GB |
| PartPlans.CalPartSizeIs | drivers/115_open/upload.go:17-35 | Between 128GB and a terabyte the part size is the least that cuts the next step of 256, 384, 512, 768 and 1024GB into 10000 parts; below it is 20MB and above 5GB |
| PartPlans.MultipartUpload | drivers/115_open/upload.go:89-123 | The parts sent tile the file when the loop ends and a prefix of it when it stops, exactly at the first part that fails |
| PartPlans.PartSize189Limit | drivers/189pc/help.go:187-196 | At most 999 parts below the large-file threshold and 1999 above it; the multiple of 10MB is the least that is enough, but above the threshold not under 50MB |
| PartPlans.GetSliceSize | drivers/baidu_netdisk/util.go:283-342 | The slice size for every membership, custom size and mode; in low-bandwidth mode the least step whose count is within 2048 whenever the file fits at all |

## Left out

- Name formats other than the default one: the theorems hold for every format that obeys the naming laws, but only the default format is proved to obey them; parsing the format pattern itself is not part of this model.
- Control chunks are skipped by the listing, as in the code; nothing writes them.
- ChunkRename.RenameFile: a half-finished rename, which renames chunks before the metadata, does misread, so only its files and what third names list are stated; a chunked object renamed to a name of several lines, whose chunks are lost, a rename to the same name, and a directory in the place of the canonical name of a chunk that is listed in another spelling only are left out.
- PutMeta.PutWithMeta: speaks of a transaction id that no chunk of the name and no metadata under it uses yet; the clock gives one as long as all Puts of the name lie less than 28 hours back (`ChunkPut.NextPutIsFresh`), and after that it may repeat one.
- ChunkMoves.TransferFile: speaks of a Move or Copy to another directory, of an object as it is listed; where a chunk is listed in another spelling only, no directory may lie in the place of its canonical name or come to lie there on the way to the destination.
- ChunkView.Pick: which of two spellings of one chunk on one remote counts is the same unknown choice in every state with the same spellings; the code takes the one that the remote lists first.
- PutBare.PutBare: promises of the replaced name only what the finished Put lists, because without a transaction id there is no commit point; where a new chunk has come to lie beside another spelling of it on its remote the condition is only necessary, because which of the two counts is left open.
- ChunkInit.InitIsLawful: the checks of the remote paths and of the name pattern are not part of it; a configuration that is lawful but has a negative number base is among those it describes.
- ChunkPut.Put: the file of a replaced location is a file or absent; where a directory has taken its place the cleanup would remove that directory.
- ChunkListing.ListDirObjects: asks that every file and directory lies in a directory of its remote, as file systems keep it; of a chunk spelled in two ways on one remote it says only that one of the two files is listed.
- What a remote's own link does with a range of a plain file is a parameter of the reading theorems.
- Number of chunks in the metadata is not compared with the chunks found, as in the code.
- The sum of chunk sizes of an object without metadata is not wrapped to 64 bits.
- Text outside ASCII: JSON escapes beyond the first 128 characters, Unicode white space, case folding beyond ASCII and re-encoding of invalid UTF-8 are not modelled; strings are sequences of bytes.
- Remote path options, mount lookup, caching, refresh, progress, time stamps, thumbnails and the hash information shown for an object.
- Failures between the pieces of one storage operation: an operation on one path of one remote is one step, and moving or copying a directory on one remote is one step.
- Readers that hold an old listing while an object is replaced: reads are of freshly listed objects.
- ParallelParts.PlanParallelParts: asks for a positive part size or one that is not a multiple of 64, because the loop never ends on other sizes; reading the temporary file is taken to succeed.
- The SHA-256 round function is a parameter; its strength is stated only as a collision exhibited.
- ParallelUpload.PutParallel: the renaming after a name conflict, HTTP and progress are left out; workers are interleaved whole.
- BaiduUpload.Put: the server is taken to list every block of a new id it does not hold, and to keep no slice whose body breaks off before its announced length; two calls for one content running at the same time, which after a restart can share one progress object, are left out.
- Digests of files and blocks, host selection and retries inside one slice upload of the resumable upload.
- LinkLookup.FindsFirst: speaks of the tree of the lines, which the heap is linked as, not of heap nodes.
- LinkBuild.BuildTree: the clock that fills in a missing modification time is a parameter.
- UserLimiter.Process.Perform: limiter and storage objects are numbers in maps, so that sharing is equality; a second Init without Drop, which would leak a count, and references between storages are outside the life cycle modelled.
- PartPlans.PartSize189Limit: the floating-point ceiling is taken as exact.
- Cancellation and progress in the part loops other than as an early end.

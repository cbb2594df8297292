# Seven Chromium browser components, modelled in Dafny

This project models the sequential logic of seven components of the
Chromium browser (the `chrome/browser` tree) and proves properties of
them:

- **LevelDB write buffer** of the sync file system's Drive backend
  (`leveldb_wrapper.dfy`, with key order and sorting in `leveldb_keys.dfy`).
  Pending PUT/DELETE operations overlay a key-value store. `Get` sees them
  first. `Commit` writes them as one batch and forgets them only when the
  write succeeds. A merged iterator walks the union of stored and pending
  keys in ascending order and skips keys whose pending operation is a
  DELETE.
- **Volume registry** of the Chrome OS Files app (`volume_manager.dfy`).
  It covers the volume-type names, volume ids (type name, colon, base name
  of the mount path), the `Create*VolumeInfo` builders, the
  `mounted_volumes_` map and its mount and unmount filters, the numbered
  MTP volume ids, and the tail-first mounting of archive chains at
  start-up.
- **Extension input method engine** of Chrome OS
  (`input_method_engine.dfy`). It covers activation, focus and context ids,
  the shared error precedence of context-bound operations, the candidate
  table, and the UTF-8 character counter.
- **Canned cookie helper** (`cookie_helper.dfy`). It keeps a map from
  origin to a cookie set. Every added cookie goes to the one
  `chrome://cookieset` set and replaces an equal cookie. The model also
  covers count, emptiness, deletion from every set, reset, clone and
  listing.
- **Safe Browsing interstitial** (`blocking_page.dfy`). It covers:
  - threat classification, the main-frame-blocked rule, and the page
    version the factory picks;
  - the trial condition, where switches take precedence over the field
    trial;
  - command handling: quote stripping, `name:N` element indexes with the
    `int` to `size_t` cast, and dispatch;
  - the histogram mapping of user actions, and reaction-time recording at
    most once per display;
  - the per-tab queue of unsafe resources that arrive while a page is
    showing;
  - proceed and don't-proceed.
- **Internationalised address form** of the Autofill dialog
  (`address_inputs.dfy`). Address components become detail inputs: none
  for the organisation, two for a long street address, and one country
  input at the end.
- **Favicon handler** (`favicon_handler.dfy`). It covers fragment-insensitive
  URL matching, filtering declared icons by the type mask, the rule for
  replacing the best candidate, the map of downloads in flight, and the
  flush of pending callbacks when the handler goes away.

Shared helpers are in `wrappers.dfy` (`Option`) and `strings.dfy` (first
occurrence of a character, decimal text of naturals).

The following are not part of this model. Where the model needs their
effect, it takes it as a parameter or returns it as a result:

- the LevelDB database, threads, histograms and observers;
- the history service and navigation entries;
- the IME bridge, preferences, the command line, field trials and the
  clock.

## Model

| member | source | states |
|---|---|---|
| LevelDbKeys.Compare | sync_file_system/drive_backend/leveldb_wrapper.cc:58 | `compare` is negative, zero or positive exactly when the first key is below, equal to or above the second in byte order |
| LevelDbKeys.LessIrreflexive | sync_file_system/drive_backend/leveldb_wrapper.cc:110 | no key is below itself |
| LevelDbKeys.LessAsymmetric | sync_file_system/drive_backend/leveldb_wrapper.cc:110 | two keys are never each below the other |
| LevelDbKeys.LessTransitive | sync_file_system/drive_backend/leveldb_wrapper.cc:110 | the key order is transitive |
| LevelDbKeys.LessTotal | sync_file_system/drive_backend/leveldb_wrapper.cc:110 | any two keys are equal or ordered one way |
| LevelDbKeys.LowerBound | sync_file_system/drive_backend/leveldb_wrapper.cc:45 | `lower_bound`: every key before the result is below the target and the key at the result is not |
| LevelDbKeys.LowerBoundSplits | sync_file_system/drive_backend/leveldb_wrapper.cc:45 | in a sorted key list, a key is below the target iff its position is before the lower bound |
| LevelDbKeys.InsertSorted | sync_file_system/drive_backend/leveldb_wrapper.cc:170-171 | inserting a new key into a strictly sorted list keeps it strictly sorted, with exactly the old keys plus the new one |
| LevelDbKeys.SortedKeys | sync_file_system/drive_backend/leveldb_wrapper.cc:170-171 | the keys of a map in the order its iterator walks them: strictly ascending and exactly the map's keys |
| LevelDbWrapper.OverlayPut | sync_file_system/drive_backend/leveldb_wrapper.cc:137-140 | a pending PUT makes the visible contents map the key to the new value and leaves other keys alone |
| LevelDbWrapper.OverlayDelete | sync_file_system/drive_backend/leveldb_wrapper.cc:142-144 | a pending DELETE removes the key from the visible contents and leaves other keys alone |
| LevelDbWrapper.OverlayStep | sync_file_system/drive_backend/leveldb_wrapper.cc:170-182 | writing one more record of the batch is overlaying one more pending operation |
| LevelDbWrapper.BatchAppliesPending | sync_file_system/drive_backend/leveldb_wrapper.cc:170-182 | applying the batch built from some pending keys gives the store overlaid with those keys' operations |
| LevelDbWrapper.BatchOfExtends | sync_file_system/drive_backend/leveldb_wrapper.cc:170-182 | each loop step appends the record for the next pending key to the batch |
| LevelDbWrapper.BatchIsOverlay | sync_file_system/drive_backend/leveldb_wrapper.cc:168-184 | the batch built from all pending keys turns the store into the overlaid view |
| LevelDbWrapper.OverlayOfNothing | sync_file_system/drive_backend/leveldb_wrapper.cc:192-194 | with nothing pending the visible contents are the store's |
| LevelDbWrapper.Wrapper.constructor | sync_file_system/drive_backend/leveldb_wrapper.cc:130-133 | a wrapper starts over the database with nothing pending |
| LevelDbWrapper.Wrapper.Put | sync_file_system/drive_backend/leveldb_wrapper.cc:137-140 | the pending entry becomes (PUT, value), replacing an earlier one; the store is untouched and the visible contents map key to value |
| LevelDbWrapper.Wrapper.Delete | sync_file_system/drive_backend/leveldb_wrapper.cc:142-144 | the pending entry becomes (DELETE, ""), replacing an earlier one; the key leaves the visible contents |
| LevelDbWrapper.Wrapper.DbGet | sync_file_system/drive_backend/leveldb_wrapper.cc:150 | the store's own answer: OK with the stored value iff the key is stored, else NotFound |
| LevelDbWrapper.Wrapper.Get | sync_file_system/drive_backend/leveldb_wrapper.cc:146-162 | a pending PUT answers with its value, a pending DELETE with NotFound whatever is stored, otherwise the store answers; OK exactly for keys of the visible contents |
| LevelDbWrapper.Wrapper.Write | sync_file_system/drive_backend/leveldb_wrapper.cc:184 | a successful write applies the batch to the store; a failed one leaves it unchanged |
| LevelDbWrapper.Wrapper.Commit | sync_file_system/drive_backend/leveldb_wrapper.cc:168-190 | on success the store becomes the old store overlaid with the pending operations and pending is emptied; on failure both are unchanged; the visible contents never change |
| LevelDbWrapper.Wrapper.Clear | sync_file_system/drive_backend/leveldb_wrapper.cc:192-194 | pending becomes empty |
| LevelDbWrapper.AheadInStart | sync_file_system/drive_backend/leveldb_wrapper.cc:34-35 | a cursor at the start of a sorted key list still has every key ahead of it |
| LevelDbWrapper.AheadInStep | sync_file_system/drive_backend/leveldb_wrapper.cc:60-64 | advancing a cursor passes exactly the key it was on |
| LevelDbWrapper.AheadInLowerBound | sync_file_system/drive_backend/leveldb_wrapper.cc:45-46 | a cursor sought to a target has exactly the keys not below the target ahead of it |
| LevelDbWrapper.PassedIsBelow | sync_file_system/drive_backend/leveldb_wrapper.cc:57-65 | a key a cursor has passed is at most the key before the cursor |
| LevelDbWrapper.Iterator.constructor | sync_file_system/drive_backend/leveldb_wrapper.cc:21-24 | an iterator reads the wrapper's store and pending operations, is well formed, and is not valid until positioned |
| LevelDbWrapper.Iterator.Valid | sync_file_system/drive_backend/leveldb_wrapper.cc:28-31 | on a well-formed iterator, valid exactly when some key readers see has not yet been passed |
| LevelDbWrapper.Iterator.Key | sync_file_system/drive_backend/leveldb_wrapper.cc:70-81 | the current key (the smaller of the two cursor keys) is a visible key that the iterator has not passed |
| LevelDbWrapper.Iterator.Value | sync_file_system/drive_backend/leveldb_wrapper.cc:83-98 | the current value is the visible value of the current key |
| LevelDbWrapper.Iterator.NotPending | sync_file_system/drive_backend/leveldb_wrapper.cc:91-94 | a store key below the pending cursor's key has no pending operation, so its stored value is visible |
| LevelDbWrapper.Iterator.KeyAtVisible | sync_file_system/drive_backend/leveldb_wrapper.cc:101-104 | when the cursors rest as the valid-state comment describes, the current key is visible |
| LevelDbWrapper.Iterator.KeyIsLeastAhead | sync_file_system/drive_backend/leveldb_wrapper.cc:70-81 | the keys ahead of the cursors are exactly those not below the current key |
| LevelDbWrapper.Iterator.AdvanceIterators | sync_file_system/drive_backend/leveldb_wrapper.cc:100-125 | skips pending DELETEs (and the stored keys they hide) until the cursors rest as the comment at lines 101-104 describes, without passing any visible key |
| LevelDbWrapper.Iterator.SkipDeleted | sync_file_system/drive_backend/leveldb_wrapper.cc:113-116 | stepping past a pending DELETE (and an equal stored key) passes no visible key |
| LevelDbWrapper.Iterator.StepStore | sync_file_system/drive_backend/leveldb_wrapper.cc:59-60 | advancing the store cursor past a key below the pending key passes only the current key |
| LevelDbWrapper.Iterator.StepPending | sync_file_system/drive_backend/leveldb_wrapper.cc:61-64 | advancing the pending cursor past a key below the store key passes only the current key |
| LevelDbWrapper.Iterator.StepBoth | sync_file_system/drive_backend/leveldb_wrapper.cc:57-62 | on equal keys both cursors advance, so a key in both store and pending is passed once |
| LevelDbWrapper.Iterator.SettledAtLeast | sync_file_system/drive_backend/leveldb_wrapper.cc:44-48 | after a seek, the current key is the least visible key not below the target, and the iterator is invalid iff there is none |
| LevelDbWrapper.Iterator.SettledAbove | sync_file_system/drive_backend/leveldb_wrapper.cc:50-68 | after a step, the current key is the least visible key above the old one, and the iterator is invalid iff there is none |
| LevelDbWrapper.Iterator.SeekToFirst | sync_file_system/drive_backend/leveldb_wrapper.cc:33-37 | valid iff the visible contents are non-empty, and then on the least visible key |
| LevelDbWrapper.Iterator.Seek | sync_file_system/drive_backend/leveldb_wrapper.cc:44-48 | on the least visible key not below the target, or invalid when every visible key is below it |
| LevelDbWrapper.Iterator.SeekPositions | sync_file_system/drive_backend/leveldb_wrapper.cc:45-46 | both cursors at their lower bounds have passed exactly the keys below the target |
| LevelDbWrapper.Iterator.Next | sync_file_system/drive_backend/leveldb_wrapper.cc:50-68 | from a valid position, moves to the least visible key above the current one (invalid when there is none); an invalid iterator stays where it is |
| LevelDbWrapper.Iterator.StepPast | sync_file_system/drive_backend/leveldb_wrapper.cc:57-65 | the cursor moves of `Next` pass exactly the current key |
| VolumeManager.BaseName | chromeos/file_manager/volume_manager.cc:130 | the base name is the last path component, or empty for the empty path |
| VolumeManager.MountTypeToVolumeType | chromeos/file_manager/volume_manager.cc:82-97 | DEVICE maps to removable disk partition, ARCHIVE to mounted archive file, and the unexpected INVALID to the Downloads fallback |
| VolumeManager.MountTypeToVolumeTypeInjective | chromeos/file_manager/volume_manager.cc:82-97 | the two real mount types map to distinct volume types, never to the fallback |
| VolumeManager.VolumeTypeToString | chromeos/file_manager/volume_manager.cc:100-123 | every volume type has a non-empty name without a colon |
| VolumeManager.VolumeTypeStringRoundTrip | chromeos/file_manager/volume_manager.cc:100-123 | a volume type is recovered from its name |
| VolumeManager.VolumeTypeToStringInjective | chromeos/file_manager/volume_manager.cc:100-123 | distinct volume types have distinct names |
| VolumeManager.GenerateVolumeId | chromeos/file_manager/volume_manager.cc:126-131 | the id is as long as type name, colon and base name together |
| VolumeManager.VolumeIdRoundTrip | chromeos/file_manager/volume_manager.cc:126-131 | the volume type and the base name are recovered from the id |
| VolumeManager.VolumeIdInjective | chromeos/file_manager/volume_manager.cc:127-129 | two ids are equal iff the volume types and base names are, so ids are unique per type as the comment promises |
| VolumeManager.CreateDriveVolumeInfo | chromeos/file_manager/volume_manager.cc:134-148 | a Drive volume mounted and sourced at the Drive path, not parent, writable, with its generated id |
| VolumeManager.CreateDownloadsVolumeInfo | chromeos/file_manager/volume_manager.cc:150-161 | a Downloads volume at the given path, with no source path, not parent, writable, with its generated id |
| VolumeManager.CreateTestingVolumeInfo | chromeos/file_manager/volume_manager.cc:163-176 | a volume of the given type and device type at the path, not parent, writable, with its generated id |
| VolumeManager.CreateVolumeInfoFromMountPointInfo | chromeos/file_manager/volume_manager.cc:178-202 | type, paths and condition come from the mount point; device type, parent, read-only and label come from the disk, and without a disk the volume is read-only iff it is an archive |
| VolumeManager.CreatePrivetVolumeInfo | chromeos/file_manager/volume_manager.cc:204-214 | a cloud-device volume at the Privet path, parent and read-only, with its generated id |
| VolumeManager.CreateProvidedFileSystemVolumeInfo | chromeos/file_manager/volume_manager.cc:216-230 | a provided volume carrying the file system's id, extension and name, parent and read-only, with its generated id |
| VolumeManager.MtpVolumeIdCandidateInjective | chromeos/file_manager/volume_manager.cc:738-740 | distinct loop counters give distinct candidate ids |
| VolumeManager.TriedMtpIdsHold | chromeos/file_manager/volume_manager.cc:739-740 | every earlier candidate is among the ids tried so far |
| VolumeManager.UntriedMtpId | chromeos/file_manager/volume_manager.cc:739-740 | a candidate at or after the current counter has not been tried yet |
| VolumeManager.Reverse | chromeos/file_manager/volume_manager.cc:379-380 | mounting from the tail visits the chain in reverse order |
| VolumeManager.CountTrueMark | chromeos/file_manager/volume_manager.cc:363-373 | marking an archive done raises the count of done archives by one |
| VolumeManager.CountNoneTrue | chromeos/file_manager/volume_manager.cc:362 | the `done` vector starts with no archive done |
| VolumeManager.CountAllTrue | chromeos/file_manager/volume_manager.cc:362-383 | when every archive is done, the count is the number of archives |
| VolumeManager.MountSequenceAppend | chromeos/file_manager/volume_manager.cc:379-380 | mounting one more chain appends it reversed to the mount order |
| VolumeManager.PlacedAppend | chromeos/file_manager/volume_manager.cc:363-380 | the archives marked done are exactly those mounted so far, after each chain |
| VolumeManager.AppendChain | chromeos/file_manager/volume_manager.cc:370-380 | a chain of holders whose top has no unmounted holder keeps every mounted chain linked and closed |
| VolumeManager.ClimbStep | chromeos/file_manager/volume_manager.cc:370-374 | adding the holder of the chain's top extends the chain by one linked archive |
| VolumeManager.ClimbHolders | chromeos/file_manager/volume_manager.cc:366-375 | the inner loop builds a chain from the start archive through successive holders, ending at an archive with no holder left undone |
| VolumeManager.OrderStep | chromeos/file_manager/volume_manager.cc:363-381 | one turn of the outer loop keeps the ordering invariant and marks the start archive done |
| VolumeManager.ArchiveMountOrder | chromeos/file_manager/volume_manager.cc:362-383 | every archive is mounted exactly once, in chains mounted tail-first, with each archive's holder before it |
| VolumeManager.HeldArchiveAdmitted | chromeos/file_manager/volume_manager.cc:803-816 | once an admitted holder is mounted, an archive whose source lies under its mount path is admitted too |
| VolumeManager.VolumeManager.constructor | chromeos/file_manager/volume_manager.cc:252-266 | a registry starts with no mounted volumes |
| VolumeManager.VolumeManager.FindVolumeInfoById | chromeos/file_manager/volume_manager.cc:453-464 | found iff the id is mounted, and then the mounted volume |
| VolumeManager.VolumeManager.DoMountEvent | chromeos/file_manager/volume_manager.cc:796-837 | an archive outside the profile and outside mounted volumes, or a removable disk while external storage is disabled, changes nothing; otherwise the volume is stored under its id iff there is no error or it has a mount condition; no other id changes |
| VolumeManager.VolumeManager.DoUnmountEvent | chromeos/file_manager/volume_manager.cc:839-849 | an unknown id changes nothing; a known one is erased iff there is no error |
| VolumeManager.VolumeManager.FreshMtpVolumeId | chromeos/file_manager/volume_manager.cc:737-740 | the id is "mtp:" + name or "mtp:" + name + " (i)" for the least free counter, and it is not mounted |
| VolumeManager.VolumeManager.OnRemovableStorageAttached | chromeos/file_manager/volume_manager.cc:726-763 | a non-MTP device, or any device while external storage is disabled, changes nothing; otherwise the MTP volume is stored under the first free numbered id |
| VolumeManager.VolumeManager.MountArchives | chromeos/file_manager/volume_manager.cc:362-383 | returns the mount order and the chains it came from: every archive is mounted exactly once; in each chain every archive holds the one before it, and each chain is mounted from its top down, so a holder is mounted before what it holds; any archive holding a chain's top is mounted by the end of that chain; the registry ends as the mount events in that order leave it |
| VolumeManager.MtpVolumeInfo | chromeos/file_manager/volume_manager.cc:753-761 | an MTP volume at the device location, mobile, parent and read-only, under the given id |
| InputMethodEngine.ContinuationRange | chromeos/input_method/input_method_engine.cc:59 | `(b & 0xC0) == 0x80` holds exactly for bytes 0x80 to 0xBF |
| InputMethodEngine.LeadBytes | chromeos/input_method/input_method_engine.cc:56-64 | the count of non-continuation bytes is at most the number of bytes |
| InputMethodEngine.CString | chromeos/input_method/input_method_engine.cc:58 | the C string is the longest NUL-free prefix |
| InputMethodEngine.GetUtf8StringLength | chromeos/input_method/input_method_engine.cc:56-64 | the scan up to the NUL counts the bytes that are not continuation bytes, at most the string's length |
| InputMethodEngine.CStringIsPrefix | chromeos/input_method/input_method_engine.cc:58 | a NUL-free prefix ending at a NUL or the end is the C string |
| InputMethodEngine.AsciiCountsEveryByte | chromeos/input_method/input_method_engine.cc:56-64 | for ASCII text the count is the byte length |
| InputMethodEngine.EncodeCodePoint | chromeos/input_method/input_method_engine.cc:59-60 | a code point's UTF-8 encoding is one lead byte and up to three continuation bytes, with NUL only for U+0000 |
| InputMethodEngine.Lead | chromeos/input_method/input_method_engine.cc:59-60 | a lead byte is not a continuation byte |
| InputMethodEngine.Tail | chromeos/input_method/input_method_engine.cc:59-60 | a trailing byte is a continuation byte |
| InputMethodEngine.CountOfEncodedText | chromeos/input_method/input_method_engine.cc:53-64 | counting the UTF-8 encoding of a text gives its number of code points |
| InputMethodEngine.LeadBytesAppend | chromeos/input_method/input_method_engine.cc:58-62 | the count of a concatenation is the sum of the counts |
| InputMethodEngine.OneLeadByte | chromeos/input_method/input_method_engine.cc:59-60 | an encoded code point counts once |
| InputMethodEngine.ContextError | chromeos/input_method/input_method_engine.cc:204-211 | no error iff active and the id is the focused context (which is not -1); inactive gives "not active" first, otherwise "wrong context" |
| InputMethodEngine.LastOccurrencesUnique | chromeos/input_method/input_method_engine.cc:404 | the id-to-index table of a candidate list is determined by the list |
| InputMethodEngine.LastOccurrencesAppend | chromeos/input_method/input_method_engine.cc:404-405 | appending an id maps it to its new, last position |
| InputMethodEngine.ContextTypeName | chromeos/input_method/input_method_engine.cc:527-549 | every input type has a non-empty context type name |
| InputMethodEngine.UnderlineOf | chromeos/input_method/input_method_engine.cc:225-237 | a segment gives an underline iff it is styled, over the same range, double iff double-underlined |
| InputMethodEngine.Underlines | chromeos/input_method/input_method_engine.cc:221-239 | there are at most as many underlines as segments |
| InputMethodEngine.EntryOf | chromeos/input_method/input_method_engine.cc:396-401 | a window entry carries the candidate's value, label, annotation and usage title and body |
| InputMethodEngine.ClickAsWritten | chromeos/input_method/input_method_engine.cc:617-625 | the guard as written: an index above the size is ignored, and an index below it reports that candidate |
| InputMethodEngine.ClickAsWrittenOnEmptyList | chromeos/input_method/input_method_engine.cc:618 | index 0 of an empty list passes the guard and reaches `.at()` out of range |
| InputMethodEngine.Click | chromeos/input_method/input_method_engine.cc:617-625 | corrected guard: never out of range, and reports candidate `index` iff the index is below the size |
| InputMethodEngine.ClickDiffersOnlyAtSize | chromeos/input_method/input_method_engine.cc:618 | the guard as written and the corrected one differ exactly at index == size |
| InputMethodEngine.Engine.constructor | chromeos/input_method/input_method_engine.cc:113-122 | inactive, no input type, context 0, next context 1, empty composition and candidates, window hidden |
| InputMethodEngine.Engine.SetComposition | chromeos/input_method/input_method_engine.cc:196-244 | fails with the context error and no change; otherwise sets cursor, text, selection and the underlines of the styled segments, and nothing else |
| InputMethodEngine.Engine.ClearComposition | chromeos/input_method/input_method_engine.cc:246-261 | fails with the context error and no change; otherwise empties the composition and zeroes the cursor, and nothing else |
| InputMethodEngine.Engine.CommitText | chromeos/input_method/input_method_engine.cc:263-285 | fails with the context error and no change; otherwise counts the committed characters, sets the end time, and sets the start time only if it was unset |
| InputMethodEngine.Engine.SendKeyEvents | chromeos/input_method/input_method_engine.cc:287-297 | accepted iff active and the id is 0 or the focused context |
| InputMethodEngine.Engine.SetCandidateWindowVisible | chromeos/input_method/input_method_engine.cc:362-375 | succeeds iff active, and then sets the visibility; otherwise reports "not active" and leaves it |
| InputMethodEngine.Engine.SetCandidates | chromeos/input_method/input_method_engine.cc:377-416 | fails with the context error and no change; otherwise the ids and entries are the candidates' in order, and the index table maps each id to its last position |
| InputMethodEngine.Engine.SetCursorPosition | chromeos/input_method/input_method_engine.cc:418-442 | succeeds iff the context is right and the id is a candidate; the cursor becomes its last position; the context error comes before "candidate not found" |
| InputMethodEngine.Engine.DeleteSurroundingText | chromeos/input_method/input_method_engine.cc:471-495 | the context error first; then accepted iff the offset is not negative or its magnitude equals the number of characters |
| InputMethodEngine.Engine.FocusIn | chromeos/input_method/input_method_engine.cc:515-552 | records the input type; when active and the type is not NONE, takes the next context id (so ids strictly increase) and reports the context with its type name |
| InputMethodEngine.Engine.FocusOut | chromeos/input_method/input_method_engine.cc:554-563 | when active with an input type, blurs the focused context, clears the type and sets the context to -1; otherwise changes nothing |
| InputMethodEngine.Engine.Enable | chromeos/input_method/input_method_engine.cc:565-576 | activates, focuses the current input type and resets both times |
| InputMethodEngine.Engine.Disable | chromeos/input_method/input_method_engine.cc:578-584 | deactivates |
| InputMethodEngine.Engine.CandidateClicked | chromeos/input_method/input_method_engine.cc:617-625 | (corrected) reports the candidate id at the index iff the index is below the number of candidates |
| InputMethodEngine.BuildUnderlines | chromeos/input_method/input_method_engine.cc:221-239 | the loop collects one underline per styled segment, in order |
| InputMethodEngine.UnderlineCount | chromeos/input_method/input_method_engine.cc:225-234 | the number of underlines is the number of styled segments |
| CookieHelper.DeleteMatchingCookie | browsing_data/browsing_data_cookie_helper.cc:199-203 | true iff an equal cookie was in the set, which loses exactly that cookie |
| CookieHelper.InsertCookie | browsing_data/browsing_data_cookie_helper.cc:242 | the set maps the cookie's identity to the cookie |
| CookieHelper.SumSizesRemove | browsing_data/browsing_data_cookie_helper.cc:166-170 | the count is one origin's set size plus the count of the rest |
| CookieHelper.SumSizesZero | browsing_data/browsing_data_cookie_helper.cc:153-172 | the count is zero iff every set is empty |
| CookieHelper.SumSizesSame | browsing_data/browsing_data_cookie_helper.cc:164-172 | maps whose sets have equal sizes have equal counts |
| CookieHelper.SumSizesUpdate | browsing_data/browsing_data_cookie_helper.cc:164-172 | replacing one origin's set changes the count by the difference between the new and the old set sizes |
| CookieHelper.SumSizesElsewhere | browsing_data/browsing_data_cookie_helper.cc:164-172 | replacing one origin's set leaves the total of the other origins' set sizes unchanged |
| CookieHelper.WithCookieIdempotent | browsing_data/browsing_data_cookie_helper.cc:220-243 | adding the same cookie twice is adding it once |
| CookieHelper.WithCookieCount | browsing_data/browsing_data_cookie_helper.cc:223-242 | adding a cookie raises the count by one unless an equal cookie is already in the global set |
| CookieHelper.GlobalSetWithCookie | browsing_data/browsing_data_cookie_helper.cc:223-242 | adding a cookie changes the global set only at the cookie's identity, which then maps to the cookie |
| CookieHelper.WithCookiesLastWins | browsing_data/browsing_data_cookie_helper.cc:125-134 | after adding a list, the global set holds the last cookie of each identity |
| CookieHelper.WithoutCookie | browsing_data/browsing_data_cookie_helper.cc:189-197 | after deletion no set holds the cookie, and the origins are the same |
| CookieHelper.PartlyErasedStep | browsing_data/browsing_data_cookie_helper.cc:191-195 | each loop step erases the cookie from one more origin's set |
| CookieHelper.PartlyErasedAll | browsing_data/browsing_data_cookie_helper.cc:191-195 | erasing from every origin's set is deleting the cookie |
| CookieHelper.DeleteAfterAdd | browsing_data/browsing_data_cookie_helper.cc:189-243 | deleting a newly added cookie restores the global set |
| CookieHelper.CannedCookieHelper.constructor | browsing_data/browsing_data_cookie_helper.cc:102-105 | a helper starts with no origins |
| CookieHelper.CannedCookieHelper.GetCookiesFor | browsing_data/browsing_data_cookie_helper.cc:205-218 | an unseen origin gets a new empty set; a known one returns its set unchanged |
| CookieHelper.CannedCookieHelper.AddCookie | browsing_data/browsing_data_cookie_helper.cc:220-243 | the cookie replaces any equal cookie in the global set, whatever the frame |
| CookieHelper.CannedCookieHelper.AddReadCookies | browsing_data/browsing_data_cookie_helper.cc:125-134 | each cookie of the list is added in order |
| CookieHelper.CannedCookieHelper.AddChangedCookie | browsing_data/browsing_data_cookie_helper.cc:136-145 | a cookie line that parses is added; one that does not changes nothing |
| CookieHelper.CannedCookieHelper.Reset | browsing_data/browsing_data_cookie_helper.cc:147-151 | no origins remain |
| CookieHelper.CannedCookieHelper.Empty | browsing_data/browsing_data_cookie_helper.cc:153-161 | true iff every set is empty, iff the count is zero |
| CookieHelper.CannedCookieHelper.GetCookieCount | browsing_data/browsing_data_cookie_helper.cc:164-172 | the sum of the sizes of all sets |
| CookieHelper.CannedCookieHelper.StartFetching | browsing_data/browsing_data_cookie_helper.cc:175-187 | the list holds exactly the cookies of all sets, as many as the count |
| CookieHelper.CannedCookieHelper.DeleteCookie | browsing_data/browsing_data_cookie_helper.cc:189-197 | the cookie is erased from every set |
| CookieHelper.CannedCookieHelper.Clone | browsing_data/browsing_data_cookie_helper.cc:111-123 | a new helper with the same sets |
| CookieHelper.CookiesOf | browsing_data/browsing_data_cookie_helper.cc:182-184 | one set's cookies as a list, each once |
| SafeBrowsingBlockingPage.GetTrialCondition | safe_browsing/safe_browsing_blocking_page.cc:151-192 | the first switch in the fixed order wins; with no switch the field trial decides |
| SafeBrowsingBlockingPage.NoKnownSwitch | safe_browsing/safe_browsing_blocking_page.cc:151-175 | a switch set holding none of the six conditions is empty |
| SafeBrowsingBlockingPage.FieldTrialCondition | safe_browsing/safe_browsing_blocking_page.cc:179-191 | a known group name gives its condition; anything else gives V3 |
| SafeBrowsingBlockingPage.ConditionNameRoundTrip | safe_browsing/safe_browsing_blocking_page.cc:141-191 | every condition's group name selects that condition |
| SafeBrowsingBlockingPage.SwitchesOverrideFieldTrial | safe_browsing/safe_browsing_blocking_page.cc:151-175 | when any switch is set the field trial does not matter |
| SafeBrowsingBlockingPage.ChoosePageVersion | safe_browsing/safe_browsing_blocking_page.cc:209-228 | V2 or V3 iff a single malware or phishing resource; V2 iff that and the condition is V2 |
| SafeBrowsingBlockingPage.ClassifyThreats | safe_browsing/safe_browsing_blocking_page.cc:259-280 | malware and phishing if both kinds occur, malware if only malware, phishing otherwise |
| SafeBrowsingBlockingPage.ClassificationUnique | safe_browsing/safe_browsing_blocking_page.cc:275-280 | a resource list has one interstitial type |
| SafeBrowsingBlockingPage.IsMainPageLoadBlocked | safe_browsing/safe_browsing_blocking_page.cc:921-932 | never for client-side phishing first; otherwise exactly a single main-frame resource |
| SafeBrowsingBlockingPage.StripQuotes | safe_browsing/safe_browsing_blocking_page.cc:328-330 | a command longer than one character starting with a quote loses its first and last characters; others are unchanged |
| SafeBrowsingBlockingPage.StripQuotesOfQuoted | safe_browsing/safe_browsing_blocking_page.cc:327-330 | removing the JSON quotes recovers the command |
| SafeBrowsingBlockingPage.StringToInt | safe_browsing/safe_browsing_blocking_page.cc:432-435 | a parsed number lies in the `int` range and comes from an optional sign and digits |
| SafeBrowsingBlockingPage.StringToIntRoundTrip | safe_browsing/safe_browsing_blocking_page.cc:432-435 | the decimal text of any `int` parses back to it |
| SafeBrowsingBlockingPage.SizeT | safe_browsing/safe_browsing_blocking_page.cc:438 | the `size_t` cast keeps non-negative values and wraps negative ones by 2^64 |
| SafeBrowsingBlockingPage.ParseElementIndex | safe_browsing/safe_browsing_blocking_page.cc:427-439 | without a colon the command and index 0 are kept; otherwise the name is the part before the first colon |
| SafeBrowsingBlockingPage.ParseElementIndexRoundTrip | safe_browsing/safe_browsing_blocking_page.cc:427-439 | "name:N" parses back to the name and N |
| SafeBrowsingBlockingPage.NegativeIndexWraps | safe_browsing/safe_browsing_blocking_page.cc:437-441 | a negative index becomes a `size_t` at least the number of resources |
| SafeBrowsingBlockingPage.LearnMoreUrl | safe_browsing/safe_browsing_blocking_page.cc:342-380 | the malware or phishing help page of the requested version, and none for other threats |
| SafeBrowsingBlockingPage.Dispatch | safe_browsing/safe_browsing_blocking_page.cc:332-490 | the reporting commands set the preference; proceed proceeds unless proceeding is disabled; take-me-back, or a disabled proceed, closes a blocked main-frame load; report-error and diagnostic reach only an existing resource |
| SafeBrowsingBlockingPage.DispatchIndexed | safe_browsing/safe_browsing_blocking_page.cc:441-489 | an index at or beyond the resources is rejected; otherwise report-error and diagnostic act on that resource |
| SafeBrowsingBlockingPage.IndexedDispatch | safe_browsing/safe_browsing_blocking_page.cc:425-441 | a command with a colon is none of the plain commands, so its parsed name and index decide |
| SafeBrowsingBlockingPage.IndexedCommandReachesResource | safe_browsing/safe_browsing_blocking_page.cc:447-483 | "reportError:N" and "showDiagnostic:N" act on resource N when it exists |
| SafeBrowsingBlockingPage.IndexedCommandParses | safe_browsing/safe_browsing_blocking_page.cc:425-441 | a command made of a colon-free name, a colon and a number in the `int` range is dispatched on that name and number |
| SafeBrowsingBlockingPage.NegativeIndexIgnored | safe_browsing/safe_browsing_blocking_page.cc:437-444 | a negative element index is rejected, whatever the name |
| SafeBrowsingBlockingPage.ColonIsAt | safe_browsing/safe_browsing_blocking_page.cc:428 | a command built as name, colon and index contains a colon |
| SafeBrowsingBlockingPage.HistogramAction | safe_browsing/safe_browsing_blocking_page.cc:604-701 | every recorded action lies below MAX_ACTION |
| SafeBrowsingBlockingPage.HistogramActionRoundTrip | safe_browsing/safe_browsing_blocking_page.cc:607-695 | the enum value determines the event, the interstitial type and (for don't-proceed) whether proceeding was disabled |
| SafeBrowsingBlockingPage.DetailedActions | safe_browsing/safe_browsing_blocking_page.cc:703-721 | detailed actions only for proceed or don't-proceed on a single-kind page, present iff a new site or a subresource; malware kinds iff a malware page; proceed kinds only on proceed |
| SafeBrowsingBlockingPage.ComputedAction | safe_browsing/safe_browsing_blocking_page.cc:723-756 | the user action starts with "SBInterstitial" and is just the kind for show-advanced |
| SafeBrowsingBlockingPage.RecordUserAction | safe_browsing/safe_browsing_blocking_page.cc:604-757 | the histogram action is in range, and detailed actions come only from proceed or don't-proceed |
| SafeBrowsingBlockingPage.ReactionHistogram | safe_browsing/safe_browsing_blocking_page.cc:768-830 | a command has a reaction-time histogram exactly when it is one of the seven closing or expanding commands, or the privacy-policy command on a malware page; malware pages use the malware histograms and the others the phishing ones |
| SafeBrowsingBlockingPage.MalwareReactionHistogram | safe_browsing/safe_browsing_blocking_page.cc:774-802 | on a malware page, the seven reaction commands and the privacy-policy command have a histogram, each named with the malware prefix, and no other command has one |
| SafeBrowsingBlockingPage.PhishingReactionHistogram | safe_browsing/safe_browsing_blocking_page.cc:805-829 | on a phishing page, exactly the seven reaction commands have a histogram, each named with the phishing prefix |
| SafeBrowsingBlockingPage.ReactionStep | safe_browsing/safe_browsing_blocking_page.cc:759-833 | nothing is recorded once the show time is reset; the first expanded-see-more records show-advanced without ending recording; a reset always comes with a histogram |
| SafeBrowsingBlockingPage.ReactionRecordedAtMostOnce | safe_browsing/safe_browsing_blocking_page.cc:761-832 | over any command sequence the reaction time is recorded at most once per display, show-advanced at most once, and recording ends after it |
| SafeBrowsingBlockingPage.UpdatedReportingPrefs | safe_browsing/safe_browsing_blocking_page.cc:516-527 | the extended-reporting preference is turned on only when the box was checked and the preference is neither on nor set |
| SafeBrowsingBlockingPage.UnsafeResourceQueue.constructor | safe_browsing/safe_browsing_blocking_page.cc:117-118 | the queue starts empty |
| SafeBrowsingBlockingPage.UnsafeResourceQueue.Queued | safe_browsing/safe_browsing_blocking_page.cc:541-543 | a tab without an entry has nothing queued |
| SafeBrowsingBlockingPage.UnsafeResourceQueue.Enqueue | safe_browsing/safe_browsing_blocking_page.cc:916-917 | the resource is appended to the tab's list and other tabs are unchanged |
| SafeBrowsingBlockingPage.UnsafeResourceQueue.TakeQueued | safe_browsing/safe_browsing_blocking_page.cc:540-549 | returns the tab's list and erases a non-empty entry; other tabs are unchanged |
| SafeBrowsingBlockingPage.ShowBlockingPage | safe_browsing/safe_browsing_blocking_page.cc:889-918 | queued iff a page is showing and the resource is a subresource; otherwise the current page is hidden (if any) and a page of the chosen version is shown |
| SafeBrowsingBlockingPage.BlockingPage.constructor | safe_browsing/safe_browsing_blocking_page.cc:243-315 | flags cleared, visits -1, the entry to remove is -1 for a blocked main-frame load and the last committed entry otherwise, and SHOW is recorded |
| SafeBrowsingBlockingPage.BlockingPage.MarkShown | safe_browsing/safe_browsing_blocking_page.cc:1294 | the show time is set and nothing else changes; the same assignment ends the multiple-threat and V1 page builders at lines 956 and 1107 |
| SafeBrowsingBlockingPage.BlockingPage.OnGotHistoryCount | safe_browsing/safe_browsing_blocking_page.cc:597-602 | the visit count is taken only on success |
| SafeBrowsingBlockingPage.BlockingPage.RecordUserReactionTime | safe_browsing/safe_browsing_blocking_page.cc:759-833 | the page's flags and logs follow the reaction step |
| SafeBrowsingBlockingPage.BlockingPage.SetReportingPreference | safe_browsing/safe_browsing_blocking_page.cc:502-511 | the preference is set to the choice and the checkbox follows it |
| SafeBrowsingBlockingPage.BlockingPage.CommandReceived | safe_browsing/safe_browsing_blocking_page.cc:325-493 | the unquoted command is timed and then dispatched; only the reporting commands change preferences |
| SafeBrowsingBlockingPage.BlockingPage.OnProceed | safe_browsing/safe_browsing_blocking_page.cc:529-555 | marks proceeded, records PROCEED, updates the preference, notifies proceed, and builds a page for the tab's queued resources, taking them from the queue |
| SafeBrowsingBlockingPage.BlockingPage.OnDontProceed | safe_browsing/safe_browsing_blocking_page.cc:557-595 | always times the close; after a proceed nothing else happens; otherwise notifies the page's and the queued resources and clears the queue, and removes the pending entry only when it is set, not the last committed one, and the tab is not being destroyed |
| SafeBrowsingBlockingPage.BlockingPage.RefuseResources | safe_browsing/safe_browsing_blocking_page.cc:565-594 | records DONT_PROCEED, updates the preference, notifies the page's and the queued resources and clears the queue, and removes the pending entry only when it is set, not the last committed one, and the tab is not being destroyed |
| SafeBrowsingBlockingPage.BlockingPage.UpdateReportingPref | safe_browsing/safe_browsing_blocking_page.cc:516-527 | the preference follows the checked-box rule |
| SafeBrowsingBlockingPage.CreateSafeBrowsingPage | safe_browsing/safe_browsing_blocking_page.cc:204-229 | a new page for the resources, of the version the factory picks |
| AddressInputs.GetServerType | ui/autofill/autofill_dialog_i18n_input.cc:26-50 | ORGANIZATION iff COMPANY_NAME; any other field gives its billing variant iff billing and its home variant otherwise; never UNKNOWN_TYPE |
| AddressInputs.GetServerTypeRoundTrip | ui/autofill/autofill_dialog_i18n_input.cc:26-50 | the field is recovered from its server type |
| AddressInputs.LengthFromHint | ui/autofill/autofill_dialog_i18n_input.cc:52-57 | HINT_SHORT iff SHORT, HINT_LONG iff LONG |
| AddressInputs.ComponentInputs | ui/autofill/autofill_dialog_i18n_input.cc:78-98 | no input for ORGANIZATION, LINE1 then LINE2 for a long street address, one input otherwise, each with the component's name and length |
| AddressInputs.CountryInput | ui/autofill/autofill_dialog_i18n_input.cc:101-106 | the country input has length NONE and the country type of the billing flag |
| AddressInputs.AddressInputs | ui/autofill/autofill_dialog_i18n_input.cc:75-107 | the appended inputs end with the country input |
| AddressInputs.BuildAddressInputs | ui/autofill/autofill_dialog_i18n_input.cc:66-108 | the inputs are the old inputs followed by the address inputs |
| AddressInputs.AppendComponentsInputs | ui/autofill/autofill_dialog_i18n_input.cc:77-99 | the loop appends every component's inputs in order |
| AddressInputs.ComponentsInputsStep | ui/autofill/autofill_dialog_i18n_input.cc:77-99 | one more component appends its own inputs |
| AddressInputs.AppendComponentInputs | ui/autofill/autofill_dialog_i18n_input.cc:78-98 | one loop turn appends the component's inputs |
| AddressInputs.AddressInputsCount | ui/autofill/autofill_dialog_i18n_input.cc:75-107 | non-organization components plus long street components plus one inputs are appended |
| AddressInputs.ComponentsInputsCount | ui/autofill/autofill_dialog_i18n_input.cc:77-99 | the component inputs number the non-organization plus the long street components |
| AddressInputs.ComponentsInputsAppend | ui/autofill/autofill_dialog_i18n_input.cc:77-99 | the inputs of concatenated component lists are concatenated |
| AddressInputs.WithoutOrganization | ui/autofill/autofill_dialog_i18n_input.cc:79-82 | the filtered list has no organization component |
| AddressInputs.OrganizationIgnored | ui/autofill/autofill_dialog_i18n_input.cc:79-82 | dropping organization components does not change the inputs |
| AddressInputs.InputsMatchAddressType | ui/autofill/autofill_dialog_i18n_input.cc:75-107 | every input is of the billing kind iff the address is a billing address, and none is COMPANY_NAME |
| AddressInputs.ComponentsInputsMatch | ui/autofill/autofill_dialog_i18n_input.cc:77-99 | every component input is of the billing kind iff billing, and none is COMPANY_NAME |
| FaviconHandler.UrlWithoutFragment | favicon/favicon_handler.cc:56-60 | the URL with the fragment cleared is a prefix without '#', and a URL without one is unchanged |
| FaviconHandler.UrlMatches | favicon/favicon_handler.cc:62-64 | equal URLs match, and two URLs without fragments match exactly when they are equal |
| FaviconHandler.FragmentIgnored | favicon/favicon_handler.cc:62-64 | a URL matches itself with any fragment added |
| FaviconHandler.DoUrlAndIconMatch | favicon/favicon_handler.cc:49-54 | true exactly when the declared icon is the given URL with the given icon type |
| FaviconHandler.IconTypesFor | favicon/favicon_handler.cc:127-134 | a favicon handler's mask holds exactly FAVICON; a touch handler's holds exactly the two touch icon types |
| FaviconHandler.AcceptedUrls | favicon/favicon_handler.cc:262-268 | the kept icons are never more than the declared ones |
| FaviconHandler.AcceptedUrlsMembers | favicon/favicon_handler.cc:262-268 | an icon is kept iff it is declared, has a URL and has a type in the mask |
| FaviconHandler.AcceptedUrlsIdempotent | favicon/favicon_handler.cc:262-268 | filtering the kept icons again keeps them all |
| FaviconHandler.HasExpiredFaviconResult | favicon/favicon_handler.cc:68-75 | true iff some result has expired |
| FaviconHandler.CandidateStep | favicon/favicon_handler.cc:178-208 | final iff no preferred size or an exact match; the offered image replaces the candidate without a preferred size, without a candidate or on an exact match, and otherwise only for a strictly higher score |
| FaviconHandler.BestCandidateKept | favicon/favicon_handler.cc:198-201 | over a run of inexact downloads the candidate ends with a score no offered image beats |
| FaviconHandler.ScoreNeverDrops | favicon/favicon_handler.cc:198-201 | without exact matches a valid candidate's score never drops |
| FaviconHandler.Handler.constructor | favicon/favicon_handler.cc:126-135 | the mask follows the handler type; nothing fetched, no candidate, no downloads |
| FaviconHandler.Handler.FetchFavicon | favicon/favicon_handler.cc:147-163 | a new page URL with the expired and history flags cleared and no icon URLs; downloads in flight are kept |
| FaviconHandler.Handler.UpdateFaviconCandidate | favicon/favicon_handler.cc:178-208 | the candidate and the result follow the candidate step |
| FaviconHandler.Handler.OnUpdateFaviconUrl | favicon/favicon_handler.cc:258-279 | the candidate is reset and the icon URLs become the accepted declared icons in order; processing starts iff there are some and a favicon service |
| FaviconHandler.Handler.ScheduleDownload | favicon/favicon_handler.cc:547-562 | a non-zero download id records the request under that id; id 0 records nothing |
| FaviconHandler.Handler.OnDidDownloadFavicon | favicon/favicon_handler.cc:311-351 | an unknown id changes nothing; a known id is always erased; a callback gets the result; a stale image is dropped; otherwise the kept candidate is the old one after an error and the candidate-update result otherwise, the next icon is asked for exactly when (the download errored or the image was not an exact match) and there is an entry and more than one URL left, and else a kept candidate of a valid type is set (and candidate and URLs are cleared) |
| FaviconHandler.Handler.RunPendingCallbacks | favicon/favicon_handler.cc:137-145 | every pending download with a callback has it run once with an error, in ascending id order |

## Left out

- LevelDB `Iterator::SeekToLast` is not modelled. It moves the pending cursor to the end without calling `AdvanceIterators`, so it does not keep the iterator invariant the other positioning methods keep.
- LevelDbWrapper.Iterator: the iterator reads snapshots of the store and of the pending map that are taken when it is created. In the source, the pending cursor walks the live `std::map`, so later `Put`s are not seen by an existing iterator in the model.
- `LevelDBWrapper::GetLevelDB` and `NewIterator` are not modelled. They are accessors with no logic.
- The LevelDB status codes other than OK and NotFound are not modelled. The store's `Write` result is a parameter.
- VolumeManager: observers, histograms, the system mount-point registry, the MTP device map service and the `Initialize`/`Shutdown` subscriptions are outside the model. In `Initialize`, the non-archive mount points and the Drive and Downloads volumes are not replayed; of the mount-point replay only the archive part (`MountArchives`: chain order plus mount events) is modelled.
- VolumeManager.VolumeManager.OnRemovableStorageAttached: the UTF-16 to UTF-8 conversion of the model name is the identity, and the device's file system id is not modelled.
- InputMethodEngine: key events, menu items, the input view, `ProcessKeyEvent` and the keyboard event conversion are outside the model. The histograms of `CommitText` and `Disable` are not recorded; the character count is returned instead.
- InputMethodEngine.Engine.SetComposition: the text's UTF-8 to UTF-16 conversion is the identity.
- CookieHelper: the base class's IO-thread fetching and the cookie monster's deletion are outside the model. Parsing a cookie line is a parameter of `AddChangedCookie`.
- SafeBrowsingBlockingPage: the HTML of the V1, V2 and V3 pages, malware details collection, the privacy-policy URL string and the clearing of the legacy reporting preferences are not modelled. So are the URLs that report-error and diagnostic open, the navigation itself (go back, load a new tab) and the histograms' time values.
- SafeBrowsingBlockingPage.ClassifyThreats: a resource that is neither malware nor phishing counts as phishing. This is what the constructor's `else` branch does; its DCHECK is not modelled.
- InputMethodEngine.Engine.DeleteSurroundingText: `offset` and `number_of_chars` are unbounded integers; the 32-bit `int` and 64-bit `size_t` widths, and the undefined negation of the least `int` in `-1 * offset` (line 484), are not modelled.
- FaviconHandler: the history service callbacks (`OnFaviconDataForInitialURL`, `OnFaviconData`), `ProcessCurrentUrl`, `DownloadFaviconOrAskHistory`, `SetFavicon`, resizing and PNG encoding are outside the model. `OnDidDownloadFavicon` returns which of these it would call next, and whether the tab still shows the page is a parameter.
- FaviconHandler.Handler.ScheduleDownload: the download id comes from the delegate and is a parameter. The source's DCHECK that ids are fresh is not a requirement of the model; a repeated id overwrites the request.

## Findings

| source | as written | input that shows it | evidently intended | confidence | as-written member | corrected member |
|---|---|---|---|---|---|---|
| chromeos/input_method/input_method_engine.cc:617-625 | `CandidateClicked` returns early only when `index > candidate_ids_.size()`, then calls `candidate_ids_.at(index)` | no candidates and index 0 (in general, index equal to the number of candidates) passes the guard, and `.at()` is out of range | ignore every index that is not below the number of candidates (`index >= size`) | not executed | InputMethodEngine.ClickAsWritten | InputMethodEngine.Click |

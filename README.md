# PeriodicTorrent, modelled in Dafny

Patchy is a BitTorrent client built on the MonoTorrent engine. Its
`PeriodicTorrent` class keeps a cache of one torrent's status for the user
interface. A timer calls `Update` periodically. `Update` copies the engine's
current values into the cache through private setters. Each setter raises
`PropertyChanged` with its own name when the value really changed and a
handler is attached. The first time the torrent is seen Downloading,
`Update` also builds the array of per-file views and raises "Files". For a
magnet link whose size is not yet known, it fills in the size from the file
lengths. Then it refreshes every file view.

The project has five files:

- `wrappers.dfy`: `Option` and `Result`.
- `numerics.dfy`: the .NET integer ranges, C#'s unchecked `long` addition,
  the LINQ `Aggregate` sum, and an abstraction of `double` with C#'s `!=`
  (true between two NaNs).
- `engine.dfy`: an immutable `Snapshot` of the engine values that `Update`
  reads.
- `periodic_torrent.dfy`: the specification and the classes.
  - The specification is pure. `TorrentView` is the state of a
    `PeriodicTorrent`, including the list of `PropertyChanged` names raised
    so far (`log`). The functions over it are the eleven setters
    (`WithState` … `WithName`), their generic form `Assign`, one `Update`
    (`Refresh`, returning the outcome and the state left behind), and the
    constructor (`Construct`).
  - The classes are `PeriodicFile` and `PeriodicTorrent`. Their fields are
    updated in place, and the files array is a real `array`. Every method is
    proved against the pure functions:
    `Step(outcome, View()) == Refresh(old(View()), e)`.
- `properties.dfy`: what one `Update`, a series of them, and the constructor
  guarantee, proved about `Refresh`, `Run` and `Construct`.

The source raises two exceptions, and both are modelled as outcomes with the
partial state the C# code leaves behind:
- Line 45 raises "Files" without checking for a handler. With no handler it
  throws a NullReferenceException after the array has been built. This
  includes a constructor call on a torrent that is already Downloading.
- `Aggregate` at line 48 throws an InvalidOperationException on an empty
  file list.

## Model

| member | source | states |
|---|---|---|
| PeriodicTorrents.PeriodicTorrent.SetState | Patchy/PeriodicTorrent.cs:74-80 | stores the state; appends State to the log iff the old value differed and a handler is attached (`WithState`) |
| PeriodicTorrents.PeriodicTorrent.SetProgress | Patchy/PeriodicTorrent.cs:90-96 | stores the progress; notifies Progress iff C#'s double `!=` holds (always for NaN) and a handler is attached |
| PeriodicTorrents.PeriodicTorrent.SetDownloadSpeed | Patchy/PeriodicTorrent.cs:106-112 | stores the download speed; notifies DownloadSpeed iff it changed and a handler is attached |
| PeriodicTorrents.PeriodicTorrent.SetUploadSpeed | Patchy/PeriodicTorrent.cs:122-128 | stores the upload speed; notifies UploadSpeed iff it changed and a handler is attached |
| PeriodicTorrents.PeriodicTorrent.SetEstimatedTime | Patchy/PeriodicTorrent.cs:138-144 | stores the estimated time in ticks; notifies EstimatedTime iff it changed and a handler is attached |
| PeriodicTorrents.PeriodicTorrent.SetTotalDownloaded | Patchy/PeriodicTorrent.cs:154-160 | stores the downloaded total; notifies TotalDownloaded iff it changed and a handler is attached |
| PeriodicTorrents.PeriodicTorrent.SetTotalUploaded | Patchy/PeriodicTorrent.cs:170-176 | stores the uploaded total; notifies TotalUploaded iff it changed and a handler is attached |
| PeriodicTorrents.PeriodicTorrent.SetDownloadToUploadRatio | Patchy/PeriodicTorrent.cs:186-192 | stores the ratio; notifies DownloadToUploadRatio iff C#'s double `!=` holds and a handler is attached |
| PeriodicTorrents.PeriodicTorrent.SetComplete | Patchy/PeriodicTorrent.cs:202-208 | stores Complete; notifies Complete iff it changed and a handler is attached |
| PeriodicTorrents.PeriodicTorrent.SetSize | Patchy/PeriodicTorrent.cs:218-224 | stores the size; notifies Size iff it changed and a handler is attached |
| PeriodicTorrents.PeriodicTorrent.SetName | Patchy/PeriodicTorrent.cs:234-240 | stores the name; notifies Name iff it changed and a handler is attached |
| PeriodicTorrents.AssignActsAsSetter | Patchy/PeriodicTorrent.cs:67-241 | every setter leaves its new value in its property, changes no other property, the files or the subscription, and appends exactly its own name iff the old value differed and a handler is attached |
| PeriodicTorrents.PeriodicTorrent.Update | Patchy/PeriodicTorrent.cs:27-54 | the outcome and the new state of one `Update` are those of `Refresh` applied to the old state; the object stays well formed and only new objects join its footprint; a files array that already exists is kept, same object and same elements |
| PeriodicTorrents.PeriodicTorrent.UpdateCachedValues | Patchy/PeriodicTorrent.cs:29-39 | runs the eight setters in source order with the engine's values, TimeSpan.MaxValue as the estimated time while fetching metadata, and the uploaded/downloaded quotient as the ratio |
| PeriodicTorrents.PeriodicTorrent.FinishUpdate | Patchy/PeriodicTorrent.cs:40-53 | builds the files array if Downloading and missing, then raises "Files" or throws without a handler; applies the magnet size rule or throws on an empty file list; updates every file; an existing files array is never replaced nor its elements swapped |
| PeriodicTorrents.PeriodicTorrent.MaterializeFiles | Patchy/PeriodicTorrent.cs:40-44 | the new array has one fresh element per engine file, element i wrapping file i with no updates yet, and no other field changes; the array and every element are freshly allocated |
| PeriodicTorrents.PeriodicTorrent.UpdateEachFile | Patchy/PeriodicTorrent.cs:49-53 | every element's `Update` runs once (its counter grows by one) and nothing else changes: the array reference and its elements stay the same |
| PeriodicTorrents.PeriodicTorrent.Create | Patchy/PeriodicTorrent.cs:19-25 | fails exactly as `Construct` does, with the same exception; on success the new object holds `Construct`'s state |
| PeriodicTorrents.PeriodicTorrent.constructor | Patchy/PeriodicTorrent.cs:19-21 | the object as allocated: every field at its .NET default, no files array, no handler, nothing notified |
| PeriodicTorrents.PeriodicTorrent.GetFiles | Patchy/PeriodicTorrent.cs:59-65 | returns the files array itself: null iff it was never built, and element i wraps the engine file recorded for it |
| PeriodicTorrents.PeriodicTorrent.Subscribe | Patchy/PeriodicTorrent.cs:56 | attaching a handler changes only the subscription |
| PeriodicTorrents.PeriodicTorrent.Unsubscribe | Patchy/PeriodicTorrent.cs:56 | detaching the handler changes only the subscription |
| PeriodicTorrents.PeriodicFile.constructor | Patchy/PeriodicTorrent.cs:44 | a file view wraps its engine file and has not been updated |
| PeriodicTorrents.PeriodicFile.Update | Patchy/PeriodicTorrent.cs:52 | one call of a file view's `Update` is counted |
| PeriodicTorrents.Materialized | Patchy/PeriodicTorrent.cs:42-44 | one view per engine file, in order, none updated yet |
| PeriodicTorrents.Touched | Patchy/PeriodicTorrent.cs:51-52 | the same files, each counter one higher |
| Engine.Lengths | Patchy/PeriodicTorrent.cs:48 | the lengths of the files, in order |
| Numerics.Wrap64 | Patchy/PeriodicTorrent.cs:48 | the long congruent to x modulo 2^64, equal to x when x fits |
| Numerics.AddUnchecked | Patchy/PeriodicTorrent.cs:48 | unchecked long addition: congruent to the exact sum modulo 2^64, and the exact sum whenever it fits |
| Numerics.AggregateSumIsWrappedSum | Patchy/PeriodicTorrent.cs:48 | the `Aggregate((a, b) => a + b)` of a non-empty list is the exact sum taken modulo 2^64, and the exact sum when that fits in a long |
| Numerics.LongQuotient | Patchy/PeriodicTorrent.cs:39 | dividing two longs as doubles: NaN exactly for 0/0, finite exactly for a non-zero divisor, and then the real quotient |
| Numerics.DoubleDiffersFromItself | Patchy/PeriodicTorrent.cs:92 | C#'s `!=` between a double and itself holds exactly for NaN |
| TorrentProperties.AssignAllSpec | Patchy/PeriodicTorrent.cs:29-39 | running a list of setters on distinct properties stores every value, leaves every other property alone, and notifies exactly the changed ones in list order |
| TorrentProperties.RefreshCachedValuesAssignsHead | Patchy/PeriodicTorrent.cs:29-39 | lines 29-39 are the setters of State, Progress, both speeds, EstimatedTime, both totals and the ratio, in that order |
| TorrentProperties.HeadNotifies | Patchy/PeriodicTorrent.cs:29-39 | those lines leave the engine's values in the eight properties, change nothing else, and notify exactly the changed ones in order |
| TorrentProperties.ResolveSizeNotifies | Patchy/PeriodicTorrent.cs:47-53 | the magnet size rule and the files' updates notify at most Size, when the size changes, and change no other property |
| TorrentProperties.TailNotifies | Patchy/PeriodicTorrent.cs:40-53 | lines 40-53 notify Files when they build the array and Size when they change it, nothing else, and change no other property |
| TorrentProperties.TailBuildsFiles | Patchy/PeriodicTorrent.cs:40-53 | building the array with a handler attached notifies Files, then Size if it changes, and leaves the array in place |
| TorrentProperties.UpdateNotifiesChanges | Patchy/PeriodicTorrent.cs:27-54 | whatever its outcome, one `Update` appends to the log exactly the changed properties among the ten it assigns, in assignment order, if a handler is attached |
| TorrentProperties.UpdateNotifiesIffChanged | Patchy/PeriodicTorrent.cs:27-54 | per property: `Update` notifies p iff p is not Complete or Name, a handler is attached, and p's value changed (a NaN counts as changed) |
| TorrentProperties.UpdateNotifiesInOrder | Patchy/PeriodicTorrent.cs:29-53 | the notifications of one `Update` come in assignment order, so none twice |
| TorrentProperties.NotifiedIffChanged | Patchy/PeriodicTorrent.cs:27-54 | the per-property reading of a log extended by the changed properties |
| TorrentProperties.NotifiedInOrder | Patchy/PeriodicTorrent.cs:29-53 | a log extended by the changed properties lists them in assignment order without repeats |
| TorrentProperties.FinishRefreshFacts | Patchy/PeriodicTorrent.cs:40-53 | when lines 40-53 throw which exception, what size and files they leave, and that they touch nothing else |
| TorrentProperties.RefreshStoresEngineValues | Patchy/PeriodicTorrent.cs:29-48 | after `Update` the cache holds the engine's values; ETA is TimeSpan.MaxValue in Metadata; Size is the file total under the magnet rule when the call completes, else unchanged; Complete, Name and the subscription are unchanged |
| TorrentProperties.RefreshOutcome | Patchy/PeriodicTorrent.cs:40-48 | `Update` throws NullReferenceException iff it builds the array with no handler attached, and InvalidOperationException iff the magnet rule meets an empty file list and the first exception did not fire; otherwise it completes |
| TorrentProperties.RefreshFiles | Patchy/PeriodicTorrent.cs:40-53 | the array exists afterwards iff it existed or the engine is Downloading; an existing array keeps its files; a new one has one view per engine file; each completed call updates every view once |
| TorrentProperties.MagnetSizeIsFileTotal | Patchy/PeriodicTorrent.cs:47-48 | a completed magnet `Update` (Downloading, size -1) had files, and sets Size to their total modulo 2^64, and to the exact total when it fits |
| TorrentProperties.RefreshSettles | Patchy/PeriodicTorrent.cs:29-53 | a completed `Update` leaves the cache settled for the same engine values |
| TorrentProperties.SettledRefreshChangesNothing | Patchy/PeriodicTorrent.cs:29-53 | `Update` on a settled cache completes and changes only the file views' counters and the log |
| TorrentProperties.UnchangedNotifiesOnlyNaN | Patchy/PeriodicTorrent.cs:90-96 | when no property changes, only a NaN Progress or ratio is notified, and only with a handler |
| TorrentProperties.SettledRefreshIsQuiet | Patchy/PeriodicTorrent.cs:29-53 | `Update` on a settled cache notifies only a NaN Progress or ratio |
| TorrentProperties.RefreshAgainIsQuiet | Patchy/PeriodicTorrent.cs:29-53 | after a first `Update` that completed, a second one with the same engine values completes, rebuilds nothing, only advances the file counters, and notifies nothing but a NaN Progress or ratio (after a first call that threw at line 45 the second may still resolve and notify Size) |
| TorrentProperties.ConstructFailsIffDownloading | Patchy/PeriodicTorrent.cs:19-25 | the constructor throws, always a NullReferenceException, iff the engine is already Downloading |
| TorrentProperties.ConstructedView | Patchy/PeriodicTorrent.cs:19-25 | a constructed object holds the engine values, Name, and the engine's Size (set after `Update`); it is not Complete, has no files array and has notified nothing |
| TorrentProperties.NothingNotifiedUnsubscribed | Patchy/PeriodicTorrent.cs:78 | with no handler attached nothing is notified |
| TorrentProperties.ApplyKeepsFiles | Patchy/PeriodicTorrent.cs:40-53 | one event (an `Update`, or a handler attached or detached) keeps an existing files array's length and engine files |
| TorrentProperties.FilesNeverReplaced | Patchy/PeriodicTorrent.cs:40-46 | over any series of `Update` calls with handlers attached and detached in between, a built files array keeps its length and each element's engine file |
| TorrentProperties.ApplyNotifiesFilesOnBuild | Patchy/PeriodicTorrent.cs:40-46 | one event notifies "Files" at most once, only when it builds the array, and never removes the array |
| TorrentProperties.FilesNotifiedAtMostOnce | Patchy/PeriodicTorrent.cs:40-46 | over any series of `Update` calls with handlers attached and detached in between, "Files" is notified at most once, and never once the array exists |
| TorrentProperties.RefreshNotifiesFilesOnBuild | Patchy/PeriodicTorrent.cs:40-46 | one `Update` notifies "Files" at most once, only when it builds the array, and never removes the array |

The definitions below carry no contract of their own, so they have no row
above. Each is the reference that a class method is proved equal to, or that
the lemmas above are about:

- `PeriodicTorrents.WithState` … `PeriodicTorrents.WithName`
  (Patchy/PeriodicTorrent.cs:67-241): one setter each; `SetState` …
  `SetName` are proved equal to them.
- `PeriodicTorrents.RefreshCachedValues` (Patchy/PeriodicTorrent.cs:29-39):
  the eight setter calls; `UpdateCachedValues` is proved equal to it.
- `PeriodicTorrents.FinishRefresh` (Patchy/PeriodicTorrent.cs:40-53): building
  the array and raising "Files"; `FinishUpdate` is proved equal to it.
- `PeriodicTorrents.ResolveSizeAndUpdateFiles`
  (Patchy/PeriodicTorrent.cs:47-53): the magnet size rule, then every file's
  update.
- `PeriodicTorrents.UpdateFiles` (Patchy/PeriodicTorrent.cs:49-53): every
  file's update; `UpdateEachFile` is proved equal to it.
- `PeriodicTorrents.Refresh` (Patchy/PeriodicTorrent.cs:27-54): one whole
  `Update`; `PeriodicTorrent.Update` is proved equal to it.
- `PeriodicTorrents.Construct` (Patchy/PeriodicTorrent.cs:19-25): the
  constructor; `PeriodicTorrent.Create` is proved equal to it.
- `Numerics.AggregateSum` (Patchy/PeriodicTorrent.cs:48): LINQ's `Aggregate`
  as a sum; `Numerics.AggregateSumIsWrappedSum` states what it computes.

## Left out

- The estimated-time formula of line 36 reads the wall clock and divides doubles. The snapshot supplies its result (`etaTicks`), so only the Metadata branch (TimeSpan.MaxValue) is modelled.
- Floating point is abstract. `Double` is a real, an infinity or NaN. Rounding, signed zero, and the rounding in the long-to-double conversion of line 39 are not modelled.
- Numerics.LongQuotient: states the real quotient for a non-zero divisor and does not fix the sign of the infinity for a zero divisor.
- MonoTorrent and `TorrentWrapper` are not part of this model. `Update` reads one immutable `Snapshot`. The C# reads the wrapper several times, and a value that changes between two of those reads is not modelled. The public `Torrent` setter (line 17) is left out.
- `PeriodicFile` is not part of this model beyond the engine file it wraps and a count of its `Update` calls. The order in which the files are updated at lines 51-52 is therefore not observable.
- The `PropertyChanged` event is reduced to a flag (a handler is attached or not) and the list of raised names. Multicast delegates and exceptions thrown by handlers are left out.
- Threading between the timer and the user interface is left out.
- A handler's own side effects during a notification are left out. The subscription is fixed for the whole of one `Update`. In C#, a handler that detaches itself while State, say, is notified makes line 45 throw in the same call.
- Callers writing through the array returned by the `Files` getter are left out. `Valid()` requires every element to be non-null. In C#, an element a caller sets to null makes line 52 throw.
- The default value of `TorrentState` is taken to be Stopped, the enum's first member. The enum's declaration is not part of this model.
- Nothing in the class assigns Complete. Its setter is modelled anyway, and no lemma about `Update` lets it change.
- TorrentProperties.Run: models a driver that keeps calling `Update` after a call has thrown, with the partial state left behind; handlers are attached and detached only between calls.

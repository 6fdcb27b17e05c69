/** What the cache reads from the torrent engine (a MonoTorrent manager behind
    Patchy's TorrentWrapper) during one refresh, captured as a value. */
module Engine {
  import opened Wrappers
  import opened Numerics

  /** MonoTorrent's TorrentState; `Stopped`, its first member, is the value a
      fresh cache field holds. */
  datatype TorrentState =
    | Stopped | Paused | Downloading | Seeding | Hashing | Stopping | Error | Metadata

  /** One entry of the torrent's file list. */
  datatype TorrentFile = TorrentFile(path: string, length: Int64)

  /** The engine values read by one call of `Update` and by the constructor.
      `etaTicks` is the value the remaining-time formula yields at the moment
      of the refresh (it reads the wall clock); `size` is -1 while the size is
      unknown; `files` is the metadata's file list. */
  datatype Snapshot = Snapshot(
    state: TorrentState,
    progress: Double,
    downloadSpeed: Int32,
    uploadSpeed: Int32,
    etaTicks: Int64,
    dataBytesDownloaded: Int64,
    dataBytesUploaded: Int64,
    isMagnet: bool,
    size: Int64,
    name: Option<string>,
    files: seq<TorrentFile>)

  /** `Files.Select(f => f.Length)`. */
  function Lengths(files: seq<TorrentFile>): (ls: seq<Int64>)
    ensures |ls| == |files|
    ensures forall i :: 0 <= i < |files| ==> ls[i] == files[i].length
  {
    seq(|files|, i requires 0 <= i < |files| => files[i].length)
  }
}

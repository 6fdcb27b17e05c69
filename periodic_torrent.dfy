/** Patchy's PeriodicTorrent: a cache of a torrent engine's status that is
    refreshed by `Update` and raises PropertyChanged for every cached property
    whose value changed. The module first gives the behaviour as functions on
    an immutable view of the object (`TorrentView`, `Refresh`, `Construct`),
    then the classes whose methods are proved to follow those functions. */
module PeriodicTorrents {
  import opened Wrappers
  import opened Numerics
  import opened Engine

  /** The names carried by PropertyChanged notifications. */
  datatype Property =
    | State | Progress | DownloadSpeed | UploadSpeed | EstimatedTime
    | TotalDownloaded | TotalUploaded | DownloadToUploadRatio | Files | Size
    | Complete | Name

  /** The two exceptions `Update` can raise. */
  datatype Exception =
    | NullReferenceException     // raising PropertyChanged("Files") with no handler attached
    | InvalidOperationException  // Aggregate over an empty file list

  /** One element of the files array: the engine file it wraps and how many
      times its own `Update` has been called. */
  datatype FileView = FileView(file: TorrentFile, updates: nat)

  /** Everything a PeriodicTorrent holds: the cached properties (the remaining
      time as TimeSpan ticks), the files array (None while it is null),
      whether a PropertyChanged handler is attached, and the notifications
      raised so far, oldest first. */
  datatype TorrentView = TorrentView(
    state: TorrentState,
    progress: Double,
    downloadSpeed: Int32,
    uploadSpeed: Int32,
    estimatedTime: Int64,
    totalDownloaded: Int64,
    totalUploaded: Int64,
    downloadToUploadRatio: Double,
    complete: bool,
    size: Int64,
    name: Option<string>,
    files: Option<seq<FileView>>,
    subscribed: bool,
    log: seq<Property>)

  /** The object as allocated, before the constructor body runs: every field
      holds its .NET default. */
  function InitialView(): TorrentView
  {
    TorrentView(Stopped, Finite(0.0), 0, 0, 0, 0, 0, Finite(0.0), false, 0, None, None, false, [])
  }

  /** The value of one property, for stating what a setter leaves alone. The
      files array is observed by whether it exists: it is never replaced. */
  datatype Value =
    | StateValue(s: TorrentState)
    | DoubleValue(d: Double)
    | IntValue(i: int)
    | BoolValue(b: bool)
    | TextValue(t: Option<string>)

  function Get(p: Property, v: TorrentView): Value
  {
    match p
    case State => StateValue(v.state)
    case Progress => DoubleValue(v.progress)
    case DownloadSpeed => IntValue(v.downloadSpeed)
    case UploadSpeed => IntValue(v.uploadSpeed)
    case EstimatedTime => IntValue(v.estimatedTime)
    case TotalDownloaded => IntValue(v.totalDownloaded)
    case TotalUploaded => IntValue(v.totalUploaded)
    case DownloadToUploadRatio => DoubleValue(v.downloadToUploadRatio)
    case Files => BoolValue(v.files.Some?)
    case Size => IntValue(v.size)
    case Complete => BoolValue(v.complete)
    case Name => TextValue(v.name)
  }

  /** C#'s `!=` between two values of one property. */
  predicate ValuesDiffer(x: Value, y: Value)
  {
    if x.DoubleValue? && y.DoubleValue? then DoubleDiffers(x.d, y.d) else x != y
  }

  /** C#'s `!=` between the value of `p` in `a` and in `b`. */
  predicate Differs(p: Property, a: TorrentView, b: TorrentView)
  {
    ValuesDiffer(Get(p, a), Get(p, b))
  }

  /** What every private setter promises: `w` holds `x` for `p`, every other
      field (the files and the subscription included) is as in `v`, and the
      name of `p` was appended to the log exactly when the old value differed
      from `x` and a handler was attached. */
  ghost predicate ActsAsSetter(v: TorrentView, w: TorrentView, p: Property, x: Value)
  {
    && Get(p, w) == x
    && Blank(w, p) == Blank(v, p)
    && w.log == v.log + Raised(v.subscribed && Differs(p, v, w), p)
  }

  /** `v` with the property `p` reset and the log emptied: two views with the
      same blank for `p` agree on everything except `p` and the log. */
  function Blank(v: TorrentView, p: Property): TorrentView
  {
    var u := v.(log := []);
    match p
    case State => u.(state := Stopped)
    case Progress => u.(progress := NaN)
    case DownloadSpeed => u.(downloadSpeed := 0)
    case UploadSpeed => u.(uploadSpeed := 0)
    case EstimatedTime => u.(estimatedTime := 0)
    case TotalDownloaded => u.(totalDownloaded := 0)
    case TotalUploaded => u.(totalUploaded := 0)
    case DownloadToUploadRatio => u.(downloadToUploadRatio := NaN)
    case Files => u.(files := None)
    case Size => u.(size := 0)
    case Complete => u.(complete := false)
    case Name => u.(name := None)
  }

  /** The notification for `p`, if `fire` holds. */
  function Raised(fire: bool, p: Property): seq<Property>
  {
    if fire then [p] else []
  }

  /** Raises PropertyChanged(p) when `fire` holds and a handler is attached. */
  function Notify(v: TorrentView, p: Property, fire: bool): TorrentView
  {
    v.(log := v.log + Raised(fire && v.subscribed, p))
  }

  predicate IsInt32(i: int) { -0x8000_0000 <= i < 0x8000_0000 }
  predicate IsInt64(i: int) { -TwoTo63 <= i < TwoTo63 }

  /** Whether `x` is a value of the type of property `p`, which has a private
      setter (Files has none). */
  predicate Fits(p: Property, x: Value)
  {
    match p
    case State => x.StateValue?
    case Progress => x.DoubleValue?
    case DownloadSpeed => x.IntValue? && IsInt32(x.i)
    case UploadSpeed => x.IntValue? && IsInt32(x.i)
    case EstimatedTime => x.IntValue? && IsInt64(x.i)
    case TotalDownloaded => x.IntValue? && IsInt64(x.i)
    case TotalUploaded => x.IntValue? && IsInt64(x.i)
    case DownloadToUploadRatio => x.DoubleValue?
    case Files => false
    case Size => x.IntValue? && IsInt64(x.i)
    case Complete => x.BoolValue?
    case Name => x.TextValue?
  }

  /** The private setters (lines 67-241): each compares the old value with the
      new one, stores the new one, then notifies if they differed. */
  function WithState(v: TorrentView, x: TorrentState): TorrentView
  {
    Notify(v.(state := x), State, v.state != x)
  }

  function WithProgress(v: TorrentView, x: Double): TorrentView
  {
    Notify(v.(progress := x), Progress, DoubleDiffers(v.progress, x))
  }

  function WithDownloadSpeed(v: TorrentView, x: Int32): TorrentView
  {
    Notify(v.(downloadSpeed := x), DownloadSpeed, v.downloadSpeed != x)
  }

  function WithUploadSpeed(v: TorrentView, x: Int32): TorrentView
  {
    Notify(v.(uploadSpeed := x), UploadSpeed, v.uploadSpeed != x)
  }

  function WithEstimatedTime(v: TorrentView, x: Int64): TorrentView
  {
    Notify(v.(estimatedTime := x), EstimatedTime, v.estimatedTime != x)
  }

  function WithTotalDownloaded(v: TorrentView, x: Int64): TorrentView
  {
    Notify(v.(totalDownloaded := x), TotalDownloaded, v.totalDownloaded != x)
  }

  function WithTotalUploaded(v: TorrentView, x: Int64): TorrentView
  {
    Notify(v.(totalUploaded := x), TotalUploaded, v.totalUploaded != x)
  }

  function WithDownloadToUploadRatio(v: TorrentView, x: Double): TorrentView
  {
    Notify(v.(downloadToUploadRatio := x), DownloadToUploadRatio, DoubleDiffers(v.downloadToUploadRatio, x))
  }

  function WithComplete(v: TorrentView, x: bool): TorrentView
  {
    Notify(v.(complete := x), Complete, v.complete != x)
  }

  function WithSize(v: TorrentView, x: Int64): TorrentView
  {
    Notify(v.(size := x), Size, v.size != x)
  }

  function WithName(v: TorrentView, x: Option<string>): TorrentView
  {
    Notify(v.(name := x), Name, v.name != x)
  }

  /** The setter of `p` applied to `x`; a value that does not fit leaves `v`
      as it is. */
  function Assign(v: TorrentView, p: Property, x: Value): TorrentView
  {
    if !Fits(p, x) then v
    else match p
      case State => WithState(v, x.s)
      case Progress => WithProgress(v, x.d)
      case DownloadSpeed => WithDownloadSpeed(v, x.i)
      case UploadSpeed => WithUploadSpeed(v, x.i)
      case EstimatedTime => WithEstimatedTime(v, x.i)
      case TotalDownloaded => WithTotalDownloaded(v, x.i)
      case TotalUploaded => WithTotalUploaded(v, x.i)
      case DownloadToUploadRatio => WithDownloadToUploadRatio(v, x.d)
      case Complete => WithComplete(v, x.b)
      case Size => WithSize(v, x.i)
      case Name => WithName(v, x.t)
      case Files => v
  }

  lemma AssignActsAsSetter(v: TorrentView, p: Property, x: Value)
    requires Fits(p, x)
    ensures ActsAsSetter(v, Assign(v, p, x), p, x)
  {
    match p
    case State =>
    case Progress =>
    case DownloadSpeed =>
    case UploadSpeed =>
    case EstimatedTime =>
    case TotalDownloaded =>
    case TotalUploaded =>
    case DownloadToUploadRatio =>
    case Size =>
    case Complete =>
    case Name =>
  }

  datatype Assignment = Assignment(property: Property, value: Value)

  /** Runs the setters of `assignments` in order. */
  function AssignAll(v: TorrentView, assignments: seq<Assignment>): TorrentView
  {
    if assignments == [] then v
    else
      var a := assignments[|assignments| - 1];
      Assign(AssignAll(v, assignments[..|assignments| - 1]), a.property, a.value)
  }

  /** The freshly built files array: element i wraps engine file i. */
  function Materialized(files: seq<TorrentFile>): (fs: seq<FileView>)
    ensures |fs| == |files|
    ensures forall i :: 0 <= i < |fs| ==> fs[i] == FileView(files[i], 0)
  {
    seq(|files|, i requires 0 <= i < |files| => FileView(files[i], 0))
  }

  /** Every element after its own `Update` has been called once. */
  function Touched(fs: seq<FileView>): (ts: seq<FileView>)
    ensures |ts| == |fs|
    ensures forall i :: 0 <= i < |ts| ==> ts[i] == FileView(fs[i].file, fs[i].updates + 1)
  {
    seq(|fs|, i requires 0 <= i < |fs| => FileView(fs[i].file, fs[i].updates + 1))
  }

  /** The value `Update` gives EstimatedTime: TimeSpan.MaxValue while metadata
      is being fetched, otherwise the extrapolation the snapshot carries. */
  function EstimatedTimeOf(e: Snapshot): Int64
  {
    if e.state == Metadata then TimeSpanMaxTicks else e.etaTicks
  }

  /** The value `Update` gives DownloadToUploadRatio. */
  function RatioOf(e: Snapshot): Double
  {
    LongQuotient(e.dataBytesUploaded, e.dataBytesDownloaded)
  }

  /** The guard of the magnet size rule. */
  predicate ResolvesMagnetSize(e: Snapshot)
  {
    e.isMagnet && e.state == Downloading && e.size == -1
  }

  datatype Outcome = Completed | Threw(exception: Exception)

  /** How one call of `Update` ends, and the object it leaves behind (also
      when it throws: the assignments made before the throw persist). */
  datatype Step = Step(outcome: Outcome, after: TorrentView)

  /** One call of `Update` against the engine values `e`. */
  function Refresh(v: TorrentView, e: Snapshot): Step
  {
    FinishRefresh(RefreshCachedValues(v, e), e)
  }

  /** The rest of `Update` once the eight setters have run: the one-time
      construction of the files array, the magnet size rule and the files'
      own updates. */
  function FinishRefresh(v: TorrentView, e: Snapshot): Step
  {
    if e.state == Downloading && v.files.None? then
      var v' := v.(files := Some(Materialized(e.files)));
      if !v'.subscribed then Step(Threw(NullReferenceException), v')
      else ResolveSizeAndUpdateFiles(v'.(log := v'.log + [Files]), e)
    else
      ResolveSizeAndUpdateFiles(v, e)
  }

  /** The eight assignments lines 29-39 always make, in source order. */
  function HeadAssignments(e: Snapshot): seq<Assignment>
  {
    [ Assignment(State, StateValue(e.state)),
      Assignment(Progress, DoubleValue(e.progress)),
      Assignment(DownloadSpeed, IntValue(e.downloadSpeed)),
      Assignment(UploadSpeed, IntValue(e.uploadSpeed)),
      Assignment(EstimatedTime, IntValue(EstimatedTimeOf(e))),
      Assignment(TotalDownloaded, IntValue(e.dataBytesDownloaded)),
      Assignment(TotalUploaded, IntValue(e.dataBytesUploaded)),
      Assignment(DownloadToUploadRatio, DoubleValue(RatioOf(e))) ]
  }

  /** The head of `Update`: the eight setters it always runs, in order. */
  function RefreshCachedValues(v: TorrentView, e: Snapshot): TorrentView
  {
    var v1 := WithState(v, e.state);
    var v2 := WithProgress(v1, e.progress);
    var v3 := WithDownloadSpeed(v2, e.downloadSpeed);
    var v4 := WithUploadSpeed(v3, e.uploadSpeed);
    var v5 := WithEstimatedTime(v4, EstimatedTimeOf(e));
    var v6 := WithTotalDownloaded(v5, e.dataBytesDownloaded);
    var v7 := WithTotalUploaded(v6, e.dataBytesUploaded);
    WithDownloadToUploadRatio(v7, RatioOf(e))
  }

  /** The tail of `Update`: the magnet size rule, then every file's `Update`. */
  function ResolveSizeAndUpdateFiles(v: TorrentView, e: Snapshot): Step
  {
    if ResolvesMagnetSize(e) then
      if |e.files| == 0 then Step(Threw(InvalidOperationException), v)
      else Step(Completed, UpdateFiles(WithSize(v, AggregateSum(Lengths(e.files)))))
    else Step(Completed, UpdateFiles(v))
  }

  /** Calls `Update` on every element of the files array, if it exists. */
  function UpdateFiles(v: TorrentView): TorrentView
  {
    if v.files.Some? then v.(files := Some(Touched(v.files.value))) else v
  }

  /** The constructor: one `Update` on the object as allocated (where no
      handler can be attached yet), then Name and Size from the engine. */
  function Construct(e: Snapshot): Result<TorrentView, Exception>
  {
    var s := Refresh(InitialView(), e);
    match s.outcome
    case Threw(x) => Failure(x)
    case Completed => Success(WithSize(WithName(s.after, e.name), e.size))
  }

  /** Patchy's PeriodicFile, reduced to the engine file it wraps and a count
      of the calls of its `Update`. */
  class PeriodicFile {
    const file: TorrentFile
    var updates: nat

    constructor (file: TorrentFile)
      ensures this.file == file && updates == 0
    {
      this.file := file;
      updates := 0;
    }

    method Update()
      modifies this
      ensures updates == old(updates) + 1
    {
      updates := updates + 1;
    }
  }

  class PeriodicTorrent {
    var state: TorrentState
    var progress: Double
    var downloadSpeed: Int32
    var uploadSpeed: Int32
    var estimatedTime: Int64
    var totalDownloaded: Int64
    var totalUploaded: Int64
    var downloadToUploadRatio: Double
    var complete: bool
    var size: Int64
    var name: Option<string>
    var files: array?<PeriodicFile?>
    /** Whether a PropertyChanged handler is attached (the event is non-null). */
    var subscribed: bool
    /** The property names passed to PropertyChanged so far, oldest first. */
    var log: seq<Property>

    /** The file elements as FileViews, element by element. */
    ghost var fileViews: seq<FileView>
    /** The objects this cache owns: itself, the files array and its elements. */
    ghost var Repr: set<object>

    ghost predicate Valid()
      reads this`Repr, this`files, this`fileViews, Repr - {this}
    {
      && this in Repr
      && (files == null ==> fileViews == [])
      && (files != null ==>
            && files in Repr
            && files.Length == |fileViews|
            && (forall i :: 0 <= i < files.Length ==>
                  files[i] != null && files[i] in Repr &&
                  fileViews[i] == FileView(files[i].file, files[i].updates))
            && (forall i, j :: 0 <= i < j < files.Length ==> files[i] != files[j]))
    }

    ghost function View(): TorrentView
      reads this
    {
      TorrentView(state, progress, downloadSpeed, uploadSpeed, estimatedTime,
        totalDownloaded, totalUploaded, downloadToUploadRatio, complete, size, name,
        if files == null then None else Some(fileViews), subscribed, log)
    }

    /** Allocation: every field at its default, no handler attached. */
    constructor ()
      ensures Valid() && fresh(Repr)
      ensures View() == InitialView()
    {
      state, progress, downloadSpeed, uploadSpeed := Stopped, Finite(0.0), 0, 0;
      estimatedTime, totalDownloaded, totalUploaded := 0, 0, 0;
      downloadToUploadRatio, complete, size, name := Finite(0.0), false, 0, None;
      files, subscribed, log := null, false, [];
      fileViews := [];
      Repr := {this};
    }

    /** The C# constructor: refresh once from the engine, then copy its
        name and size. It fails with the exception `Update` threw. */
    static method Create(e: Snapshot) returns (r: Result<PeriodicTorrent, Exception>)
      ensures r.Failure? <==> Construct(e).Failure?
      ensures r.Failure? ==> r.error == Construct(e).error
      ensures r.Success? ==> r.value.Valid() && fresh(r.value.Repr) && r.value.View() == Construct(e).value
    {
      var t := new PeriodicTorrent();
      var outcome := t.Update(e);
      if outcome.Threw? {
        return Failure(outcome.exception);
      }
      t.SetName(e.name);
      t.SetSize(e.size);
      return Success(t);
    }

    /** Attaches a PropertyChanged handler. */
    method Subscribe()
      requires Valid()
      modifies this`subscribed
      ensures Valid() && View() == old(View()).(subscribed := true)
    {
      subscribed := true;
    }

    /** Detaches the last PropertyChanged handler. */
    method Unsubscribe()
      requires Valid()
      modifies this`subscribed
      ensures Valid() && View() == old(View()).(subscribed := false)
    {
      subscribed := false;
    }

    /** The Files getter: null until the array is built, then the array whose
        element i wraps engine file i. */
    function GetFiles(): (r: array?<PeriodicFile?>)
      reads this, Repr
      requires Valid()
      ensures r == null <==> View().files.None?
      ensures r != null ==>
        && r.Length == |View().files.value|
        && forall i :: 0 <= i < r.Length ==> r[i] != null && r[i].file == View().files.value[i].file
    {
      files
    }

    /** One refresh from the engine values `e`. */
    method Update(e: Snapshot) returns (outcome: Outcome)
      requires Valid()
      modifies Repr
      ensures Valid() && fresh(Repr - old(Repr))
      ensures Step(outcome, View()) == Refresh(old(View()), e)
      ensures old(files) != null ==> files == old(files) && files[..] == old(files[..])
    {
      UpdateCachedValues(e);
      outcome := FinishUpdate(e);
    }

    /** Everything `Update` does after the eight setters. */
    method FinishUpdate(e: Snapshot) returns (outcome: Outcome)
      requires Valid()
      modifies Repr
      ensures Valid() && fresh(Repr - old(Repr))
      ensures Step(outcome, View()) == FinishRefresh(old(View()), e)
      ensures old(files) != null ==> files == old(files) && files[..] == old(files[..])
    {
      if e.state == Downloading && files == null {
        MaterializeFiles(e);
        if !subscribed {
          return Threw(NullReferenceException);
        }
        log := log + [Files];
      }
      ghost var v := View();
      if e.isMagnet && e.state == Downloading && e.size == -1 {
        if |e.files| == 0 {
          return Threw(InvalidOperationException);
        }
        SetSize(AggregateSum(Lengths(e.files)));
      }
      UpdateEachFile();
      outcome := Completed;
      assert Step(outcome, View()) == ResolveSizeAndUpdateFiles(v, e);
    }

    /** The setters `Update` always runs, in source order. */
    method UpdateCachedValues(e: Snapshot)
      requires Valid()
      modifies this`state, this`progress, this`downloadSpeed, this`uploadSpeed, this`estimatedTime
      modifies this`totalDownloaded, this`totalUploaded, this`downloadToUploadRatio, this`log
      ensures Valid()
      ensures View() == RefreshCachedValues(old(View()), e)
    {
      SetState(e.state);
      SetProgress(e.progress);
      SetDownloadSpeed(e.downloadSpeed);
      SetUploadSpeed(e.uploadSpeed);
      if e.state == Metadata {
        SetEstimatedTime(TimeSpanMaxTicks);
      } else {
        SetEstimatedTime(e.etaTicks);
      }
      SetTotalDownloaded(e.dataBytesDownloaded);
      SetTotalUploaded(e.dataBytesUploaded);
      SetDownloadToUploadRatio(LongQuotient(e.dataBytesUploaded, e.dataBytesDownloaded));
    }

    /** Builds the files array, one element per engine file. */
    method MaterializeFiles(e: Snapshot)
      requires Valid() && files == null
      modifies this`files, this`fileViews, this`Repr
      ensures Valid() && fresh(Repr - old(Repr))
      ensures View() == old(View()).(files := Some(Materialized(e.files)))
      ensures fresh(files) && forall i :: 0 <= i < files.Length ==> fresh(files[i])
    {
      var a := new PeriodicFile?[|e.files|];
      ghost var made: set<PeriodicFile> := {};
      for i := 0 to a.Length
        modifies a
        invariant forall j :: 0 <= j < i ==>
          a[j] != null && a[j] in made && a[j].file == e.files[j] && a[j].updates == 0
        invariant forall j, k :: 0 <= j < k < i ==> a[j] != a[k]
        invariant forall f :: f in made ==> fresh(f)
        invariant forall j :: 0 <= j < i ==> fresh(a[j])
      {
        var f := new PeriodicFile(e.files[i]);
        a[i] := f;
        made := made + {f};
      }
      files := a;
      fileViews := Materialized(e.files);
      Repr := Repr + {a} + made;
    }

    /** The closing `foreach`: each element's `Update`, in index order. */
    method UpdateEachFile()
      requires Valid()
      modifies Repr - {this}, this`fileViews
      ensures Valid() && Repr == old(Repr)
      ensures View() == UpdateFiles(old(View()))
      ensures files == old(files) && (files != null ==> files[..] == old(files[..]))
    {
      if files != null {
        var fs := files;
        ghost var before := fileViews;
        for i := 0 to fs.Length
          modifies Repr - {this, fs}
          invariant forall j :: 0 <= j < fs.Length ==>
            fs[j] != null && fs[j] in Repr && fs[j].file == before[j].file &&
            fs[j].updates == if j < i then before[j].updates + 1 else before[j].updates
        {
          fs[i].Update();
        }
        fileViews := Touched(before);
      }
    }

    method SetState(x: TorrentState)
      requires Valid()
      modifies this`state, this`log
      ensures Valid() && View() == WithState(old(View()), x)
    {
      var fire := state != x;
      state := x;
      if fire && subscribed {
        log := log + [State];
      }
    }

    method SetProgress(x: Double)
      requires Valid()
      modifies this`progress, this`log
      ensures Valid() && View() == WithProgress(old(View()), x)
    {
      var fire := DoubleDiffers(progress, x);
      progress := x;
      if fire && subscribed {
        log := log + [Progress];
      }
    }

    method SetDownloadSpeed(x: Int32)
      requires Valid()
      modifies this`downloadSpeed, this`log
      ensures Valid() && View() == WithDownloadSpeed(old(View()), x)
    {
      var fire := downloadSpeed != x;
      downloadSpeed := x;
      if fire && subscribed {
        log := log + [DownloadSpeed];
      }
    }

    method SetUploadSpeed(x: Int32)
      requires Valid()
      modifies this`uploadSpeed, this`log
      ensures Valid() && View() == WithUploadSpeed(old(View()), x)
    {
      var fire := uploadSpeed != x;
      uploadSpeed := x;
      if fire && subscribed {
        log := log + [UploadSpeed];
      }
    }

    method SetEstimatedTime(x: Int64)
      requires Valid()
      modifies this`estimatedTime, this`log
      ensures Valid() && View() == WithEstimatedTime(old(View()), x)
    {
      var fire := estimatedTime != x;
      estimatedTime := x;
      if fire && subscribed {
        log := log + [EstimatedTime];
      }
    }

    method SetTotalDownloaded(x: Int64)
      requires Valid()
      modifies this`totalDownloaded, this`log
      ensures Valid() && View() == WithTotalDownloaded(old(View()), x)
    {
      var fire := totalDownloaded != x;
      totalDownloaded := x;
      if fire && subscribed {
        log := log + [TotalDownloaded];
      }
    }

    method SetTotalUploaded(x: Int64)
      requires Valid()
      modifies this`totalUploaded, this`log
      ensures Valid() && View() == WithTotalUploaded(old(View()), x)
    {
      var fire := totalUploaded != x;
      totalUploaded := x;
      if fire && subscribed {
        log := log + [TotalUploaded];
      }
    }

    method SetDownloadToUploadRatio(x: Double)
      requires Valid()
      modifies this`downloadToUploadRatio, this`log
      ensures Valid() && View() == WithDownloadToUploadRatio(old(View()), x)
    {
      var fire := DoubleDiffers(downloadToUploadRatio, x);
      downloadToUploadRatio := x;
      if fire && subscribed {
        log := log + [DownloadToUploadRatio];
      }
    }

    method SetComplete(x: bool)
      requires Valid()
      modifies this`complete, this`log
      ensures Valid() && View() == WithComplete(old(View()), x)
    {
      var fire := complete != x;
      complete := x;
      if fire && subscribed {
        log := log + [Complete];
      }
    }

    method SetSize(x: Int64)
      requires Valid()
      modifies this`size, this`log
      ensures Valid() && View() == WithSize(old(View()), x)
    {
      var fire := size != x;
      size := x;
      if fire && subscribed {
        log := log + [Size];
      }
    }

    method SetName(x: Option<string>)
      requires Valid()
      modifies this`name, this`log
      ensures Valid() && View() == WithName(old(View()), x)
    {
      var fire := name != x;
      name := x;
      if fire && subscribed {
        log := log + [Name];
      }
    }
  }
}

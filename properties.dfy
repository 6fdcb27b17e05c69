/** What one refresh, a series of refreshes and the constructor of a
    PeriodicTorrent guarantee, proved about the functions that specify them. */
module TorrentProperties {
  import opened Wrappers
  import opened Numerics
  import opened Engine
  import opened PeriodicTorrents

  /** The properties `Update` assigns, in the order it assigns them. */
  const HeadOrder: seq<Property> :=
    [State, Progress, DownloadSpeed, UploadSpeed, EstimatedTime, TotalDownloaded, TotalUploaded, DownloadToUploadRatio]
  const TailOrder: seq<Property> := [Files, Size]
  const UpdateOrder: seq<Property> := HeadOrder + TailOrder

  /** Position in assignment order; Complete and Name, which `Update` never
      assigns, come last. */
  function Rank(p: Property): nat
  {
    match p
    case State => 0
    case Progress => 1
    case DownloadSpeed => 2
    case UploadSpeed => 3
    case EstimatedTime => 4
    case TotalDownloaded => 5
    case TotalUploaded => 6
    case DownloadToUploadRatio => 7
    case Files => 8
    case Size => 9
    case Complete => 10
    case Name => 11
  }

  predicate InAssignmentOrder(ps: seq<Property>)
  {
    forall i, j :: 0 <= i < j < |ps| ==> Rank(ps[i]) < Rank(ps[j])
  }

  /** The properties of `ps`, in the order of `ps`, that a change from `v` to
      `w` notifies: those whose value differs, provided a handler is attached. */
  function Changed(ps: seq<Property>, v: TorrentView, w: TorrentView): seq<Property>
  {
    if ps == [] then []
    else
      var p := ps[|ps| - 1];
      Changed(ps[..|ps| - 1], v, w) + Raised(v.subscribed && Differs(p, v, w), p)
  }

  lemma ChangedSnoc(ps: seq<Property>, p: Property, v: TorrentView, w: TorrentView)
    ensures Changed(ps + [p], v, w) == Changed(ps, v, w) + Raised(v.subscribed && Differs(p, v, w), p)
  {
    assert (ps + [p])[..|ps|] == ps;
  }

  lemma {:induction false} ChangedMembers(ps: seq<Property>, v: TorrentView, w: TorrentView, p: Property)
    ensures p in Changed(ps, v, w) <==> p in ps && v.subscribed && Differs(p, v, w)
  {
    if ps != [] {
      var init := ps[..|ps| - 1];
      ChangedMembers(init, v, w, p);
      assert ps == init + [ps[|ps| - 1]];
    }
  }

  lemma {:induction false} ChangedKeepsOrder(ps: seq<Property>, v: TorrentView, w: TorrentView)
    requires InAssignmentOrder(ps)
    ensures InAssignmentOrder(Changed(ps, v, w))
  {
    if ps != [] {
      var init := ps[..|ps| - 1];
      var last := ps[|ps| - 1];
      ChangedKeepsOrder(init, v, w);
      var c := Changed(init, v, w);
      forall q | q in c ensures Rank(q) < Rank(last) {
        ChangedMembers(init, v, w, q);
        var k :| 0 <= k < |init| && init[k] == q;
        assert ps[k] == q;
      }
    }
  }

  /** `Changed` only looks at the values of the properties it is given. */
  lemma {:induction false} ChangedCongruent(ps: seq<Property>, v: TorrentView, w: TorrentView, v': TorrentView, w': TorrentView)
    requires v.subscribed == v'.subscribed
    requires forall p :: p in ps ==> Get(p, v) == Get(p, v') && Get(p, w) == Get(p, w')
    ensures Changed(ps, v, w) == Changed(ps, v', w')
  {
    if ps != [] {
      ChangedCongruent(ps[..|ps| - 1], v, w, v', w');
    }
  }

  /** One more assignment, notified as `Changed` says, extends the log by the
      `Changed` of one more property. */
  lemma Extend(v: TorrentView, w: TorrentView, ps: seq<Property>, p: Property, u: TorrentView, u': TorrentView)
    requires u.log == v.log + Changed(ps, v, w)
    requires u'.log == u.log + Raised(v.subscribed && Differs(p, v, w), p)
    ensures u'.log == v.log + Changed(ps + [p], v, w)
  {
    ChangedSnoc(ps, p, v, w);
    Associative(v.log, Changed(ps, v, w), Raised(v.subscribed && Differs(p, v, w), p));
  }

  /** Concatenation regrouped. Stated as a lemma so that the proofs above get
      exactly this instance; without it Extend, ChangedAppend and
      UpdateNotifiesChanges run out of resource. */
  lemma Associative(a: seq<Property>, b: seq<Property>, c: seq<Property>)
    ensures (a + b) + c == a + (b + c)
  {
  }

  /** Two views with the same blank for `p` agree on every other property. */
  lemma BlankKeepsOthers(v: TorrentView, w: TorrentView, p: Property, q: Property)
    requires Blank(w, p) == Blank(v, p) && q != p
    ensures Get(q, w) == Get(q, v)
  {
  }

  lemma BlankKeepsFrame(v: TorrentView, w: TorrentView, p: Property)
    requires Blank(w, p) == Blank(v, p)
    ensures w.subscribed == v.subscribed
    ensures p != Files ==> w.files == v.files
  {
  }

  /** The properties a list of assignments sets, in order. */
  function Properties(assignments: seq<Assignment>): (ps: seq<Property>)
    ensures |ps| == |assignments|
    ensures forall i :: 0 <= i < |ps| ==> ps[i] == assignments[i].property
  {
    seq(|assignments|, i requires 0 <= i < |assignments| => assignments[i].property)
  }

  /** Assignments whose values fit their properties, no property twice. */
  predicate WellFormed(assignments: seq<Assignment>)
  {
    && (forall i :: 0 <= i < |assignments| ==> Fits(assignments[i].property, assignments[i].value))
    && (forall i, j :: 0 <= i < j < |assignments| ==> assignments[i].property != assignments[j].property)
  }

  /** Running the setters of a list of assignments stores every value, leaves
      every other property, the files and the subscription alone, and notifies
      exactly the properties whose value changed, in the order of the list. */
  lemma {:induction false} AssignAllSpec(v: TorrentView, assignments: seq<Assignment>)
    requires WellFormed(assignments)
    ensures var w := AssignAll(v, assignments);
      && w.log == v.log + Changed(Properties(assignments), v, w)
      && (forall i :: 0 <= i < |assignments| ==> Get(assignments[i].property, w) == assignments[i].value)
      && (forall q :: q !in Properties(assignments) ==> Get(q, w) == Get(q, v))
      && w.subscribed == v.subscribed && w.files == v.files
  {
    if assignments == [] {
      assert Properties(assignments) == [];
    } else {
      var n := |assignments| - 1;
      var init := assignments[..n];
      var a := assignments[n];
      var ps := Properties(init);
      assert Properties(assignments) == ps + [a.property];
      assert WellFormed(init);
      AssignAllSpec(v, init);
      var u := AssignAll(v, init);
      var w := AssignAll(v, assignments);
      AssignStep(u, a.property, a.value);
      assert w == Assign(u, a.property, a.value);
      assert a.property !in ps;
      ChangedCongruent(ps, v, u, v, w);
      Extend(v, w, ps, a.property, u, w);
    }
  }

  /** One setter, stated property by property. */
  lemma AssignStep(u: TorrentView, p: Property, x: Value)
    requires Fits(p, x)
    ensures var w := Assign(u, p, x);
      && Get(p, w) == x
      && (forall q :: q != p ==> Get(q, w) == Get(q, u))
      && w.subscribed == u.subscribed && w.files == u.files
      && w.log == u.log + Raised(u.subscribed && Differs(p, u, w), p)
  {
    var w := Assign(u, p, x);
    AssignActsAsSetter(u, p, x);
    forall q | q != p
      ensures Get(q, w) == Get(q, u)
    {
      BlankKeepsOthers(u, w, p, q);
    }
    BlankKeepsFrame(u, w, p);
  }

  /** The head of `Update` is the assignment list of lines 29-39. */
  lemma RefreshCachedValuesAssignsHead(v: TorrentView, e: Snapshot)
    ensures RefreshCachedValues(v, e) == AssignAll(v, HeadAssignments(e))
  {
    var head := HeadAssignments(e);
    var h1 := [head[0]];
    var h2 := h1 + [head[1]];
    var h3 := h2 + [head[2]];
    var h4 := h3 + [head[3]];
    var h5 := h4 + [head[4]];
    var h6 := h5 + [head[5]];
    var h7 := h6 + [head[6]];
    AssignAllAppend(v, [], head[0]);
    AssignAllAppend(v, h1, head[1]);
    AssignAllAppend(v, h2, head[2]);
    AssignAllAppend(v, h3, head[3]);
    AssignAllAppend(v, h4, head[4]);
    AssignAllAppend(v, h5, head[5]);
    AssignAllAppend(v, h6, head[6]);
    AssignAllAppend(v, h7, head[7]);
    assert h7 + [head[7]] == head;
    assert [] + [head[0]] == h1;
  }

  lemma AssignAllAppend(v: TorrentView, assignments: seq<Assignment>, a: Assignment)
    ensures AssignAll(v, assignments + [a]) == Assign(AssignAll(v, assignments), a.property, a.value)
  {
    assert (assignments + [a])[..|assignments|] == assignments;
  }

  lemma HeadWellFormed(e: Snapshot)
    ensures WellFormed(HeadAssignments(e)) && Properties(HeadAssignments(e)) == HeadOrder
  {
  }

  /** Lines 29-39 store the engine's values and notify exactly the changed
      properties among the eight they assign, in assignment order. */
  lemma HeadNotifies(v: TorrentView, e: Snapshot)
    ensures var w := RefreshCachedValues(v, e);
      && w.log == v.log + Changed(HeadOrder, v, w)
      && w == v.(state := e.state, progress := e.progress, downloadSpeed := e.downloadSpeed,
                 uploadSpeed := e.uploadSpeed, estimatedTime := EstimatedTimeOf(e),
                 totalDownloaded := e.dataBytesDownloaded, totalUploaded := e.dataBytesUploaded,
                 downloadToUploadRatio := RatioOf(e), log := w.log)
  {
    RefreshCachedValuesAssignsHead(v, e);
    HeadWellFormed(e);
    var head := HeadAssignments(e);
    AssignAllSpec(v, head);
    var w := RefreshCachedValues(v, e);
    assert Get(head[0].property, w) == head[0].value;
    assert Get(head[1].property, w) == head[1].value;
    assert Get(head[2].property, w) == head[2].value;
    assert Get(head[3].property, w) == head[3].value;
    assert Get(head[4].property, w) == head[4].value;
    assert Get(head[5].property, w) == head[5].value;
    assert Get(head[6].property, w) == head[6].value;
    assert Get(head[7].property, w) == head[7].value;
    assert Get(Complete, w) == Get(Complete, v);
    assert Get(Size, w) == Get(Size, v);
    assert Get(Name, w) == Get(Name, v);
  }

  /** `a` and `b` hold the same value for every property outside `ps`, and the
      same subscription. */
  predicate AgreeOutside(a: TorrentView, b: TorrentView, ps: seq<Property>)
  {
    a.subscribed == b.subscribed && forall q :: q !in ps ==> Get(q, a) == Get(q, b)
  }

  /** Lines 47-53: the magnet size rule notifies Size when it changes it; the
      files' updates change no property. */
  lemma ResolveSizeNotifies(u: TorrentView, e: Snapshot)
    ensures var r := ResolveSizeAndUpdateFiles(u, e).after;
      && r.log == u.log + Raised(u.subscribed && Differs(Size, u, r), Size)
      && AgreeOutside(u, r, [Size])
      && r.files.Some? == u.files.Some?
  {
    var r := ResolveSizeAndUpdateFiles(u, e).after;
    if ResolvesMagnetSize(e) && |e.files| > 0 {
      var x := IntValue(AggregateSum(Lengths(e.files)));
      assert WithSize(u, AggregateSum(Lengths(e.files))) == Assign(u, Size, x);
      AssignStep(u, Size, x);
    }
  }

  /** Lines 40-53 notify Files when they build the array and Size when they
      change it, and no other property. */
  lemma TailNotifies(w: TorrentView, e: Snapshot)
    ensures var r := FinishRefresh(w, e).after;
      && r.log == w.log + Changed(TailOrder, w, r)
      && AgreeOutside(w, r, TailOrder)
  {
    var r := FinishRefresh(w, e).after;
    ChangedTail(w, r);
    if e.state == Downloading && w.files.None? {
      if w.subscribed {
        TailBuildsFiles(w, e);
      }
    } else {
      ResolveSizeNotifies(w, e);
    }
  }

  /** The tail's notifications, unfolded. */
  lemma ChangedTail(w: TorrentView, r: TorrentView)
    ensures Changed(TailOrder, w, r)
         == Raised(w.subscribed && Differs(Files, w, r), Files) + Raised(w.subscribed && Differs(Size, w, r), Size)
  {
    ChangedSnoc([Files], Size, w, r);
    ChangedSnoc([], Files, w, r);
    assert [Files] + [Size] == TailOrder;
  }

  /** Lines 40-53 when they build the array with a handler attached. */
  lemma TailBuildsFiles(w: TorrentView, e: Snapshot)
    requires e.state == Downloading && w.files.None? && w.subscribed
    ensures var r := FinishRefresh(w, e).after;
      && r.log == w.log + [Files] + Raised(Differs(Size, w, r), Size)
      && AgreeOutside(w, r, TailOrder)
      && r.files.Some?
  {
    var u := w.(files := Some(Materialized(e.files)), log := w.log + [Files]);
    assert FinishRefresh(w, e) == ResolveSizeAndUpdateFiles(u, e);
    ResolveSizeNotifies(u, e);
  }

  lemma {:induction false} ChangedAppend(ps: seq<Property>, qs: seq<Property>, v: TorrentView, w: TorrentView)
    ensures Changed(ps + qs, v, w) == Changed(ps, v, w) + Changed(qs, v, w)
  {
    if qs == [] {
      assert ps + qs == ps;
    } else {
      var init := qs[..|qs| - 1];
      var q := qs[|qs| - 1];
      ChangedAppend(ps, init, v, w);
      assert ps + qs == (ps + init) + [q];
      ChangedSnoc(ps + init, q, v, w);
      ChangedSnoc(init, q, v, w);
      assert init + [q] == qs;
      Associative(Changed(ps, v, w), Changed(init, v, w), Raised(v.subscribed && Differs(q, v, w), q));
    }
  }

  /** Every call of `Update`, whatever its outcome, notifies exactly the
      properties among the ten it assigns whose value it changed, in the
      order it assigns them, provided a handler is attached (a NaN Progress
      or ratio counts as changed, as C#'s `!=` has it). */
  lemma UpdateNotifiesChanges(v: TorrentView, e: Snapshot)
    ensures var r := Refresh(v, e).after;
      r.log == v.log + Changed(UpdateOrder, v, r)
  {
    var w := RefreshCachedValues(v, e);
    var r := Refresh(v, e).after;
    HeadNotifies(v, e);
    TailNotifies(w, e);
    ChangedCongruent(HeadOrder, v, w, v, r);
    ChangedCongruent(TailOrder, w, r, v, r);
    ChangedAppend(HeadOrder, TailOrder, v, r);
    Associative(v.log, Changed(HeadOrder, v, r), Changed(TailOrder, v, r));
  }

  /** What a log extended by `Changed(UpdateOrder, …)` says, per property. */
  lemma NotifiedIffChanged(v: TorrentView, r: TorrentView, p: Property)
    requires r.log == v.log + Changed(UpdateOrder, v, r)
    ensures v.log <= r.log
    ensures p in r.log[|v.log|..] <==> p !in {Complete, Name} && v.subscribed && Differs(p, v, r)
  {
    ChangedMembers(UpdateOrder, v, r, p);
    assert r.log[|v.log|..] == Changed(UpdateOrder, v, r);
  }

  /** A log extended by `Changed(UpdateOrder, …)` lists the new notifications
      in assignment order, hence none twice. */
  lemma NotifiedInOrder(v: TorrentView, r: TorrentView)
    requires r.log == v.log + Changed(UpdateOrder, v, r)
    ensures v.log <= r.log
    ensures InAssignmentOrder(r.log[|v.log|..])
    ensures forall i, j :: |v.log| <= i < j < |r.log| ==> r.log[i] != r.log[j]
  {
    assert InAssignmentOrder(UpdateOrder);
    ChangedKeepsOrder(UpdateOrder, v, r);
    var added := r.log[|v.log|..];
    assert added == Changed(UpdateOrder, v, r);
    forall i, j | |v.log| <= i < j < |r.log|
      ensures r.log[i] != r.log[j]
    {
      assert r.log[i] == added[i - |v.log|] && r.log[j] == added[j - |v.log|];
    }
  }

  /** Which properties `Update` notifies, stated per property: Complete and
      Name never. */
  lemma UpdateNotifiesIffChanged(v: TorrentView, e: Snapshot, p: Property)
    ensures var r := Refresh(v, e).after;
      && v.log <= r.log
      && (p in r.log[|v.log|..] <==> p !in {Complete, Name} && v.subscribed && Differs(p, v, r))
  {
    UpdateNotifiesChanges(v, e);
    NotifiedIffChanged(v, Refresh(v, e).after, p);
  }

  /** `Update` notifies in assignment order, hence no property twice. */
  lemma UpdateNotifiesInOrder(v: TorrentView, e: Snapshot)
    ensures var r := Refresh(v, e).after;
      && v.log <= r.log
      && InAssignmentOrder(r.log[|v.log|..])
      && forall i, j :: |v.log| <= i < j < |r.log| ==> r.log[i] != r.log[j]
  {
    UpdateNotifiesChanges(v, e);
    NotifiedInOrder(v, Refresh(v, e).after);
  }

  /** How lines 40-53 end, and what they leave in the fields they touch. */
  lemma FinishRefreshFacts(w: TorrentView, e: Snapshot)
    ensures var s := FinishRefresh(w, e);
      && (s.outcome == Threw(NullReferenceException)
          <==> e.state == Downloading && w.files.None? && !w.subscribed)
      && (s.outcome == Threw(InvalidOperationException)
          <==> ResolvesMagnetSize(e) && |e.files| == 0 && (w.files.Some? || w.subscribed))
      && (s.outcome.Completed? <==> !s.outcome.Threw?)
      && s.after.size == (if s.outcome.Completed? && ResolvesMagnetSize(e) then AggregateSum(Lengths(e.files)) else w.size)
      && s.after.files.Some? == (w.files.Some? || e.state == Downloading)
      && s.after == w.(files := s.after.files, size := s.after.size, log := s.after.log)
  {
  }

  /** After `Update` the cached values are the engine's (lines 29-39), the
      estimated time is TimeSpan.MaxValue while fetching metadata, the size is
      the sum of the file lengths under the magnet size rule and unchanged
      otherwise, and Complete, Name and the subscription are untouched. */
  lemma RefreshStoresEngineValues(v: TorrentView, e: Snapshot)
    ensures var s := Refresh(v, e); var r := s.after;
      && r.state == e.state && r.progress == e.progress
      && r.downloadSpeed == e.downloadSpeed && r.uploadSpeed == e.uploadSpeed
      && r.estimatedTime == (if e.state == Metadata then TimeSpanMaxTicks else e.etaTicks)
      && r.totalDownloaded == e.dataBytesDownloaded && r.totalUploaded == e.dataBytesUploaded
      && r.downloadToUploadRatio == LongQuotient(e.dataBytesUploaded, e.dataBytesDownloaded)
      && r.size == (if s.outcome.Completed? && ResolvesMagnetSize(e) then AggregateSum(Lengths(e.files)) else v.size)
      && r.complete == v.complete && r.name == v.name && r.subscribed == v.subscribed
  {
    HeadNotifies(v, e);
    FinishRefreshFacts(RefreshCachedValues(v, e), e);
  }

  /** `Update` throws a NullReferenceException exactly when it builds the
      files array with no handler attached (line 45), an
      InvalidOperationException exactly when the magnet size rule meets an
      empty file list (line 48), and otherwise completes. */
  lemma RefreshOutcome(v: TorrentView, e: Snapshot)
    ensures var s := Refresh(v, e);
      && (s.outcome == Threw(NullReferenceException)
          <==> e.state == Downloading && v.files.None? && !v.subscribed)
      && (s.outcome == Threw(InvalidOperationException)
          <==> ResolvesMagnetSize(e) && |e.files| == 0 && (v.files.Some? || v.subscribed))
      && (s.outcome.Completed? <==> !s.outcome.Threw?)
  {
    HeadNotifies(v, e);
    FinishRefreshFacts(RefreshCachedValues(v, e), e);
  }

  /** The files array is built only while Downloading and only if missing,
      one element per engine file, and is never replaced: an existing one keeps
      its files, and every element's `Update` runs once per completed call. */
  lemma RefreshFiles(v: TorrentView, e: Snapshot)
    ensures var s := Refresh(v, e); var r := s.after;
      && r.files.Some? == (v.files.Some? || e.state == Downloading)
      && (v.files.Some? ==> r.files.value == (if s.outcome.Completed? then Touched(v.files.value) else v.files.value))
      && (v.files.None? && r.files.Some? ==>
            && |r.files.value| == |e.files|
            && forall i :: 0 <= i < |e.files| ==>
                 r.files.value[i] == FileView(e.files[i], if s.outcome.Completed? then 1 else 0))
  {
    HeadNotifies(v, e);
    var w := RefreshCachedValues(v, e);
    FinishRefreshFacts(w, e);
  }

  /** The magnet size rule (lines 47-48): a completed `Update` of a magnet link
      that is Downloading with size -1 sets Size to the sum of the file
      lengths, taken modulo 2^64 as C#'s unchecked long addition does, and
      exactly the sum whenever that fits in a long. */
  lemma MagnetSizeIsFileTotal(v: TorrentView, e: Snapshot)
    requires ResolvesMagnetSize(e) && Refresh(v, e).outcome.Completed?
    ensures |e.files| > 0
    ensures var size := Refresh(v, e).after.size;
      && (size - Sum(Lengths(e.files))) % TwoTo64 == 0
      && (IsInt64(Sum(Lengths(e.files))) ==> size == Sum(Lengths(e.files)))
  {
    RefreshOutcome(v, e);
    RefreshStoresEngineValues(v, e);
    AggregateSumIsWrappedSum(Lengths(e.files));
  }

  /** `r` already holds every value an `Update` against `e` would store, and
      that `Update` would neither build the files array nor throw. */
  predicate Settled(r: TorrentView, e: Snapshot)
  {
    && r.state == e.state && r.progress == e.progress
    && r.downloadSpeed == e.downloadSpeed && r.uploadSpeed == e.uploadSpeed
    && r.estimatedTime == EstimatedTimeOf(e)
    && r.totalDownloaded == e.dataBytesDownloaded && r.totalUploaded == e.dataBytesUploaded
    && r.downloadToUploadRatio == RatioOf(e)
    && (e.state == Downloading ==> r.files.Some?)
    && (ResolvesMagnetSize(e) ==> |e.files| > 0 && r.size == AggregateSum(Lengths(e.files)))
  }

  /** A completed `Update` leaves the object settled for the same values. */
  lemma RefreshSettles(v: TorrentView, e: Snapshot)
    requires Refresh(v, e).outcome.Completed?
    ensures Settled(Refresh(v, e).after, e)
  {
    RefreshOutcome(v, e);
    RefreshStoresEngineValues(v, e);
    RefreshFiles(v, e);
  }

  /** On a settled object `Update` completes, changes no property and only
      advances the files' counters. */
  lemma SettledRefreshChangesNothing(r: TorrentView, e: Snapshot)
    requires Settled(r, e)
    ensures var s := Refresh(r, e);
      && s.outcome.Completed?
      && s.after == r.(files := s.after.files, log := s.after.log)
      && s.after.files == (if r.files.Some? then Some(Touched(r.files.value)) else None)
  {
    RefreshOutcome(r, e);
    RefreshStoresEngineValues(r, e);
    RefreshFiles(r, e);
  }

  /** A step that changes no property notifies only NaN doubles. */
  lemma UnchangedNotifiesOnlyNaN(r: TorrentView, r2: TorrentView, p: Property)
    requires r2 == r.(files := r2.files, log := r2.log) && r2.files.Some? == r.files.Some?
    requires r2.log == r.log + Changed(UpdateOrder, r, r2)
    ensures r.log <= r2.log
    ensures p in r2.log[|r.log|..] <==>
      r.subscribed && ((p == Progress && r.progress.NaN?) || (p == DownloadToUploadRatio && r.downloadToUploadRatio.NaN?))
  {
    NotifiedIffChanged(r, r2, p);
    DoubleDiffersFromItself(r.progress);
    DoubleDiffersFromItself(r.downloadToUploadRatio);
  }

  /** On a settled object `Update` notifies only a NaN Progress or ratio (C#'s
      `!=` holds between two NaNs), and those only with a handler attached. */
  lemma SettledRefreshIsQuiet(r: TorrentView, e: Snapshot, p: Property)
    requires Settled(r, e)
    ensures var r2 := Refresh(r, e).after;
      && r.log <= r2.log
      && (p in r2.log[|r.log|..] <==>
            r.subscribed && ((p == Progress && e.progress.NaN?) || (p == DownloadToUploadRatio && RatioOf(e).NaN?)))
  {
    SettledRefreshChangesNothing(r, e);
    UpdateNotifiesChanges(r, e);
    UnchangedNotifiesOnlyNaN(r, Refresh(r, e).after, p);
  }

  /** Calling `Update` twice with the same engine values: the second call
      completes, rebuilds nothing, and notifies nothing but a NaN Progress or
      ratio. */
  lemma RefreshAgainIsQuiet(v: TorrentView, e: Snapshot, p: Property)
    requires Refresh(v, e).outcome.Completed?
    ensures var r1 := Refresh(v, e).after; var s2 := Refresh(r1, e); var r2 := s2.after;
      && s2.outcome.Completed?
      && r2 == r1.(files := r2.files, log := r2.log)
      && r2.files == (if r1.files.Some? then Some(Touched(r1.files.value)) else None)
      && r1.log <= r2.log
      && (p in r2.log[|r1.log|..] <==>
            r1.subscribed && ((p == Progress && e.progress.NaN?) || (p == DownloadToUploadRatio && RatioOf(e).NaN?)))
  {
    RefreshSettles(v, e);
    SettledRefreshChangesNothing(Refresh(v, e).after, e);
    SettledRefreshIsQuiet(Refresh(v, e).after, e, p);
  }

  /** The constructor throws, a NullReferenceException, exactly when the
      engine is already Downloading: its `Update` builds the files array
      while no handler can be attached yet (lines 22 and 45). */
  lemma ConstructFailsIffDownloading(e: Snapshot)
    ensures Construct(e).Failure? <==> e.state == Downloading
    ensures Construct(e).Failure? ==> Construct(e).error == NullReferenceException
  {
    RefreshOutcome(InitialView(), e);
  }

  /** A constructed object holds the engine's values, its Name and the
      engine's Size, is not Complete, has no files array and has notified
      nothing. The constructor never applies the magnet size rule: that needs
      Downloading, where its `Update` throws first (ConstructFailsIffDownloading). */
  lemma ConstructedView(e: Snapshot)
    requires e.state != Downloading
    ensures Construct(e).Success?
    ensures var c := Construct(e).value;
      && c.log == [] && c.files.None? && !c.subscribed && !c.complete
      && c.name == e.name && c.size == e.size
      && c.state == e.state && c.progress == e.progress
      && c.downloadSpeed == e.downloadSpeed && c.uploadSpeed == e.uploadSpeed
      && c.estimatedTime == EstimatedTimeOf(e)
      && c.totalDownloaded == e.dataBytesDownloaded && c.totalUploaded == e.dataBytesUploaded
      && c.downloadToUploadRatio == RatioOf(e)
  {
    var v := InitialView();
    RefreshOutcome(v, e);
    RefreshStoresEngineValues(v, e);
    RefreshFiles(v, e);
    UpdateNotifiesChanges(v, e);
    var r := Refresh(v, e).after;
    NothingNotifiedUnsubscribed(UpdateOrder, v, r);
  }

  /** Without a handler nothing is notified. */
  lemma {:induction false} NothingNotifiedUnsubscribed(ps: seq<Property>, v: TorrentView, w: TorrentView)
    requires !v.subscribed
    ensures Changed(ps, v, w) == []
  {
    if ps != [] {
      NothingNotifiedUnsubscribed(ps[..|ps| - 1], v, w);
    }
  }

  /** What happens to an object over its lifetime: a timer's `Update` against
      an engine snapshot, or the user interface attaching or detaching its
      PropertyChanged handler. */
  datatype Event = Refreshed(snapshot: Snapshot) | Attach | Detach

  /** The object after one event, whatever the outcome of an `Update` (a thrown
      exception leaves the assignments made before it in place). */
  function Apply(v: TorrentView, ev: Event): TorrentView
  {
    match ev
    case Refreshed(e) => Refresh(v, e).after
    case Attach => v.(subscribed := true)
    case Detach => v.(subscribed := false)
  }

  /** The object after a series of events. */
  function Run(v: TorrentView, evs: seq<Event>): TorrentView
    decreases |evs|
  {
    if evs == [] then v else Run(Apply(v, evs[0]), evs[1..])
  }

  /** One event keeps an existing files array: its length and the engine file
      of every element. */
  lemma ApplyKeepsFiles(v: TorrentView, ev: Event)
    requires v.files.Some?
    ensures var r := Apply(v, ev);
      && r.files.Some? && |r.files.value| == |v.files.value|
      && forall i :: 0 <= i < |v.files.value| ==> r.files.value[i].file == v.files.value[i].file
  {
    if ev.Refreshed? {
      RefreshFiles(v, ev.snapshot);
    }
  }

  /** Once built, the files array is never replaced, whatever the events: it
      keeps its length and the engine file of every element. */
  lemma {:induction false} FilesNeverReplaced(v: TorrentView, evs: seq<Event>)
    requires v.files.Some?
    ensures var r := Run(v, evs);
      && r.files.Some? && |r.files.value| == |v.files.value|
      && forall i :: 0 <= i < |v.files.value| ==> r.files.value[i].file == v.files.value[i].file
    decreases |evs|
  {
    if evs != [] {
      ApplyKeepsFiles(v, evs[0]);
      FilesNeverReplaced(Apply(v, evs[0]), evs[1..]);
    }
  }

  /** One event notifies "Files" at most once, only when it builds the array,
      and never removes the array. */
  lemma ApplyNotifiesFilesOnBuild(v: TorrentView, ev: Event)
    ensures var r := Apply(v, ev);
      && v.log <= r.log
      && (v.files.Some? ==> r.files.Some?)
      && multiset(r.log[|v.log|..])[Files] <= (if v.files.None? && r.files.Some? then 1 else 0)
  {
    if ev.Refreshed? {
      RefreshNotifiesFilesOnBuild(v, ev.snapshot);
    } else {
      assert Apply(v, ev).log[|v.log|..] == [];
    }
  }

  /** Over the whole lifetime of the object, with handlers attached and
      detached at any point, "Files" is notified at most once, and never after
      the array exists (lines 40-46). */
  lemma {:induction false} FilesNotifiedAtMostOnce(v: TorrentView, evs: seq<Event>)
    ensures var r := Run(v, evs);
      && v.log <= r.log
      && multiset(r.log[|v.log|..])[Files] <= (if v.files.None? then 1 else 0)
    decreases |evs|
  {
    var r := Run(v, evs);
    if evs == [] {
      assert r.log[|v.log|..] == [];
    } else {
      var r1 := Apply(v, evs[0]);
      ApplyNotifiesFilesOnBuild(v, evs[0]);
      FilesNotifiedAtMostOnce(r1, evs[1..]);
      CountSplit(v.log, r1.log, r.log, Files);
    }
  }

  lemma CountSplit(a: seq<Property>, b: seq<Property>, c: seq<Property>, p: Property)
    requires a <= b <= c
    ensures multiset(c[|a|..])[p] == multiset(b[|a|..])[p] + multiset(c[|b|..])[p]
  {
    assert c[|a|..] == b[|a|..] + c[|b|..];
  }

  /** One `Update` notifies Files at most once, only when it builds the
      array, and never removes the array. */
  lemma RefreshNotifiesFilesOnBuild(v: TorrentView, e: Snapshot)
    ensures var r := Refresh(v, e).after;
      && v.log <= r.log
      && (v.files.Some? ==> r.files.Some?)
      && multiset(r.log[|v.log|..])[Files] <= (if v.files.None? && r.files.Some? then 1 else 0)
  {
    UpdateNotifiesChanges(v, e);
    RefreshFiles(v, e);
    FilesNotifiedOnBuild(v, Refresh(v, e).after);
  }

  /** One step notifies Files at most once, and only when it builds the array. */
  lemma FilesNotifiedOnBuild(v: TorrentView, r: TorrentView)
    requires r.log == v.log + Changed(UpdateOrder, v, r)
    requires v.files.Some? ==> r.files.Some?
    ensures v.log <= r.log
    ensures multiset(r.log[|v.log|..])[Files] <= (if v.files.None? && r.files.Some? then 1 else 0)
  {
    NotifiedIffChanged(v, r, Files);
    NotifiedInOrder(v, r);
    AtMostOnce(r.log[|v.log|..], Files);
  }

  lemma {:induction false} AtMostOnce(s: seq<Property>, p: Property)
    requires forall i, j :: 0 <= i < j < |s| ==> s[i] != s[j]
    ensures multiset(s)[p] <= (if p in s then 1 else 0)
  {
    if s != [] {
      var init := s[..|s| - 1];
      AtMostOnce(init, p);
      assert s == init + [s[|s| - 1]];
    }
  }
}

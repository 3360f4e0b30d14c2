/** The browser-side job tracker of the converter page: the list of dropped mod
    files with their conversion status, the single conversion slot, and batch
    mode, which converts the queued files one after the other. */
module JobTracker {
  import opened Wire

  datatype Status = Queued | Converting | Completed | Error

  /** The browser `File` behind an entry; the tracker only carries it along. */
  datatype FileHandle = FileHandle(name: string, size: nat)

  datatype ModFile = ModFile(
    id: string,
    file: FileHandle,
    status: Status,
    downloadUrl: Option<string>,
    errorMessage: Option<string>)

  /** What a rejected conversion promise carries: an `Error` object, or any
      other thrown value. */
  datatype Thrown = ErrorObject(message: string) | OtherValue

  /** How the upload-and-convert request of one entry settles. `url` is the
      `converted_file` member of the reply, `None` when the reply has no such
      member (the entry then completes without a download link). */
  datatype ConvertOutcome = Converted(url: Option<string>) | Rejected(reason: Thrown)

  const ConversionFailed: string := "Conversion failed"

  /** The message an `error` entry shows for a rejected conversion. */
  function FailureMessage(t: Thrown): string {
    match t
    case ErrorObject(m) => m
    case OtherValue => ConversionFailed
  }

  // ---------------------------------------------------------------------
  // List transforms (pure)
  // ---------------------------------------------------------------------

  /** `Array.prototype.filter`: the entries `keep` accepts, in list order. */
  function Filter(mods: seq<ModFile>, keep: ModFile -> bool): (r: seq<ModFile>)
    ensures |r| <= |mods|
    ensures forall k :: 0 <= k < |r| ==> keep(r[k])
  {
    if mods == [] then []
    else (if keep(mods[0]) then [mods[0]] else []) + Filter(mods[1..], keep)
  }

  /** `Filter` keeps every accepted entry as often as the input has it and
      no other entry. */
  lemma {:induction false} FilterCounts(mods: seq<ModFile>, keep: ModFile -> bool)
    ensures forall x :: multiset(Filter(mods, keep))[x] == if keep(x) then multiset(mods)[x] else 0
  {
    if mods != [] {
      FilterCounts(mods[1..], keep);
      assert mods == [mods[0]] + mods[1..];
    }
  }

  /** Filtering a concatenation filters each part and keeps them in order;
      with the one-element case, this says `Filter` keeps list order. */
  lemma {:induction false} FilterAppend(a: seq<ModFile>, b: seq<ModFile>, keep: ModFile -> bool)
    ensures Filter(a + b, keep) == Filter(a, keep) + Filter(b, keep)
  {
    if a == [] {
      assert a + b == b;
    } else {
      assert (a + b)[0] == a[0];
      assert (a + b)[1..] == a[1..] + b;
      FilterAppend(a[1..], b, keep);
    }
  }

  /** `Array.prototype.find`, by index: the first entry `p` accepts. */
  function FindFirst(mods: seq<ModFile>, p: ModFile -> bool): (r: Option<nat>)
    ensures r.Some? ==> r.value < |mods| && p(mods[r.value])
    ensures r.Some? ==> forall j :: 0 <= j < r.value ==> !p(mods[j])
    ensures r.None? ==> forall j :: 0 <= j < |mods| ==> !p(mods[j])
  {
    if mods == [] then None
    else if p(mods[0]) then Some(0)
    else match FindFirst(mods[1..], p)
      case None => None
      case Some(k) => Some(k + 1)
  }

  /** `modFiles.find((m: ModFile) => m.id === id)`. */
  function FindById(mods: seq<ModFile>, id: string): Option<nat> {
    FindFirst(mods, (m: ModFile) => m.id == id)
  }

  /** `modFiles.find(mod => mod.status === 'queued')`. */
  function FirstQueued(mods: seq<ModFile>): Option<nat> {
    FindFirst(mods, (m: ModFile) => m.status == Queued)
  }

  /** The list after `updateModStatus(id, status, url, err)`: every entry with
      that id gets the new status and has both optional fields overwritten by
      the arguments (an omitted one becomes undefined); all others are kept. */
  function WithStatus(mods: seq<ModFile>, id: string, status: Status,
                      url: Option<string>, err: Option<string>): (r: seq<ModFile>)
    ensures |r| == |mods|
    ensures forall k :: 0 <= k < |mods| ==> r[k].id == mods[k].id && r[k].file == mods[k].file
    ensures forall k :: 0 <= k < |mods| && mods[k].id != id ==> r[k] == mods[k]
    ensures forall k :: 0 <= k < |mods| && mods[k].id == id ==>
      r[k].status == status && r[k].downloadUrl == url && r[k].errorMessage == err
  {
    if mods == [] then []
    else
      var m := mods[0];
      [if m.id == id then m.(status := status, downloadUrl := url, errorMessage := err) else m]
      + WithStatus(mods[1..], id, status, url, err)
  }

  /** A second update of the same id overrides the first entirely. */
  lemma {:induction false} WithStatusTwice(mods: seq<ModFile>, id: string, s1: Status, u1: Option<string>, e1: Option<string>,
                        s2: Status, u2: Option<string>, e2: Option<string>)
    ensures WithStatus(WithStatus(mods, id, s1, u1, e1), id, s2, u2, e2) == WithStatus(mods, id, s2, u2, e2)
  {
    if mods != [] {
      var once := WithStatus(mods, id, s1, u1, e1);
      assert once[1..] == WithStatus(mods[1..], id, s1, u1, e1);
      WithStatusTwice(mods[1..], id, s1, u1, e1, s2, u2, e2);
    }
  }

  /** `removeMod`'s list: every entry with that id dropped. */
  function WithoutId(mods: seq<ModFile>, id: string): seq<ModFile> {
    Filter(mods, (m: ModFile) => m.id != id)
  }

  /** `clearCompletedMods`'s list: every completed entry dropped. */
  function WithoutCompleted(mods: seq<ModFile>): seq<ModFile> {
    Filter(mods, (m: ModFile) => m.status != Completed)
  }

  /** `modFiles.filter(mod => mod.status === st).length`. */
  function Count(mods: seq<ModFile>, st: Status): nat {
    |Filter(mods, (m: ModFile) => m.status == st)|
  }

  /** Unfolds `Count` over the first entry. */
  lemma CountCons(mods: seq<ModFile>, st: Status)
    requires mods != []
    ensures Count(mods, st) == (if mods[0].status == st then 1 else 0) + Count(mods[1..], st)
  {
  }

  /** The four counters of `getQueueStats`. */
  datatype QueueStats = QueueStats(queued: nat, completed: nat, failed: nat, converting: nat)

  function Stats(mods: seq<ModFile>): (r: QueueStats)
    ensures r.queued + r.completed + r.failed + r.converting == |mods|
  {
    StatsTotal(mods);
    QueueStats(Count(mods, Queued), Count(mods, Completed), Count(mods, Error), Count(mods, Converting))
  }

  /** Every entry is counted under exactly one of the four statuses. */
  lemma {:induction false} StatsTotal(mods: seq<ModFile>)
    ensures Count(mods, Queued) + Count(mods, Completed) + Count(mods, Error) + Count(mods, Converting) == |mods|
  {
    if mods != [] {
      CountCons(mods, Queued);
      CountCons(mods, Completed);
      CountCons(mods, Error);
      CountCons(mods, Converting);
      StatsTotal(mods[1..]);
    }
  }

  /** The queued counter is non-zero exactly when there is a first queued
      entry: the "Convert all" button and `startBatchConversion` agree. */
  lemma {:induction false} QueuedCountMeansFirstQueued(mods: seq<ModFile>)
    ensures Count(mods, Queued) > 0 <==> FirstQueued(mods).Some?
  {
    if mods != [] {
      CountCons(mods, Queued);
      QueuedCountMeansFirstQueued(mods[1..]);
      if mods[0].status != Queued && FirstQueued(mods[1..]).Some? {
        var k := FirstQueued(mods[1..]).value;
        assert mods[k + 1] == mods[1..][k];
      }
    }
  }

  /** Clearing the completed entries leaves no completed entry and every
      other counter as it was. */
  lemma {:induction false} CountWithoutCompleted(mods: seq<ModFile>, st: Status)
    ensures Count(WithoutCompleted(mods), st) == if st == Completed then 0 else Count(mods, st)
  {
    if mods != [] {
      var rest := mods[1..];
      CountWithoutCompleted(rest, st);
      CountCons(mods, st);
      var r := WithoutCompleted(mods);
      if mods[0].status != Completed {
        assert r == [mods[0]] + WithoutCompleted(rest);
        assert r[0] == mods[0] && r[1..] == WithoutCompleted(rest);
        CountCons(r, st);
      } else {
        assert r == WithoutCompleted(rest);
      }
    }
  }

  /** `clearCompletedMods` zeroes the completed counter of `getQueueStats`
      and leaves the other three as they were. */
  lemma ClearCompletedStats(mods: seq<ModFile>)
    ensures Stats(WithoutCompleted(mods)) == Stats(mods).(completed := 0)
  {
    CountWithoutCompleted(mods, Queued);
    CountWithoutCompleted(mods, Completed);
    CountWithoutCompleted(mods, Error);
    CountWithoutCompleted(mods, Converting);
  }

  /** All ids differ. Ids come from a random generator; the tracker relies on
      them being distinct. */
  predicate UniqueIds(mods: seq<ModFile>) {
    forall i, j :: 0 <= i < j < |mods| ==> mods[i].id != mods[j].id
  }

  /** Filtering never makes two ids equal. */
  lemma {:induction false} FilterKeepsUniqueIds(mods: seq<ModFile>, keep: ModFile -> bool)
    requires UniqueIds(mods)
    ensures UniqueIds(Filter(mods, keep))
  {
    if mods != [] {
      var rest := mods[1..];
      FilterKeepsUniqueIds(rest, keep);
      var r := Filter(mods, keep);
      var tail := Filter(rest, keep);
      if keep(mods[0]) {
        assert r == [mods[0]] + tail;
        forall j | 0 < j < |r| ensures r[0].id != r[j].id {
          assert r[j] == tail[j - 1];
          FilterCounts(rest, keep);
          assert multiset(tail)[r[j]] > 0;
          assert r[j] in rest;
        }
      } else {
        assert r == tail;
      }
    }
  }

  /** The single-slot rule: every entry marked converting is the active job. */
  predicate SingleSlot(mods: seq<ModFile>, active: Option<string>) {
    forall k :: 0 <= k < |mods| && mods[k].status == Converting ==> active == Some(mods[k].id)
  }

  /** A status no entry has is counted zero times. */
  lemma {:induction false} CountAbsent(mods: seq<ModFile>, st: Status)
    requires forall k :: 0 <= k < |mods| ==> mods[k].status != st
    ensures Count(mods, st) == 0
  {
    if mods != [] {
      CountCons(mods, st);
      CountAbsent(mods[1..], st);
    }
  }

  /** With distinct ids, the single-slot rule allows at most one converting entry. */
  lemma {:induction false} AtMostOneConverting(mods: seq<ModFile>, active: Option<string>)
    requires UniqueIds(mods) && SingleSlot(mods, active)
    ensures Count(mods, Converting) <= 1
  {
    if mods != [] {
      var rest := mods[1..];
      CountCons(mods, Converting);
      if mods[0].status != Converting {
        AtMostOneConverting(rest, active);
      } else {
        forall k | 0 <= k < |rest|
          ensures rest[k].status != Converting
        {
          assert rest[k] == mods[k + 1];
        }
        CountAbsent(rest, Converting);
      }
    }
  }

  /** No entry has an empty id (an empty id would be falsy in the checks on
      `currentlyConverting`). */
  predicate NonEmptyIds(mods: seq<ModFile>) {
    forall k :: 0 <= k < |mods| ==> mods[k].id != ""
  }

  /** A status update keeps the ids, so they stay distinct and non-empty. */
  lemma WithStatusKeepsIds(mods: seq<ModFile>, id: string, status: Status, url: Option<string>, err: Option<string>)
    requires UniqueIds(mods) && NonEmptyIds(mods)
    ensures UniqueIds(WithStatus(mods, id, status, url, err)) && NonEmptyIds(WithStatus(mods, id, status, url, err))
  {
    var r := WithStatus(mods, id, status, url, err);
    assert forall k :: 0 <= k < |r| ==> r[k].id == mods[k].id;
  }

  /** Marking the entries of `id` converting while the slot was free puts
      `id` in the slot. */
  lemma StartTakesSlot(mods: seq<ModFile>, id: string)
    requires SingleSlot(mods, None)
    ensures SingleSlot(WithStatus(mods, id, Converting, None, None), Some(id))
  {
  }

  /** Settling the entries of the active id with a status other than
      converting frees the slot. */
  lemma SettleFreesSlot(mods: seq<ModFile>, id: string, status: Status, url: Option<string>, err: Option<string>)
    requires SingleSlot(mods, Some(id)) && status != Converting
    ensures SingleSlot(WithStatus(mods, id, status, url, err), None)
  {
  }

  /** Whether `convertSingleMod(id)` gets past its guards: nothing is
      converting, an entry with that id exists, and the first such entry is
      queued. */
  predicate CanStart(mods: seq<ModFile>, converting: bool, id: string) {
    && !converting
    && FindById(mods, id).Some?
    && mods[FindById(mods, id).value].status == Queued
  }

  // ---------------------------------------------------------------------
  // The tracker state (the component's four state variables)
  // ---------------------------------------------------------------------

  class Tracker {
    var modFiles: seq<ModFile>
    var isConverting: bool
    var currentlyConverting: Option<string>
    var isBatchProcessing: bool

    /** The flags agree, ids are distinct and non-empty, and only the active
        job may be converting. */
    ghost predicate Valid()
      reads this
    {
      && (isConverting <==> currentlyConverting.Some?)
      && (currentlyConverting.Some? ==> currentlyConverting.value != "")
      && NonEmptyIds(modFiles)
      && UniqueIds(modFiles)
      && SingleSlot(modFiles, currentlyConverting)
    }

    constructor ()
      ensures Valid()
      ensures modFiles == [] && !isConverting && currentlyConverting == None && !isBatchProcessing
    {
      modFiles := [];
      isConverting := false;
      currentlyConverting := None;
      isBatchProcessing := false;
    }

    /** `handleFilesAdded`: one queued entry per file, appended after the
        existing ones. `ids` stands for the random ids drawn for the files. */
    method HandleFilesAdded(files: seq<FileHandle>, ids: seq<string>)
      requires Valid()
      requires |ids| == |files|
      requires forall k :: 0 <= k < |ids| ==> ids[k] != ""
      requires forall k, j :: 0 <= k < j < |ids| ==> ids[k] != ids[j]
      requires forall k, j :: 0 <= k < |ids| && 0 <= j < |modFiles| ==> ids[k] != modFiles[j].id
      modifies this
      ensures Valid()
      ensures |modFiles| == |old(modFiles)| + |files|
      ensures modFiles[..|old(modFiles)|] == old(modFiles)
      ensures forall k :: 0 <= k < |files| ==>
        modFiles[|old(modFiles)| + k] == ModFile(ids[k], files[k], Queued, None, None)
      ensures isConverting == old(isConverting) && currentlyConverting == old(currentlyConverting)
      ensures isBatchProcessing == old(isBatchProcessing)
    {
      var added := seq(|files|, k requires 0 <= k < |files| => ModFile(ids[k], files[k], Queued, None, None));
      modFiles := modFiles + added;
    }

    /** `updateModStatus`. */
    method UpdateModStatus(id: string, status: Status, url: Option<string>, err: Option<string>)
      modifies this
      ensures modFiles == WithStatus(old(modFiles), id, status, url, err)
      ensures isConverting == old(isConverting) && currentlyConverting == old(currentlyConverting)
      ensures isBatchProcessing == old(isBatchProcessing)
    {
      modFiles := WithStatus(modFiles, id, status, url, err);
    }

    /** `removeMod`: refused for the active job, otherwise drops the entries
        with that id. */
    method RemoveMod(id: string)
      requires Valid()
      modifies this
      ensures Valid()
      ensures old(currentlyConverting) == Some(id) ==> modFiles == old(modFiles)
      ensures old(currentlyConverting) != Some(id) ==> modFiles == WithoutId(old(modFiles), id)
      ensures isConverting == old(isConverting) && currentlyConverting == old(currentlyConverting)
      ensures isBatchProcessing == old(isBatchProcessing)
    {
      if currentlyConverting == Some(id) {
        return;
      }
      FilterKeepsUniqueIds(modFiles, (m: ModFile) => m.id != id);
      modFiles := WithoutId(modFiles, id);
      forall k | 0 <= k < |modFiles| ensures modFiles[k].id != "" && (modFiles[k].status == Converting ==> currentlyConverting == Some(modFiles[k].id)) {
        FilterCounts(old(modFiles), (m: ModFile) => m.id != id);
        assert multiset(modFiles)[modFiles[k]] > 0;
        assert modFiles[k] in old(modFiles);
      }
    }

    /** The synchronous part of `convertSingleMod`: the guards, then the entry
        becomes the active job and is marked converting. */
    method BeginConversion(id: string) returns (started: bool)
      requires Valid()
      modifies this
      ensures Valid()
      ensures started == CanStart(old(modFiles), old(isConverting), id)
      ensures started ==> && isConverting && currentlyConverting == Some(id)
                          && modFiles == WithStatus(old(modFiles), id, Converting, None, None)
                          && isBatchProcessing == old(isBatchProcessing)
      ensures !started ==> unchanged(this)
    {
      if isConverting {
        return false;
      }
      var found := FindById(modFiles, id);
      if found.None? || modFiles[found.value].status != Queued {
        return false;
      }
      WithStatusKeepsIds(modFiles, id, Converting, None, None);
      StartTakesSlot(modFiles, id);
      isConverting := true;
      currentlyConverting := Some(id);
      UpdateModStatus(id, Converting, None, None);
      started := true;
    }

    /** The part of `convertSingleMod` after the request settles: the entry
        becomes completed with the reply's URL if any, or error with the failure message, and
        the slot is released. */
    method FinishConversion(outcome: ConvertOutcome)
      requires Valid() && isConverting
      modifies this
      ensures Valid()
      ensures outcome.Converted? ==>
        modFiles == WithStatus(old(modFiles), old(currentlyConverting).value, Completed, outcome.url, None)
      ensures outcome.Rejected? ==>
        modFiles == WithStatus(old(modFiles), old(currentlyConverting).value, Error, None, Some(FailureMessage(outcome.reason)))
      ensures !isConverting && currentlyConverting == None
      ensures isBatchProcessing == old(isBatchProcessing)
    {
      var id := currentlyConverting.value;
      match outcome {
        case Converted(url) =>
          WithStatusKeepsIds(modFiles, id, Completed, url, None);
          SettleFreesSlot(modFiles, id, Completed, url, None);
          UpdateModStatus(id, Completed, url, None);
        case Rejected(reason) =>
          WithStatusKeepsIds(modFiles, id, Error, None, Some(FailureMessage(reason)));
          SettleFreesSlot(modFiles, id, Error, None, Some(FailureMessage(reason)));
          UpdateModStatus(id, Error, None, Some(FailureMessage(reason)));
      }
      isConverting := false;
      currentlyConverting := None;
    }

    /** `convertSingleMod` run to completion: start, then settle with `outcome`. */
    method ConvertSingleMod(id: string, outcome: ConvertOutcome) returns (started: bool)
      requires Valid()
      modifies this
      ensures Valid()
      ensures started == CanStart(old(modFiles), old(isConverting), id)
      ensures started && outcome.Converted? ==>
        modFiles == WithStatus(old(modFiles), id, Completed, outcome.url, None)
      ensures started && outcome.Rejected? ==>
        modFiles == WithStatus(old(modFiles), id, Error, None, Some(FailureMessage(outcome.reason)))
      ensures started ==> !isConverting && currentlyConverting == None && isBatchProcessing == old(isBatchProcessing)
      ensures !started ==> unchanged(this)
    {
      ghost var before := modFiles;
      started := BeginConversion(id);
      if started {
        FinishConversion(outcome);
        match outcome
        case Converted(url) =>
          WithStatusTwice(before, id, Converting, None, None, Completed, url, None);
        case Rejected(reason) =>
          WithStatusTwice(before, id, Converting, None, None, Error, None, Some(FailureMessage(reason)));
      }
    }

    /** `startBatchConversion`: batch mode goes on only when nothing is
        converting and some entry is queued. */
    method StartBatchConversion()
      requires Valid()
      modifies this
      ensures Valid()
      ensures isBatchProcessing == (old(isBatchProcessing) || (!old(isConverting) && FirstQueued(old(modFiles)).Some?))
      ensures modFiles == old(modFiles) && isConverting == old(isConverting)
      ensures currentlyConverting == old(currentlyConverting)
    {
      if isConverting {
        return;
      }
      if FirstQueued(modFiles).Some? {
        isBatchProcessing := true;
      }
    }

    /** One run of the `processNextInQueue` effect: in batch mode with the
        slot free, start the first queued entry, or leave batch mode when
        none is left. */
    method ProcessNextInQueue() returns (started: bool)
      requires Valid()
      modifies this
      ensures Valid()
      ensures !old(isBatchProcessing) || old(isConverting) ==> !started && unchanged(this)
      ensures old(isBatchProcessing) && !old(isConverting) && FirstQueued(old(modFiles)).None? ==>
        !started && !isBatchProcessing && modFiles == old(modFiles) && !isConverting
      ensures old(isBatchProcessing) && !old(isConverting) && FirstQueued(old(modFiles)).Some? ==>
        var id := old(modFiles)[FirstQueued(old(modFiles)).value].id;
        && started && isBatchProcessing && currentlyConverting == Some(id)
        && modFiles == WithStatus(old(modFiles), id, Converting, None, None)
    {
      if !isBatchProcessing || isConverting {
        return false;
      }
      var next := FirstQueued(modFiles);
      if next.None? {
        isBatchProcessing := false;
        return false;
      }
      var id := modFiles[next.value].id;
      assert FindById(modFiles, id) == Some(next.value);
      started := BeginConversion(id);
    }

    /** `cancelConversion`: puts the active entry back to queued and clears
        the three flags; does nothing when neither converting nor batching. */
    method CancelConversion()
      requires Valid()
      modifies this
      ensures Valid()
      ensures !old(isConverting) && !old(isBatchProcessing) ==> unchanged(this)
      ensures old(isConverting) || old(isBatchProcessing) ==>
        && !isConverting && !isBatchProcessing && currentlyConverting == None
        && modFiles == (if old(currentlyConverting).Some?
                        then WithStatus(old(modFiles), old(currentlyConverting).value, Queued, None, None)
                        else old(modFiles))
    {
      if !isConverting && !isBatchProcessing {
        return;
      }
      // `if (currentlyConverting)`: an empty id would be falsy, but ids are never empty.
      if currentlyConverting.Some? && currentlyConverting.value != "" {
        WithStatusKeepsIds(modFiles, currentlyConverting.value, Queued, None, None);
        SettleFreesSlot(modFiles, currentlyConverting.value, Queued, None, None);
        UpdateModStatus(currentlyConverting.value, Queued, None, None);
      }
      isConverting := false;
      isBatchProcessing := false;
      currentlyConverting := None;
    }

    /** `clearCompletedMods`. */
    method ClearCompletedMods()
      requires Valid()
      modifies this
      ensures Valid()
      ensures modFiles == WithoutCompleted(old(modFiles))
      ensures isConverting == old(isConverting) && currentlyConverting == old(currentlyConverting)
      ensures isBatchProcessing == old(isBatchProcessing)
    {
      FilterKeepsUniqueIds(modFiles, (m: ModFile) => m.status != Completed);
      modFiles := WithoutCompleted(modFiles);
      forall k | 0 <= k < |modFiles| ensures modFiles[k].id != "" && (modFiles[k].status == Converting ==> currentlyConverting == Some(modFiles[k].id)) {
        FilterCounts(old(modFiles), (m: ModFile) => m.status != Completed);
        assert multiset(modFiles)[modFiles[k]] > 0;
        assert modFiles[k] in old(modFiles);
      }
    }
  }

  /** An example run with two queued files in batch mode. The assertions in
      the body follow the first file to the end while the second stays
      queued; the final state has the first completed and the second in the
      slot. */
  method BatchRunsInListOrder(a: FileHandle, b: FileHandle, url: Option<string>) returns (t: Tracker)
    ensures t.Valid() && t.isBatchProcessing && t.currentlyConverting == Some("b")
    ensures t.modFiles == [ModFile("a", a, Completed, url, None), ModFile("b", b, Converting, None, None)]
  {
    t := new Tracker();
    t.HandleFilesAdded([a, b], ["a", "b"]);
    assert [a, b][0] == a && [a, b][1] == b;
    assert t.modFiles[0] == ModFile("a", a, Queued, None, None);
    assert t.modFiles[1] == ModFile("b", b, Queued, None, None);
    t.StartBatchConversion();
    assert FirstQueued(t.modFiles) == Some(0);
    var started := t.ProcessNextInQueue();
    assert started && t.currentlyConverting == Some("a");
    assert t.modFiles[1].status == Queued;
    started := t.ProcessNextInQueue();
    assert !started && t.modFiles[1].status == Queued;
    t.FinishConversion(Converted(url));
    assert t.modFiles[0].status == Completed && t.modFiles[1].status == Queued;
    assert FirstQueued(t.modFiles) == Some(1);
    started := t.ProcessNextInQueue();
    assert started && t.currentlyConverting == Some("b");
  }
}

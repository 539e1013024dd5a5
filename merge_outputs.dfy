/** The end of each batch in the two bias-measurement pipelines: the
    measurement files the threads wrote are appended to the listfile that
    collects them (`merge_outputs` in `run_bias_calibration_pipeline_parallel.py`,
    `mergeOutputs` in `run_bias_pipeline_parallel.py`).

    The file system is the set of paths that exist. A listfile is its list
    of entries, or None when it does not exist. */
module MergeOutputs {
  import opened Wrappers
  import opened Strings
  import opened Paths
  import opened BatchPlanner
  import ThreadDirStruct
  import opened Seqs
  import opened Folds

  /** `'shear_bias_measurements_sim%s.xml' % sim_no`. */
  function MeasurementsName(simNo: int): string {
    "shear_bias_measurements_sim" + IntToString(simNo) + ".xml"
  }

  /** The listfile after the merge: what it held, then the new entries,
      with nothing removed or merged. */
  function Extended(listfile: Option<seq<string>>, newList: seq<string>): (r: seq<string>)
    ensures var before := if listfile.Some? then listfile.value else [];
      |r| == |before| + |newList| && r[..|before|] == before && r[|before|..] == newList
  {
    var before := if listfile.Some? then listfile.value else [];
    assert (before + newList)[..|before|] == before;
    before + newList
  }

  // ---------------------------------------------------------------------
  // Thread numbers

  /** `int(workdir.split('thread')[-1].split('_')[0])`. */
  function CalibrationThreadNo(workdir: string): (r: Result<int>)
    ensures r.Err? ==> r.error.ValueError?
  {
    var pieces := SplitOn(workdir, "thread");
    PyInt(SplitOn(pieces[|pieces| - 1], "_")[0])
  }

  /** `int(workdir.split('thread')[1].split('/')[0])`: IndexError when the
      directory name does not contain `thread`. */
  function BiasThreadNo(workdir: string): (r: Result<int>)
    ensures r == Err(IndexError) <==> !Contains(workdir, "thread")
    ensures r.Err? ==> r.error == IndexError || r.error.ValueError?
  {
    var pieces := SplitOn(workdir, "thread");
    SplitSingleIff(workdir, "thread");
    if |pieces| < 2 then Err(IndexError)
    else PyInt(SplitOn(pieces[1], "/")[0])
  }

  lemma ThreadHeadUnique()
    ensures HeadUnique("thread")
  {
  }

  /** The decimal spelling of a thread number has none of the characters
      the directory name is split on. */
  lemma ThreadSpelling(t: nat)
    ensures var d := NatToString(t);
      't' !in d && '_' !in d && '/' !in d && SplitOn(d, "_") == [d] && SplitOn(d, "/") == [d]
      && PyInt(d) == Ok(t)
  {
    var d := NatToString(t);
    forall k | 0 <= k < |d|
      ensures d[k] != 't' && d[k] != '_' && d[k] != '/'
    {
      assert IsDigitChar(d[k]);
    }
    NoHeadOnePiece(d, "_");
    NoHeadOnePiece(d, "/");
    PyIntOfDigits(d);
  }

  /** `os.path.join(root, 'thread%s' % t)` is the text before `thread`
      followed by `thread` and the number. */
  lemma ThreadDirShape(root: string, t: nat) returns (x: string)
    ensures ThreadDirStruct.ThreadDir(root, t) == x + "thread" + NatToString(t)
    ensures x == root || x == root + "/"
  {
    var name := "thread" + NatToString(t);
    assert !StartsWith(name, "/") by {
      assert name[0] == 't';
    }
    x := if root == "" || EndsWith(root, "/") then root else root + "/";
  }

  /** The number is read from the last piece split on `thread`. */
  lemma CalibrationThreadNoOfLast(w: string, d: string, t: nat)
    requires var ps := SplitOn(w, "thread"); ps[|ps| - 1] == d
    requires SplitOn(d, "_") == [d] && PyInt(d) == Ok(t)
    ensures CalibrationThreadNo(w) == Ok(t)
  {
  }

  /** The number after the last `thread` is read back whatever comes
      before it. */
  lemma CalibrationThreadNoAfter(x: string, d: string, t: nat)
    requires 't' !in d && SplitOn(d, "_") == [d] && PyInt(d) == Ok(t)
    ensures CalibrationThreadNo(x + "thread" + d) == Ok(t)
  {
    ThreadHeadUnique();
    assert "thread"[0] == 't';
    SplitLastPiece(x, "thread", d);
    CalibrationThreadNoOfLast(x + "thread" + d, d, t);
  }

  /** The calibration pipeline reads back the number of every thread
      directory it made, below any root. */
  lemma CalibrationThreadNoOfThreadDir(root: string, t: nat)
    ensures CalibrationThreadNo(ThreadDirStruct.ThreadDir(root, t)) == Ok(t)
  {
    var x := ThreadDirShape(root, t);
    ThreadSpelling(t);
    CalibrationThreadNoAfter(x, NatToString(t), t);
  }

  /** The bias pipeline reads back the number of a thread directory only
      when the directory above it does not contain `thread`. */
  lemma BiasThreadNoOfThreadDir(base: string, t: nat)
    requires !Contains(base, "thread")
    ensures BiasThreadNo(ThreadDirStruct.ThreadDir(base, t)) == Ok(t)
  {
    var x := ThreadDirShape(base, t);
    ThreadHeadUnique();
    ThreadSpelling(t);
    ContainsSnoc(base, '/', "thread");
    SplitAfterFirst(x, "thread", NatToString(t));
  }


  // ---------------------------------------------------------------------
  // mergeOutputs (bias pipeline)

  /** `os.path.join(workdir, 'data', 'shear_bias_measurements_sim%s.xml' % sim_no)`. */
  function BiasMeasurementFile(workdir: string, batch: Batch, threadNo: int): string {
    PathJoin(PathJoin(workdir, "data"), MeasurementsName(GetSimNo(threadNo, batch)))
  }

  /** The entry one thread directory contributes: its measurement file,
      when its number is below the batch's thread count and the file
      exists. */
  function BiasSlot(w: string, batch: Batch, disk: set<string>): (r: seq<string>)
    ensures |r| <= 1
    ensures forall q :: q in r ==>
      q in disk && BiasThreadNo(w).Ok? && BiasThreadNo(w).value < batch.nThreads && q == BiasMeasurementFile(w, batch, BiasThreadNo(w).value)
  {
    match BiasThreadNo(w)
    case Ok(t) =>
      if t < batch.nThreads && BiasMeasurementFile(w, batch, t) in disk then [BiasMeasurementFile(w, batch, t)] else []
    case Err(_) => []
  }

  lemma BiasSlotOf(w: string, batch: Batch, disk: set<string>, t: int)
    requires BiasThreadNo(w) == Ok(t)
    ensures BiasSlot(w, batch, disk) ==
      if t < batch.nThreads && BiasMeasurementFile(w, batch, t) in disk then [BiasMeasurementFile(w, batch, t)] else []
  {
  }

  /** One iteration of the loop of `mergeOutputs`: reading the thread
      number may raise. */
  function BiasStep(batch: Batch, disk: set<string>, l: seq<string>, w: string): Result<seq<string>> {
    match BiasThreadNo(w)
    case Err(e) => Err(e)
    case Ok(_) => Ok(l + BiasSlot(w, batch, disk))
  }

  function BiasLoop(batch: Batch, disk: set<string>): (seq<string>, string) -> Result<seq<string>> {
    (l, w) => BiasStep(batch, disk, l, w)
  }

  /** The new entries of the listfile, or the first exception. */
  function BiasNewList(workdirs: seq<string>, batch: Batch, disk: set<string>): Result<seq<string>> {
    Fold(BiasLoop(batch, disk), [], workdirs)
  }

  /** `mergeOutputs(workdirList, batch, listfile)`: the new contents of the
      listfile, or the exception that left it untouched. */
  method MergeBiasOutputs(workdirs: seq<string>, batch: Batch, listfile: Option<seq<string>>, disk: set<string>)
    returns (r: Result<seq<string>>)
    ensures r == match BiasNewList(workdirs, batch, disk)
      case Ok(l) => Ok(Extended(listfile, l))
      case Err(e) => Err(e)
  {
    var newList: seq<string> := [];
    var i := 0;
    while i < |workdirs|
      invariant 0 <= i <= |workdirs|
      invariant BiasNewList(workdirs[..i], batch, disk) == Ok(newList)
    {
      var w := workdirs[i];
      FoldNext(BiasLoop(batch, disk), [], workdirs, i);
      assert BiasLoop(batch, disk)(newList, w) == BiasStep(batch, disk, newList, w);
      var threadNo := BiasThreadNo(w);
      if threadNo.Err? {
        FoldStopped(BiasLoop(batch, disk), [], workdirs, i + 1);
        return Err(threadNo.error);
      }
      var before := newList;
      BiasSlotOf(w, batch, disk, threadNo.value);
      if threadNo.value < batch.nThreads {
        var measFile := BiasMeasurementFile(w, batch, threadNo.value);
        if measFile in disk {
          newList := newList + [measFile];
        }
      }
      assert newList == before + BiasSlot(w, batch, disk);
      i := i + 1;
    }
    assert workdirs[..|workdirs|] == workdirs;
    var sbmlList: seq<string> := [];
    if listfile.Some? {
      sbmlList := listfile.value;
    }
    sbmlList := sbmlList + newList;
    r := Ok(sbmlList);
  }

  function SlotOf(batch: Batch, disk: set<string>): string -> seq<string> {
    w => BiasSlot(w, batch, disk)
  }

  /** The entries of every directory in order, independently of the loop. */
  function Slots(workdirs: seq<string>, batch: Batch, disk: set<string>): seq<string> {
    Flatten(MapSeq(SlotOf(batch, disk), workdirs))
  }

  /** The merge succeeds exactly when every directory name yields a
      number; then the new entries are the slots in order, one per
      contributing directory, and nothing is de-duplicated. */
  lemma BiasNewListIsSlots(workdirs: seq<string>, batch: Batch, disk: set<string>)
    ensures BiasNewList(workdirs, batch, disk).Ok? <==> forall i :: 0 <= i < |workdirs| ==> BiasThreadNo(workdirs[i]).Ok?
    ensures BiasNewList(workdirs, batch, disk).Ok? ==> BiasNewList(workdirs, batch, disk).value == Slots(workdirs, batch, disk)
  {
    FoldAppends(BiasLoop(batch, disk), workdirs, w => BiasThreadNo(w).Err?, SlotOf(batch, disk));
  }

  /** `q` is the existing measurement file of a directory of the list whose
      number is below the thread count. */
  ghost predicate BiasContributed(workdirs: seq<string>, batch: Batch, disk: set<string>, q: string) {
    q in disk &&
    exists i, t :: 0 <= i < |workdirs| && BiasThreadNo(workdirs[i]) == Ok(t) && t < batch.nThreads &&
      q == BiasMeasurementFile(workdirs[i], batch, t)
  }

  ghost function BiasSound(workdirs: seq<string>, batch: Batch, disk: set<string>): seq<string> -> bool {
    l => forall q :: q in l ==> BiasContributed(workdirs, batch, disk, q)
  }

  /** Every new entry is the existing measurement file of a directory of
      the list below the thread count. */
  lemma BiasNewListSound(workdirs: seq<string>, batch: Batch, disk: set<string>)
    ensures var r := BiasNewList(workdirs, batch, disk);
      r.Ok? ==> forall q :: q in r.value ==> BiasContributed(workdirs, batch, disk, q)
  {
    var step, inv := BiasLoop(batch, disk), BiasSound(workdirs, batch, disk);
    forall l, w | w in workdirs && inv(l) && step(l, w).Ok?
      ensures inv(step(l, w).value)
    {
      var i :| 0 <= i < |workdirs| && workdirs[i] == w;
      forall q | q in step(l, w).value
        ensures BiasContributed(workdirs, batch, disk, q)
      {
        if q !in l {
          assert q in BiasSlot(w, batch, disk);
          var t := BiasThreadNo(w).value;
          assert BiasThreadNo(workdirs[i]) == Ok(t);
        }
      }
    }
    FoldKeeps(step, [], workdirs, inv);
  }

  // ---------------------------------------------------------------------
  // merge_outputs (calibration pipeline)

  /** `os.path.join(workdir, os.path.join('data', 'shear_bias_measurements_sim%s.xml' % sim_no))`. */
  function CalibrationMeasurementFile(workdir: string, batch: Batch, threadNo: int): string {
    PathJoin(workdir, PathJoin("data", MeasurementsName(GetSimNo(threadNo, batch))))
  }

  lemma MeasurementsNameHead(simNo: int)
    ensures MeasurementsName(simNo) != "" && MeasurementsName(simNo)[0] == 's'
  {
  }

  lemma DataDirName()
    ensures "data" != "" && "data"[0] != '/' && "data"[|"data"| - 1] != '/'
  {
  }

  /** Both pipelines look for the same file. */
  lemma SameMeasurementFile(workdir: string, batch: Batch, threadNo: int)
    ensures CalibrationMeasurementFile(workdir, batch, threadNo) == BiasMeasurementFile(workdir, batch, threadNo)
  {
    MeasurementsNameHead(GetSimNo(threadNo, batch));
    DataDirName();
    JoinNested(workdir, "data", MeasurementsName(GetSimNo(threadNo, batch)));
  }

  /** One data file a measurement product points to: the symbolic link
      `os.path.join(parent_workdir, data_file)` to
      `os.path.join(workdir, data_file)`, made after creating its
      directory. Entries `None` are skipped. As written, a target that does
      not exist raises NameError, because `logger` is not defined in that
      module; corrected, a warning is logged and the link is made. */
  function LinkOne(asWritten: bool, workdir: string, parent: string, disk: set<string>, file: Option<string>)
    : (r: Result<set<string>>)
    ensures r.Ok? ==> disk <= r.value
    ensures r.Err? ==> (asWritten && r.error == NameError("logger")) || r.error == OSError("") || r.error.FileExistsError?
  {
    if file.None? || file.value == "None" then Ok(disk)
    else
      var target := PathJoin(workdir, file.value);
      var link := PathJoin(parent, file.value);
      var sub := Dirname(link);
      if target !in disk && asWritten then Err(NameError("logger"))
      else if sub !in disk && sub == "" then Err(OSError(sub))
      else
        var d := if sub in disk then disk else disk + {sub};
        if link in d then Err(FileExistsError(link)) else Ok(d + {link})
  }

  function LinkLoop(asWritten: bool, workdir: string, parent: string): (set<string>, Option<string>) -> Result<set<string>> {
    (d, f) => LinkOne(asWritten, workdir, parent, d, f)
  }

  /** The loop over the data files of one measurement product. */
  function LinkFiles(asWritten: bool, workdir: string, parent: string, files: seq<Option<string>>, disk: set<string>)
    : Result<set<string>>
  {
    Fold(LinkLoop(asWritten, workdir, parent), disk, files)
  }

  /** Linking only adds paths. */
  lemma LinkGrows(asWritten: bool, workdir: string, parent: string, files: seq<Option<string>>, disk: set<string>)
    ensures LinkFiles(asWritten, workdir, parent, files, disk).Ok? ==> disk <= LinkFiles(asWritten, workdir, parent, files, disk).value
  {
    FoldKeeps(LinkLoop(asWritten, workdir, parent), disk, files, (d: set<string>) => disk <= d);
  }

  /** Linking raises NameError only as written. */
  lemma LinkErrors(asWritten: bool, workdir: string, parent: string, files: seq<Option<string>>, disk: set<string>)
    ensures var r := LinkFiles(asWritten, workdir, parent, files, disk);
      r.Err? ==> (asWritten && r.error == NameError("logger")) || r.error == OSError("") || r.error.FileExistsError?
  {
    FoldErrors(LinkLoop(asWritten, workdir, parent), disk, files,
      (e: PyError) => (asWritten && e == NameError("logger")) || e == OSError("") || e.FileExistsError?);
  }

  /** What the calibration merge has built so far: the new entries and the
      file system. */
  datatype Merge = Merge(newList: seq<string>, disk: set<string>)

  /** The entry one thread directory contributes. */
  function CalibrationEntry(w: string, batch: Batch, disk: set<string>): (r: seq<string>)
    ensures |r| <= 1
    ensures forall q :: q in r ==>
      (q in disk && CalibrationThreadNo(w).Ok? && CalibrationThreadNo(w).value < batch.nThreads &&
       q == CalibrationMeasurementFile(w, batch, CalibrationThreadNo(w).value))
  {
    match CalibrationThreadNo(w)
    case Ok(t) =>
      if t < batch.nThreads && CalibrationMeasurementFile(w, batch, t) in disk then [CalibrationMeasurementFile(w, batch, t)] else []
    case Err(_) => []
  }

  /** One iteration of the loop of `merge_outputs`: the entry of the
      directory, after linking the data files its measurement product
      points to. */
  function CalibrationStep(asWritten: bool, batch: Batch, parent: string,
                           filesOf: string -> Option<seq<Option<string>>>, m: Merge, w: string): (r: Result<Merge>)
    ensures r.Ok? ==> m.disk <= r.value.disk && r.value.newList == m.newList + CalibrationEntry(w, batch, m.disk)
    ensures r.Err? ==>
      r.error.ValueError? || (asWritten && r.error == NameError("logger")) || r.error == OSError("") || r.error.FileExistsError?
      || r.error.ParseError?
  {
    match CalibrationThreadNo(w)
    case Err(e) => Err(e)
    case Ok(t) =>
      var q := CalibrationMeasurementFile(w, batch, t);
      if t < batch.nThreads && q in m.disk then
        match filesOf(q)
        case None => Err(ParseError(q))
        case Some(files) =>
          LinkGrows(asWritten, w, parent, files, m.disk);
          LinkErrors(asWritten, w, parent, files, m.disk);
          match LinkFiles(asWritten, w, parent, files, m.disk)
          case Err(e) => Err(e)
          case Ok(d) => Ok(Merge(m.newList + [q], d))
      else
        assert m.newList + [] == m.newList;
        Ok(m)
  }

  lemma CalibrationStepOf(asWritten: bool, batch: Batch, parent: string,
                          filesOf: string -> Option<seq<Option<string>>>, m: Merge, w: string, t: int)
    requires CalibrationThreadNo(w) == Ok(t)
    ensures var q := CalibrationMeasurementFile(w, batch, t);
      CalibrationStep(asWritten, batch, parent, filesOf, m, w) ==
        if t < batch.nThreads && q in m.disk then
          if filesOf(q).None? then Err(ParseError(q))
          else match LinkFiles(asWritten, w, parent, filesOf(q).value, m.disk)
            case Err(e) => Err(e)
            case Ok(d) => Ok(Merge(m.newList + [q], d))
        else Ok(m)
  {
  }

  /** A measurement file that exists but whose product `read_xml_product`
      cannot read stops the merge with its ParseError, in either version. */
  lemma UnreadableMeasurementFails(asWritten: bool, batch: Batch, parent: string,
                                   filesOf: string -> Option<seq<Option<string>>>, m: Merge, w: string, t: int)
    requires CalibrationThreadNo(w) == Ok(t) && t < batch.nThreads
    requires CalibrationMeasurementFile(w, batch, t) in m.disk && filesOf(CalibrationMeasurementFile(w, batch, t)).None?
    ensures CalibrationStep(asWritten, batch, parent, filesOf, m, w) == Err(ParseError(CalibrationMeasurementFile(w, batch, t)))
  {
    CalibrationStepOf(asWritten, batch, parent, filesOf, m, w, t);
  }

  function CalibrationLoop(asWritten: bool, batch: Batch, parent: string,
                           filesOf: string -> Option<seq<Option<string>>>): (Merge, string) -> Result<Merge> {
    (m, w) => CalibrationStep(asWritten, batch, parent, filesOf, m, w)
  }

  /** The loop of `merge_outputs` over the thread directories. The data
      files each measurement product points to are read through `filesOf`,
      None when `read_xml_product` cannot read the product. */
  function CalibrationMerge(asWritten: bool, workdirs: seq<string>, batch: Batch, parent: string,
                            filesOf: string -> Option<seq<Option<string>>>, disk: set<string>): Result<Merge>
  {
    Fold(CalibrationLoop(asWritten, batch, parent, filesOf), Merge([], disk), workdirs)
  }

  /** `merge_outputs` as written: the new listfile contents and file
      system, or the exception that left the listfile untouched. */
  function MergeOutputsAsWritten(workdirs: seq<string>, batch: Batch, listfile: Option<seq<string>>, parent: string,
                                 filesOf: string -> Option<seq<Option<string>>>, disk: set<string>): (r: Result<(seq<string>, set<string>)>)
    ensures workdirs == [] ==> r == Ok((Extended(listfile, []), disk))
  {
    match CalibrationMerge(true, workdirs, batch, parent, filesOf, disk)
    case Err(e) => Err(e)
    case Ok(m) => Ok((Extended(listfile, m.newList), m.disk))
  }

  /** A measurement product pointing at a data file its thread did not
      write: as written the merge fails on the undefined logger; with the
      warning logged the link is made. */
  lemma MissingDataFile(w: string, parent: string, f: string, disk: set<string>)
    requires f != "None" && PathJoin(w, f) !in disk
    requires Dirname(PathJoin(parent, f)) != "" && PathJoin(parent, f) !in disk + {Dirname(PathJoin(parent, f))}
    ensures LinkFiles(true, w, parent, [Some(f)], disk) == Err(NameError("logger"))
    ensures LinkFiles(false, w, parent, [Some(f)], disk).Ok?
    ensures PathJoin(parent, f) in LinkFiles(false, w, parent, [Some(f)], disk).value
  {
    FoldOne(LinkLoop(true, w, parent), disk, Some(f));
    FoldOne(LinkLoop(false, w, parent), disk, Some(f));
  }

  /** One data file of the corrected merge: the body of the inner loop. */
  method LinkDataFile(workdir: string, parent: string, dataFile: Option<string>, disk0: set<string>)
    returns (r: Result<set<string>>)
    ensures r == LinkOne(false, workdir, parent, disk0, dataFile)
  {
    var disk := disk0;
    if dataFile.Some? && dataFile.value != "None" {
      var newFile := PathJoin(parent, dataFile.value);
      var newSubpath := Dirname(newFile);
      if newSubpath !in disk {
        if newSubpath == "" {
          return Err(OSError(newSubpath));
        }
        disk := disk + {newSubpath};
      }
      if newFile in disk {
        return Err(FileExistsError(newFile));
      }
      disk := disk + {newFile};
    }
    r := Ok(disk);
  }

  /** The link step of the corrected merge. */
  method LinkDataFiles(workdir: string, parent: string, files: seq<Option<string>>, disk0: set<string>)
    returns (r: Result<set<string>>)
    ensures r == LinkFiles(false, workdir, parent, files, disk0)
  {
    var loop := LinkLoop(false, workdir, parent);
    var disk := disk0;
    var j := 0;
    while j < |files|
      invariant 0 <= j <= |files|
      invariant LinkFiles(false, workdir, parent, files[..j], disk0) == Ok(disk)
    {
      FoldNext(loop, disk0, files, j);
      assert loop(disk, files[j]) == LinkOne(false, workdir, parent, disk, files[j]);
      var linked := LinkDataFile(workdir, parent, files[j], disk);
      if linked.Err? {
        FoldStopped(loop, disk0, files, j + 1);
        return linked;
      }
      disk := linked.value;
      j := j + 1;
    }
    assert files[..|files|] == files;
    r := Ok(disk);
  }

  /** One thread directory of the corrected merge: the body of the outer
      loop. */
  method MergeThread(w: string, batch: Batch, parent: string, filesOf: string -> Option<seq<Option<string>>>, m: Merge)
    returns (r: Result<Merge>)
    ensures r == CalibrationStep(false, batch, parent, filesOf, m, w)
  {
    var newList, disk := m.newList, m.disk;
    var threadNo := CalibrationThreadNo(w);
    if threadNo.Err? {
      return Err(threadNo.error);
    }
    var measFile := CalibrationMeasurementFile(w, batch, threadNo.value);
    CalibrationStepOf(false, batch, parent, filesOf, m, w, threadNo.value);
    if threadNo.value < batch.nThreads && measFile in disk {
      newList := newList + [measFile];
      var product := filesOf(measFile);
      if product.None? {
        return Err(ParseError(measFile));
      }
      var linked := LinkDataFiles(w, parent, product.value, disk);
      if linked.Err? {
        return Err(linked.error);
      }
      disk := linked.value;
    }
    r := Ok(Merge(newList, disk));
  }

  /** `merge_outputs` with the warning logged: the new listfile contents
      and file system, or the exception that left the listfile untouched. */
  method MergeCalibrationOutputs(workdirs: seq<string>, batch: Batch, listfile: Option<seq<string>>, parent: string,
                                 filesOf: string -> Option<seq<Option<string>>>, disk0: set<string>)
    returns (r: Result<(seq<string>, set<string>)>)
    ensures r == match CalibrationMerge(false, workdirs, batch, parent, filesOf, disk0)
      case Err(e) => Err(e)
      case Ok(m) => Ok((Extended(listfile, m.newList), m.disk))
  {
    var loop := CalibrationLoop(false, batch, parent, filesOf);
    var m := Merge([], disk0);
    var i := 0;
    while i < |workdirs|
      invariant 0 <= i <= |workdirs|
      invariant CalibrationMerge(false, workdirs[..i], batch, parent, filesOf, disk0) == Ok(m)
    {
      FoldNext(loop, Merge([], disk0), workdirs, i);
      assert loop(m, workdirs[i]) == CalibrationStep(false, batch, parent, filesOf, m, workdirs[i]);
      var merged := MergeThread(workdirs[i], batch, parent, filesOf, m);
      if merged.Err? {
        FoldStopped(loop, Merge([], disk0), workdirs, i + 1);
        return Err(merged.error);
      }
      m := merged.value;
      i := i + 1;
    }
    assert workdirs[..|workdirs|] == workdirs;
    var sbmlList: seq<string> := [];
    if listfile.Some? {
      sbmlList := listfile.value;
    }
    sbmlList := sbmlList + m.newList;
    r := Ok((sbmlList, m.disk));
  }

  /** With the warning logged, the merge never fails on a missing data
      file: its only exceptions are an unreadable thread number, a
      measurement product that cannot be read, a link directory that
      cannot be made and a link name already taken. */
  lemma CalibrationErrors(workdirs: seq<string>, batch: Batch, parent: string,
                          filesOf: string -> Option<seq<Option<string>>>, disk: set<string>)
    ensures var r := CalibrationMerge(false, workdirs, batch, parent, filesOf, disk);
      r.Err? ==> r.error.ValueError? || r.error == OSError("") || r.error.FileExistsError? || r.error.ParseError?
  {
    FoldErrors(CalibrationLoop(false, batch, parent, filesOf), Merge([], disk), workdirs,
      (e: PyError) => e.ValueError? || e == OSError("") || e.FileExistsError? || e.ParseError?);
  }

  /** The merge only adds paths. */
  lemma CalibrationGrows(asWritten: bool, workdirs: seq<string>, batch: Batch, parent: string,
                         filesOf: string -> Option<seq<Option<string>>>, disk: set<string>)
    ensures var r := CalibrationMerge(asWritten, workdirs, batch, parent, filesOf, disk);
      r.Ok? ==> disk <= r.value.disk
  {
    FoldKeeps(CalibrationLoop(asWritten, batch, parent, filesOf), Merge([], disk), workdirs, (m: Merge) => disk <= m.disk);
  }

  /** `q` is the measurement file of a directory of the list whose number
      is below the thread count. */
  ghost predicate CalibrationContributed(workdirs: seq<string>, batch: Batch, q: string) {
    exists i, t :: 0 <= i < |workdirs| && CalibrationThreadNo(workdirs[i]) == Ok(t) && t < batch.nThreads &&
      q == CalibrationMeasurementFile(workdirs[i], batch, t)
  }

  ghost function CalibrationSound(workdirs: seq<string>, batch: Batch): Merge -> bool {
    (m: Merge) => forall q :: q in m.newList ==> q in m.disk && CalibrationContributed(workdirs, batch, q)
  }

  /** Every new entry exists and is the measurement file of a directory of
      the list below the thread count. */
  lemma CalibrationNewListSound(asWritten: bool, workdirs: seq<string>, batch: Batch, parent: string,
                                filesOf: string -> Option<seq<Option<string>>>, disk: set<string>)
    ensures var r := CalibrationMerge(asWritten, workdirs, batch, parent, filesOf, disk);
      r.Ok? ==> forall q :: q in r.value.newList ==> q in r.value.disk && CalibrationContributed(workdirs, batch, q)
  {
    var step, inv := CalibrationLoop(asWritten, batch, parent, filesOf), CalibrationSound(workdirs, batch);
    forall m, w | w in workdirs && inv(m) && step(m, w).Ok?
      ensures inv(step(m, w).value)
    {
      var i :| 0 <= i < |workdirs| && workdirs[i] == w;
      var m' := step(m, w).value;
      forall q | q in m'.newList
        ensures q in m'.disk && CalibrationContributed(workdirs, batch, q)
      {
        if q !in m.newList {
          assert q in CalibrationEntry(w, batch, m.disk);
          var t := CalibrationThreadNo(w).value;
          assert CalibrationThreadNo(workdirs[i]) == Ok(t);
        }
      }
    }
    FoldKeeps(step, Merge([], disk), workdirs, inv);
  }

  /** An entry a directory contributes stays its entry as paths are added. */
  lemma EntryKept(w: string, batch: Batch, d1: set<string>, d2: set<string>)
    requires d1 <= d2
    ensures CalibrationEntry(w, batch, d1) != [] ==> CalibrationEntry(w, batch, d2) == CalibrationEntry(w, batch, d1)
  {
  }

  /** Every directory of the list below the thread count whose measurement
      file existed before the merge contributes that file. */
  lemma {:induction false} CalibrationNewListComplete(asWritten: bool, workdirs: seq<string>, batch: Batch, parent: string,
                                                      filesOf: string -> Option<seq<Option<string>>>, disk: set<string>)
    requires CalibrationMerge(asWritten, workdirs, batch, parent, filesOf, disk).Ok?
    ensures forall i, q :: 0 <= i < |workdirs| && q in CalibrationEntry(workdirs[i], batch, disk) ==>
      q in CalibrationMerge(asWritten, workdirs, batch, parent, filesOf, disk).value.newList
  {
    if workdirs != [] {
      var loop := CalibrationLoop(asWritten, batch, parent, filesOf);
      var n := |workdirs| - 1;
      var init, w := workdirs[..n], workdirs[n];
      FoldNext(loop, Merge([], disk), workdirs, n);
      assert workdirs[..n + 1] == workdirs;
      var before := Fold(loop, Merge([], disk), init);
      assert before.Ok?;
      var after := loop(before.value, w);
      assert after == CalibrationStep(asWritten, batch, parent, filesOf, before.value, w);
      CalibrationNewListComplete(asWritten, init, batch, parent, filesOf, disk);
      CalibrationGrows(asWritten, init, batch, parent, filesOf, disk);
      EntryKept(w, batch, disk, before.value.disk);
      assert after.Ok?;
      var added := CalibrationEntry(w, batch, before.value.disk);
      assert after.value.newList == before.value.newList + added;
      forall i, q | 0 <= i < |workdirs| && q in CalibrationEntry(workdirs[i], batch, disk)
        ensures q in after.value.newList
      {
        if i < n {
          assert workdirs[i] == init[i];
          assert q in before.value.newList;
        } else {
          assert i == n;
          assert q in CalibrationEntry(w, batch, disk);
          assert q in added;
        }
      }
    }
  }
}

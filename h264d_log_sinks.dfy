/**
 * Which files open_log_files tries to open, in which order, what a run of fopen calls leaves
 * in the file-event trace and in the handle fields, and which sink each channel is wired to.
 */
module H264dLogSinks {
  import opened H264dLogDefs
  import opened H264dLogPolicy

  /** Position of each file in the order open_log_files tries them. */
  function Rank(k: SinkKind): nat
  {
    match k
    case RunParse => 0
    case RunHal => 1
    case Driver => 2
    case SynParse => 3
    case SynHal => 4
  }

  /** Bits 4..8 (read syntax) and bits 9..13 (write syntax). */
  const READ_SYNTAX_BITS: bv32 := 0x01F0
  const WRITE_SYNTAX_BITS: bv32 := 0x3E00

  /** The condition under which open_log_files opens the read-syntax file. */
  predicate ReadsSyntax(ctrl: bv32)
  {
    GetBitVal(ctrl, LOG_READ_NALU) != 0
    || GetBitVal(ctrl, LOG_READ_SPS) != 0
    || GetBitVal(ctrl, LOG_READ_SUBSPS) != 0
    || GetBitVal(ctrl, LOG_READ_PPS) != 0
    || GetBitVal(ctrl, LOG_READ_SLICE) != 0
  }

  /** The condition under which open_log_files opens the write-syntax file. */
  predicate WritesSyntax(ctrl: bv32)
  {
    GetBitVal(ctrl, LOG_WRITE_SPSPPS) != 0
    || GetBitVal(ctrl, LOG_WRITE_RPS) != 0
    || GetBitVal(ctrl, LOG_WRITE_SCANLIST) != 0
    || GetBitVal(ctrl, LOG_WRITE_STEAM) != 0
    || GetBitVal(ctrl, LOG_WRITE_REG) != 0
  }

  /**
   * The files open_log_files tries to open, in order: nothing unless write_en; then the two
   * run logs under DEBUG_EN, the driver file under FPGA, the read-syntax file if any read bit
   * is set and the write-syntax file if any write bit is set.
   */
  function OpenPlan(ctrl: bv32, writeEn: bool): (plan: seq<SinkKind>)
    ensures |plan| <= 5
  {
    if !writeEn then []
    else
      (if GetBitVal(ctrl, LOG_DEBUG_EN) != 0 then [RunParse, RunHal] else [])
      + (if GetBitVal(ctrl, LOG_FPGA) != 0 then [Driver] else [])
      + (if ReadsSyntax(ctrl) then [SynParse] else [])
      + (if WritesSyntax(ctrl) then [SynHal] else [])
  }

  /** Which files are in the plan, in terms of the bits of the mask. */
  lemma OpenPlanMembers(ctrl: bv32, writeEn: bool)
    ensures var plan := OpenPlan(ctrl, writeEn);
      && (RunParse in plan <==> writeEn && Bit(ctrl, LOG_DEBUG_EN))
      && (RunHal in plan <==> writeEn && Bit(ctrl, LOG_DEBUG_EN))
      && (Driver in plan <==> writeEn && Bit(ctrl, LOG_DEBUG_EN) && Bit(ctrl, LOG_FPGA))
      && (SynParse in plan <==> writeEn && Bit(ctrl, LOG_DEBUG_EN) && ctrl & READ_SYNTAX_BITS != 0)
      && (SynHal in plan <==> writeEn && Bit(ctrl, LOG_DEBUG_EN) && ctrl & WRITE_SYNTAX_BITS != 0)
  {
  }

  /** The plan lists each file at most once, in the order of Rank. */
  lemma OpenPlanRanked(ctrl: bv32, writeEn: bool)
    ensures var plan := OpenPlan(ctrl, writeEn);
      forall i, j :: 0 <= i < j < |plan| ==> Rank(plan[i]) < Rank(plan[j])
  {
  }

  /**
   * Where each file sits in the plan when write_en is on: the run logs first, then the driver
   * file, the read-syntax file and the write-syntax file, each present under its condition.
   */
  lemma OpenPlanLayout(ctrl: bv32)
    ensures var plan := OpenPlan(ctrl, true);
      var d := if GetBitVal(ctrl, LOG_DEBUG_EN) != 0 then 2 else 0;
      var r := d + if GetBitVal(ctrl, LOG_FPGA) != 0 then 1 else 0;
      var w := r + if ReadsSyntax(ctrl) then 1 else 0;
      && |plan| == w + (if WritesSyntax(ctrl) then 1 else 0)
      && (GetBitVal(ctrl, LOG_DEBUG_EN) != 0 ==> plan[0] == RunParse && plan[1] == RunHal)
      && (GetBitVal(ctrl, LOG_FPGA) != 0 ==> plan[d] == Driver)
      && (ReadsSyntax(ctrl) ==> plan[r] == SynParse)
      && (WritesSyntax(ctrl) ==> plan[w] == SynHal)
  {
  }

  /** The channel-to-sink table of the switch in h264d_log_init (channel 0 has no sink). */
  function SinkOf(id: bv8): Option<SinkKind>
  {
    if id == LOG_FPGA then Some(Driver)
    else if id == RUN_PARSE then Some(RunParse)
    else if id == RUN_HAL then Some(RunHal)
    else if LOG_READ_NALU <= id <= LOG_READ_SLICE then Some(SynParse)
    else if LOG_WRITE_SPSPPS <= id <= LOG_WRITE_REG then Some(SynHal)
    else None
  }

  /** Channel `id` is given a slot by h264d_log_init. */
  predicate Active(ctrl: bv32, id: bv8)
  {
    id < LOG_MAX && GetBitVal(ctrl, id) != 0
  }

  /** Some active channel is wired to sink `k`. */
  ghost predicate Used(ctrl: bv32, k: SinkKind)
  {
    exists id: bv8 :: Active(ctrl, id) && SinkOf(id) == Some(k)
  }

  /**
   * With the write_en that explain_ctrl_flag derives from the same mask, the files tried are
   * the sinks of the active channels plus the parse run log, which is opened under DEBUG_EN
   * even when its channel (bit 2, shared with LOG_PRINT) is off.
   */
  lemma {:induction false} PlanIsUsedSinks(ctrl: bv32, k: SinkKind)
    ensures var plan := OpenPlan(ctrl, ExplainCtrlFlag(ctrl).writeEn);
      k in plan <==> ExplainCtrlFlag(ctrl).writeEn && (Used(ctrl, k) || k == RunParse)
  {
    var w := ExplainCtrlFlag(ctrl).writeEn;
    OpenPlanMembers(ctrl, w);
    if w {
      match k
      case RunParse =>
      case RunHal =>
        assert Active(ctrl, RUN_HAL) && SinkOf(RUN_HAL) == Some(RunHal);
      case Driver =>
        if Bit(ctrl, LOG_FPGA) {
          assert Active(ctrl, LOG_FPGA) && SinkOf(LOG_FPGA) == Some(Driver);
        }
      case SynParse =>
        if ctrl & READ_SYNTAX_BITS != 0 {
          var id := ReadSyntaxWitness(ctrl);
          assert Active(ctrl, id) && SinkOf(id) == Some(SynParse);
        }
      case SynHal =>
        if ctrl & WRITE_SYNTAX_BITS != 0 {
          var id := WriteSyntaxWitness(ctrl);
          assert Active(ctrl, id) && SinkOf(id) == Some(SynHal);
        }
    }
  }

  /** A set bit among bits 4..8. */
  lemma ReadSyntaxWitness(ctrl: bv32) returns (id: bv8)
    requires ctrl & READ_SYNTAX_BITS != 0
    ensures LOG_READ_NALU <= id <= LOG_READ_SLICE && Bit(ctrl, id)
  {
    if Bit(ctrl, 4) { id := 4; }
    else if Bit(ctrl, 5) { id := 5; }
    else if Bit(ctrl, 6) { id := 6; }
    else if Bit(ctrl, 7) { id := 7; }
    else { id := 8; }
  }

  /** A set bit among bits 9..13. */
  lemma WriteSyntaxWitness(ctrl: bv32) returns (id: bv8)
    requires ctrl & WRITE_SYNTAX_BITS != 0
    ensures LOG_WRITE_SPSPPS <= id <= LOG_WRITE_REG && Bit(ctrl, id)
  {
    if Bit(ctrl, 9) { id := 9; }
    else if Bit(ctrl, 10) { id := 10; }
    else if Bit(ctrl, 11) { id := 11; }
    else if Bit(ctrl, 12) { id := 12; }
    else { id := 13; }
  }

  /** All the fopen calls of `plan` succeed. */
  predicate OpensSucceed(plan: seq<SinkKind>, fopenOk: SinkKind -> bool)
  {
    forall i :: 0 <= i < |plan| ==> fopenOk(plan[i])
  }

  /**
   * The events of trying the files of `plan` in order, the first fopen at trace position
   * `start`: each success opens a new handle, and the first failure ends the run.
   */
  function OpenTrace(plan: seq<SinkKind>, fopenOk: SinkKind -> bool, start: nat): seq<IoEvent>
    decreases |plan|
  {
    if plan == [] then []
    else if fopenOk(plan[0]) then
      [Opened(FileHandle(plan[0], start))] + OpenTrace(plan[1..], fopenOk, start + 1)
    else
      [OpenFailed(plan[0])]
  }

  /**
   * OpenTrace has one event per file tried, in plan order; all but the last succeed; it covers
   * the whole plan when every fopen succeeds, and otherwise ends with the first failure.
   */
  lemma {:induction false} OpenTraceShape(plan: seq<SinkKind>, fopenOk: SinkKind -> bool, start: nat)
    ensures var t := OpenTrace(plan, fopenOk, start);
      && |t| <= |plan|
      && (forall j :: 0 <= j < |t| ==>
            t[j] == if fopenOk(plan[j]) then Opened(FileHandle(plan[j], start + j)) else OpenFailed(plan[j]))
      && (forall j :: 0 <= j < |t| - 1 ==> fopenOk(plan[j]))
      && (OpensSucceed(plan, fopenOk) ==> |t| == |plan|)
      && (!OpensSucceed(plan, fopenOk) ==> 0 < |t| && !fopenOk(plan[|t| - 1]))
    decreases |plan|
  {
    if plan != [] && fopenOk(plan[0]) {
      OpenTraceShape(plan[1..], fopenOk, start + 1);
      if !OpensSucceed(plan, fopenOk) {
        var i :| 0 <= i < |plan| && !fopenOk(plan[i]);
        assert !fopenOk(plan[1..][i - 1]);
      }
    }
  }

  lemma SeqAssoc<T>(a: seq<T>, b: seq<T>, c: seq<T>)
    ensures a + (b + c) == (a + b) + c
  {
  }

  /** An event is allowed after `prefix`: a new handle, or a close of a handle open so far. */
  ghost predicate EventOk(prefix: seq<IoEvent>, e: IoEvent)
  {
    match e
    case Opened(h) => h.serial == |prefix|
    case OpenFailed(_) => true
    case Closed(h) => Opened(h) in prefix && Closed(h) !in prefix
  }

  /** Every handle is new when opened, and is closed at most once, after it was opened. */
  ghost predicate ProperTrace(io: seq<IoEvent>)
    decreases |io|
  {
    io == [] || (ProperTrace(io[..|io| - 1]) && EventOk(io[..|io| - 1], io[|io| - 1]))
  }

  /** Handle `h` has been opened and not yet closed. */
  ghost predicate Live(io: seq<IoEvent>, h: FileHandle)
  {
    Opened(h) in io && Closed(h) !in io
  }

  lemma ProperTraceSnoc(io: seq<IoEvent>, e: IoEvent)
    requires ProperTrace(io) && EventOk(io, e)
    ensures ProperTrace(io + [e])
  {
    assert (io + [e])[..|io|] == io;
  }

  /** Every handle a proper trace mentions was created at an earlier position. */
  lemma {:induction false} SerialsBelow(io: seq<IoEvent>, h: FileHandle)
    requires ProperTrace(io)
    ensures Opened(h) in io || Closed(h) in io ==> h.serial < |io|
    decreases |io|
  {
    if io != [] {
      var p := io[..|io| - 1];
      assert io == p + [io[|io| - 1]];
      SerialsBelow(p, h);
    }
  }

  /** The handle fopen creates at the end of a proper trace has never been seen. */
  lemma FreshHandle(io: seq<IoEvent>, k: SinkKind)
    requires ProperTrace(io)
    ensures Opened(FileHandle(k, |io|)) !in io && Closed(FileHandle(k, |io|)) !in io
  {
    SerialsBelow(io, FileHandle(k, |io|));
  }

  /** The five handle fields of LogEnv_t, as one value. */
  datatype Handles = Handles(
    runParse: Option<FileHandle>, runHal: Option<FileHandle>, driver: Option<FileHandle>,
    synParse: Option<FileHandle>, synHal: Option<FileHandle>)
  {
    function Get(k: SinkKind): Option<FileHandle>
    {
      match k
      case RunParse => runParse
      case RunHal => runHal
      case Driver => driver
      case SynParse => synParse
      case SynHal => synHal
    }

    /** The fields with the one of kind `k` set to `v`. */
    function Set(k: SinkKind, v: Option<FileHandle>): (r: Handles)
      ensures r.Get(k) == v && forall k' :: k' != k ==> r.Get(k') == Get(k')
    {
      match k
      case RunParse => this.(runParse := v)
      case RunHal => this.(runHal := v)
      case Driver => this.(driver := v)
      case SynParse => this.(synParse := v)
      case SynHal => this.(synHal := v)
    }
  }

  /** Every non-null field holds a live handle on its own file. */
  ghost predicate Held(f: Handles, io: seq<IoEvent>)
  {
    forall k :: f.Get(k).Some? ==> f.Get(k).value.kind == k && Live(io, f.Get(k).value)
  }

  /** Every live handle is held in the field of its file: nothing has leaked. */
  ghost predicate Covers(f: Handles, io: seq<IoEvent>)
  {
    forall h :: Live(io, h) ==> f.Get(h.kind) == Some(h)
  }

  /** The event of one fopen of the file of kind `k` at the end of `io`. */
  function OpenEvent(io: seq<IoEvent>, k: SinkKind, fopenOk: SinkKind -> bool): IoEvent
  {
    if fopenOk(k) then Opened(FileHandle(k, |io|)) else OpenFailed(k)
  }

  /** The value fopen returns for that event. */
  function OpenResult(io: seq<IoEvent>, k: SinkKind, fopenOk: SinkKind -> bool): Option<FileHandle>
  {
    if fopenOk(k) then Some(FileHandle(k, |io|)) else None
  }

  /**
   * `env->fp_X = fopen(...)` keeps the trace proper and every held handle live.
   */
  lemma OpenKeepsHeld(f: Handles, io: seq<IoEvent>, k: SinkKind, fopenOk: SinkKind -> bool)
    requires ProperTrace(io) && Held(f, io)
    ensures var e := OpenEvent(io, k, fopenOk);
      var f' := f.Set(k, OpenResult(io, k, fopenOk));
      ProperTrace(io + [e]) && Held(f', io + [e])
  {
    var e := OpenEvent(io, k, fopenOk);
    var f' := f.Set(k, OpenResult(io, k, fopenOk));
    FreshHandle(io, k);
    ProperTraceSnoc(io, e);
    forall k' | f'.Get(k').Some? ensures f'.Get(k').value.kind == k' && Live(io + [e], f'.Get(k').value) {
      if k' != k {
        assert Live(io, f.Get(k').value);
      }
    }
  }

  /** ... and leaks nothing when the field was null before. */
  lemma OpenKeepsCovers(f: Handles, io: seq<IoEvent>, k: SinkKind, fopenOk: SinkKind -> bool)
    requires ProperTrace(io) && Covers(f, io) && f.Get(k) == None
    ensures Covers(f.Set(k, OpenResult(io, k, fopenOk)), io + [OpenEvent(io, k, fopenOk)])
  {
    var e := OpenEvent(io, k, fopenOk);
    var f' := f.Set(k, OpenResult(io, k, fopenOk));
    FreshHandle(io, k);
    forall h | Live(io + [e], h) ensures f'.Get(h.kind) == Some(h) {
      if h.kind == k {
        assert !Live(io, h);
      }
    }
  }

  /** `FCLOSE(env->fp_X)` on a held handle: the trace stays proper and the field is nulled. */
  lemma CloseKeepsHeld(f: Handles, io: seq<IoEvent>, k: SinkKind)
    requires ProperTrace(io) && Held(f, io) && f.Get(k).Some?
    ensures var e := Closed(f.Get(k).value);
      var f' := f.Set(k, None);
      && ProperTrace(io + [e]) && Held(f', io + [e])
      && (Covers(f, io) ==> Covers(f', io + [e]))
  {
    var h := f.Get(k).value;
    var e := Closed(h);
    var f' := f.Set(k, None);
    ProperTraceSnoc(io, e);
    forall k' | f'.Get(k').Some? ensures f'.Get(k').value.kind == k' && Live(io + [e], f'.Get(k').value) {
      assert Live(io, f.Get(k').value);
    }
    if Covers(f, io) {
      forall h' | Live(io + [e], h') ensures f'.Get(h'.kind) == Some(h') {
        assert Live(io, h');
      }
    }
  }

  /** The state open_log_files works on: the trace, the handle fields, and no failure yet. */
  datatype OpenRun = OpenRun(io: seq<IoEvent>, f: Handles, ok: bool)

  /** `FLE_CHECK(env->fp_X = fopen(...))` for the file of kind `k`. */
  function Step(s: OpenRun, k: SinkKind, fopenOk: SinkKind -> bool): OpenRun
  {
    OpenRun(s.io + [OpenEvent(s.io, k, fopenOk)], s.f.Set(k, OpenResult(s.io, k, fopenOk)), fopenOk(k))
  }

  /** A guarded step, `if (cond) FLE_CHECK(...)`, skipped once a step has failed. */
  function Stage(s: OpenRun, cond: bool, k: SinkKind, fopenOk: SinkKind -> bool): OpenRun
  {
    if s.ok && cond then Step(s, k, fopenOk) else s
  }

  /**
   * The reference semantics of open_log_files on `plan`: each file in turn is passed to fopen,
   * the result is stored in its field, and the first failure ends the run.
   */
  function Run(s: OpenRun, plan: seq<SinkKind>, fopenOk: SinkKind -> bool): OpenRun
    decreases |plan|
  {
    if plan == [] || !s.ok then s else Run(Step(s, plan[0], fopenOk), plan[1..], fopenOk)
  }

  /** Trying one more file at the end of a plan is one more stage. */
  lemma {:induction false} RunSnoc(s: OpenRun, plan: seq<SinkKind>, k: SinkKind, fopenOk: SinkKind -> bool)
    ensures Run(s, plan + [k], fopenOk) == Stage(Run(s, plan, fopenOk), true, k, fopenOk)
    decreases |plan|
  {
    if plan == [] {
      assert Run(Step(s, k, fopenOk), [], fopenOk) == Step(s, k, fopenOk);
      assert ([k])[1..] == [];
    } else if s.ok {
      assert (plan + [k])[0] == plan[0] && (plan + [k])[1..] == plan[1..] + [k];
      RunSnoc(Step(s, plan[0], fopenOk), plan[1..], k, fopenOk);
    }
  }

  /**
   * open_log_files with write_en on, as the code is laid out: the two run logs under DEBUG_EN,
   * the driver file, then the two syntax files, each stage skipped after a failure. This is
   * Run on OpenPlan.
   */
  lemma OpenPlanStages(s: OpenRun, ctrl: bv32, fopenOk: SinkKind -> bool)
    ensures var d := GetBitVal(ctrl, LOG_DEBUG_EN) != 0;
      Run(s, OpenPlan(ctrl, true), fopenOk)
        == Stage(Stage(Stage(Stage(Stage(s, d, RunParse, fopenOk), d, RunHal, fopenOk),
             GetBitVal(ctrl, LOG_FPGA) != 0, Driver, fopenOk),
             ReadsSyntax(ctrl), SynParse, fopenOk), WritesSyntax(ctrl), SynHal, fopenOk)
  {
    var d := GetBitVal(ctrl, LOG_DEBUG_EN) != 0;
    var runs: seq<SinkKind> := if d then [RunParse, RunHal] else [];
    var p2 := runs + (if GetBitVal(ctrl, LOG_FPGA) != 0 then [Driver] else []);
    var p3 := p2 + (if ReadsSyntax(ctrl) then [SynParse] else []);
    var p4 := p3 + (if WritesSyntax(ctrl) then [SynHal] else []);
    assert p4 == OpenPlan(ctrl, true);
    if d {
      assert runs == [RunParse] + [RunHal];
      RunSnoc(s, [], RunParse, fopenOk);
      assert [] + [RunParse] == [RunParse];
      RunSnoc(s, [RunParse], RunHal, fopenOk);
    } else {
      assert runs + [] == runs;
    }
    if GetBitVal(ctrl, LOG_FPGA) != 0 {
      RunSnoc(s, runs, Driver, fopenOk);
    } else {
      assert p2 == runs;
    }
    if ReadsSyntax(ctrl) {
      RunSnoc(s, p2, SynParse, fopenOk);
    } else {
      assert p3 == p2;
    }
    if WritesSyntax(ctrl) {
      RunSnoc(s, p3, SynHal, fopenOk);
    } else {
      assert p4 == p3;
    }
  }

  /**
   * open_log_files as the code is laid out: nothing when write_en is off, otherwise the stages
   * of OpenPlanStages.
   */
  function OpenStages(s: OpenRun, ctrl: bv32, writeEn: bool, fopenOk: SinkKind -> bool): OpenRun
  {
    if !writeEn then s
    else
      var d := GetBitVal(ctrl, LOG_DEBUG_EN) != 0;
      Stage(Stage(Stage(Stage(Stage(s, d, RunParse, fopenOk), d, RunHal, fopenOk),
        GetBitVal(ctrl, LOG_FPGA) != 0, Driver, fopenOk),
        ReadsSyntax(ctrl), SynParse, fopenOk), WritesSyntax(ctrl), SynHal, fopenOk)
  }

  /** The events Run appends are those of OpenTrace. */
  lemma {:induction false} RunTrace(s: OpenRun, plan: seq<SinkKind>, fopenOk: SinkKind -> bool)
    requires s.ok
    ensures Run(s, plan, fopenOk).io == s.io + OpenTrace(plan, fopenOk, |s.io|)
    decreases |plan|
  {
    if plan != [] {
      var e := OpenEvent(s.io, plan[0], fopenOk);
      if fopenOk(plan[0]) {
        RunTrace(Step(s, plan[0], fopenOk), plan[1..], fopenOk);
        SeqAssoc(s.io, [e], OpenTrace(plan[1..], fopenOk, |s.io| + 1));
      } else {
        assert Run(Step(s, plan[0], fopenOk), plan[1..], fopenOk) == Step(s, plan[0], fopenOk);
      }
    }
  }

  /** Run succeeds exactly when every fopen of the plan does. */
  lemma {:induction false} RunOk(s: OpenRun, plan: seq<SinkKind>, fopenOk: SinkKind -> bool)
    requires s.ok
    ensures Run(s, plan, fopenOk).ok == OpensSucceed(plan, fopenOk)
    decreases |plan|
  {
    if plan != [] {
      if fopenOk(plan[0]) {
        RunOk(Step(s, plan[0], fopenOk), plan[1..], fopenOk);
        if !OpensSucceed(plan, fopenOk) {
          var i :| 0 <= i < |plan| && !fopenOk(plan[i]);
          assert !fopenOk(plan[1..][i - 1]);
        }
      } else {
        assert Run(Step(s, plan[0], fopenOk), plan[1..], fopenOk) == Step(s, plan[0], fopenOk);
      }
    }
  }

  /** The fields of files outside the plan are left alone. */
  lemma {:induction false} RunUntouched(s: OpenRun, plan: seq<SinkKind>, fopenOk: SinkKind -> bool, k: SinkKind)
    requires k !in plan
    ensures Run(s, plan, fopenOk).f.Get(k) == s.f.Get(k)
    decreases |plan|
  {
    if plan != [] && s.ok {
      RunUntouched(Step(s, plan[0], fopenOk), plan[1..], fopenOk, k);
    }
  }

  /** After a successful run every file of the plan has a handle that the run opened. */
  lemma {:induction false} RunOpensPlan(s: OpenRun, plan: seq<SinkKind>, fopenOk: SinkKind -> bool, k: SinkKind)
    requires s.ok && Run(s, plan, fopenOk).ok && k in plan
    ensures var r := Run(s, plan, fopenOk);
      r.f.Get(k).Some? && r.f.Get(k).value.kind == k
      && Opened(r.f.Get(k).value) in OpenTrace(plan, fopenOk, |s.io|)
    decreases |plan|
  {
    var s' := Step(s, plan[0], fopenOk);
    RunTrace(s', plan[1..], fopenOk);
    if k in plan[1..] {
      RunOpensPlan(s', plan[1..], fopenOk, k);
    } else {
      RunUntouched(s', plan[1..], fopenOk, k);
    }
  }

  /** Run keeps the trace proper and every non-null field on a live handle of its own file. */
  lemma {:induction false} RunKeepsHeld(s: OpenRun, plan: seq<SinkKind>, fopenOk: SinkKind -> bool)
    requires ProperTrace(s.io) && Held(s.f, s.io)
    ensures var r := Run(s, plan, fopenOk); ProperTrace(r.io) && Held(r.f, r.io)
    decreases |plan|
  {
    if plan != [] && s.ok {
      OpenKeepsHeld(s.f, s.io, plan[0], fopenOk);
      RunKeepsHeld(Step(s, plan[0], fopenOk), plan[1..], fopenOk);
    }
  }

  /**
   * From a state where nothing leaks and the fields of a plan without repeats are null, Run
   * leaves every open handle in its field.
   */
  lemma {:induction false} RunKeepsCovers(s: OpenRun, plan: seq<SinkKind>, fopenOk: SinkKind -> bool)
    requires ProperTrace(s.io) && Covers(s.f, s.io)
    requires forall i :: 0 <= i < |plan| ==> s.f.Get(plan[i]) == None
    requires forall i, j :: 0 <= i < j < |plan| ==> plan[i] != plan[j]
    ensures var r := Run(s, plan, fopenOk); Covers(r.f, r.io)
    decreases |plan|
  {
    if plan != [] && s.ok {
      var k := plan[0];
      var s' := Step(s, k, fopenOk);
      OpenKeepsCovers(s.f, s.io, k, fopenOk);
      FreshHandle(s.io, k);
      ProperTraceSnoc(s.io, OpenEvent(s.io, k, fopenOk));
      forall i | 0 <= i < |plan[1..]| ensures s'.f.Get(plan[1..][i]) == None {
        assert plan[1..][i] == plan[i + 1] != k;
      }
      RunKeepsCovers(s', plan[1..], fopenOk);
    }
  }

  /**
   * What open_log_files does, in terms of the plan: it appends the events of OpenTrace, and
   * succeeds exactly when every fopen of the plan does.
   */
  lemma OpenStagesTrace(io: seq<IoEvent>, f: Handles, ctrl: bv32, writeEn: bool, fopenOk: SinkKind -> bool)
    ensures var plan := OpenPlan(ctrl, writeEn);
      var r := OpenStages(OpenRun(io, f, true), ctrl, writeEn, fopenOk);
      r.io == io + OpenTrace(plan, fopenOk, |io|) && r.ok == OpensSucceed(plan, fopenOk)
  {
    var s := OpenRun(io, f, true);
    if writeEn {
      OpenPlanStages(s, ctrl, fopenOk);
    }
    RunTrace(s, OpenPlan(ctrl, writeEn), fopenOk);
    RunOk(s, OpenPlan(ctrl, writeEn), fopenOk);
  }

  /**
   * The handle fields open_log_files leaves: after a success every planned file has a handle
   * on it; the fields of files outside the plan never change.
   */
  lemma OpenStagesFields(io: seq<IoEvent>, f: Handles, ctrl: bv32, writeEn: bool,
                         fopenOk: SinkKind -> bool, k: SinkKind)
    ensures var plan := OpenPlan(ctrl, writeEn);
      var r := OpenStages(OpenRun(io, f, true), ctrl, writeEn, fopenOk);
      && (r.ok && k in plan ==> r.f.Get(k).Some? && r.f.Get(k).value.kind == k)
      && (k !in plan ==> r.f.Get(k) == f.Get(k))
  {
    var s := OpenRun(io, f, true);
    var plan := OpenPlan(ctrl, writeEn);
    if writeEn {
      OpenPlanStages(s, ctrl, fopenOk);
    }
    if Run(s, plan, fopenOk).ok && k in plan {
      RunOpensPlan(s, plan, fopenOk, k);
    }
    if k !in plan {
      RunUntouched(s, plan, fopenOk, k);
    }
  }

  /** open_log_files keeps the trace proper and every non-null field on a live handle. */
  lemma OpenStagesKeepHeld(io: seq<IoEvent>, f: Handles, ctrl: bv32, writeEn: bool, fopenOk: SinkKind -> bool)
    requires ProperTrace(io) && Held(f, io)
    ensures var r := OpenStages(OpenRun(io, f, true), ctrl, writeEn, fopenOk);
      ProperTrace(r.io) && Held(r.f, r.io)
  {
    var s := OpenRun(io, f, true);
    if writeEn {
      OpenPlanStages(s, ctrl, fopenOk);
    }
    RunKeepsHeld(s, OpenPlan(ctrl, writeEn), fopenOk);
  }

  /** From a state with no file open and every field null, open_log_files leaks nothing. */
  lemma OpenStagesKeepCovers(io: seq<IoEvent>, f: Handles, ctrl: bv32, writeEn: bool, fopenOk: SinkKind -> bool)
    requires ProperTrace(io) && Covers(f, io) && forall k :: f.Get(k) == None
    ensures var r := OpenStages(OpenRun(io, f, true), ctrl, writeEn, fopenOk);
      Covers(r.f, r.io)
  {
    var s := OpenRun(io, f, true);
    var plan := OpenPlan(ctrl, writeEn);
    if writeEn {
      OpenPlanStages(s, ctrl, fopenOk);
    }
    OpenPlanRanked(ctrl, writeEn);
    RunKeepsCovers(s, plan, fopenOk);
  }

  /** The events of one `FCLOSE(fp)`: a close for a non-null handle, nothing for null. */
  function Closes(fp: Option<FileHandle>): seq<IoEvent>
  {
    if fp.Some? then [Closed(fp.value)] else []
  }

  /**
   * The events of close_log_files: `FCLOSE` of the driver, read-syntax, write-syntax and the
   * two run-log fields, in that order.
   */
  function CloseAll(f: Handles): seq<IoEvent>
  {
    Closes(f.driver) + Closes(f.synParse) + Closes(f.synHal) + Closes(f.runParse) + Closes(f.runHal)
  }

  /** Appending the closes one field at a time gives the trace plus CloseAll. */
  lemma CloseAllAppends(io: seq<IoEvent>, f: Handles)
    ensures io + Closes(f.driver) + Closes(f.synParse) + Closes(f.synHal) + Closes(f.runParse)
      + Closes(f.runHal) == io + CloseAll(f)
  {
    var a, b, c, d := Closes(f.driver), Closes(f.synParse), Closes(f.synHal), Closes(f.runParse);
    SeqAssoc(io, a, b);
    SeqAssoc(io, a + b, c);
    SeqAssoc(io, a + b + c, d);
    SeqAssoc(io, a + b + c + d, Closes(f.runHal));
  }

  /** Every field is null. */
  const NoHandles: Handles := Handles(None, None, None, None, None)

  /**
   * close_log_files closes every non-null field and nothing else: one close per field that
   * holds a handle, and, when each field is on its own file, every close is of a field's handle.
   */
  lemma CloseAllCloses(f: Handles)
    ensures forall k :: f.Get(k).Some? ==> Closed(f.Get(k).value) in CloseAll(f)
    ensures (forall k :: f.Get(k).Some? ==> f.Get(k).value.kind == k) ==>
      forall e :: e in CloseAll(f) ==> e.Closed? && f.Get(e.h.kind) == Some(e.h)
    ensures |CloseAll(f)| <= 5
    ensures f == NoHandles ==> CloseAll(f) == []
  {
    if forall k :: f.Get(k).Some? ==> f.Get(k).value.kind == k {
      forall e | e in CloseAll(f) ensures e.Closed? && f.Get(e.h.kind) == Some(e.h) {
        if e in Closes(f.driver) {
          assert f.Get(Driver).Some?;
        } else if e in Closes(f.synParse) {
          assert f.Get(SynParse).Some?;
        } else if e in Closes(f.synHal) {
          assert f.Get(SynHal).Some?;
        } else if e in Closes(f.runParse) {
          assert f.Get(RunParse).Some?;
        } else {
          assert f.Get(RunHal).Some?;
        }
      }
    }
  }

  /** The sink channel `id` is wired to, given the handle fields. */
  function Route(f: Handles, id: bv8): Option<FileHandle>
  {
    match SinkOf(id)
    case None => None
    case Some(k) => f.Get(k)
  }

  /**
   * Slot `id` of the channel table after the registry loop of h264d_log_init: a record with
   * the channel's tag, the shared flag record and its sink when GetBitVal selects the channel.
   */
  function Registered(ctrl: bv32, f: Handles, flag: LogFlag, id: int): Option<Channel>
    requires 0 <= id < LOG_MAX as int
  {
    if GetBitVal(ctrl, id as bv8) != 0 then Some(Channel(LogArrayName[id], flag, Route(f, id as bv8))) else None
  }

  /**
   * The registry table in terms of the mask: slot `id` is filled iff bit `id` and bit 0 are
   * set; channel 0 has no sink, 1 the driver file, 2 and 3 the run logs, 4..8 the read-syntax
   * file and 9..13 the write-syntax file.
   */
  lemma RegisteredTable(ctrl: bv32, f: Handles, flag: LogFlag, id: bv8)
    requires id < LOG_MAX
    ensures var c := Registered(ctrl, f, flag, id as int);
      && (c.Some? <==> Bit(ctrl, id) && Bit(ctrl, LOG_DEBUG_EN))
      && (c.Some? ==> c.value.tag == LogArrayName[id] && c.value.flag == flag)
      && (c.Some? && id == LOG_DEBUG_EN ==> c.value.fp == None)
      && (c.Some? && id == LOG_FPGA ==> c.value.fp == f.driver)
      && (c.Some? && id == RUN_PARSE ==> c.value.fp == f.runParse)
      && (c.Some? && id == RUN_HAL ==> c.value.fp == f.runHal)
      && (c.Some? && LOG_READ_NALU <= id <= LOG_READ_SLICE ==> c.value.fp == f.synParse)
      && (c.Some? && LOG_WRITE_SPSPPS <= id <= LOG_WRITE_REG ==> c.value.fp == f.synHal)
  {
  }

  /** With DEBUG_EN clear the registry loop fills no slot. */
  lemma NoDebugEnRegistersNothing(ctrl: bv32, f: Handles, flag: LogFlag, id: bv8)
    requires id < LOG_MAX && !Bit(ctrl, LOG_DEBUG_EN)
    ensures Registered(ctrl, f, flag, id as int) == None
  {
  }

  /**
   * After open_log_files succeeds with the write_en of the same mask, every filled slot wired to
   * a file holds a handle on that file; with write_en off the fields are as before.
   */
  lemma RegisteredSinksOpen(io: seq<IoEvent>, f: Handles, ctrl: bv32, fopenOk: SinkKind -> bool, flag: LogFlag, id: bv8)
    requires id < LOG_MAX
    ensures var w := ExplainCtrlFlag(ctrl).writeEn;
      var r := OpenStages(OpenRun(io, f, true), ctrl, w, fopenOk);
      var c := Registered(ctrl, r.f, flag, id as int);
      && (r.ok && w && c.Some? && SinkOf(id).Some? ==>
            c.value.fp.Some? && c.value.fp.value.kind == SinkOf(id).value)
      && (!w ==> r.f == f)
  {
    var w := ExplainCtrlFlag(ctrl).writeEn;
    if w && GetBitVal(ctrl, id) != 0 && SinkOf(id).Some? {
      var k := SinkOf(id).value;
      assert Active(ctrl, id);
      PlanIsUsedSinks(ctrl, k);
      OpenStagesFields(io, f, ctrl, w, fopenOk, k);
    }
  }
}

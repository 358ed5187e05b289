/**
 * H264dLogCtx_t and its lifecycle: open_log_files, close_log_files, h264d_log_deinit and
 * h264d_log_init with its channel-registry loop.
 */
module H264dLogContext {
  import opened H264dLogDefs
  import opened H264dLogPolicy
  import opened H264dLogSinks

  class H264dLogCtx {
    /** env: the configuration read at init (the handle fields of LogEnv_t follow). */
    var env: LogConfig
    var fpDriver: Option<FileHandle>
    var fpSynParse: Option<FileHandle>
    var fpSynHal: Option<FileHandle>
    var fpRunParse: Option<FileHandle>
    var fpRunHal: Option<FileHandle>
    /** log_flag: embedded in the context, so its address never changes. */
    const logFlag: LogFlag
    /** buf: the LOG_MAX channel records from mpp_calloc (None is a zero-filled record). */
    var buf: array?<Option<Channel>>
    /** parr: the channel table; Some(c) is a slot pointing at a record holding c. */
    const parr: array<Option<Channel>>
    /** Every fopen and fclose so far. */
    var io: seq<IoEvent>

    function Snapshot(): Handles
      reads this
    {
      Handles(fpRunParse, fpRunHal, fpDriver, fpSynParse, fpSynHal)
    }

    function Fp(k: SinkKind): Option<FileHandle>
      reads this
    {
      Snapshot().Get(k)
    }

    ghost predicate Valid()
      reads this
    {
      && parr.Length == LOG_MAX as int
      && (buf != null ==> buf.Length == LOG_MAX as int && buf != parr)
      && ProperTrace(io)
      && Held(Snapshot(), io)
    }

    /** Every file still open is held in its handle field. */
    ghost predicate NoLeak()
      reads this
    {
      Covers(Snapshot(), io)
    }

    /** No file is open and every handle field is null. */
    ghost predicate Quiescent()
      reads this
    {
      Snapshot() == NoHandles && NoLeak()
    }

    /** A zero-filled context. */
    constructor ()
      ensures Valid() && Quiescent()
      ensures env == DefaultConfig && buf == null && io == []
      ensures fresh(parr) && fresh(logFlag)
      ensures forall i :: 0 <= i < parr.Length ==> parr[i] == None
      ensures !logFlag.printEn && !logFlag.writeEn && !logFlag.debugEn && logFlag.level == 0
    {
      env := DefaultConfig;
      fpDriver, fpSynParse, fpSynHal, fpRunParse, fpRunHal := None, None, None, None, None;
      logFlag := new LogFlag();
      buf := null;
      parr := new Option<Channel>[LOG_MAX as int](_ => None);
      io := [];
    }

    /** The assignment `env->fp_X = v` for the field of kind `k`. */
    method SetFp(k: SinkKind, v: Option<FileHandle>)
      modifies this`fpDriver, this`fpSynParse, this`fpSynHal, this`fpRunParse, this`fpRunHal
      ensures Snapshot() == old(Snapshot()).Set(k, v)
    {
      match k {
        case RunParse => fpRunParse := v;
        case RunHal => fpRunHal := v;
        case Driver => fpDriver := v;
        case SynParse => fpSynParse := v;
        case SynHal => fpSynHal := v;
      }
    }

    /**
     * `env->fp_X = fopen(...)` for the field of kind `k`: whether fopen succeeds is decided by
     * `fopenOk`; the field receives the new handle, or null.
     */
    method OpenField(k: SinkKind, fopenOk: SinkKind -> bool) returns (fp: Option<FileHandle>)
      requires Valid()
      modifies this`io, this`fpDriver, this`fpSynParse, this`fpSynHal, this`fpRunParse, this`fpRunHal
      ensures Valid()
      ensures fp == OpenResult(old(io), k, fopenOk) && fp.Some? == fopenOk(k)
      ensures io == old(io) + [OpenEvent(old(io), k, fopenOk)]
      ensures Snapshot() == old(Snapshot()).Set(k, fp)
    {
      OpenKeepsHeld(Snapshot(), io, k, fopenOk);
      fp := OpenResult(io, k, fopenOk);
      io := io + [OpenEvent(io, k, fopenOk)];
      SetFp(k, fp);
    }

    /** `FCLOSE(env->fp_X)`: a non-null field is closed and nulled; a null one is left alone. */
    method CloseField(k: SinkKind)
      requires Valid()
      modifies this`io, this`fpDriver, this`fpSynParse, this`fpSynHal, this`fpRunParse, this`fpRunHal
      ensures Valid()
      ensures io == old(io) + Closes(old(Fp(k)))
      ensures Snapshot() == old(Snapshot()).Set(k, None)
      ensures old(NoLeak()) ==> NoLeak()
    {
      if Fp(k).Some? {
        CloseKeepsHeld(Snapshot(), io, k);
        io := io + [Closed(Fp(k).value)];
        SetFp(k, None);
      }
    }

    /**
     * open_log_files: nothing when write_en is off; otherwise the files of OpenPlan, in order,
     * until the first fopen that fails. The new state is the one OpenStages describes, which
     * OpenStagesTrace and OpenStagesFields relate to OpenPlan.
     */
    method OpenLogFiles(fopenOk: SinkKind -> bool) returns (ret: Status)
      requires Valid()
      modifies this`io, this`fpDriver, this`fpSynParse, this`fpSynHal, this`fpRunParse, this`fpRunHal
      ensures Valid()
      ensures var r := OpenStages(OpenRun(old(io), old(Snapshot()), true), old(env.ctrl), old(logFlag.writeEn), fopenOk);
        io == r.io && Snapshot() == r.f && ret == (if r.ok then MppOk else MppNok)
    {
      var ctrl := env.ctrl;
      ghost var d := GetBitVal(ctrl, LOG_DEBUG_EN) != 0;
      ghost var s0 := OpenRun(io, Snapshot(), true);
      ghost var s1 := Stage(s0, d, RunParse, fopenOk);
      ghost var s2 := Stage(s1, d, RunHal, fopenOk);
      ghost var s3 := Stage(s2, GetBitVal(ctrl, LOG_FPGA) != 0, Driver, fopenOk);
      ghost var s4 := Stage(s3, ReadsSyntax(ctrl), SynParse, fopenOk);
      ghost var s5 := Stage(s4, WritesSyntax(ctrl), SynHal, fopenOk);
      if !logFlag.writeEn {
        return MppOk;
      }
      assert OpenStages(s0, ctrl, true, fopenOk) == s5;
      var fp: Option<FileHandle>;
      if GetBitVal(ctrl, LOG_DEBUG_EN) != 0 {
        fp := OpenField(RunParse, fopenOk);
        assert s1 == OpenRun(io, Snapshot(), fp.Some?);
        if fp.None? {
          assert s5 == s1;
          return MppNok;
        }
        fp := OpenField(RunHal, fopenOk);
        assert s2 == OpenRun(io, Snapshot(), fp.Some?);
        if fp.None? {
          assert s5 == s2;
          return MppNok;
        }
      }
      assert s2 == OpenRun(io, Snapshot(), true);
      if GetBitVal(ctrl, LOG_FPGA) != 0 {
        fp := OpenField(Driver, fopenOk);
        assert s3 == OpenRun(io, Snapshot(), fp.Some?);
        if fp.None? {
          assert s5 == s3;
          return MppNok;
        }
      }
      assert s3 == OpenRun(io, Snapshot(), true);
      if ReadsSyntax(ctrl) {
        fp := OpenField(SynParse, fopenOk);
        assert s4 == OpenRun(io, Snapshot(), fp.Some?);
        if fp.None? {
          assert s5 == s4;
          return MppNok;
        }
      }
      assert s4 == OpenRun(io, Snapshot(), true);
      if WritesSyntax(ctrl) {
        fp := OpenField(SynHal, fopenOk);
        assert s5 == OpenRun(io, Snapshot(), fp.Some?);
        if fp.None? {
          return MppNok;
        }
      }
      assert s5 == OpenRun(io, Snapshot(), true);
      return MppOk;
    }
  
    /** close_log_files: every field is closed if non-null and nulled, driver file first. */
    method CloseLogFiles()
      requires Valid()
      modifies this`io, this`fpDriver, this`fpSynParse, this`fpSynHal, this`fpRunParse, this`fpRunHal
      ensures Valid() && Snapshot() == NoHandles
      ensures io == old(io) + CloseAll(old(Snapshot()))
      ensures old(NoLeak()) ==> Quiescent()
    {
      CloseAllAppends(io, Snapshot());
      CloseField(Driver);
      CloseField(SynParse);
      CloseField(SynHal);
      CloseField(RunParse);
      CloseField(RunHal);
    }

    /** h264d_log_deinit: the channel buffer is released and nulled, then every file is closed. */
    method Deinit() returns (ret: Status)
      requires Valid()
      modifies this`buf, this`io, this`fpDriver, this`fpSynParse, this`fpSynHal, this`fpRunParse, this`fpRunHal
      ensures Valid() && buf == null && ret == MppOk
      ensures Snapshot() == NoHandles && io == old(io) + CloseAll(old(Snapshot()))
      ensures old(NoLeak()) ==> Quiescent()
    {
      buf := null;
      CloseLogFiles();
      return MppOk;
    }

    /**
     * The registry loop of h264d_log_init: every channel GetBitVal selects gets a record in
     * `buf` and the same record in its slot of `parr`; all other slots are left alone.
     */
    method Register()
      requires Valid() && buf != null
      modifies buf, parr
      ensures forall j :: 0 <= j < LOG_MAX as int ==>
        var c := Registered(env.ctrl, Snapshot(), logFlag, j);
        && buf[j] == (if c.Some? then c else old(buf[j]))
        && parr[j] == (if c.Some? then c else old(parr[j]))
    {
      var ctrl, f, flag := env.ctrl, Snapshot(), logFlag;
      ghost var b0, p0 := buf[..], parr[..];
      var i := 0;
      while i < LOG_MAX as int
        invariant 0 <= i <= LOG_MAX as int
        invariant forall j :: 0 <= j < i ==>
          var c := Registered(ctrl, f, flag, j);
          buf[j] == (if c.Some? then c else b0[j]) && parr[j] == (if c.Some? then c else p0[j])
        invariant forall j :: i <= j < LOG_MAX as int ==> buf[j] == b0[j] && parr[j] == p0[j]
      {
        if GetBitVal(ctrl, i as bv8) != 0 {
          var c := Channel(LogArrayName[i], flag, Route(f, i as bv8));
          parr[i] := Some(c);
          buf[i] := Some(c);
        }
        i := i + 1;
      }
    }
  
    /**
     * The first part of h264d_log_init: the configuration is stored and explain_ctrl_flag
     * writes the three flags of the shared flag record.
     */
    method LoadPolicy(cfg: LogConfig) returns (p: Policy)
      modifies this`env, logFlag`printEn, logFlag`writeEn, logFlag`debugEn
      ensures env == cfg && p == ExplainCtrlFlag(cfg.ctrl)
      ensures logFlag.printEn == p.printEn && logFlag.writeEn == p.writeEn && logFlag.debugEn == p.debugEn
    {
      env := cfg;
      p := ExplainCtrlFlag(cfg.ctrl);
      logFlag.printEn, logFlag.writeEn, logFlag.debugEn := p.printEn, p.writeEn, p.debugEn;
    }

    /** The `__FAILED` exit of h264d_log_init: debug_en is cleared and the context torn down. */
    method Abort()
      requires Valid()
      modifies logFlag`debugEn, this`buf, this`io, this`fpDriver, this`fpSynParse, this`fpSynHal, this`fpRunParse, this`fpRunHal
      ensures Valid() && !logFlag.debugEn && buf == null
      ensures Snapshot() == NoHandles && io == old(io) + CloseAll(old(Snapshot()))
      ensures old(NoLeak()) ==> Quiescent()
    {
      logFlag.debugEn := false;
      var _ := Deinit();
    }

    /**
     * `MEM_CHECK(logctx->buf = mpp_calloc(LogCtx_t, LOG_MAX))` and the registry loop: on an
     * allocation failure the `__FAILED` exit, otherwise the zero-filled records are registered.
     */
    method Populate(allocOk: bool) returns (ret: Status)
      requires Valid()
      modifies this`buf, this`io, this`fpDriver, this`fpSynParse, this`fpSynHal, this`fpRunParse, this`fpRunHal
      modifies logFlag`debugEn, parr
      ensures Valid() && (ret == MppOk <==> allocOk) && (!allocOk ==> ret == MppErrMalloc)
      ensures !allocOk ==>
        && !logFlag.debugEn && buf == null && Snapshot() == NoHandles
        && io == old(io) + CloseAll(old(Snapshot())) && parr[..] == old(parr[..])
      ensures allocOk ==>
        && logFlag.debugEn == old(logFlag.debugEn) && io == old(io) && Snapshot() == old(Snapshot())
        && buf != null && fresh(buf)
        && forall j :: 0 <= j < LOG_MAX as int ==>
             var c := Registered(env.ctrl, Snapshot(), logFlag, j);
             && buf[j] == c
             && parr[j] == (if c.Some? then c else old(parr[j]))
      ensures old(NoLeak()) ==> NoLeak()
      ensures old(NoLeak()) && !allocOk ==> Quiescent()
    {
      if !allocOk {
        buf := null;
        Abort();
        return MppErrMalloc;
      }
      buf := new Option<Channel>[LOG_MAX as int](_ => None);
      Register();
      return MppOk;
    }

    /**
     * h264d_log_init after explain_ctrl_flag, when some flag is set: the level mask, the files,
     * then Populate. A failed open clears debug_en and runs h264d_log_deinit.
     */
    method Start(fopenOk: SinkKind -> bool, allocOk: bool) returns (ret: Status)
      requires Valid() && env.level < 32
      modifies this`buf, this`io, this`fpDriver, this`fpSynParse, this`fpSynHal, this`fpRunParse, this`fpRunHal
      modifies logFlag`level, logFlag`debugEn, parr
      ensures Valid()
      ensures var r := OpenStages(OpenRun(old(io), old(Snapshot()), true), old(env.ctrl), old(logFlag.writeEn), fopenOk);
        && logFlag.level == LevelMask(old(env.level))
        && (ret == MppOk <==> r.ok && allocOk)
        && (!r.ok ==> ret == MppNok)
        && (r.ok && !allocOk ==> ret == MppErrMalloc)
        && (ret != MppOk ==>
              && !logFlag.debugEn && buf == null && Snapshot() == NoHandles
              && io == r.io + CloseAll(r.f) && parr[..] == old(parr[..]))
        && (ret == MppOk ==>
              && logFlag.debugEn == old(logFlag.debugEn)
              && io == r.io && Snapshot() == r.f && buf != null && fresh(buf)
              && forall j :: 0 <= j < LOG_MAX as int ==>
                   var c := Registered(old(env.ctrl), r.f, logFlag, j);
                   && buf[j] == c
                   && parr[j] == (if c.Some? then c else old(parr[j])))
      ensures old(Quiescent()) ==> NoLeak()
      ensures old(Quiescent()) && ret != MppOk ==> Quiescent()
    {
      logFlag.level := LevelMask(env.level);
      if Quiescent() {
        OpenStagesKeepCovers(io, Snapshot(), env.ctrl, logFlag.writeEn, fopenOk);
      }
      ret := OpenLogFiles(fopenOk);
      if ret != MppOk {
        Abort();
      } else {
        ret := Populate(allocOk);
      }
    }

    /**
     * h264d_log_init with the configuration `cfg` in place of the environment, `fopenOk` in
     * place of fopen and `allocOk` in place of mpp_calloc. With no flag set it returns at once;
     * otherwise it goes on as Start describes.
     */
    method Init(cfg: LogConfig, fopenOk: SinkKind -> bool, allocOk: bool) returns (ret: Status)
      requires Valid()
      requires !Inactive(ExplainCtrlFlag(cfg.ctrl)) ==> cfg.level < 32
      modifies this`env, this`buf, this`io, this`fpDriver, this`fpSynParse, this`fpSynHal, this`fpRunParse, this`fpRunHal
      modifies logFlag, parr
      ensures Valid() && env == cfg
      ensures var p := ExplainCtrlFlag(cfg.ctrl);
        && logFlag.printEn == p.printEn && logFlag.writeEn == p.writeEn
        && (Inactive(p) ==>
              && ret == MppOk && !logFlag.debugEn && logFlag.level == old(logFlag.level)
              && io == old(io) && Snapshot() == old(Snapshot()) && buf == old(buf)
              && parr[..] == old(parr[..]))
      ensures var p := ExplainCtrlFlag(cfg.ctrl);
        var r := OpenStages(OpenRun(old(io), old(Snapshot()), true), cfg.ctrl, p.writeEn, fopenOk);
        !Inactive(p) ==>
          && logFlag.level == LevelMask(cfg.level)
          && (ret == MppOk <==> r.ok && allocOk)
          && (!r.ok ==> ret == MppNok)
          && (r.ok && !allocOk ==> ret == MppErrMalloc)
          && (ret != MppOk ==>
                && !logFlag.debugEn && buf == null && Snapshot() == NoHandles
                && io == r.io + CloseAll(r.f) && parr[..] == old(parr[..]))
          && (ret == MppOk ==>
                && logFlag.debugEn == p.debugEn
                && io == r.io && Snapshot() == r.f && buf != null && fresh(buf)
                && forall j :: 0 <= j < LOG_MAX as int ==>
                     var c := Registered(cfg.ctrl, r.f, logFlag, j);
                     && buf[j] == c
                     && parr[j] == (if c.Some? then c else old(parr[j])))
      ensures old(Quiescent()) ==> NoLeak()
      ensures old(Quiescent()) && ret != MppOk ==> Quiescent()
    {
      var p := LoadPolicy(cfg);
      if !logFlag.debugEn && !logFlag.printEn && !logFlag.writeEn {
        logFlag.debugEn := false;
        return MppOk;
      }
      ret := Start(fopenOk, allocOk);
    }
  }
}

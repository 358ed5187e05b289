/**
 * Shared vocabulary of the H.264 decoder's log facility (mpp/codec/dec/h264/h264d_log.c):
 * the bit positions of the control mask, the channel tags, the configuration record,
 * the shared flag record, channel records, abstract file handles and the file-event trace.
 */
module H264dLogDefs {

  datatype Option<+T> = None | Some(value: T)

  /** The MPP_RET values this file returns. */
  datatype Status = MppOk | MppNok | MppErrMalloc

  // Bit positions of h264d_log_ctrl, in the order of the logctrl_name table.
  // h264d_log.h is not part of this model; the positions are read off that table.
  const LOG_DEBUG_EN: bv8 := 0
  const LOG_FPGA: bv8 := 1
  const LOG_PRINT: bv8 := 2
  const LOG_WRITE: bv8 := 3
  const LOG_READ_NALU: bv8 := 4
  const LOG_READ_SPS: bv8 := 5
  const LOG_READ_SUBSPS: bv8 := 6
  const LOG_READ_PPS: bv8 := 7
  const LOG_READ_SLICE: bv8 := 8
  const LOG_WRITE_SPSPPS: bv8 := 9
  const LOG_WRITE_RPS: bv8 := 10
  const LOG_WRITE_SCANLIST: bv8 := 11
  const LOG_WRITE_STEAM: bv8 := 12
  const LOG_WRITE_REG: bv8 := 13
  /** Number of channels (and of control bits with a name). */
  const LOG_MAX: bv8 := 14

  // Channel ids that have no control bit of their own: they share positions 2 and 3
  // with LOG_PRINT and LOG_WRITE (log_array_name places PAESE_RUN and HAL_RUN there).
  const RUN_PARSE: bv8 := 2
  const RUN_HAL: bv8 := 3

  /** Capacity of the message buffer of writelog. */
  const LOG_BUF_SIZE: nat := 512

  /** log_array_name: the display tag of each channel id. */
  const LogArrayName: seq<string> := [
    "NULL          ",
    "FPGA_DATA     ",
    "PAESE_RUN     ",
    "HAL_RUN       ",
    "READ_NALU     ",
    "READ_SPS      ",
    "READ_SUBSPS   ",
    "READ_PPS      ",
    "READ_SLICE    ",
    "WRITE_SPSPPS  ",
    "WRITE_RPS     ",
    "WRITE_SCANLIST",
    "WRITE_STEAM   ",
    "WRITE_REG     "
  ]

  /**
   * LogEnv_t without its file handles: the values read from the environment once at init.
   * A variable that is not set reads as 0, and the output path as absent.
   */
  datatype LogConfig = LogConfig(
    help: bv32, show: bv32, ctrl: bv32, level: bv32,
    outpath: Option<string>,
    decframe: bv32, begframe: bv32, endframe: bv32)

  /** The record get_logenv produces when no h264d_log_* variable is set. */
  const DefaultConfig: LogConfig := LogConfig(0, 0, 0, 0, None, 0, 0, 0)

  /** The five output files, in the order open_log_files tries them. */
  datatype SinkKind = RunParse | RunHal | Driver | SynParse | SynHal

  /**
   * An abstract FILE*: the file it was opened on and the position of its fopen in the
   * file-event trace, which makes every handle distinct.
   */
  datatype FileHandle = FileHandle(kind: SinkKind, serial: nat)

  /** One interaction with the file system. */
  datatype IoEvent =
    | Opened(h: FileHandle)
    | OpenFailed(kind: SinkKind)
    | Closed(h: FileHandle)

  /** LogFlag_t: the one policy record every channel points to. */
  class LogFlag {
    var printEn: bool
    var writeEn: bool
    var debugEn: bool
    var level: bv32

    /** A zero-filled record, as the owning context is allocated. */
    constructor ()
      ensures !printEn && !writeEn && !debugEn && level == 0
    {
      printEn, writeEn, debugEn, level := false, false, false, 0;
    }
  }

  /** LogCtx_t: one channel record, with its tag, the shared flag record and its sink. */
  datatype Channel = Channel(tag: string, flag: LogFlag, fp: Option<FileHandle>)
}

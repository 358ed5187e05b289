# H.264 decoder log engine, modelled in Dafny

This project models the log facility of the MPP H.264 decoder (`mpp/codec/dec/h264/h264d_log.c`).
It covers:

- the `GetBitVal` bit test, including its `& val` quirk, which makes every flag depend on bit 0
  (DEBUG_EN) of the control mask;
- `explain_ctrl_flag`, which turns the mask into print_en, write_en and debug_en;
- the lifecycle of the log context:
  - `open_log_files`, which opens up to five files in a fixed order and stops at the first
    fopen that fails;
  - `close_log_files` and `h264d_log_deinit`;
  - `h264d_log_init`, with its fast path, level mask, failure exit and channel-registry loop;
- the decision part of `writelog`: the shown file name, the message cut to the buffer, and which
  outputs a channel produces.

Files:

- `h264d_log_defs.dfy` (module `H264dLogDefs`): the vocabulary.
  - Bit positions and channel ids. `h264d_log.h` is not part of this model, so the positions are
    read off the order of the `logctrl_name` and `log_array_name` tables:
    - DEBUG_EN = 0, FPGA = 1, PRINT = 2, WRITE = 3;
    - READ_NALU..READ_SLICE = 4..8, WRITE_SPSPPS..WRITE_REG = 9..13;
    - RUN_PARSE = 2 and RUN_HAL = 3 share positions with PRINT and WRITE.
  - The channel tags.
  - The configuration record that replaces the environment.
  - The `LogFlag` class, the one flag record every channel points to.
  - Channel records, abstract file handles, and the file-event trace.
- `h264d_log_policy.dfy` (module `H264dLogPolicy`): `GetBitVal`, `explain_ctrl_flag` and the level
  mask, each stated against a plain bit test `Bit`.
- `h264d_log_sinks.dfy` (module `H264dLogSinks`): the pure side of the lifecycle.
  - Which files are opened (`OpenPlan`).
  - A reference semantics of a run of fopen calls (`Run`, `Stage`, `OpenStages`).
  - Trace invariants:
    - `ProperTrace`: each handle is new and closed at most once;
    - `Held`: each field holds a live handle on its own file;
    - `Covers`: no open file is left outside its field.
  - The wiring of channels to files (`Route`, `Registered`).
- `h264d_log_ctx.dfy` (module `H264dLogContext`): class `H264dLogCtx`, the context.
  - Fields:
    - the configuration;
    - the five handle fields of `LogEnv_t`;
    - the embedded flag record;
    - the `buf` array from `mpp_calloc`;
    - the `parr` channel table;
    - a trace `io` of every fopen and fclose.
  - Methods follow the source functions. Each method states its new state in terms of the pure
    functions of the sinks module, whose properties are proved there.
- `h264d_log_write.dfy` (module `H264dLogWrite`): `strrchr`, the basename choice, the 511-character
  cut and the outputs of `writelog`.

File handles are abstract: a `FileHandle` records its file and the trace position of its fopen.
Two things are parameters of the methods:

- whether each fopen succeeds: `fopenOk: SinkKind -> bool`;
- whether `mpp_calloc` succeeds: `allocOk: bool`.

`writelog` returns its outputs (console line, file write, flush) as a sequence of events.

Two consequences of the code that a reader may not expect:

- With only the hardware-trace bit (bit 1) set, the code takes the fast path of
  `h264d_log_init`: `GetBitVal` is 0 for every position while bit 0 is clear. So no file is
  opened and no channel is registered.
- The parse run log is opened whenever write_en and bit 0 are set, even when its channel is off.
  Its channel is bit 2, which is LOG_PRINT. `PlanIsUsedSinks` states that the files tried are
  the sinks of the active channels plus that one.

## Model

| member | source | states |
|---|---|---|
| H264dLogPolicy.GetBitVal | mpp/codec/dec/h264/h264d_log.c:29 | the result is 0 or 1, and it is 1 iff bit `pos` and bit 0 of `val` are both set |
| H264dLogPolicy.ExplainCtrlFlag | mpp/codec/dec/h264/h264d_log.c:143-160 | print_en iff bits 0 and 2; write_en iff bits 0 and 3; debug_en iff bit 0 and every one of bits 4..13 |
| H264dLogPolicy.DebugEnIffEveryDebugBit | mpp/codec/dec/h264/h264d_log.c:147-157 | debug_en holds iff every one of the eleven debug bits (0 and 4..13) is set |
| H264dLogPolicy.ClearingADebugBitDisablesDebug | mpp/codec/dec/h264/h264d_log.c:147-157 | clearing any single one of those eleven bits makes debug_en false |
| H264dLogPolicy.NoDebugEnBitDisablesAll | mpp/codec/dec/h264/h264d_log.c:29 | with bit 0 clear, GetBitVal is 0 at every position and no flag is set |
| H264dLogPolicy.LevelMask | mpp/codec/dec/h264/h264d_log.c:248 | `(1 << level) - 1` has exactly the bits below `level` set; level 0 gives 0 |
| H264dLogSinks.OpenPlan | mpp/codec/dec/h264/h264d_log.c:170-216 | its own contract says only that at most five files are tried; which files, in which order and at which position are stated by OpenPlanMembers, OpenPlanRanked and OpenPlanLayout |
| H264dLogSinks.OpenPlanMembers | mpp/codec/dec/h264/h264d_log.c:174-208 | with write_en: the two run logs are tried iff bit 0; the driver file iff bit 1; the read-syntax file iff any of bits 4..8; the write-syntax file iff any of bits 9..13 (always also bit 0). Without write_en, none |
| H264dLogSinks.OpenPlanRanked | mpp/codec/dec/h264/h264d_log.c:177-208 | each file is tried at most once, in the order run_parse, run_hal, driver, read-syntax, write-syntax |
| H264dLogSinks.OpenPlanLayout | mpp/codec/dec/h264/h264d_log.c:177-208 | the position of each file in the order of attempts, given which conditions hold |
| H264dLogSinks.PlanIsUsedSinks | mpp/codec/dec/h264/h264d_log.c:177-208 | the files tried are the sinks of the channels the registry fills, plus the parse run log (both under write_en) |
| H264dLogSinks.Step | mpp/codec/dec/h264/h264d_log.c:180 | `FLE_CHECK(env->fp_X = fopen(...))`; no contract of its own; OpenKeepsHeld and OpenKeepsCovers state what one step keeps, and OpenTraceShape the event it appends |
| H264dLogSinks.Stage | mpp/codec/dec/h264/h264d_log.c:177-209 | `if (cond) FLE_CHECK(...)`, skipped after a failure; no contract of its own; RunSnoc and OpenPlanStages relate it to Run |
| H264dLogSinks.Run | mpp/codec/dec/h264/h264d_log.c:177-215 | fopen of each planned file in turn, stopping at the first failure; no contract of its own; RunTrace, RunOk, RunUntouched, RunOpensPlan, RunKeepsHeld and RunKeepsCovers characterise it |
| H264dLogSinks.OpenTraceShape | mpp/codec/dec/h264/h264d_log.c:177-215 | one event per file tried, in order; all but the last succeed; the whole plan when every fopen succeeds, else the trace ends at the first failure |
| H264dLogSinks.OpenKeepsHeld | mpp/codec/dec/h264/h264d_log.c:180 | one `fp = fopen(...)` keeps the trace proper and every non-null field on a live handle of its own file |
| H264dLogSinks.OpenKeepsCovers | mpp/codec/dec/h264/h264d_log.c:180 | opening into a null field leaks no handle |
| H264dLogSinks.CloseKeepsHeld | mpp/codec/dec/h264/h264d_log.c:164-168 | FCLOSE of a held handle keeps the trace proper and the held fields live, and leaks nothing |
| H264dLogSinks.OpenPlanStages | mpp/codec/dec/h264/h264d_log.c:177-209 | the guarded stages of the code, each skipped after a failure, compute the same run as opening the plan file by file |
| H264dLogSinks.OpenStages | mpp/codec/dec/h264/h264d_log.c:170-216 | open_log_files as laid out (RET_CHECK on write_en, then the five guarded stages); no contract of its own; OpenPlanStages, OpenStagesTrace, OpenStagesFields, OpenStagesKeepHeld and OpenStagesKeepCovers characterise it |
| H264dLogSinks.OpenStagesTrace | mpp/codec/dec/h264/h264d_log.c:170-216 | open_log_files appends exactly the events of the plan's fopen run and succeeds iff every fopen of the plan does |
| H264dLogSinks.OpenStagesFields | mpp/codec/dec/h264/h264d_log.c:177-209 | after a success every file of the plan has a handle on it; fields of files outside the plan are unchanged |
| H264dLogSinks.OpenStagesKeepHeld | mpp/codec/dec/h264/h264d_log.c:170-216 | open_log_files keeps the trace proper and every field on a live handle |
| H264dLogSinks.OpenStagesKeepCovers | mpp/codec/dec/h264/h264d_log.c:170-216 | starting with every field null and nothing open, open_log_files leaks no handle, even when it fails halfway |
| H264dLogSinks.Closes | mpp/codec/dec/h264/h264d_log.c:164 | one `FCLOSE(fp)`: a close event for a non-null handle, none for null; no contract of its own; CloseAllCloses characterises the sequence it builds |
| H264dLogSinks.CloseAll | mpp/codec/dec/h264/h264d_log.c:164-168 | the FCLOSE sequence driver, syn_parse, syn_hal, run_parse, run_hal; no contract of its own; CloseAllCloses and CloseAllAppends characterise it |
| H264dLogSinks.CloseAllCloses | mpp/codec/dec/h264/h264d_log.c:162-169 | close_log_files closes every non-null field, only those, at most five closes, none when all fields are null |
| H264dLogSinks.SinkOf | mpp/codec/dec/h264/h264d_log.c:262-288 | the `switch (i)` of the registry loop; no contract of its own; RegisteredTable gives its value for each of the 14 ids |
| H264dLogSinks.Route | mpp/codec/dec/h264/h264d_log.c:262-288 | `pcur->fp = logctx->env.fp_X` for the selected file; no contract of its own; RegisteredTable and RegisteredSinksOpen characterise it |
| H264dLogSinks.Registered | mpp/codec/dec/h264/h264d_log.c:256-289 | the body of the registry loop for slot `id`; no contract of its own; RegisteredTable, NoDebugEnRegistersNothing and RegisteredSinksOpen characterise it, and Register's contract ties the loop to it |
| H264dLogSinks.RegisteredTable | mpp/codec/dec/h264/h264d_log.c:254-291 | slot `id` is filled iff bits `id` and 0 are set; the record has tag `log_array_name[id]` and the shared flag record; its sink is none for 0, the driver file for 1, the run logs for 2 and 3, the read-syntax file for 4..8 and the write-syntax file for 9..13 |
| H264dLogSinks.NoDebugEnRegistersNothing | mpp/codec/dec/h264/h264d_log.c:254-257 | with bit 0 clear no slot is filled |
| H264dLogSinks.RegisteredSinksOpen | mpp/codec/dec/h264/h264d_log.c:250-287 | after a successful open with write_en, every filled slot wired to a file holds a handle on that file |
| H264dLogContext.H264dLogCtx.OpenField | mpp/codec/dec/h264/h264d_log.c:180 | `env->fp_X = fopen(...)`: the field gets a new handle iff fopen succeeds, one event is appended, the other fields are unchanged, the invariant is kept |
| H264dLogContext.H264dLogCtx.CloseField | mpp/codec/dec/h264/h264d_log.c:164 | FCLOSE: a non-null field is closed and nulled, a null one is left alone; no leak is introduced |
| H264dLogContext.H264dLogCtx.OpenLogFiles | mpp/codec/dec/h264/h264d_log.c:170-216 | the new trace and fields are those of OpenStages; it returns OK iff every fopen tried succeeded (nothing tried without write_en) |
| H264dLogContext.H264dLogCtx.CloseLogFiles | mpp/codec/dec/h264/h264d_log.c:162-169 | every field is null afterwards; the trace gains the closes of CloseAll in the order of the code; with no leak before, no file is open afterwards |
| H264dLogContext.H264dLogCtx.Deinit | mpp/codec/dec/h264/h264d_log.c:218-224 | the buffer is released and nulled, every file closed, and OK returned |
| H264dLogContext.H264dLogCtx.Register | mpp/codec/dec/h264/h264d_log.c:254-291 | each slot of `buf` and `parr` receives `Registered(ctrl, fields, flag, id)` when GetBitVal selects it; all other slots are untouched |
| H264dLogContext.H264dLogCtx.LoadPolicy | mpp/codec/dec/h264/h264d_log.c:232-241 | the configuration is stored and the three flags are those of explain_ctrl_flag |
| H264dLogContext.H264dLogCtx.Abort | mpp/codec/dec/h264/h264d_log.c:295-299 | debug_en is cleared, the buffer is null, every field is closed and nulled |
| H264dLogContext.H264dLogCtx.Populate | mpp/codec/dec/h264/h264d_log.c:252-291 | on allocation failure: MPP_ERR_MALLOC and teardown; otherwise a fresh buffer filled as Registered says, with handles and trace unchanged |
| H264dLogContext.H264dLogCtx.Start | mpp/codec/dec/h264/h264d_log.c:248-299 | the level mask is set; OK iff every fopen and the allocation succeed; after a failed open: MPP_NOK and teardown; after a failed allocation: MPP_ERR_MALLOC and teardown; after success: the files of OpenStages and the registry |
| H264dLogContext.H264dLogCtx.Init | mpp/codec/dec/h264/h264d_log.c:226-300 | fast path when no flag is set: OK, with no file, buffer, slot or level touched. Otherwise Start's outcome, with debug_en cleared on every failure. Starting from a quiet context, nothing leaks, and a failure leaves nothing open |
| H264dLogWrite.LastIndexOf | mpp/codec/dec/h264/h264d_log.c:320-321 | strrchr: the last position holding `c`, or none iff `c` does not occur |
| H264dLogWrite.Basename | mpp/codec/dec/h264/h264d_log.c:320-322 | the `pfn` choice; no contract of its own; BasenameSuffix, BasenameOfPath, BasenameOfWindowsPath and SlashBeatsBackslash characterise it |
| H264dLogWrite.BasenameSuffix | mpp/codec/dec/h264/h264d_log.c:320-322 | the shown name is a suffix of the file name; with any '/' it has no '/'; with no '/' but a '\\' it has no '\\'; with neither it is the whole name |
| H264dLogWrite.BasenameOfPath | mpp/codec/dec/h264/h264d_log.c:320-322 | `dir/name` with no '/' in `name` shows as `name` |
| H264dLogWrite.BasenameOfWindowsPath | mpp/codec/dec/h264/h264d_log.c:321-322 | with no '/', `dir\\name` shows as `name` |
| H264dLogWrite.SlashBeatsBackslash | mpp/codec/dec/h264/h264d_log.c:322 | '/' takes priority over a later '\\': `a/b\\c` shows as `b\\c` |
| H264dLogWrite.Truncate | mpp/codec/dec/h264/h264d_log.c:314-318 | the message kept in argbuf is its prefix of length min(length, 511) |
| H264dLogWrite.TruncateIdempotent | mpp/codec/dec/h264/h264d_log.c:318 | cutting a cut message changes nothing |
| H264dLogWrite.Line | mpp/codec/dec/h264/h264d_log.c:326-330 | the fields printed by printf and fprintf: tag, shown name, line, level, cut message; no contract of its own; WriteLog states that every output carries this one line, and Basename and Truncate are characterised above |
| H264dLogWrite.WriteLog | mpp/codec/dec/h264/h264d_log.c:324-332 | the console line appears iff print_en, first; the file write and flush appear iff the channel has a file and write_en; each write is followed by its flush; each output appears at most once (one console line, one write/flush pair); every line is the same formatted line; no output when both flags are off |
| H264dLogWrite.RegisteredChannelReachesItsFile | mpp/codec/dec/h264/h264d_log.c:254-291 | after a successful open, writelog on a registered channel wired to a file writes to a handle on that file iff write_en |

## Left out

- `get_logenv` (h264d_log.c:86-99) calls `mpp_env_get_u32`/`mpp_env_get_str`, which are not part of this model. The configuration is a parameter of `Init` instead, and `DefaultConfig` is the record with nothing set.
- `print_env_help` and `show_env_flags` (h264d_log.c:102-141) only print text to the console. They are not modelled, and neither is the help/show check in `h264d_log_init`.
- Real I/O:
  - `fopen` success is the parameter `fopenOk`;
  - handles are abstract;
  - `printf`/`fprintf`/`fflush` become `Output` events;
  - the `printf` format itself (the text around the fields, and `%d` of the line number) is not rendered. `LogLine` keeps the fields.
- The `sprintf` construction of the file names into `fname[128]` is not modelled; a file is named by its `SinkKind`.
- H264dLogWrite.Truncate: a character of the model stands for one C `char` (one byte). `vsnprintf` keeps 511 bytes, so on a message holding multi-byte (for example UTF-8) characters the program keeps a shorter prefix, possibly cut inside a character, than the model's 511 characters; multi-byte encodings are not modelled.
- `vsnprintf` formatting is not modelled: the message is taken as already formatted, and only the cut to 511 characters is modelled. A NUL inside the message is not treated as an end.
- The `__DEBUG_EN` compile-time switch: only the enabled branch of `writelog` is modelled.
- Concurrent calls to `writelog` on shared files are out of scope.
- `mpp_calloc` success is the parameter `allocOk`. `mpp_free` is taken as null-safe and as nulling its pointer, as `mpp_mem.h` defines it. The allocator behind them is not part of this model.
- The macros `RET_CHECK`, `FLE_CHECK`, `FUN_CHECK`, `MEM_CHECK` and `FCLOSE` come from a header that is not part of this model. They are modelled as a jump to `__RETURN` or `__FAILED`, and as a null-safe close that nulls the handle. `MEM_CHECK` is taken to set MPP_ERR_MALLOC before its jump.
- Memory behaviour is not modelled:
  - a buffer from an earlier init that a second init overwrites without freeing;
  - the `parr` slots that still point into the buffer after `h264d_log_deinit` frees it.
- H264dLogContext.H264dLogCtx.Init: requires `level < 32` whenever a flag is set. A larger shift is undefined in C. For level 31 the model takes `(1 << 31) - 1` on 32 bits, 0x7FFFFFFF, as common compilers produce.
- H264dLogContext.H264dLogCtx.OpenLogFiles: its contract does not say by itself that nothing leaks. `Init` and `Start` derive that from `OpenStagesKeepCovers`, applied to the state that `OpenLogFiles` describes.

/**
 * The dispatch decision of writelog: which part of the source file name is shown, how the
 * formatted message is cut to the buffer, and which outputs a channel produces.
 */
module H264dLogWrite {
  import opened H264dLogDefs
  import opened H264dLogPolicy
  import opened H264dLogSinks

  /** strrchr: the position of the last occurrence of `c` in `s`, if any. */
  function LastIndexOf(s: string, c: char): (r: Option<nat>)
    ensures r.Some? ==> r.value < |s| && s[r.value] == c && forall j :: r.value < j < |s| ==> s[j] != c
    ensures r.None? <==> c !in s
    decreases |s|
  {
    if s == [] then None
    else if s[|s| - 1] == c then Some(|s| - 1)
    else LastIndexOf(s[..|s| - 1], c)
  }

  /**
   * The name writelog shows for `filename`: what follows the last '/' if there is one,
   * otherwise what follows the last '\\', otherwise the whole name.
   */
  function Basename(filename: string): string
  {
    match LastIndexOf(filename, '/')
    case Some(i) => filename[i + 1..]
    case None =>
      match LastIndexOf(filename, '\\')
      case Some(i) => filename[i + 1..]
      case None => filename
  }

  /**
   * The shown name is a suffix of the file name; with a '/' it holds no '/', and otherwise,
   * with a '\\', it holds no '\\'; with neither separator it is the whole name.
   */
  lemma BasenameSuffix(filename: string)
    ensures var b := Basename(filename);
      && |b| <= |filename| && b == filename[|filename| - |b|..]
      && ('/' in filename ==> '/' !in b)
      && ('/' !in filename && '\\' in filename ==> '\\' !in b)
      && ('/' !in filename && '\\' !in filename ==> b == filename)
  {
    var b := Basename(filename);
    match LastIndexOf(filename, '/')
    case Some(i) =>
      assert forall j :: 0 <= j < |b| ==> b[j] == filename[i + 1 + j];
    case None =>
      match LastIndexOf(filename, '\\')
      case Some(i) =>
        assert forall j :: 0 <= j < |b| ==> b[j] == filename[i + 1 + j];
      case None =>
  }

  /** The last occurrence of `c` in `s + [c] + t`, with no `c` in `t`, is the one after `s`. */
  lemma {:induction false} LastIndexOfAfter(s: string, c: char, t: string)
    requires c !in t
    ensures LastIndexOf(s + [c] + t, c) == Some(|s|)
    decreases |t|
  {
    var u := s + [c] + t;
    if t != [] {
      var t' := t[..|t| - 1];
      assert u[..|u| - 1] == s + [c] + t';
      assert u[|u| - 1] == t[|t| - 1];
      LastIndexOfAfter(s, c, t');
    }
  }

  /** A path with '/' separators shows its last component, whatever the directory part holds. */
  lemma BasenameOfPath(dir: string, name: string)
    requires '/' !in name
    ensures Basename(dir + "/" + name) == name
  {
    LastIndexOfAfter(dir, '/', name);
    assert (dir + "/" + name)[|dir| + 1..] == name;
  }

  /** With no '/', a path with '\\' separators shows its last component. */
  lemma BasenameOfWindowsPath(dir: string, name: string)
    requires '/' !in dir && '/' !in name && '\\' !in name
    ensures Basename(dir + "\\" + name) == name
  {
    var p := dir + "\\" + name;
    LastIndexOfAfter(dir, '\\', name);
    assert '/' !in p by {
      forall j | 0 <= j < |p| ensures p[j] != '/' {
        if j < |dir| { assert p[j] == dir[j]; }
        else if j > |dir| { assert p[j] == name[j - |dir| - 1]; }
      }
    }
    assert p[|dir| + 1..] == name;
  }

  /**
   * '/' takes priority over '\\' even when the '\\' comes later: "a/b\\c" shows as "b\\c".
   */
  lemma SlashBeatsBackslash()
    ensures Basename("a/b\\c") == "b\\c"
  {
    BasenameOfPath("a", "b\\c");
    assert "a" + "/" + "b\\c" == "a/b\\c";
  }

  /** The most characters vsnprintf keeps in the LOG_BUF_SIZE-byte buffer (one is the NUL). */
  const MAX_MSG: nat := LOG_BUF_SIZE - 1

  /** vsnprintf into argbuf: the formatted message, cut to its first MAX_MSG characters. */
  function Truncate(msg: string): (r: string)
    ensures |r| == if |msg| <= MAX_MSG then |msg| else MAX_MSG
    ensures r == msg[..|r|]
  {
    if |msg| <= MAX_MSG then msg else msg[..MAX_MSG]
  }

  /** Cutting twice is cutting once; a cut message is kept as it is. */
  lemma TruncateIdempotent(msg: string)
    ensures Truncate(Truncate(msg)) == Truncate(msg)
  {
  }

  /** The fields of the line writelog prints: tag, shown file name, line, level name, message. */
  datatype LogLine = LogLine(tag: string, file: string, line: bv32, level: string, text: string)

  /** One output of writelog: a console line, a line written to a file, or a flush of it. */
  datatype Output =
    | Console(l: LogLine)
    | FileWrite(h: FileHandle, l: LogLine)
    | FileFlush(h: FileHandle)

  /** The line writelog formats for a channel and its arguments. */
  function Line(ch: Channel, filename: string, line: bv32, loglevel: string, msg: string): LogLine
  {
    LogLine(ch.tag, Basename(filename), line, loglevel, Truncate(msg))
  }

  /**
   * writelog on channel `ch`: the console line when print_en is set, then the same line written
   * and flushed to the channel's file when it has one and write_en is set.
   */
  function WriteLog(ch: Channel, filename: string, line: bv32, loglevel: string, msg: string): (out: seq<Output>)
    reads ch.flag
    ensures var l := Line(ch, filename, line, loglevel, msg);
      && (Console(l) in out <==> ch.flag.printEn)
      && (forall h :: FileWrite(h, l) in out <==> ch.flag.writeEn && ch.fp == Some(h))
      && (forall h :: FileFlush(h) in out <==> ch.flag.writeEn && ch.fp == Some(h))
      && (forall i :: 0 <= i < |out| ==> out[i].FileFlush? || out[i].l == l)
      && (forall i :: 0 <= i < |out| && out[i].FileWrite? ==> i + 1 < |out| && out[i + 1] == FileFlush(out[i].h))
      && (forall i :: 0 <= i < |out| && out[i].Console? ==> i == 0)
      && (!ch.flag.printEn && !ch.flag.writeEn ==> out == [])
    ensures |out| == (if ch.flag.printEn then 1 else 0) + (if ch.fp.Some? && ch.flag.writeEn then 2 else 0)
  {
    var l := Line(ch, filename, line, loglevel, msg);
    (if ch.flag.printEn then [Console(l)] else [])
    + (if ch.fp.Some? && ch.flag.writeEn then [FileWrite(ch.fp.value, l), FileFlush(ch.fp.value)] else [])
  }

  /**
   * After open_log_files succeeds, a message on a registered channel that is wired to a file is
   * written to a handle on that file exactly when write_en is set.
   */
  lemma RegisteredChannelReachesItsFile(io: seq<IoEvent>, f: Handles, ctrl: bv32, fopenOk: SinkKind -> bool,
                                        flag: LogFlag, id: bv8, filename: string, line: bv32, loglevel: string, msg: string)
    requires id < LOG_MAX && flag.writeEn == ExplainCtrlFlag(ctrl).writeEn
    ensures var r := OpenStages(OpenRun(io, f, true), ctrl, flag.writeEn, fopenOk);
      var c := Registered(ctrl, r.f, flag, id as int);
      r.ok && c.Some? && SinkOf(id).Some? ==>
        var l := Line(c.value, filename, line, loglevel, msg);
        var out := WriteLog(c.value, filename, line, loglevel, msg);
        && (flag.writeEn ==> c.value.fp.Some? && c.value.fp.value.kind == SinkOf(id).value
                             && FileWrite(c.value.fp.value, l) in out)
        && (!flag.writeEn ==> forall h :: FileWrite(h, l) !in out)
  {
    RegisteredSinksOpen(io, f, ctrl, fopenOk, flag, id);
  }
}

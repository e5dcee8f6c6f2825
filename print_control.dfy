/** The G-code ring buffer of the print controller (snapmaker/module/print_control.cpp).
    The host pushes blocks of G-code at `buffer_tail`; the print loop pulls one
    newline-terminated command at a time from `buffer_head`. */
module PrintControl {

  /** GCODE_BUFFER_SIZE */
  const BUFFER_SIZE: nat := 2048
  const UINT32_LIMIT: int := 0x1_0000_0000

  newtype byte = b: int | 0 <= b < 256

  const NEWLINE: byte := 10
  const SPACE: byte := 32
  const NUL: byte := 0

  /** The error codes the modelled operations return (PRINT_RESULT_START_ERR_E is StartError). */
  datatype ErrCode = Success | NoMem | Param | StartError

  /** get_buf_used: (buffer_head + SIZE - buffer_tail) mod SIZE, the distance from the
      write index forward to the read index. */
  function GetBufUsed(head: nat, tail: nat): (r: nat)
    requires head < BUFFER_SIZE && tail < BUFFER_SIZE
    ensures r < BUFFER_SIZE
    ensures (tail + r) % BUFFER_SIZE == head
  {
    (head + BUFFER_SIZE - tail) % BUFFER_SIZE
  }

  /** The number of bytes written at the tail and not yet read at the head. */
  function UnreadCount(head: nat, tail: nat): (r: nat)
    requires head < BUFFER_SIZE && tail < BUFFER_SIZE
    ensures r < BUFFER_SIZE
    ensures RingIndex(head, r) == tail
    ensures r == 0 <==> head == tail
  {
    if head <= tail then tail - head else tail + BUFFER_SIZE - head
  }

  /** get_buf_free: SIZE - get_buf_used. Because "used" is measured from tail to head, the
      free space it reports is the number of UNREAD bytes whenever the buffer is not empty. */
  function GetBufFree(head: nat, tail: nat): (r: nat)
    requires head < BUFFER_SIZE && tail < BUFFER_SIZE
    ensures GetBufUsed(head, tail) + r == BUFFER_SIZE
    ensures 1 <= r <= BUFFER_SIZE
    ensures r == if head == tail then BUFFER_SIZE else UnreadCount(head, tail)
  {
    BUFFER_SIZE - GetBufUsed(head, tail)
  }

  /** With 1500 unread bytes the free-space check of push_gcode reports 1500 free bytes, so it
      admits a 1500-byte block although only 548 cells hold no unread data: the push
      overwrites unread G-code. */
  lemma FreeCheckAdmitsOverrun()
    ensures GetBufFree(0, 1500) >= 1500
    ensures UnreadCount(0, 1500) + 1500 > BUFFER_SIZE
  {
  }

  /** The cell `k` places after `start` in the ring. */
  function RingIndex(start: nat, k: nat): (r: nat)
    requires start < BUFFER_SIZE && k < BUFFER_SIZE
    ensures r < BUFFER_SIZE
  {
    if start + k < BUFFER_SIZE then start + k else start + k - BUFFER_SIZE
  }

  /** The `len` bytes of a ring `buf` starting at index `start`. */
  function RingWindow(buf: seq<byte>, start: nat, len: nat): (w: seq<byte>)
    requires |buf| == BUFFER_SIZE && start < BUFFER_SIZE && len <= BUFFER_SIZE
    ensures |w| == len
    ensures forall i :: 0 <= i < len ==> w[i] == buf[RingIndex(start, i)]
  {
    seq(len, i requires 0 <= i < len => buf[RingIndex(start, i)])
  }

  /** The number of newlines among the first `n` bytes of `s`. */
  function NewlinesIn(s: seq<byte>, n: nat): (r: nat)
    requires n <= |s|
    ensures r <= n
  {
    if n == 0 then 0 else NewlinesIn(s, n - 1) + (if s[n - 1] == NEWLINE then 1 else 0)
  }

  /** push_gcode's consistency check: the 32-bit span end_line - start_line + 1 must equal
      the newline count held in an 8-bit counter. */
  predicate LineCountMatches(startLine: nat, endLine: nat, data: seq<byte>)
  {
    (endLine - startLine + 1) % UINT32_LIMIT == NewlinesIn(data, |data|) % 256
  }

  predicate IsBlank(b: byte)
  {
    b == SPACE || b == NEWLINE
  }

  /** The end of the run of spaces and newlines in `p` that starts at `i`. */
  function BlankRun(p: seq<byte>, i: nat): (k: nat)
    requires i <= |p|
    ensures i <= k <= |p|
    decreases |p| - i
  {
    if i == |p| || !IsBlank(p[i]) then i else BlankRun(p, i + 1)
  }

  /** BlankRun stops at the first byte from `i` on that is not blank: every byte it passes is
      blank and the byte it stops at, if any, is not. */
  lemma {:induction false} BlankRunSpec(p: seq<byte>, i: nat)
    requires i <= |p|
    ensures forall j :: i <= j < BlankRun(p, i) ==> IsBlank(p[j])
    ensures BlankRun(p, i) < |p| ==> !IsBlank(p[BlankRun(p, i)])
    decreases |p| - i
  {
    if i < |p| && IsBlank(p[i]) {
      BlankRunSpec(p, i + 1);
    }
  }

  /** The index of the first newline in `p` at or after `i`, or |p| when there is none. */
  function LineEnd(p: seq<byte>, i: nat): (k: nat)
    requires i <= |p|
    ensures i <= k <= |p|
    decreases |p| - i
  {
    if i == |p| || p[i] == NEWLINE then i else LineEnd(p, i + 1)
  }

  /** LineEnd finds the first newline from `i` on: none comes before it, and it is one when
      it is inside `p`. */
  lemma {:induction false} LineEndSpec(p: seq<byte>, i: nat)
    requires i <= |p|
    ensures forall j :: i <= j < LineEnd(p, i) ==> p[j] != NEWLINE
    ensures LineEnd(p, i) < |p| ==> p[LineEnd(p, i)] == NEWLINE
    decreases |p| - i
  {
    if i < |p| && p[i] != NEWLINE {
      LineEndSpec(p, i + 1);
    }
  }

  function Min(a: nat, b: nat): nat
  {
    if a <= b then a else b
  }

  /** What one call of get_commands does to the unread bytes: it skips `skipped` blank bytes,
      then consumes `taken` more; `ok` says whether a whole command was found. */
  datatype Fetch = Fetch(ok: bool, skipped: nat, taken: nat)

  /** The outcome of get_commands on unread bytes `p` with a command buffer of `maxLen` bytes;
      NextCommandMeaning states what it is. */
  function NextCommand(p: seq<byte>, maxLen: nat): (r: Fetch)
    ensures r.skipped + r.taken <= |p| && r.taken <= maxLen
  {
    var s := BlankRun(p, 0);
    var e := LineEnd(p, s);
    if e < |p| && e - s < maxLen then Fetch(true, s, e - s + 1)
    else Fetch(false, s, Min(|p| - s, maxLen))
  }

  /** get_commands skips exactly the leading spaces and newlines; it succeeds when a newline
      follows within `maxLen` bytes, consuming the line and its newline; otherwise it consumes
      bytes up to `maxLen` or to the end of the unread data, none of them a newline. */
  lemma NextCommandMeaning(p: seq<byte>, maxLen: nat)
    ensures var r := NextCommand(p, maxLen);
      && (forall i :: 0 <= i < r.skipped ==> IsBlank(p[i]))
      && (r.skipped < |p| ==> !IsBlank(p[r.skipped]))
      && (r.ok ==> 1 <= r.taken && p[r.skipped + r.taken - 1] == NEWLINE)
      && (forall i :: r.skipped <= i < r.skipped + r.taken - (if r.ok then 1 else 0) ==> p[i] != NEWLINE)
      && (!r.ok ==> r.skipped + r.taken == |p| || r.taken == maxLen)
  {
    BlankRunSpec(p, 0);
    LineEndSpec(p, BlankRun(p, 0));
  }

  /** Advancing a ring index by one step is advancing the offset from the start by one, and
      an offset within the unread span reaches the tail only at the span's end. */
  lemma RingStep(h0: nat, j: nat, len: nat)
    requires h0 < BUFFER_SIZE && j <= len < BUFFER_SIZE
    ensures RingIndex(h0, j) == RingIndex(h0, len) <==> j == len
    ensures j < len ==> (RingIndex(h0, j) + 1) % BUFFER_SIZE == RingIndex(h0, j + 1)
  {
  }

  /** Advancing the ring position by s and then by t is advancing it by s + t. */
  lemma RingCompose(h0: nat, s: nat, t: nat)
    requires h0 < BUFFER_SIZE && s + t < BUFFER_SIZE
    ensures RingIndex(RingIndex(h0, s), t) == RingIndex(h0, s + t)
  {
  }

  /** `c` is the command buffer `c0` after a command of `taken` bytes was copied into it from
      `src` starting at offset `off`: the copied bytes are those of `src`, except that a
      terminated command has its final newline replaced by NUL; the bytes after the command
      are untouched. */
  ghost predicate CommandCopied(c: seq<byte>, c0: seq<byte>, src: seq<byte>, off: nat, taken: nat,
                                terminated: bool)
  {
    && |c| == |c0| && taken <= |c| && off + taken <= |src|
    && (terminated ==> 1 <= taken && c[taken - 1] == NUL)
    && (forall i :: 0 <= i < taken - (if terminated then 1 else 0) ==> c[i] == src[off + i])
    && (forall i :: taken <= i < |c| ==> c[i] == c0[i])
  }

  /** The print controller's G-code buffer state: gcode_buffer, buffer_head, buffer_tail and the
      power-loss line counters it updates. */
  class PrintController {
    const buffer: array<byte>
    var head: nat
    var tail: nat
    var lineNumberSum: nat
    var curLine: nat
    var nextReq: nat
    var isErr: bool
    var errLine: nat

    ghost predicate Valid()
      reads this`head, this`tail
    {
      buffer.Length == BUFFER_SIZE && head < BUFFER_SIZE && tail < BUFFER_SIZE
    }

    /** The bytes pushed and not yet pulled, oldest first. */
    ghost function Pending(): (p: seq<byte>)
      reads this`head, this`tail, buffer
      requires Valid()
      ensures |p| == UnreadCount(head, tail)
    {
      RingWindow(buffer[..], head, UnreadCount(head, tail))
    }

    constructor ()
      ensures Valid() && fresh(buffer)
      ensures head == 0 && tail == 0 && Pending() == []
      ensures lineNumberSum == 0 && curLine == 0 && nextReq == 0 && !isErr
    {
      buffer := new byte[BUFFER_SIZE];
      head, tail := 0, 0;
      lineNumberSum, curLine, nextReq := 0, 0, 0;
      isErr, errLine := false, 0;
    }

    /** The newline count of push_gcode, kept in an 8-bit counter that wraps. */
    static method CountNewlines(data: seq<byte>) returns (count: nat)
      ensures count < 256
      ensures count == NewlinesIn(data, |data|) % 256
    {
      count := 0;
      var i := 0;
      while i < |data|
        invariant 0 <= i <= |data|
        invariant count < 256
        invariant count == NewlinesIn(data, i) % 256
      {
        if data[i] == NEWLINE {
          count := (count + 1) % 256;
        }
        i := i + 1;
      }
    }

    /** push_gcode(start_line, end_line, data, size) with size == |data|. */
    method PushGcode(startLine: nat, endLine: nat, data: seq<byte>) returns (r: ErrCode)
      requires Valid()
      requires startLine < UINT32_LIMIT && endLine < UINT32_LIMIT && |data| < 0x1_0000
      modifies this, buffer
      ensures Valid()
      ensures head == old(head) && lineNumberSum == old(lineNumberSum) && curLine == old(curLine)
      ensures isErr == old(isErr) && errLine == old(errLine)
      ensures r == if GetBufFree(old(head), old(tail)) < |data| then NoMem
                   else if !LineCountMatches(startLine, endLine, data) then Param
                   else Success
      ensures r != Success ==>
                tail == old(tail) && nextReq == old(nextReq) && buffer[..] == old(buffer[..])
      ensures r == Success ==>
                tail == (old(tail) + |data|) % BUFFER_SIZE && nextReq == (endLine + 1) % UINT32_LIMIT
      ensures r == Success ==>
                forall i :: 0 <= i < |data| ==> buffer[RingIndex(old(tail), i)] == data[i]
      ensures r == Success ==>
                forall k :: |data| <= k < BUFFER_SIZE ==>
                  buffer[RingIndex(old(tail), k)] == old(buffer[..])[RingIndex(old(tail), k)]
      ensures r == Success && UnreadCount(old(head), old(tail)) + |data| < BUFFER_SIZE ==>
                Pending() == old(Pending()) + data
    {
      var free := GetBufFree(head, tail);
      if free < |data| {
        return NoMem;
      }
      var gcodeCount := CountNewlines(data);
      if (endLine - startLine + 1) % UINT32_LIMIT != gcodeCount {
        return Param;
      }
      ghost var t0 := tail;
      ghost var before := buffer[..];
      CopyIn(data);
      nextReq := (endLine + 1) % UINT32_LIMIT;
      r := Success;
      PendingAfterPush(old(head), t0, before, buffer[..], data);
    }

    /** The copy loop of push_gcode: each byte goes to the tail cell, and the tail advances. */
    method CopyIn(data: seq<byte>)
      requires Valid() && |data| <= BUFFER_SIZE
      modifies this`tail, buffer
      ensures Valid()
      ensures tail == (old(tail) + |data|) % BUFFER_SIZE
      ensures forall i :: 0 <= i < |data| ==> buffer[RingIndex(old(tail), i)] == data[i]
      ensures forall k :: |data| <= k < BUFFER_SIZE ==>
                buffer[RingIndex(old(tail), k)] == old(buffer[..])[RingIndex(old(tail), k)]
    {
      ghost var t0 := tail;
      ghost var before := buffer[..];
      var i := 0;
      while i < |data|
        invariant 0 <= i <= |data|
        invariant Valid() && tail == (t0 + i) % BUFFER_SIZE
        invariant forall k :: 0 <= k < i ==> buffer[RingIndex(t0, k)] == data[k]
        invariant forall k :: i <= k < BUFFER_SIZE ==> buffer[RingIndex(t0, k)] == before[RingIndex(t0, k)]
      {
        assert tail == RingIndex(t0, i);
        buffer[tail] := data[i];
        tail := (tail + 1) % BUFFER_SIZE;
        i := i + 1;
      }
    }

    /** get_commands(cmd, line, max_len). The four guards of the source are inputs: the
        power-loss state is idle, the system is printing, the filament check reports a
        runout, the command stream is locked. `line` is the caller's variable, returned
        unchanged unless a command is delivered. */
    method GetCommands(cmd: array<byte>, line: nat, maxLen: nat,
                       powerLossIdle: bool, printing: bool, filamentTriggered: bool, commandsLocked: bool)
      returns (ok: bool, lineOut: nat)
      requires Valid() && cmd != buffer && maxLen < 0x1_0000 && maxLen <= cmd.Length
      modifies this`head, this`lineNumberSum, cmd
      ensures Valid()
      ensures !(powerLossIdle && printing && !filamentTriggered && !commandsLocked) ==>
                !ok && lineOut == line && head == old(head) && lineNumberSum == old(lineNumberSum) &&
                cmd[..] == old(cmd[..])
      ensures powerLossIdle && printing && !filamentTriggered && !commandsLocked ==>
                var p := old(Pending());
                var f := NextCommand(p, maxLen);
                && ok == f.ok
                && head == RingIndex(old(head), f.skipped + f.taken)
                && Pending() == p[f.skipped + f.taken..]
                && lineNumberSum == old(lineNumberSum) + NewlinesIn(p, f.skipped) + (if ok then 1 else 0)
                && (ok ==> lineOut == lineNumberSum)
                && (!ok ==> lineOut == line)
                && CommandCopied(cmd[..], old(cmd[..]), p, f.skipped, f.taken, ok)
    {
      if !powerLossIdle || !printing || filamentTriggered || commandsLocked {
        return false, line;
      }
      ghost var f;
      ok, lineOut, f := FetchCommand(cmd, line, maxLen, Pending());
    }

    /** get_commands once its guards have passed: skip the blanks, then take one command. */
    method FetchCommand(cmd: array<byte>, line: nat, maxLen: nat, ghost p: seq<byte>)
      returns (ok: bool, lineOut: nat, ghost f: Fetch)
      requires Valid() && cmd != buffer && maxLen <= cmd.Length && p == Pending()
      modifies this`head, this`lineNumberSum, cmd
      ensures Valid() && f == NextCommand(p, maxLen)
      ensures ok == f.ok && head == RingIndex(old(head), f.skipped + f.taken)
      ensures Pending() == p[f.skipped + f.taken..]
      ensures lineNumberSum == old(lineNumberSum) + NewlinesIn(p, f.skipped) + (if ok then 1 else 0)
      ensures ok ==> lineOut == lineNumberSum
      ensures !ok ==> lineOut == line
      ensures CommandCopied(cmd[..], old(cmd[..]), p, f.skipped, f.taken, ok)
    {
      ghost var h0 := head;
      ghost var buf0 := buffer[..];
      ghost var c0 := cmd[..];
      assert p == RingWindow(buf0, h0, UnreadCount(h0, tail));
      ghost var s := SkipBlanks(p);
      assert cmd[..] == c0 && buffer[..] == buf0;
      ok, lineOut, f := TakeCommand(cmd, line, maxLen, p, buf0, h0, s);
      assert buffer[..] == buf0;
      PendingAfterFetch(buf0, h0, tail, s + f.taken, p, Pending());
    }

    /** The first loop of get_commands: skip spaces and newlines, counting the newlines. */
    method SkipBlanks(ghost p: seq<byte>) returns (ghost s: nat)
      requires Valid() && p == Pending()
      modifies this`head, this`lineNumberSum
      ensures Valid() && s == BlankRun(p, 0)
      ensures head == RingIndex(old(head), s)
      ensures lineNumberSum == old(lineNumberSum) + NewlinesIn(p, s)
    {
      ghost var h0 := head;
      ghost var sum0 := lineNumberSum;
      s := BlankRun(p, 0);
      BlankRunSpec(p, 0);
      ghost var j := 0;
      while head != tail
        invariant Valid()
        invariant 0 <= j <= s && head == RingIndex(h0, j)
        invariant lineNumberSum == sum0 + NewlinesIn(p, j)
        decreases |p| - j
      {
        RingStep(h0, j, |p|);
        assert j < |p| && buffer[head] == p[j];
        if buffer[head] == SPACE || buffer[head] == NEWLINE {
          assert j < s;
          if buffer[head] == NEWLINE {
            lineNumberSum := lineNumberSum + 1;
          }
          head := (head + 1) % BUFFER_SIZE;
          j := j + 1;
        } else {
          break;
        }
      }
      RingStep(h0, j, |p|);
      assert j == s;
    }

    /** The second loop of get_commands: copy bytes into `cmd` until a newline, a full `cmd`
        or an empty buffer. The unread bytes were `p` when the read index was `h0`; `s` of
        them have been skipped. `n` counts the bytes copied before the newline, if any. */
    method TakeCommand(cmd: array<byte>, line: nat, maxLen: nat, ghost p: seq<byte>, ghost buf: seq<byte>,
                       ghost h0: nat, ghost s: nat)
      returns (ok: bool, lineOut: nat, ghost f: Fetch)
      requires Valid() && cmd != buffer && maxLen <= cmd.Length && buffer[..] == buf
      requires h0 < BUFFER_SIZE && p == RingWindow(buf, h0, UnreadCount(h0, tail))
      requires s == BlankRun(p, 0) && head == RingIndex(h0, s)
      modifies this`head, this`lineNumberSum, cmd
      ensures Valid() && f == NextCommand(p, maxLen) && ok == f.ok && f.skipped == s
      ensures head == RingIndex(h0, s + f.taken)
      ensures lineNumberSum == old(lineNumberSum) + (if ok then 1 else 0)
      ensures ok ==> lineOut == lineNumberSum
      ensures !ok ==> lineOut == line
      ensures CommandCopied(cmd[..], old(cmd[..]), p, s, f.taken, ok)
    {
      assert forall i :: 0 <= i < |p| ==> p[i] == buf[RingIndex(h0, i)];
      var found, n := CopyLine(cmd, maxLen, p, buf, h0, s);
      FetchBounds(p, maxLen, s, n);
      if found {
        cmd[n] := NUL;
        lineNumberSum := lineNumberSum + 1;
        return true, lineNumberSum, Fetch(true, s, n + 1);
      }
      return false, line, Fetch(false, s, n);
    }

    /** The copying loop of get_commands, up to the newline (which is copied too). */
    method CopyLine(cmd: array<byte>, maxLen: nat, ghost p: seq<byte>, ghost buf: seq<byte>, ghost h0: nat,
                    ghost s: nat)
      returns (found: bool, n: nat)
      requires Valid() && cmd != buffer && maxLen <= cmd.Length && buffer[..] == buf
      requires h0 < BUFFER_SIZE && |p| == UnreadCount(h0, tail)
      requires forall i :: 0 <= i < |p| ==> p[i] == buf[RingIndex(h0, i)]
      requires s <= |p| && head == RingIndex(h0, s)
      modifies this`head, cmd
      ensures Valid()
      ensures s + n <= |p| && n <= maxLen && forall i :: s <= i < s + n ==> p[i] != NEWLINE
      ensures found ==> s + n < |p| && n < maxLen && p[s + n] == NEWLINE
      ensures !found ==> s + n == |p| || n == maxLen
      ensures head == RingIndex(h0, s + (if found then n + 1 else n))
      ensures forall i :: 0 <= i < n ==> cmd[i] == p[s + i]
      ensures forall i :: n <= i < cmd.Length ==> cmd[i] == old(cmd[i]) || (found && i == n)
    {
      var getCommands := 0;
      while head != tail
        invariant Valid()
        invariant s + getCommands <= |p| && head == RingIndex(h0, s + getCommands)
        invariant getCommands <= maxLen
        invariant forall i :: s <= i < s + getCommands ==> p[i] != NEWLINE
        invariant forall i :: 0 <= i < getCommands ==> cmd[i] == p[s + i]
        invariant forall i :: getCommands <= i < cmd.Length ==> cmd[i] == old(cmd[i])
        decreases |p| - getCommands
      {
        RingStep(h0, s + getCommands, |p|);
        if getCommands >= maxLen {
          return false, getCommands;
        }
        assert buffer[head] == p[s + getCommands];
        cmd[getCommands] := buffer[head];
        head := (head + 1) % BUFFER_SIZE;
        if cmd[getCommands] == NEWLINE {
          return true, getCommands;
        }
        getCommands := getCommands + 1;
      }
      RingStep(h0, s + getCommands, |p|);
      return false, getCommands;
    }

    /** The buffer reset that pause() performs before parking the head. The line counters
        are kept: stash_print_env() is assumed to leave them alone. */
    method Pause()
      modifies this
      ensures head == 0 && tail == 0
      ensures lineNumberSum == old(lineNumberSum) && curLine == old(curLine) && nextReq == old(nextReq)
      ensures isErr == old(isErr) && errLine == old(errLine)
    {
      head, tail := 0, 0;
    }

    /** The buffer reset that resume() performs before printing again. The line counters
        are kept: resume_print_env() is assumed to leave them alone. */
    method Resume()
      modifies this
      ensures head == 0 && tail == 0
      ensures lineNumberSum == old(lineNumberSum) && curLine == old(curLine) && nextReq == old(nextReq)
      ensures isErr == old(isErr) && errLine == old(errLine)
    {
      head, tail := 0, 0;
    }

    /** stop(): the buffer is reset only when the system is not idle. The line counters are
        kept: the power-loss clear() is assumed to leave them alone. */
    method Stop(idle: bool) returns (r: ErrCode)
      modifies this
      ensures r == Success
      ensures !idle ==> head == 0 && tail == 0
      ensures idle ==> head == old(head) && tail == old(tail)
      ensures lineNumberSum == old(lineNumberSum) && curLine == old(curLine) && nextReq == old(nextReq)
      ensures isErr == old(isErr) && errLine == old(errLine)
    {
      if !idle {
        head, tail := 0, 0;
      }
      r := Success;
    }

    /** start(): refused unless the system is idle; otherwise the line counters, the next
        requested line and the buffer are reset. */
    method Start(idle: bool) returns (r: ErrCode)
      modifies this
      ensures r == if idle then Success else StartError
      ensures !idle ==> head == old(head) && tail == old(tail) && lineNumberSum == old(lineNumberSum) &&
                        curLine == old(curLine) && nextReq == old(nextReq) && isErr == old(isErr) &&
                        errLine == old(errLine)
      ensures idle ==> head == 0 && tail == 0 && lineNumberSum == 0 && curLine == 0 && nextReq == 0 &&
                       !isErr && errLine == 0
    {
      if !idle {
        return StartError;
      }
      curLine, lineNumberSum := 0, 0;
      nextReq := 0;
      head, tail := 0, 0;
      isErr, errLine := false, 0;
      r := Success;
    }

    /** error_and_stop(): records the next requested line as the failing one and resets the buffer.
        The line counters are kept: the power-loss stash and flash write are assumed to leave them alone. */
    method ErrorAndStop()
      modifies this
      ensures isErr && errLine == old(nextReq)
      ensures head == 0 && tail == 0
      ensures lineNumberSum == old(lineNumberSum) && curLine == old(curLine) && nextReq == old(nextReq)
    {
      isErr := true;
      errLine := nextReq;
      head, tail := 0, 0;
    }
  }

  /** Searching a suffix of `p` for a newline finds the same newline, shifted. */
  lemma {:induction false} LineEndShift(p: seq<byte>, s: nat, i: nat)
    requires s <= i <= |p|
    ensures LineEnd(p[s..], i - s) == LineEnd(p, i) - s
    decreases |p| - i
  {
    if i < |p| && p[i] != NEWLINE {
      LineEndShift(p, s, i + 1);
    }
  }

  /** After the leading blanks are skipped, the command fetch sees no blanks to skip and
      takes the same bytes. */
  lemma NextCommandAfterBlanks(p: seq<byte>, maxLen: nat)
    ensures var f := NextCommand(p, maxLen);
            && BlankRun(p[f.skipped..], 0) == 0
            && NextCommand(p[f.skipped..], maxLen) == Fetch(f.ok, 0, f.taken)
  {
    var s := BlankRun(p, 0);
    BlankRunSpec(p, 0);
    LineEndShift(p, s, s);
  }

  /** What the fetch loop has seen pins down NextCommand's answer. */
  lemma FetchBounds(p: seq<byte>, maxLen: nat, s: nat, g: nat)
    requires s == BlankRun(p, 0) && s + g <= |p|
    requires forall i :: s <= i < s + g ==> p[i] != NEWLINE
    ensures g >= maxLen ==> NextCommand(p, maxLen) == Fetch(false, s, maxLen)
    ensures g < maxLen && s + g < |p| && p[s + g] == NEWLINE ==> NextCommand(p, maxLen) == Fetch(true, s, g + 1)
    ensures g <= maxLen && s + g == |p| ==> NextCommand(p, maxLen) == Fetch(false, s, g)
  {
    LineEndSpec(p, s);
    assert LineEnd(p, s) >= s + g;
  }

  /** The pending bytes after a fetch that consumed `k` of them are the rest of those before:
      PendingSuffix with both windows named, as FetchCommand holds them. */
  lemma PendingAfterFetch(buf: seq<byte>, h0: nat, tail: nat, k: nat, p: seq<byte>, q: seq<byte>)
    requires |buf| == BUFFER_SIZE && h0 < BUFFER_SIZE && tail < BUFFER_SIZE && k <= UnreadCount(h0, tail)
    requires p == RingWindow(buf, h0, UnreadCount(h0, tail))
    requires q == RingWindow(buf, RingIndex(h0, k), UnreadCount(RingIndex(h0, k), tail))
    ensures q == p[k..]
  {
    PendingSuffix(buf, h0, tail, k);
  }

  /** Moving the read index past `k` unread bytes leaves the remaining unread bytes. */
  lemma PendingSuffix(buf: seq<byte>, h0: nat, tail: nat, k: nat)
    requires |buf| == BUFFER_SIZE && h0 < BUFFER_SIZE && tail < BUFFER_SIZE && k <= UnreadCount(h0, tail)
    ensures RingWindow(buf, RingIndex(h0, k), UnreadCount(RingIndex(h0, k), tail)) ==
            RingWindow(buf, h0, UnreadCount(h0, tail))[k..]
  {
    var h := RingIndex(h0, k);
    assert UnreadCount(h, tail) == UnreadCount(h0, tail) - k;
    forall i | 0 <= i < UnreadCount(h, tail)
      ensures RingIndex(h, i) == RingIndex(h0, k + i)
    {
    }
  }

  /** A successful push writes `data` after the unread bytes; when the unread bytes and `data`
      fit in the ring, the unread sequence grows by exactly `data`. */
  lemma PendingAfterPush(head: nat, t0: nat, before: seq<byte>, after: seq<byte>, data: seq<byte>)
    requires head < BUFFER_SIZE && t0 < BUFFER_SIZE && |before| == BUFFER_SIZE && |after| == BUFFER_SIZE
    requires |data| <= BUFFER_SIZE
    requires forall i :: 0 <= i < |data| ==> after[RingIndex(t0, i)] == data[i]
    requires forall k :: |data| <= k < BUFFER_SIZE ==> after[RingIndex(t0, k)] == before[RingIndex(t0, k)]
    ensures UnreadCount(head, t0) + |data| < BUFFER_SIZE ==>
              RingWindow(after, head, UnreadCount(head, (t0 + |data|) % BUFFER_SIZE)) ==
              RingWindow(before, head, UnreadCount(head, t0)) + data
  {
    var u := UnreadCount(head, t0);
    if u + |data| < BUFFER_SIZE {
      assert UnreadCount(head, (t0 + |data|) % BUFFER_SIZE) == u + |data|;
      var w := RingWindow(after, head, u + |data|);
      var v := RingWindow(before, head, u) + data;
      forall i | 0 <= i < u + |data|
        ensures w[i] == v[i]
      {
        if i < u {
          assert RingIndex(head, i) == RingIndex(t0, i + BUFFER_SIZE - u);
        } else {
          assert RingIndex(head, i) == RingIndex(t0, i - u);
        }
      }
    }
  }
}

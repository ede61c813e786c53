/**
 The io_uring worker: one thread, one ring, at most one submission in flight. The
 kernel is arbitrary: it accepts and completes when it likes, transfers as little as
 it likes, fails, is interrupted, or returns with nothing to show.
 */
module Uring {
  import opened Core

  type Bytes = seq<byte>
  type Files = map<string, Bytes>

  const REAP_ATTEMPTS: nat := 1024

  // ----------------------------------------------------------------- the kernel

  datatype Io = ReadAt(path: string, offset: nat, want: nat) | WriteAt(path: string, offset: nat, data: Bytes)

  datatype Sqe = Sqe(tag: nat, io: Io)

  /** A completion: the result, and for a read the bytes it delivered. */
  datatype Cqe = Cqe(tag: nat, result: int, payload: Bytes)

  datatype Status = Returned | Interrupted | Broken

  /**
   One `submit_and_wait`: how many submissions the kernel takes, which it completes
   with what raw result, and how the call returns.
   */
  datatype Step = Step(accepted: nat, finished: seq<(nat, int)>, status: Status)

  function Content(files: Files, path: string): Bytes {
    if path in files then files[path] else []
  }

  function Lesser(a: nat, b: nat): nat {
    if a < b then a else b
  }

  function Available(files: Files, path: string, offset: nat): nat {
    var n := |Content(files, path)|;
    if offset < n then n - offset else 0
  }

  /** A transfer moves at most what was asked and is there; a read moves nothing only at the end. */
  function Transferred(files: Files, io: Io, raw: nat): nat {
    match io
    case ReadAt(p, o, want) =>
      var most := Lesser(want, Available(files, p, o));
      if raw == 0 && most > 0 then 1 else Lesser(raw, most)
    case WriteAt(_, _, data) => Lesser(raw, |data|)
  }

  /** `data` written over `file` at `offset`, filling a gap with zeros. */
  function Overwrite(file: Bytes, offset: nat, data: Bytes): Bytes {
    var base := if offset <= |file| then file else file + seq(offset - |file|, _ => 0);
    var end := offset + |data|;
    base[..offset] + data + (if end <= |base| then base[end..] else [])
  }

  /** The files after the kernel performed `io` with this result. */
  function Effect(files: Files, io: Io, result: int): Files {
    if io.WriteAt? && 0 < result <= |io.data| then files[io.path := Overwrite(Content(files, io.path), io.offset, io.data[..result])]
    else files
  }

  function Delivered(files: Files, io: Io, result: int): Bytes {
    if io.ReadAt? && 0 < result && io.offset + result <= |Content(files, io.path)|
    then Content(files, io.path)[io.offset..io.offset + result] else []
  }

  /** A result the kernel may report for `io`. */
  ghost predicate Possible(files: Files, io: Io, result: int) {
    result < 0 || exists raw: nat :: result == Transferred(files, io, raw)
  }

  function ResultOf(files: Files, io: Io, raw: int): (r: int)
    ensures Possible(files, io, r)
  {
    if raw < 0 then raw else Transferred(files, io, raw)
  }

  // ------------------------------------------------------- what went wrong, if

  /** The submit call failed, or a transfer was refused. */
  ghost predicate Trouble(step: Step) {
    step.status.Broken? || exists m :: 0 <= m < |step.finished| && step.finished[m].1 < 0
  }

  /** Among steps `a` up to `b`: trouble, a broken submit, a transfer that moved nothing. */
  ghost predicate Troubled(script: seq<Step>, a: nat, b: nat) {
    exists k :: a <= k < b && k < |script| && Trouble(script[k])
  }

  ghost predicate Breaks(script: seq<Step>, a: nat, b: nat) {
    exists k :: a <= k < b && k < |script| && script[k].status.Broken?
  }

  ghost predicate Stingy(script: seq<Step>, a: nat, b: nat) {
    exists k :: a <= k < b && k < |script| && StingyStep(script[k])
  }

  ghost predicate StingyStep(step: Step) {
    exists m :: 0 <= m < |step.finished| && step.finished[m].1 == 0
  }

  /** How many of the steps were not interrupted. */
  function Calls(script: seq<Step>, a: nat, b: nat): nat
    requires a <= b <= |script|
    decreases b
  {
    if a == b then 0 else Calls(script, a, b - 1) + if script[b - 1].status.Interrupted? then 0 else 1
  }

  ghost predicate ReportedAt(step: Step, files: Files, io: Io, result: int) {
    exists m :: 0 <= m < |step.finished| && result == ResultOf(files, io, step.finished[m].1)
  }

  /** Some step finished `io` with this result. */
  ghost predicate Reported(script: seq<Step>, a: nat, b: nat, files: Files, io: Io, result: int) {
    exists k :: a <= k < b && k < |script| && ReportedAt(script[k], files, io, result)
  }

  /** An errno, or an empty transfer, was somebody's raw answer. */
  lemma {:induction false} ReportedRaw(script: seq<Step>, a: nat, b: nat, files: Files, io: Io, result: int)
    requires Reported(script, a, b, files, io, result)
    ensures result < 0 ==> Troubled(script, a, b)
    ensures result == 0 && io.WriteAt? && io.data != [] ==> Stingy(script, a, b)
  {
    var k :| a <= k < b && k < |script| && ReportedAt(script[k], files, io, result);
    if result < 0 {
      assert Trouble(script[k]);
    } else if result == 0 && io.WriteAt? && io.data != [] {
      assert StingyStep(script[k]);
    }
  }

  lemma {:induction false} BreaksTroubles(script: seq<Step>, a: nat, b: nat)
    requires Breaks(script, a, b)
    ensures Troubled(script, a, b)
  {
    var k :| a <= k < b && k < |script| && script[k].status.Broken?;
    assert Trouble(script[k]);
  }

  /** What goes wrong within a part of the script goes wrong within a larger part. */
  lemma {:induction false} Within(script: seq<Step>, a: nat, b: nat, c: nat, d: nat)
    requires c <= a && b <= d
    ensures Troubled(script, a, b) ==> Troubled(script, c, d)
    ensures Stingy(script, a, b) ==> Stingy(script, c, d)
  {
  }

  /** A step that takes the submission, finishes it with at least a byte, and returns. */
  predicate Prompt(step: Step) {
    && step.accepted >= 1 && step.finished != [] && step.status.Returned?
    && forall m :: 0 <= m < |step.finished| ==> step.finished[m].1 >= 1
  }

  ghost predicate AllPrompt(script: seq<Step>) {
    forall k :: 0 <= k < |script| ==> Prompt(script[k])
  }

  lemma {:induction false} PromptIsSmooth(script: seq<Step>)
    requires AllPrompt(script)
    ensures !Troubled(script, 0, |script|) && !Stingy(script, 0, |script|)
  {
  }

  // ------------------------------------------------------------------- the ring

  class Ring {
    const slots: nat
    var queued: seq<Sqe>
    var inflight: seq<Sqe>
    var completed: seq<Cqe>
    var files: Files
    /** What the kernel will do, and how much of it is done; after that the worker waits forever. */
    const script: seq<Step>
    var at: nat

    constructor (n: nat, fs: Files, steps: seq<Step>)
      ensures Idle() && slots == (if n < 2 then 2 else n) && files == fs && script == steps && at == 0
    {
      slots, queued, inflight, completed, files, script, at := if n < 2 then 2 else n, [], [], [], fs, steps, 0;
    }

    /** Nothing belongs to the kernel, nothing waits to be reaped. */
    ghost predicate Idle()
      reads this
    {
      queued == [] && inflight == [] && completed == [] && slots >= 2 && at <= |script|
    }

    /** Exactly the submission `sqe` is outstanding, made before step `from` when the files were `fs`. */
    ghost predicate Outstanding(sqe: Sqe, fs: Files, from: nat)
      reads this
    {
      && slots >= 2 && from <= at <= |script|
      && ((queued == [sqe] && inflight == [] && completed == [] && files == fs)
          || (queued == [] && inflight == [sqe] && completed == [] && files == fs)
          || (queued == [] && inflight == [] && Completed(sqe, fs, from)))
    }

    ghost predicate Completed(sqe: Sqe, fs: Files, from: nat)
      reads this
    {
      && |completed| == 1 && completed[0].tag == sqe.tag && Possible(fs, sqe.io, completed[0].result)
      && Reported(script, from, at, fs, sqe.io, completed[0].result)
      && completed[0].payload == Delivered(fs, sqe.io, completed[0].result)
      && files == Effect(fs, sqe.io, completed[0].result)
    }

    method Push(sqe: Sqe) returns (ok: bool)
      modifies this`queued
      ensures ok == (|old(queued)| < slots)
      ensures queued == if ok then old(queued) + [sqe] else old(queued)
    {
      ok := |queued| < slots;
      if ok {
        queued := queued + [sqe];
      }
    }

    method PopCompletion() returns (r: Option<Cqe>)
      modifies this`completed
      ensures old(completed) == [] ==> r == None && completed == []
      ensures old(completed) != [] ==> r == Some(old(completed)[0]) && completed == old(completed)[1..]
    {
      if completed == [] {
        return None;
      }
      r := Some(completed[0]);
      completed := completed[1..];
    }

    /** The kernel finishes the submission at one position. */
    method Finish(at: nat, raw: int)
      requires inflight != []
      modifies this`inflight, this`completed, this`files
      ensures var sqe := old(inflight)[at % |old(inflight)|];
              var n := ResultOf(old(files), sqe.io, raw);
              && completed == old(completed) + [Cqe(sqe.tag, n, Delivered(old(files), sqe.io, n))]
              && files == Effect(old(files), sqe.io, n)
              && inflight == old(inflight)[..at % |old(inflight)|] + old(inflight)[at % |old(inflight)| + 1..]
    {
      var i := at % |inflight|;
      var sqe := inflight[i];
      var n := ResultOf(files, sqe.io, raw);
      completed := completed + [Cqe(sqe.tag, n, Delivered(files, sqe.io, n))];
      files := Effect(files, sqe.io, n);
      inflight := inflight[..i] + inflight[i + 1..];
    }

    /** One `submit_and_wait(1)`. */
    method SubmitAndWait(ghost sqe: Sqe, ghost fs: Files, ghost from: nat) returns (status: Status)
      requires at < |script| && Outstanding(sqe, fs, from)
      modifies this
      ensures Outstanding(sqe, fs, from) && at == old(at) + 1 && status == script[old(at)].status
      ensures old(queued) != [] && script[old(at)].accepted >= 1 && script[old(at)].finished != [] ==>
        |completed| == 1 && completed[0].result == ResultOf(fs, sqe.io, script[old(at)].finished[0].1)
    {
      var step := script[at];
      at := at + 1;
      status := step.status;
      var taken := Lesser(step.accepted, |queued|);
      inflight, queued := inflight + queued[..taken], queued[taken..];
      for k := 0 to |step.finished|
        invariant Outstanding(sqe, fs, from) && at == old(at) + 1
        invariant old(queued) != [] && step.accepted >= 1 && k == 0 ==> inflight == [sqe]
        invariant old(queued) != [] && step.accepted >= 1 && k > 0 ==>
          |completed| == 1 && completed[0].result == ResultOf(fs, sqe.io, step.finished[0].1)
      {
        if inflight != [] {
          assert ReportedAt(script[old(at)], fs, sqe.io, ResultOf(fs, sqe.io, step.finished[k].1));
          Finish(step.finished[k].0, step.finished[k].1);
        }
      }
    }
  }

  // ----------------------------------------------------------------- submissions

  /** How a submission ends for the caller. */
  datatype Submitted =
    | Done(result: nat, payload: Bytes)
    | Failed                     // an errno, or a submit error reported after the completion was reaped
    | OutOfStep                  // somebody else's completion
    | QueueFull
    | Panicked                   // the ring is broken and the completion never came
    | Waiting                    // still inside the call

  predicate Back(s: Submitted) {
    !s.Panicked? && !s.Waiting?
  }

  /** What a caller may conclude from a submission that came back. */
  ghost predicate Settled(s: Submitted, io: Io, fs: Files, after: Files) {
    match s
    case Done(n, payload) => Possible(fs, io, n) && payload == Delivered(fs, io, n) && after == Effect(fs, io, n)
    case Failed => exists n :: Possible(fs, io, n) && after == Effect(fs, io, n)
    case _ => false
  }

  /**
   Submits one entry and returns only when the kernel has let go of it. Neither the
   full queue nor a foreign completion can happen.
   */
  method SubmitOne(ring: Ring, io: Io, seqNo: u64) returns (r: Submitted, next: u64)
    requires ring.Idle()
    modifies ring
    ensures Back(r) ==> ring.Idle() && Settled(r, io, old(ring.files), ring.files)
    ensures next == (seqNo + 1) % TWO_64
    ensures old(ring.at) <= ring.at <= |ring.script|
    ensures Explained(r, io, old(ring.files), ring.script, old(ring.at), ring.at)
    ensures r.Waiting? ==> ring.at == |ring.script|
    ensures old(ring.at) < |ring.script| && Prompt(ring.script[old(ring.at)]) ==>
      r.Done? && r.result == ResultOf(old(ring.files), io, ring.script[old(ring.at)].finished[0].1)
      && ring.at == old(ring.at) + 1
  {
    next := (seqNo + 1) % TWO_64;
    ghost var (fs, from) := (ring.files, ring.at);
    ghost var sqe := Sqe(next, io);
    var pushed := ring.Push(Sqe(next, io));
    if !pushed {
      return QueueFull, next;
    }
    var failure := false;
    var attempts: nat := 0;
    while true
      invariant ring.Outstanding(sqe, fs, from) && Tallied(ring.script, from, ring.at, failure, attempts)
      invariant from < |ring.script| && Prompt(ring.script[from]) ==> ring.at == from && ring.queued != []
      decreases |ring.script| - ring.at
    {
      if ring.at == |ring.script| {
        return Waiting, next;
      }
      var ended;
      ended, failure, attempts := Turn(ring, next, failure, attempts, io, fs, from);
      if ended.Some? {
        return ended.value, next;
      }
    }
  }

  /** What the caller knows of the steps so far, before it gives up. */
  ghost predicate Tallied(script: seq<Step>, a: nat, b: nat, failure: bool, attempts: nat) {
    && a <= b <= |script| && attempts == Calls(script, a, b) && (failure <==> Breaks(script, a, b))
    && (failure ==> attempts < 1024)
  }

  /** One turn of the loop: submit, wait, and see what came back. */
  method Turn(ring: Ring, tag: u64, failed: bool, tried: nat, ghost io: Io, ghost fs: Files, ghost from: nat)
    returns (r: Option<Submitted>, failure: bool, attempts: nat)
    requires ring.at < |ring.script| && ring.Outstanding(Sqe(tag, io), fs, from)
    requires Tallied(ring.script, from, ring.at, failed, tried)
    modifies ring
    ensures ring.at == old(ring.at) + 1
    ensures r.None? ==>
      ring.Outstanding(Sqe(tag, io), fs, from) && Tallied(ring.script, from, ring.at, failure, attempts)
    ensures r.Some? ==> Explained(r.value, io, fs, ring.script, from, ring.at) && !r.value.Waiting?
    ensures r.Some? && Back(r.value) ==> ring.Idle() && Settled(r.value, io, fs, ring.files)
    ensures old(ring.queued) != [] && Prompt(ring.script[old(ring.at)]) && !failed ==>
      r.Some? && r.value.Done? && r.value.result == ResultOf(fs, io, ring.script[old(ring.at)].finished[0].1)
  {
    failure, attempts := failed, tried;
    var status := ring.SubmitAndWait(Sqe(tag, io), fs, from);
    BreaksMore(ring.script, from, ring.at - 1);
    if status.Interrupted? {
      return None, failure, attempts;
    }
    if status.Broken? {
      failure := true;
    }
    r := Reap(ring, tag, failure, io, fs, from);
    if r.Some? {
      return r, failure, attempts;
    }
    attempts := attempts + 1;
    if failure && attempts >= REAP_ATTEMPTS {
      r := Some(Panicked);
    }
  }

  /** Takes the completion, if there is one, and decides how the submission ended. */
  method Reap(ring: Ring, tag: u64, failure: bool, ghost io: Io, ghost fs: Files, ghost from: nat)
    returns (r: Option<Submitted>)
    requires ring.Outstanding(Sqe(tag, io), fs, from) && (failure <==> Breaks(ring.script, from, ring.at))
    modifies ring`completed
    ensures r.None? ==> old(ring.completed) == [] && ring.completed == []
    ensures r.Some? ==>
      && old(ring.completed) != [] && (r.value.Done? || r.value.Failed?) && ring.Idle()
      && Settled(r.value, io, fs, ring.files) && Explained(r.value, io, fs, ring.script, from, ring.at)
      && (r.value.Done? <==> !failure && old(ring.completed)[0].result >= 0)
      && (r.value.Done? ==> r.value.result == old(ring.completed)[0].result)
  {
    var popped := ring.PopCompletion();
    if popped.None? {
      return None;
    }
    var cqe := popped.value;
    if cqe.tag != tag {
      return Some(OutOfStep);
    }
    ReportedRaw(ring.script, from, ring.at, fs, io, cqe.result);
    if failure || cqe.result < 0 {
      if failure {
        BreaksTroubles(ring.script, from, ring.at);
      }
      assert Possible(fs, io, cqe.result);
      return Some(Failed);
    }
    return Some(Done(cqe.result, cqe.payload));
  }

  lemma {:induction false} BreaksMore(script: seq<Step>, a: nat, b: nat)
    requires a <= b < |script|
    ensures Breaks(script, a, b + 1) <==> Breaks(script, a, b) || script[b].status.Broken?
  {
  }

  /** Why a submission ended as it did, in terms of the steps it used. */
  ghost predicate Explained(s: Submitted, io: Io, fs: Files, script: seq<Step>, a: nat, b: nat) {
    && a <= b <= |script|
    && match s
       case Done(n, _) => !Breaks(script, a, b) && Reported(script, a, b, fs, io, n)
       case Failed => Troubled(script, a, b)
       case Panicked => Breaks(script, a, b) && Calls(script, a, b) >= 1024
       case Waiting => !Breaks(script, a, b) || Calls(script, a, b) < 1024
       case _ => false
  }

  // ------------------------------------------------------------------------ reads

  datatype Reply = ReadOk(bytes: Bytes) | WriteOk | Eof | IoErr

  function RangeLength(start: nat, end: nat): nat {
    if end > start then end - start else 0
  }

  /** The bytes of a range; the part past the end of the file is missing. */
  ghost predicate IsRange(file: Bytes, start: nat, len: nat, bytes: Bytes) {
    len == |bytes| && (len == 0 || (start + len <= |file| && bytes == file[start..start + len]))
  }

  lemma {:induction false} ReadProgress(files: Files, path: string, offset: nat, want: nat, n: nat)
    requires Possible(files, ReadAt(path, offset, want), n) && want > 0
    ensures n <= want
    ensures n == 0 <==> offset >= |Content(files, path)|
    ensures n > 0 ==>
      offset + n <= |Content(files, path)|
      && Delivered(files, ReadAt(path, offset, want), n) == Content(files, path)[offset..offset + n]
  {
  }

  /** One read: at most what was wanted, and nothing only at the end of the file. */
  method ReadChunk(ring: Ring, seqNo: u64, path: string, offset: nat, want: nat) returns (got: Submitted, next: u64)
    requires ring.Idle() && path in ring.files && want > 0
    modifies ring
    ensures Back(got) ==> ring.Idle() && ring.files == old(ring.files) && (got.Done? || got.Failed?)
    ensures old(ring.at) <= ring.at <= |ring.script|
    ensures got.Failed? ==> Troubled(ring.script, old(ring.at), ring.at)
    ensures got.Done? ==>
      var file := old(ring.files)[path];
      && got.result == |got.payload| <= want && (got.result == 0 <==> offset >= |file|)
      && (got.result > 0 ==> offset + got.result <= |file| && got.payload == file[offset..offset + got.result])
    ensures old(ring.at) < |ring.script| && Prompt(ring.script[old(ring.at)]) ==>
      got.Done? && ring.at == old(ring.at) + 1
  {
    got, next := SubmitOne(ring, ReadAt(path, offset, want), seqNo);
    if got.Done? {
      ReadProgress(old(ring.files), path, offset, want, got.result);
    }
  }

  /** Reads exactly `[start, end)`, however short the transfers; fails at the end of the file. */
  method ReadRange(ring: Ring, seqNo: u64, path: string, start: nat, end: nat, opens: bool) returns (r: Option<Reply>,
                   next: u64)
    requires ring.Idle()
    modifies ring
    ensures r.Some? ==> ring.Idle() && ring.files == old(ring.files)
    ensures r.Some? && r.value.ReadOk? ==>
      path in ring.files && IsRange(ring.files[path], start, RangeLength(start, end), r.value.bytes)
    ensures r.Some? && r.value.Eof? ==> path in ring.files && start < end && end > |ring.files[path]|
    ensures r.Some? ==> !r.value.WriteOk?
    ensures old(ring.at) <= ring.at <= |ring.script|
    ensures r == Some(IoErr) ==> !opens || path !in ring.files || Troubled(ring.script, old(ring.at), ring.at)
    ensures AllPrompt(ring.script) && |ring.script| - old(ring.at) >= RangeLength(start, end) ==>
      r.Some? && ring.at - old(ring.at) <= RangeLength(start, end)
  {
    next := seqNo;
    if !opens || path !in ring.files {
      return Some(IoErr), next;
    }
    var len := RangeLength(start, end);
    var buf: Bytes := seq(len, _ => 0);
    var done: nat := 0;
    while done < len
      invariant ring.Idle() && ring.files == old(ring.files) && done <= len == |buf|
      invariant IsRange(ring.files[path], start, done, buf[..done])
      invariant old(ring.at) <= ring.at <= |ring.script|
      invariant AllPrompt(ring.script) ==> ring.at - old(ring.at) <= done
    {
      var chunk := Lesser(len - done, U32_MAX);
      var got;
      ghost var mid := ring.at;
      got, next := ReadChunk(ring, next, path, start + done, chunk);
      Within(ring.script, mid, ring.at, old(ring.at), ring.at);
      if !Back(got) {
        return None, next;
      }
      if got.Failed? {
        return Some(IoErr), next;
      }
      if got.result == 0 {
        return Some(Eof), next;
      }
      buf := Filled(ring.files[path], start, buf, done, got.payload);
      done := done + got.result;
    }
    assert buf[..done] == buf;
    return Some(ReadOk(buf)), next;
  }

  /** The kernel's bytes land behind what is already there. */
  function Filled(ghost file: Bytes, ghost start: nat, buf: Bytes, done: nat, payload: Bytes): (r: Bytes)
    requires done + |payload| <= |buf| && IsRange(file, start, done, buf[..done])
    requires payload != [] ==>
      start + done + |payload| <= |file| && payload == file[start + done..start + done + |payload|]
    ensures |r| == |buf| && IsRange(file, start, done + |payload|, r[..done + |payload|])
  {
    buf[..done] + payload + buf[done + |payload|..]
  }

  // ----------------------------------------------------------------------- writes

  ghost predicate IsPrefix(p: Bytes, data: Bytes) {
    |p| <= |data| && p == data[..|p|]
  }

  ghost predicate OthersSame(a: Files, b: Files, path: string) {
    forall p :: p != path ==> (p in a <==> p in b) && (p in a ==> a[p] == b[p])
  }

  lemma {:induction false} WriteProgress(files: Files, path: string, data: Bytes, done: nat, chunk: nat, n: int)
    requires path in files && done + chunk <= |data| && files[path] == data[..done]
    requires Possible(files, WriteAt(path, done, data[done..done + chunk]), n)
    ensures n <= chunk
    ensures var after := Effect(files, WriteAt(path, done, data[done..done + chunk]), n);
            && path in after && OthersSame(files, after, path)
            && after[path] == data[..done + if n > 0 then n else 0]
  {
    if n > 0 {
      var after := Effect(files, WriteAt(path, done, data[done..done + chunk]), n);
      assert data[done..done + chunk][..n] == data[done..done + n];
      assert data[..done] + data[done..done + n] == data[..done + n];
      assert after[path] == Overwrite(data[..done], done, data[done..done + n]);
      assert data[..done][..done] == data[..done];
    }
  }

  /** Replaces the file by `data`, however short the transfers; a failure leaves a prefix of it. */
  method WriteAll(ring: Ring, seqNo: u64, path: string, data: Bytes, opens: bool) returns (r: Option<Reply>, next: u64)
    requires ring.Idle()
    modifies ring
    ensures r.Some? ==> ring.Idle() && OthersSame(old(ring.files), ring.files, path)
    ensures r.Some? ==> r.value.WriteOk? || r.value.IoErr?
    ensures r.Some? && r.value.WriteOk? ==> path in ring.files && ring.files[path] == data
    ensures r.Some? && r.value.IoErr? ==>
      ring.files == old(ring.files) || (path in ring.files && IsPrefix(ring.files[path], data))
    ensures old(ring.at) <= ring.at <= |ring.script|
    ensures r == Some(IoErr) ==>
      !opens || Troubled(ring.script, old(ring.at), ring.at) || Stingy(ring.script, old(ring.at), ring.at)
    ensures AllPrompt(ring.script) && |ring.script| - old(ring.at) >= |data| ==>
      r.Some? && ring.at - old(ring.at) <= |data|
  {
    next := seqNo;
    if !opens {
      return Some(IoErr), next;
    }
    ring.files := ring.files[path := []];
    var done: nat := 0;
    while done < |data|
      invariant ring.Idle() && done <= |data| && path in ring.files && ring.files[path] == data[..done]
      invariant OthersSame(old(ring.files), ring.files, path)
      invariant old(ring.at) <= ring.at <= |ring.script|
      invariant AllPrompt(ring.script) ==> ring.at - old(ring.at) <= done
    {
      var chunk := Lesser(|data| - done, U32_MAX);
      ghost var before := ring.files;
      ghost var mid := ring.at;
      var put;
      put, next := SubmitOne(ring, WriteAt(path, done, data[done..done + chunk]), next);
      Within(ring.script, mid, ring.at, old(ring.at), ring.at);
      if !Back(put) {
        return None, next;
      }
      if put.Failed? {
        ghost var n :| Possible(before, WriteAt(path, done, data[done..done + chunk]), n)
          && ring.files == Effect(before, WriteAt(path, done, data[done..done + chunk]), n);
        WriteProgress(before, path, data, done, chunk, n);
        return Some(IoErr), next;
      }
      WriteProgress(before, path, data, done, chunk, put.result);
      if put.result == 0 {
        ReportedRaw(ring.script, mid, ring.at, before, WriteAt(path, done, data[done..done + chunk]), 0);
        Within(ring.script, mid, ring.at, old(ring.at), ring.at);
        return Some(IoErr), next;
      }
      done := done + put.result;
    }
    return Some(WriteOk), next;
  }

  // ------------------------------------------------------------------- the worker

  datatype Job = ReadJob(path: string, start: nat, end: nat, opens: bool) | WriteJob(path: string, data: Bytes, opens: bool)

  /** What the reply to one job means for the files before and after it. */
  ghost predicate Answered(job: Job, reply: Reply, before: Files, after: Files) {
    match job
    case ReadJob(p, start, end, _) =>
      && after == before && !reply.WriteOk?
      && (reply.ReadOk? ==> p in before && IsRange(before[p], start, RangeLength(start, end), reply.bytes))
      && (reply.Eof? ==> p in before && start < end && end > |before[p]|)
    case WriteJob(p, data, _) =>
      && OthersSame(before, after, p) && (reply.WriteOk? || reply.IoErr?)
      && (reply.WriteOk? ==> p in after && after[p] == data)
      && (reply.IoErr? ==> after == before || (p in after && IsPrefix(after[p], data)))
  }

  /** A job that did not go through had a reason outside the worker. */
  ghost predicate Excused(job: Job, reply: Reply, before: Files, script: seq<Step>, a: nat, b: nat) {
    reply.IoErr? ==>
      match job
      case ReadJob(p, _, _, opens) => !opens || p !in before || Troubled(script, a, b)
      case WriteJob(_, _, opens) => !opens || Troubled(script, a, b) || Stingy(script, a, b)
  }

  ghost predicate AllExcused(jobs: seq<Job>, replies: seq<Reply>, fs: seq<Files>, script: seq<Step>) {
    && |replies| <= |jobs| && |replies| < |fs|
    && forall i :: 0 <= i < |replies| ==> Excused(jobs[i], replies[i], fs[i], script, 0, |script|)
  }

  /** The most steps a job can take when every step moves at least a byte. */
  function Work(job: Job): nat {
    match job
    case ReadJob(_, start, end, _) => RangeLength(start, end)
    case WriteJob(_, data, _) => |data|
  }

  function TotalWork(jobs: seq<Job>, n: nat): nat
    requires n <= |jobs|
  {
    if n == 0 then 0 else TotalWork(jobs, n - 1) + Work(jobs[n - 1])
  }

  lemma {:induction false} WorkGrows(jobs: seq<Job>, n: nat, m: nat)
    requires n <= m <= |jobs|
    ensures TotalWork(jobs, n) <= TotalWork(jobs, m)
    decreases m
  {
    if n < m {
      WorkGrows(jobs, n, m - 1);
    }
  }

  /** Over a script without trouble and empty writes, every openable job that was answered went through. */
  lemma {:induction false} SmoothReplies(jobs: seq<Job>, replies: seq<Reply>, fs: seq<Files>, script: seq<Step>, i: nat)
    requires Trace(jobs, replies, fs) && AllExcused(jobs, replies, fs, script) && i < |replies|
    requires !Troubled(script, 0, |script|) && !Stingy(script, 0, |script|)
    ensures match jobs[i]
            case ReadJob(p, start, end, opens) =>
              opens && p in fs[i] ==>
                if start < end && end > |fs[i][p]| then replies[i].Eof?
                else replies[i].ReadOk? && IsRange(fs[i][p], start, RangeLength(start, end), replies[i].bytes)
            case WriteJob(p, data, opens) => opens ==> replies[i].WriteOk? && p in fs[i + 1] && fs[i + 1][p] == data
  {
    assert Excused(jobs[i], replies[i], fs[i], script, 0, |script|) && Answered(jobs[i], replies[i], fs[i], fs[i + 1]);
  }

  /** The files between jobs, and the replies. */
  ghost predicate Trace(jobs: seq<Job>, replies: seq<Reply>, fs: seq<Files>) {
    && |fs| == |replies| + 1 && |replies| <= |jobs|
    && forall i :: 0 <= i < |replies| ==> Answered(jobs[i], replies[i], fs[i], fs[i + 1])
  }

  /** Serves jobs in order. The ring is idle between any two; a worker that stops early never replied wrongly. */
  method Worker(ring: Ring, jobs: seq<Job>) returns (replies: seq<Reply>, ghost fs: seq<Files>)
    requires ring.Idle()
    modifies ring
    ensures Trace(jobs, replies, fs) && fs[0] == old(ring.files)
    ensures |replies| == |jobs| ==> ring.Idle() && fs[|jobs|] == ring.files
    ensures AllExcused(jobs, replies, fs, ring.script)
    ensures AllPrompt(ring.script) && |ring.script| - old(ring.at) >= TotalWork(jobs, |jobs|) ==> |replies| == |jobs|
  {
    replies, fs := [], [ring.files];
    var seqNo: u64 := 0;
    for i := 0 to |jobs|
      invariant ring.Idle() && |replies| == i && Trace(jobs, replies, fs) && fs[0] == old(ring.files)
        && fs[i] == ring.files
      invariant old(ring.at) <= ring.at <= |ring.script| && AllExcused(jobs, replies, fs, ring.script)
      invariant AllPrompt(ring.script) ==> ring.at - old(ring.at) <= TotalWork(jobs, i)
    {
      WorkGrows(jobs, i + 1, |jobs|);
      var reply;
      reply, seqNo := Serve(ring, seqNo, jobs[i]);
      if reply.None? {
        return;
      }
      OneMoreReply(jobs, replies, fs, ring.script, reply.value, ring.files);
      replies, fs := replies + [reply.value], fs + [ring.files];
    }
  }

  /** One job. */
  method Serve(ring: Ring, seqNo: u64, job: Job) returns (reply: Option<Reply>, next: u64)
    requires ring.Idle()
    modifies ring
    ensures reply.Some? ==> ring.Idle() && Answered(job, reply.value, old(ring.files), ring.files)
    ensures reply.Some? ==> Excused(job, reply.value, old(ring.files), ring.script, 0, |ring.script|)
    ensures old(ring.at) <= ring.at <= |ring.script|
    ensures AllPrompt(ring.script) && |ring.script| - old(ring.at) >= Work(job) ==>
      reply.Some? && ring.at - old(ring.at) <= Work(job)
  {
    match job {
      case ReadJob(path, start, end, opens) =>
        reply, next := ReadRange(ring, seqNo, path, start, end, opens);
      case WriteJob(path, data, opens) =>
        reply, next := WriteAll(ring, seqNo, path, data, opens);
    }
    Within(ring.script, old(ring.at), ring.at, 0, |ring.script|);
  }

  lemma {:induction false} OneMoreReply(jobs: seq<Job>, replies: seq<Reply>, fs: seq<Files>, script: seq<Step>,
                                        reply: Reply, after: Files)
    requires Trace(jobs, replies, fs) && AllExcused(jobs, replies, fs, script) && |replies| < |jobs|
    requires Answered(jobs[|replies|], reply, fs[|replies|], after)
    requires Excused(jobs[|replies|], reply, fs[|replies|], script, 0, |script|)
    ensures Trace(jobs, replies + [reply], fs + [after]) && AllExcused(jobs, replies + [reply], fs + [after], script)
  {
    var (rs, ff) := (replies + [reply], fs + [after]);
    forall i | 0 <= i < |rs| ensures Answered(jobs[i], rs[i], ff[i], ff[i + 1]) && Excused(jobs[i], rs[i], ff[i], script, 0, |script|) {
      if i < |replies| {
        assert Answered(jobs[i], replies[i], fs[i], fs[i + 1]) && Excused(jobs[i], replies[i], fs[i], script, 0, |script|);
      }
    }
  }

  ghost predicate Writes(job: Job, path: string) {
    job.WriteJob? && job.path == path
  }

  lemma {:induction false} Untouched(jobs: seq<Job>, replies: seq<Reply>, fs: seq<Files>, path: string, i: nat, j: nat)
    requires Trace(jobs, replies, fs) && i <= j <= |replies|
    requires forall k :: i <= k < j ==> !Writes(jobs[k], path)
    ensures (path in fs[i] <==> path in fs[j]) && (path in fs[i] ==> fs[j][path] == fs[i][path])
    decreases j - i
  {
    if i < j {
      assert Answered(jobs[i], replies[i], fs[i], fs[i + 1]) && !Writes(jobs[i], path);
      Untouched(jobs, replies, fs, path, i + 1, j);
    }
  }

  /** A read that succeeds after a successful write, with no write to the path between, returns the written bytes. */
  lemma {:induction false} ReadYourWrite(jobs: seq<Job>, replies: seq<Reply>, fs: seq<Files>, i: nat, j: nat)
    requires Trace(jobs, replies, fs) && i < j < |replies|
    requires jobs[i].WriteJob? && replies[i].WriteOk? && jobs[j].ReadJob? && jobs[j].path == jobs[i].path
    requires forall k :: i < k < j ==> !Writes(jobs[k], jobs[i].path)
    ensures replies[j].ReadOk? ==>
      IsRange(jobs[i].data, jobs[j].start, RangeLength(jobs[j].start, jobs[j].end), replies[j].bytes)
    ensures replies[j].Eof? ==> jobs[j].start < jobs[j].end && jobs[j].end > |jobs[i].data|
  {
    assert Answered(jobs[i], replies[i], fs[i], fs[i + 1]) && Answered(jobs[j], replies[j], fs[j], fs[j + 1]);
    Untouched(jobs, replies, fs, jobs[i].path, i + 1, j);
  }
}

/**
 * The segmented download engine `download_media_concurrent` (src/utils/download_utils.rs).
 *
 * Workers share a counter `part_index` that hands out chunk offsets, fetch a chunk
 * per loop iteration, follow "file migrate" (303) redirects by retrying the same
 * offset against another data centre, and send `(offset, bytes)` into a FIFO channel.
 * One coalescer drains the channel into a file pre-sized to `size`, checking a cancel
 * flag per chunk and sending throttled progress edits.
 *
 * Concurrency is replaced by an arbitrary interleaving: a schedule of steps, each a
 * worker taking its next offset and sending its request, the reply to a worker's
 * request arriving (with the RPC result), one coalescer receive (with the clock
 * reading and whether the file I/O succeeded), or the cancel flag being set. Replies
 * may arrive in any order, so chunks reach the channel out of order.
 */
module DownloadUtils {
  import opened Common
  import opened Telegram
  import Throttle

  /** grammers-client's `MAX_CHUNK_SIZE` (512 KiB), the chunk size and request limit. */
  const MAX_CHUNK_SIZE: nat := 512 * 1024
  const PROGRESS_INTERVAL: nat := 5
  /** The RPC error code of "file migrate": retry against the data centre it names. */
  const FILE_MIGRATE: int := 303
  const CANCELLED_TEXT := "Download Cancelled"

  function CompleteText(path: string): string
  {
    "Download Complete! \nStored at: " + path
  }

  /** The keyboard of a progress edit: one "Cancel" button carrying the transfer's payload. */
  function CancelMarkup(buttonId: seq<byte>): seq<seq<Button>>
  {
    [[Button("Cancel", buttonId)]]
  }

  /** The offset handed out for counter value `i`. */
  function ChunkStart(i: nat): nat
  {
    MAX_CHUNK_SIZE * i
  }

  /** What `invoke`/`invoke_in_dc` of `upload.getFile` returns. */
  datatype RpcResult =
    | FileData(bytes: seq<byte>)                  // Ok(upload::File::File)
    | RpcError(code: int, value: Option<nat>)     // Err(InvocationError::Rpc)
    | OtherError                                  // Err of any other kind

  datatype InvocationError = Rpc(code: int, value: Option<nat>) | NonRpc

  /** A worker task: running, returned Ok, returned an error, or aborted. */
  datatype TaskState = Running | Finished | Failed(error: InvocationError) | Aborted

  /** One `upload.getFile` call: by which worker, at which offset, to which data centre (None: the home one). */
  datatype Request = GetFile(worker: nat, offset: nat, dc: Option<nat>)

  datatype Chunk = Chunk(offset: nat, bytes: seq<byte>)

  datatype DownloadError = Io | Worker(error: InvocationError)

  datatype Step =
    | Call(worker: nat)                        // a worker takes its next offset and calls `upload.getFile` for it
    | Reply(worker: nat, result: RpcResult)    // the call that worker awaits returns
    | Receive(now: int, ioOk: bool)            // one `rx.recv()` of the coalescer
    | Cancel                                   // `should_cancel` is set

  // ---------------------------------------------------------------- the file

  /**
   * Writing `b` at position `at`: the bytes `[at, at + |b|)` become `b`, the others keep
   * their value, a gap past the old end reads as zeros, and the file grows as needed.
   */
  function WriteAt(f: seq<byte>, at: nat, b: seq<byte>): (r: seq<byte>)
    ensures |r| == Max(|f|, at + |b|)
    ensures forall p :: 0 <= p < |r| ==>
      r[p] == if at <= p < at + |b| then b[p - at] else if p < |f| then f[p] else 0
  {
    var padded := if at <= |f| then f else f + Zeros(at - |f|);
    var tail := if at + |b| < |padded| then padded[at + |b|..] else [];
    assert forall p :: at + |b| <= p < |padded| ==> tail[p - at - |b|] == padded[p];
    padded[..at] + b + tail
  }

  /** The chunks written in order, each at its own offset. */
  function WriteAll(f: seq<byte>, cs: seq<Chunk>): seq<byte>
    decreases |cs|
  {
    if cs == [] then f
    else
      var c := cs[|cs| - 1];
      WriteAt(WriteAll(f, cs[..|cs| - 1]), c.offset, c.bytes)
  }

  function Offsets(cs: seq<Chunk>): (os: seq<nat>)
    ensures |os| == |cs| && forall k :: 0 <= k < |cs| ==> os[k] == cs[k].offset
  {
    seq(|cs|, k requires 0 <= k < |cs| => cs[k].offset)
  }

  function TotalLength(cs: seq<Chunk>): nat
    decreases |cs|
  {
    if cs == [] then 0 else TotalLength(cs[..|cs| - 1]) + |cs[|cs| - 1].bytes|
  }

  /** The chunk at `c.offset` holds exactly the remote object's bytes there. */
  ghost predicate Faithful(remote: seq<byte>, c: Chunk)
  {
    c.offset <= |remote| && c.bytes == remote[c.offset..Min(c.offset + MAX_CHUNK_SIZE, |remote|)]
  }

  /** A position lies in the chunk starting at `ChunkStart(i)` exactly when `i` is its quotient. */
  lemma ChunkOfPosition(i: nat, p: nat)
    ensures ChunkStart(i) <= p < ChunkStart(i) + MAX_CHUNK_SIZE <==> i == p / MAX_CHUNK_SIZE
  {
    var q := p / MAX_CHUNK_SIZE;
    assert p == MAX_CHUNK_SIZE * q + p % MAX_CHUNK_SIZE;
    if i < q {
      assert ChunkStart(i) + MAX_CHUNK_SIZE == MAX_CHUNK_SIZE * (i + 1) <= MAX_CHUNK_SIZE * q;
    } else if i > q {
      assert ChunkStart(i) == MAX_CHUNK_SIZE * i >= MAX_CHUNK_SIZE * (q + 1);
    }
  }

  /** One faithful chunk written at a chunk boundary: a position takes the remote byte exactly when it is in that chunk. */
  lemma WriteChunkFaithful(remote: seq<byte>, prev: seq<byte>, c: Chunk, p: nat)
    requires |prev| == |remote| && p < |remote|
    requires c.offset % MAX_CHUNK_SIZE == 0 && Faithful(remote, c)
    ensures |WriteAt(prev, c.offset, c.bytes)| == |remote|
    ensures WriteAt(prev, c.offset, c.bytes)[p] ==
      if c.offset == ChunkStart(p / MAX_CHUNK_SIZE) then remote[p] else prev[p]
  {
    var i := c.offset / MAX_CHUNK_SIZE;
    assert c.offset == ChunkStart(i);
    ChunkOfPosition(i, p);
    if c.offset <= p < c.offset + |c.bytes| {
      assert c.bytes[p - c.offset] == remote[p];
    }
  }

  /**
   * Writing chunks that are faithful slices of `remote` at chunk boundaries, in any
   * order and even more than once, leaves each position either as it was or holding
   * the remote byte: the latter exactly when the chunk containing it was written.
   */
  lemma {:induction false} WriteAllFaithful(remote: seq<byte>, f: seq<byte>, cs: seq<Chunk>)
    requires |f| == |remote|
    requires forall k :: 0 <= k < |cs| ==> cs[k].offset % MAX_CHUNK_SIZE == 0 && Faithful(remote, cs[k])
    ensures |WriteAll(f, cs)| == |remote|
    ensures forall p :: 0 <= p < |remote| ==>
      WriteAll(f, cs)[p] == if ChunkStart(p / MAX_CHUNK_SIZE) in Offsets(cs) then remote[p] else f[p]
    decreases |cs|
  {
    if cs != [] {
      var init := cs[..|cs| - 1];
      var c := cs[|cs| - 1];
      WriteAllFaithful(remote, f, init);
      var prev := WriteAll(f, init);
      assert Offsets(cs) == Offsets(init) + [c.offset];
      assert c.offset + |c.bytes| <= |remote|;
      forall p | 0 <= p < |remote|
        ensures WriteAll(f, cs)[p] == if ChunkStart(p / MAX_CHUNK_SIZE) in Offsets(cs) then remote[p] else f[p]
      {
        WriteChunkFaithful(remote, prev, c, p);
      }
    }
  }

  // ---------------------------------------------------------------- the scheduler

  /** An offset the counter has handed out (below `ChunkStart(n)`) that the worker did not stop at. */
  ghost predicate IsFetchable(o: nat, n: nat, size: nat)
  {
    o % MAX_CHUNK_SIZE == 0 && o < ChunkStart(n) && o <= size
  }

  /**
   * What the counter, the workers' offsets and the chunks sent so far keep true: sent
   * offsets are distinct handed-out offsets; an offset a worker holds, as its pending
   * retry or as the one its call is in flight for (never both at once), is a handed-out
   * offset not yet sent, held by no other worker, and its worker has not ended; every
   * handed-out offset up to `size` is sent, held, or lost with a failed worker; and a
   * worker only finishes once the counter has passed `size`.
   */
  ghost predicate SchedulerInv(size: nat, n: nat, retry: seq<Option<nat>>, inFlight: seq<Option<nat>>,
                               tasks: seq<TaskState>, sent: seq<Chunk>, lost: set<nat>)
  {
    |retry| == |tasks| && |inFlight| == |tasks|
    && (forall k :: 0 <= k < |sent| ==> IsFetchable(sent[k].offset, n, size))
    && (forall a, b :: 0 <= a < b < |sent| ==> sent[a].offset != sent[b].offset)
    && (forall w :: 0 <= w < |retry| && retry[w].Some? ==>
          IsFetchable(retry[w].value, n, size) && retry[w].value !in Offsets(sent)
          && (tasks[w].Running? || tasks[w].Aborted?) && inFlight[w].None?)
    && (forall w :: 0 <= w < |inFlight| && inFlight[w].Some? ==>
          IsFetchable(inFlight[w].value, n, size) && inFlight[w].value !in Offsets(sent)
          && (tasks[w].Running? || tasks[w].Aborted?))
    && (forall a, b :: 0 <= a < b < |retry| && retry[a].Some? && retry[b].Some? ==> retry[a].value != retry[b].value)
    && (forall a, b :: 0 <= a < b < |inFlight| && inFlight[a].Some? && inFlight[b].Some? ==>
          inFlight[a].value != inFlight[b].value)
    && (forall a, b :: 0 <= a < |retry| && 0 <= b < |inFlight| && retry[a].Some? && inFlight[b].Some? ==>
          retry[a].value != inFlight[b].value)
    && (forall i :: 0 <= i < n && ChunkStart(i) <= size ==>
          ChunkStart(i) in Offsets(sent) || Some(ChunkStart(i)) in retry || Some(ChunkStart(i)) in inFlight
          || ChunkStart(i) in lost)
    && (lost != {} ==> exists w :: 0 <= w < |tasks| && tasks[w].Failed?)
    && (Finished in tasks ==> n >= 1 && ChunkStart(n - 1) > size)
  }

  /** The offset a worker uses next: its retry offset, or a fresh one from the counter. */
  function NextOffset(retry: Option<nat>, n: nat): nat
  {
    if retry.Some? then retry.value else ChunkStart(n)
  }

  function NextIndex(retry: Option<nat>, n: nat): nat
  {
    if retry.Some? then n else n + 1
  }

  /** A worker takes its next offset, at most `size`, and its call for that offset is in flight. */
  lemma SchedulerCall(size: nat, n: nat, retry: seq<Option<nat>>, inFlight: seq<Option<nat>>, tasks: seq<TaskState>,
                      sent: seq<Chunk>, lost: set<nat>, w: nat)
    requires SchedulerInv(size, n, retry, inFlight, tasks, sent, lost)
    requires w < |tasks| && tasks[w] == Running && inFlight[w].None? && NextOffset(retry[w], n) <= size
    ensures SchedulerInv(size, NextIndex(retry[w], n), retry[w := None], inFlight[w := Some(NextOffset(retry[w], n))],
                         tasks, sent, lost)
  {
    var o := NextOffset(retry[w], n);
    var n' := NextIndex(retry[w], n);
    var retry' := retry[w := None];
    var inFlight' := inFlight[w := Some(o)];
    assert ChunkStart(n) < ChunkStart(n + 1);
    if retry[w].None? {
      assert o !in Offsets(sent);
    }
    forall i | 0 <= i < n' && ChunkStart(i) <= size
      ensures ChunkStart(i) in Offsets(sent) || Some(ChunkStart(i)) in retry' || Some(ChunkStart(i)) in inFlight'
              || ChunkStart(i) in lost
    {
      if ChunkStart(i) == o {
        assert inFlight'[w] == Some(ChunkStart(i));
      } else if ChunkStart(i) !in Offsets(sent) && ChunkStart(i) !in lost {
        assert i < n;
        if Some(ChunkStart(i)) in retry {
          var j :| 0 <= j < |retry| && retry[j] == Some(ChunkStart(i));
          assert retry'[j] == retry[j];
        } else {
          var j :| 0 <= j < |inFlight| && inFlight[j] == Some(ChunkStart(i));
          assert inFlight'[j] == inFlight[j];
        }
      }
    }
  }

  /** The call in flight returned data: its offset is sent. */
  lemma SchedulerSend(size: nat, n: nat, retry: seq<Option<nat>>, inFlight: seq<Option<nat>>, tasks: seq<TaskState>,
                      sent: seq<Chunk>, lost: set<nat>, w: nat, b: seq<byte>)
    requires SchedulerInv(size, n, retry, inFlight, tasks, sent, lost)
    requires w < |tasks| && inFlight[w].Some?
    ensures SchedulerInv(size, n, retry, inFlight[w := None], tasks, sent + [Chunk(inFlight[w].value, b)], lost)
  {
    var o := inFlight[w].value;
    var inFlight' := inFlight[w := None];
    var sent' := sent + [Chunk(o, b)];
    assert Offsets(sent') == Offsets(sent) + [o];
    forall i | 0 <= i < n && ChunkStart(i) <= size
      ensures ChunkStart(i) in Offsets(sent') || Some(ChunkStart(i)) in retry || Some(ChunkStart(i)) in inFlight'
              || ChunkStart(i) in lost
    {
      if ChunkStart(i) != o && ChunkStart(i) !in Offsets(sent) && ChunkStart(i) !in lost
         && Some(ChunkStart(i)) !in retry {
        var j :| 0 <= j < |inFlight| && inFlight[j] == Some(ChunkStart(i));
        assert inFlight'[j] == inFlight[j];
      }
    }
  }

  /** The call in flight returned "file migrate": its offset becomes the worker's retry offset. */
  lemma SchedulerRedirect(size: nat, n: nat, retry: seq<Option<nat>>, inFlight: seq<Option<nat>>, tasks: seq<TaskState>,
                          sent: seq<Chunk>, lost: set<nat>, w: nat)
    requires SchedulerInv(size, n, retry, inFlight, tasks, sent, lost)
    requires w < |tasks| && inFlight[w].Some?
    ensures SchedulerInv(size, n, retry[w := inFlight[w]], inFlight[w := None], tasks, sent, lost)
  {
    var o := inFlight[w].value;
    var retry' := retry[w := inFlight[w]];
    var inFlight' := inFlight[w := None];
    assert retry[w].None?;
    forall i | 0 <= i < n && ChunkStart(i) <= size
      ensures ChunkStart(i) in Offsets(sent) || Some(ChunkStart(i)) in retry' || Some(ChunkStart(i)) in inFlight'
              || ChunkStart(i) in lost
    {
      if ChunkStart(i) == o {
        assert retry'[w] == Some(ChunkStart(i));
      } else if ChunkStart(i) !in Offsets(sent) && ChunkStart(i) !in lost {
        if Some(ChunkStart(i)) in retry {
          var j :| 0 <= j < |retry| && retry[j] == Some(ChunkStart(i));
          assert retry'[j] == retry[j];
        } else {
          var j :| 0 <= j < |inFlight| && inFlight[j] == Some(ChunkStart(i));
          assert inFlight'[j] == inFlight[j];
        }
      }
    }
  }

  /** The call in flight returned any other error: the worker fails and its offset is lost. */
  lemma SchedulerFail(size: nat, n: nat, retry: seq<Option<nat>>, inFlight: seq<Option<nat>>, tasks: seq<TaskState>,
                      sent: seq<Chunk>, lost: set<nat>, w: nat, e: InvocationError)
    requires SchedulerInv(size, n, retry, inFlight, tasks, sent, lost)
    requires w < |tasks| && inFlight[w].Some?
    ensures SchedulerInv(size, n, retry, inFlight[w := None], tasks[w := Failed(e)], sent, lost + {inFlight[w].value})
  {
    var o := inFlight[w].value;
    var inFlight' := inFlight[w := None];
    var tasks' := tasks[w := Failed(e)];
    assert retry[w].None?;
    assert tasks'[w].Failed?;
    assert Finished in tasks' ==> Finished in tasks by {
      if Finished in tasks' {
        var j :| 0 <= j < |tasks'| && tasks'[j] == Finished;
        assert tasks[j] == Finished;
      }
    }
    forall i | 0 <= i < n && ChunkStart(i) <= size
      ensures ChunkStart(i) in Offsets(sent) || Some(ChunkStart(i)) in retry || Some(ChunkStart(i)) in inFlight'
              || ChunkStart(i) in lost + {o}
    {
      if ChunkStart(i) != o && ChunkStart(i) !in Offsets(sent) && ChunkStart(i) !in lost
         && Some(ChunkStart(i)) !in retry {
        var j :| 0 <= j < |inFlight| && inFlight[j] == Some(ChunkStart(i));
        assert inFlight'[j] == inFlight[j];
      }
    }
  }

  /** A worker whose next offset is past `size` returns Ok; it held no offset. */
  lemma SchedulerExit(size: nat, n: nat, retry: seq<Option<nat>>, inFlight: seq<Option<nat>>, tasks: seq<TaskState>,
                      sent: seq<Chunk>, lost: set<nat>, w: nat)
    requires SchedulerInv(size, n, retry, inFlight, tasks, sent, lost)
    requires w < |tasks| && tasks[w] == Running && inFlight[w].None? && NextOffset(retry[w], n) > size
    ensures retry[w].None?
    ensures SchedulerInv(size, n + 1, retry, inFlight, tasks[w := Finished], sent, lost)
  {
    var tasks' := tasks[w := Finished];
    assert ChunkStart(n) < ChunkStart(n + 1);
    assert lost != {} ==> exists j :: 0 <= j < |tasks'| && tasks'[j].Failed? by {
      if lost != {} {
        var j :| 0 <= j < |tasks| && tasks[j].Failed?;
        assert tasks'[j].Failed?;
      }
    }
  }

  /** Aborting every task (`task.abort()`): a running task becomes aborted, the others stay as they ended. */
  function AbortAll(tasks: seq<TaskState>): (r: seq<TaskState>)
    ensures |r| == |tasks|
    ensures forall w :: 0 <= w < |tasks| ==> r[w] == if tasks[w].Running? then Aborted else tasks[w]
  {
    seq(|tasks|, w requires 0 <= w < |tasks| => if tasks[w].Running? then Aborted else tasks[w])
  }

  lemma SchedulerAbort(size: nat, n: nat, retry: seq<Option<nat>>, inFlight: seq<Option<nat>>, tasks: seq<TaskState>,
                       sent: seq<Chunk>, lost: set<nat>)
    requires SchedulerInv(size, n, retry, inFlight, tasks, sent, lost)
    ensures SchedulerInv(size, n, retry, inFlight, AbortAll(tasks), sent, lost)
  {
    var tasks' := AbortAll(tasks);
    assert Finished in tasks' ==> Finished in tasks by {
      if Finished in tasks' {
        var j :| 0 <= j < |tasks'| && tasks'[j] == Finished;
        assert tasks[j] == Finished;
      }
    }
    assert lost != {} ==> exists j :: 0 <= j < |tasks'| && tasks'[j].Failed? by {
      if lost != {} {
        var j :| 0 <= j < |tasks| && tasks[j].Failed?;
        assert tasks'[j].Failed?;
      }
    }
  }

  /**
   * Once every one of at least one worker has returned Ok, the chunks sent are exactly
   * one per chunk start in [0, size] (including `size` itself when it is a multiple of
   * the chunk size): no start is missing and none was sent twice.
   */
  lemma SchedulerComplete(size: nat, n: nat, retry: seq<Option<nat>>, inFlight: seq<Option<nat>>, tasks: seq<TaskState>,
                          sent: seq<Chunk>, lost: set<nat>)
    requires SchedulerInv(size, n, retry, inFlight, tasks, sent, lost)
    requires |tasks| >= 1 && forall w :: 0 <= w < |tasks| ==> tasks[w] == Finished
    ensures forall o: nat :: o in Offsets(sent) <==> o % MAX_CHUNK_SIZE == 0 && o <= size
    ensures forall a, b :: 0 <= a < b < |sent| ==> sent[a].offset != sent[b].offset
  {
    assert tasks[0] == Finished;
    assert lost == {};
    forall o: nat | o % MAX_CHUNK_SIZE == 0 && o <= size
      ensures o in Offsets(sent)
    {
      var i := o / MAX_CHUNK_SIZE;
      assert o == ChunkStart(i);
      assert ChunkStart(i) < ChunkStart(n - 1);
      assert i < n;
      assert forall j :: 0 <= j < |retry| ==> retry[j].None?;
      assert forall j :: 0 <= j < |inFlight| ==> inFlight[j].None?;
    }
  }

  /** The first worker, in spawn order, that returned an error: the one `task.await?` reports. */
  function FirstFailure(tasks: seq<TaskState>): (e: Option<InvocationError>)
    ensures e.None? <==> forall w :: 0 <= w < |tasks| ==> !tasks[w].Failed?
    ensures e.Some? ==> exists w :: 0 <= w < |tasks| && tasks[w] == Failed(e.value)
                                    && forall v :: 0 <= v < w ==> !tasks[v].Failed?
    decreases |tasks|
  {
    if tasks == [] then None
    else if tasks[0].Failed? then Some(tasks[0].error)
    else
      var e := FirstFailure(tasks[1..]);
      assert forall w :: 1 <= w < |tasks| ==> tasks[w] == tasks[1..][w - 1];
      if e.Some? then
        var w :| 0 <= w < |tasks[1..]| && tasks[1..][w] == Failed(e.value)
                 && forall v :: 0 <= v < w ==> !tasks[1..][v].Failed?;
        assert tasks[w + 1] == Failed(e.value);
        e
      else e
  }

  // ---------------------------------------------------------------- counting chunks

  /** The set of offsets of some chunks. */
  function OffsetSet(cs: seq<Chunk>): (os: set<nat>)
    ensures forall o :: o in os <==> o in Offsets(cs)
    decreases |cs|
  {
    if cs == [] then {}
    else
      var init := cs[..|cs| - 1];
      assert Offsets(cs) == Offsets(init) + [cs[|cs| - 1].offset];
      OffsetSet(init) + {cs[|cs| - 1].offset}
  }

  lemma {:induction false} OffsetSetSize(cs: seq<Chunk>)
    requires forall a, b :: 0 <= a < b < |cs| ==> cs[a].offset != cs[b].offset
    ensures |OffsetSet(cs)| == |cs|
    decreases |cs|
  {
    if cs != [] {
      var init := cs[..|cs| - 1];
      OffsetSetSize(init);
      assert cs[|cs| - 1].offset !in Offsets(init);
    }
  }

  /** The first `m` chunk starts. */
  function Starts(m: nat): (s: set<nat>)
    ensures |s| == m
    ensures forall o: nat :: o in s <==> o % MAX_CHUNK_SIZE == 0 && o < ChunkStart(m)
    decreases m
  {
    if m == 0 then {}
    else
      var prev := Starts(m - 1);
      assert ChunkStart(m - 1) !in prev;
      forall o: nat | o % MAX_CHUNK_SIZE == 0 && o < ChunkStart(m) && o != ChunkStart(m - 1)
        ensures o < ChunkStart(m - 1)
      {
        ChunkOfPosition(m - 1, o);
        assert o == ChunkStart(o / MAX_CHUNK_SIZE);
      }
      prev + {ChunkStart(m - 1)}
  }

  lemma TenMiB()
    ensures 10 * 1024 * 1024 / MAX_CHUNK_SIZE + 1 == 21
  {
  }

  /** The chunk starts up to `size` are the first `size / MAX_CHUNK_SIZE + 1` ones. */
  lemma StartsUpTo(size: nat)
    ensures forall o: nat :: o in Starts(size / MAX_CHUNK_SIZE + 1) <==> o % MAX_CHUNK_SIZE == 0 && o <= size
  {
    var m := size / MAX_CHUNK_SIZE + 1;
    forall o: nat | o % MAX_CHUNK_SIZE == 0
      ensures o <= size <==> o < ChunkStart(m)
    {
      assert o == ChunkStart(o / MAX_CHUNK_SIZE);
    }
  }

  /**
   * A complete download sends `size / MAX_CHUNK_SIZE + 1` chunks: because a worker stops
   * only at an offset strictly past `size`, the offset `size` itself is requested when it
   * is a chunk start, so a 10 MiB file takes 21 chunks.
   */
  lemma ChunkCount(size: nat, sent: seq<Chunk>)
    requires forall o: nat :: o in Offsets(sent) <==> o % MAX_CHUNK_SIZE == 0 && o <= size
    requires forall a, b :: 0 <= a < b < |sent| ==> sent[a].offset != sent[b].offset
    ensures |sent| == size / MAX_CHUNK_SIZE + 1
    ensures size == 10 * 1024 * 1024 ==> |sent| == 21
  {
    TenMiB();
    OffsetSetSize(sent);
    StartsUpTo(size);
    assert OffsetSet(sent) == Starts(size / MAX_CHUNK_SIZE + 1);
  }

  // ---------------------------------------------------------------- the engine

  /** The progress edits of the coalescer: each carries the "Cancel" button. */
  function ProgressEffects(message: int, buttonId: seq<byte>, edits: seq<Throttle.SentEdit>): (es: seq<Effect>)
    ensures |es| == |edits|
    ensures forall k :: 0 <= k < |edits| ==> es[k] == EditMessage(message, edits[k].text, CancelMarkup(buttonId))
  {
    seq(|edits|, k requires 0 <= k < |edits| => EditMessage(message, edits[k].text, CancelMarkup(buttonId)))
  }

  predicate AllEnded(tasks: seq<TaskState>)
  {
    forall w :: 0 <= w < |tasks| ==> !tasks[w].Running?
  }

  /** The parameters of one call: the document size, the path, the worker count, the progress message, the button payload, the text renderer and the start time. */
  datatype Config = Config(size: nat, path: string, workers: nat, message: int, buttonId: seq<byte>,
                           render: Throttle.Sample -> string, start: int)

  /**
   * A snapshot of everything one call changes: the shared counter, size and cancel flag;
   * each worker's `retry_offset`, the offset its call is in flight for, its `dc` and its
   * task; the channel; the requests made; the file, whether it exists, the handle
   * position and the seeks made; the coalescer's `pos`, throttle, messages and outcome.
   * The last seven components are bookkeeping for the proofs: the chunks sent and
   * written, the offsets lost with a failed worker, the throttle's readings, the closing
   * message, and whether the channel closed normally.
   */
  datatype Engine = Engine(
    partIndex: nat, downloadedSize: nat, shouldCancel: bool,
    retryOffset: seq<Option<nat>>, inFlight: seq<Option<nat>>, dc: seq<Option<nat>>, tasks: seq<TaskState>,
    channel: seq<Chunk>, requests: seq<Request>,
    file: seq<byte>, fileExists: bool, cursor: nat, seeks: seq<nat>, pos: nat,
    throttle: Throttle.State, effects: seq<Effect>, result: Option<Result<Unit, DownloadError>>,
    sent: seq<Chunk>, written: seq<Chunk>, lost: set<nat>, readings: seq<Throttle.Reading>,
    final: seq<Effect>, completed: bool)

  function Initial(c: Config): Engine
  {
    Engine(0, 0, false, seq(c.workers, _ => None), seq(c.workers, _ => None), seq(c.workers, _ => None),
           seq(c.workers, _ => Running), [], [], Zeros(c.size), true, 0, [], 0, Throttle.Initial(c.start), [], None,
           [], [], {}, [], [], false)
  }

  function Progress(c: Config, e: Engine): Throttle.Trace
  {
    Throttle.Run(Throttle.Initial(c.start), e.readings, PROGRESS_INTERVAL, c.render)
  }

  /** Counter, workers and chunks sent: the scheduler invariant and the shared size. */
  ghost predicate WorkersInv(c: Config, e: Engine)
  {
    |e.tasks| == c.workers && |e.dc| == c.workers
    && SchedulerInv(c.size, e.partIndex, e.retryOffset, e.inFlight, e.tasks, e.sent, e.lost)
    && e.downloadedSize == TotalLength(e.sent)
    && forall k :: 0 <= k < |e.requests| ==> IsFetchable(e.requests[k].offset, e.partIndex, c.size)
  }

  /**
   * While the coalescer runs (and once it has closed normally): every chunk sent was
   * written or is in the channel, in order; the coalescer's `pos` is the handle's
   * position; the file is the zeroed allocation with the written chunks applied; the
   * throttle is the one the readings produce; and no task was aborted.
   */
  ghost predicate CoalescerInv(c: Config, e: Engine)
  {
    e.sent == e.written + e.channel && e.fileExists && e.pos == e.cursor
    && e.file == WriteAll(Zeros(c.size), e.written) && e.throttle == Progress(c, e).final
    && forall w :: 0 <= w < |e.tasks| ==> !e.tasks[w].Aborted?
  }

  /** The messages sent are the progress edits followed by at most one closing message, matching the outcome. */
  ghost predicate OutcomeInv(c: Config, e: Engine)
  {
    e.effects == ProgressEffects(c.message, c.buttonId, Progress(c, e).edits) + e.final
    && (e.result.None? ==> e.final == [] && !e.completed)
    && (e.completed ==>
          e.channel == [] && AllEnded(e.tasks) && e.final == [EditMessage(c.message, CompleteText(c.path), [])]
          && e.result == Some(if FirstFailure(e.tasks).None? then Ok(Unit) else Err(Worker(FirstFailure(e.tasks).value))))
    && (e.result.Some? && !e.completed ==>
          (e.final == [] && e.result == Some(Err(Io)) && e.fileExists
           && forall w :: 0 <= w < |e.tasks| ==> !e.tasks[w].Aborted?)
          || (e.final == [EditMessage(c.message, CANCELLED_TEXT, [])] && e.result == Some(Ok(Unit)) && !e.fileExists
              && AllEnded(e.tasks)))
  }

  ghost predicate Inv(c: Config, e: Engine)
  {
    WorkersInv(c, e) && (e.result.None? || e.completed ==> CoalescerInv(c, e)) && OutcomeInv(c, e)
  }

  /** The worker takes its next offset: the pending retry offset (cleared), or a fresh one from the counter. */
  function TakeOffsetNext(e: Engine, w: nat): Engine
    requires w < |e.retryOffset|
  {
    e.(partIndex := NextIndex(e.retryOffset[w], e.partIndex), retryOffset := e.retryOffset[w := None])
  }

  /** The worker sends `upload.getFile` for `offset` to the data centre of its last redirect and awaits the reply. */
  function RequestNext(e: Engine, w: nat, offset: nat): Engine
    requires w < |e.dc| && w < |e.inFlight|
  {
    e.(requests := e.requests + [GetFile(w, offset, e.dc[w])], inFlight := e.inFlight[w := Some(offset)])
  }

  /** Worker `w` may start an iteration: it runs and has no call in flight. */
  predicate CallEnabled(e: Engine, w: nat)
  {
    w < |e.retryOffset| && w < |e.inFlight| && w < |e.dc| && w < |e.tasks| && e.tasks[w].Running? && e.inFlight[w].None?
  }

  /** Worker `w` is awaiting the reply to its call. */
  predicate ReplyEnabled(e: Engine, w: nat)
  {
    w < |e.retryOffset| && w < |e.inFlight| && w < |e.dc| && w < |e.tasks| && e.tasks[w].Running? && e.inFlight[w].Some?
  }

  /**
   * The start of an iteration of worker `w`'s loop: take the next offset; past `size`
   * the worker returns Ok, otherwise it calls `upload.getFile` for that offset.
   */
  function CallNext(e: Engine, size: nat, w: nat): Engine
    requires w < |e.retryOffset| && w < |e.inFlight| && w < |e.dc| && w < |e.tasks|
  {
    var offset := NextOffset(e.retryOffset[w], e.partIndex);
    var e1 := TakeOffsetNext(e, w);
    if offset > size then e1.(tasks := e.tasks[w := Finished]) else RequestNext(e1, w, offset)
  }

  /**
   * What the worker does with the result of its request at `offset`: data is counted and
   * sent into the channel; a 303 error records the new data centre and the offset to
   * retry; any other error ends the worker with it.
   */
  function ResultNext(e: Engine, w: nat, offset: nat, res: RpcResult): Engine
    requires w < |e.retryOffset| && w < |e.dc| && w < |e.tasks|
  {
    match res
    case FileData(bytes) =>
      e.(downloadedSize := e.downloadedSize + |bytes|, channel := e.channel + [Chunk(offset, bytes)],
         sent := e.sent + [Chunk(offset, bytes)])
    case RpcError(code, value) =>
      if code == FILE_MIGRATE then e.(retryOffset := e.retryOffset[w := Some(offset)], dc := e.dc[w := value])
      else e.(tasks := e.tasks[w := Failed(Rpc(code, value))], lost := e.lost + {offset})
    case OtherError =>
      e.(tasks := e.tasks[w := Failed(NonRpc)], lost := e.lost + {offset})
  }

  /** The end of an iteration of worker `w`'s loop: its call returns `res` and the worker handles it. */
  function ReplyNext(e: Engine, w: nat, res: RpcResult): Engine
    requires w < |e.retryOffset| && w < |e.inFlight| && w < |e.dc| && w < |e.tasks| && e.inFlight[w].Some?
  {
    ResultNext(e.(inFlight := e.inFlight[w := None]), w, e.inFlight[w].value, res)
  }

  /**
   * One chunk received by the coalescer. With the cancel flag set: abort every task,
   * delete the file, edit "Download Cancelled" and return Ok. Otherwise an I/O failure
   * returns the error; else seek only when the chunk does not start where the previous
   * one ended, write it at the handle's position, and run the 5 s progress throttle on
   * the shared downloaded size, editing the message with the "Cancel" button.
   */
  function ReceiveNext(c: Config, e: Engine, now: int, ioOk: bool): Engine
    requires e.channel != []
  {
    var e1 := e.(channel := e.channel[1..]);
    if e.shouldCancel then CancelledNext(c, e1)
    else if !ioOk then e1.(result := Some(Err(Io)))
    else WriteNext(c, e1, e.channel[0], now)
  }

  /** Cancellation: every task aborted, the file deleted, "Download Cancelled", and Ok. */
  function CancelledNext(c: Config, e: Engine): Engine
  {
    var cancelled := EditMessage(c.message, CANCELLED_TEXT, []);
    e.(tasks := AbortAll(e.tasks), fileExists := false, effects := e.effects + [cancelled],
       final := [cancelled], result := Some(Ok(Unit)))
  }

  /** Seek unless the chunk starts at `pos`, then write it at the handle. */
  function StoreNext(e: Engine, chunk: Chunk): Engine
  {
    var seek := chunk.offset != e.pos;
    var at := if seek then chunk.offset else e.cursor;
    e.(seeks := e.seeks + (if seek then [chunk.offset] else []), file := WriteAt(e.file, at, chunk.bytes),
       cursor := at + |chunk.bytes|, pos := chunk.offset + |chunk.bytes|, written := e.written + [chunk])
  }

  /** One progress check on the shared downloaded size, editing the message with the "Cancel" button. */
  function ReportNext(c: Config, e: Engine, now: int): Engine
  {
    var tick := Throttle.Step(e.throttle, now, e.downloadedSize, PROGRESS_INTERVAL, c.render);
    e.(readings := e.readings + [Throttle.Reading(now, e.downloadedSize)], throttle := tick.state,
       effects := e.effects + if tick.edit.Some? then [EditMessage(c.message, tick.edit.value, CancelMarkup(c.buttonId))] else [])
  }

  function WriteNext(c: Config, e: Engine, chunk: Chunk, now: int): Engine
  {
    ReportNext(c, StoreNext(e, chunk), now)
  }

  /**
   * The channel has closed: edit "Download Complete!" with the path, then report the
   * error of the first failed worker in spawn order, if any.
   */
  function CloseNext(c: Config, e: Engine): Engine
  {
    var complete := EditMessage(c.message, CompleteText(c.path), []);
    var failure := FirstFailure(e.tasks);
    e.(effects := e.effects + [complete], final := [complete], completed := true,
       result := Some(if failure.None? then Ok(Unit) else Err(Worker(failure.value))))
  }

  /**
   * One step of the interleaving. A worker step that does not match the worker's phase
   * (a call while one is in flight, a reply with none, any step of an ended worker), and
   * a receive while the channel is empty but some worker still runs, change nothing; a
   * receive with the channel empty and every worker ended is the channel closing.
   */
  function StepNext(c: Config, e: Engine, step: Step): Engine
  {
    match step
    case Call(w) => if CallEnabled(e, w) then CallNext(e, c.size, w) else e
    case Reply(w, res) => if ReplyEnabled(e, w) then ReplyNext(e, w, res) else e
    case Receive(now, ioOk) =>
      if e.channel != [] then ReceiveNext(c, e, now, ioOk)
      else if AllEnded(e.tasks) then CloseNext(c, e)
      else e
    case Cancel => e.(shouldCancel := true)
  }

  /** The steps of `schedule` in order, up to the one at which the call returns. */
  function Exec(c: Config, e: Engine, schedule: seq<Step>): Engine
    decreases |schedule|
  {
    if schedule == [] || e.result.Some? then e else Exec(c, StepNext(c, e, schedule[0]), schedule[1..])
  }

  /** Running the schedule from its `k`-th step on: one step, then the rest. */
  lemma ExecUnfold(c: Config, e: Engine, schedule: seq<Step>, k: nat)
    requires k < |schedule| && e.result.None?
    ensures Exec(c, e, schedule[k..]) == Exec(c, StepNext(c, e, schedule[k]), schedule[k + 1..])
  {
    assert schedule[k..][0] == schedule[k] && schedule[k..][1..] == schedule[k + 1..];
  }

  /** Running one schedule and then another is running the two one after the other. */
  lemma {:induction false} ExecAppend(c: Config, e: Engine, s: seq<Step>, t: seq<Step>)
    ensures Exec(c, e, s + t) == Exec(c, Exec(c, e, s), t)
    decreases |s|
  {
    if s == [] {
      assert s + t == t;
    } else if e.result.None? {
      assert (s + t)[0] == s[0] && (s + t)[1..] == s[1..] + t;
      ExecAppend(c, StepNext(c, e, s[0]), s[1..], t);
    }
  }

  /** A worker with no redirect pending calls for the next fresh chunk; the coalescer's side is untouched. */
  lemma CallRequests(c: Config, e: Engine, w: nat)
    requires CallEnabled(e, w) && e.retryOffset[w].None? && ChunkStart(e.partIndex) <= c.size
    ensures var e' := StepNext(c, e, Call(w));
      e'.requests == e.requests + [GetFile(w, ChunkStart(e.partIndex), e.dc[w])]
      && e'.inFlight == e.inFlight[w := Some(ChunkStart(e.partIndex))] && e'.partIndex == e.partIndex + 1
      && e'.retryOffset == e.retryOffset && e'.tasks == e.tasks && e'.dc == e.dc
      && e'.channel == e.channel && e'.pos == e.pos && e'.seeks == e.seeks && e'.written == e.written
      && e'.shouldCancel == e.shouldCancel && e'.result == e.result
  {
    assert StepNext(c, e, Call(w)) == RequestNext(TakeOffsetNext(e, w), w, ChunkStart(e.partIndex));
  }

  /** A reply carrying data sends the chunk for the offset in flight down the channel. */
  lemma ReplyDelivers(c: Config, e: Engine, w: nat, bytes: seq<byte>)
    requires ReplyEnabled(e, w)
    ensures var e' := StepNext(c, e, Reply(w, FileData(bytes)));
      e'.channel == e.channel + [Chunk(e.inFlight[w].value, bytes)] && e'.inFlight == e.inFlight[w := None]
      && e'.retryOffset == e.retryOffset && e'.tasks == e.tasks && e'.dc == e.dc && e'.requests == e.requests
      && e'.pos == e.pos && e'.seeks == e.seeks && e'.written == e.written
      && e'.shouldCancel == e.shouldCancel && e'.result == e.result
  {
  }

  /** Two workers call for offsets 0 and `MAX_CHUNK_SIZE` in turn, and the second reply arrives first. */
  lemma RepliesOvertake(c: Config, b0: seq<byte>, b1: seq<byte>)
    requires c.workers == 2 && c.size >= MAX_CHUNK_SIZE
    ensures var e := Exec(c, Initial(c), [Call(0), Call(1), Reply(1, FileData(b1)), Reply(0, FileData(b0))]);
      e.requests == [GetFile(0, 0, None), GetFile(1, MAX_CHUNK_SIZE, None)]
      && e.channel == [Chunk(MAX_CHUNK_SIZE, b1), Chunk(0, b0)]
      && e.pos == 0 && e.seeks == [] && e.written == [] && !e.shouldCancel && e.result.None?
  {
    var s := [Call(0), Call(1), Reply(1, FileData(b1)), Reply(0, FileData(b0))];
    var e0 := Initial(c);
    CallRequests(c, e0, 0);
    var e1 := StepNext(c, e0, s[0]);
    CallRequests(c, e1, 1);
    var e2 := StepNext(c, e1, s[1]);
    ReplyDelivers(c, e2, 1, b1);
    var e3 := StepNext(c, e2, s[2]);
    ReplyDelivers(c, e3, 0, b0);
    var e4 := StepNext(c, e3, s[3]);
    ExecUnfold(c, e0, s, 0);
    ExecUnfold(c, e1, s, 1);
    ExecUnfold(c, e2, s, 2);
    ExecUnfold(c, e3, s, 3);
    assert s[0..] == s;
  }

  /** A chunk received and written: it leaves the channel for the file, seeking unless it starts at `pos`. */
  lemma ReceiveStores(c: Config, e: Engine, now: int)
    requires e.channel != [] && !e.shouldCancel
    ensures var e' := StepNext(c, e, Receive(now, true));
      var chunk := e.channel[0];
      e'.channel == e.channel[1..] && e'.written == e.written + [chunk] && e'.pos == chunk.offset + |chunk.bytes|
      && e'.seeks == e.seeks + (if chunk.offset != e.pos then [chunk.offset] else [])
      && e'.result == e.result && e'.shouldCancel == e.shouldCancel && e'.requests == e.requests
  {
    ReceiveWriteFrame(c, e, now);
  }

  /** Chunks received out of order: the coalescer seeks to each one, since neither starts where the one before ended. */
  lemma ReceivesSeek(c: Config, e: Engine, b0: seq<byte>, b1: seq<byte>, t0: int, t1: int)
    requires e.channel == [Chunk(MAX_CHUNK_SIZE, b1), Chunk(0, b0)] && e.pos == 0 && e.seeks == [] && e.written == []
    requires !e.shouldCancel && e.result.None?
    ensures var e' := Exec(c, e, [Receive(t0, true), Receive(t1, true)]);
      e'.written == [Chunk(MAX_CHUNK_SIZE, b1), Chunk(0, b0)] && e'.seeks == [MAX_CHUNK_SIZE, 0]
      && e'.result.None? && e'.requests == e.requests
  {
    var s := [Receive(t0, true), Receive(t1, true)];
    ReceiveStores(c, e, t0);
    var e5 := StepNext(c, e, s[0]);
    ReceiveStores(c, e5, t1);
    ExecUnfold(c, e, s, 0);
    ExecUnfold(c, e5, s, 1);
    assert s[0..] == s;
  }

  /**
   * Replies can overtake each other without any redirect: two workers claim offsets 0
   * and `MAX_CHUNK_SIZE` in turn, the second reply arrives first, and the coalescer
   * seeks to the second chunk and then back to 0 for the first.
   */
  lemma OutOfOrderArrival(c: Config, b0: seq<byte>, b1: seq<byte>, t0: int, t1: int)
    requires c.workers == 2 && c.size >= MAX_CHUNK_SIZE
    ensures var e := Exec(c, Initial(c), [Call(0), Call(1), Reply(1, FileData(b1)), Reply(0, FileData(b0)),
                                            Receive(t0, true), Receive(t1, true)]);
      e.requests == [GetFile(0, 0, None), GetFile(1, MAX_CHUNK_SIZE, None)]
      && e.written == [Chunk(MAX_CHUNK_SIZE, b1), Chunk(0, b0)]
      && e.seeks == [MAX_CHUNK_SIZE, 0] && e.result.None?
  {
    var s1 := [Call(0), Call(1), Reply(1, FileData(b1)), Reply(0, FileData(b0))];
    var s2 := [Receive(t0, true), Receive(t1, true)];
    assert s1 + s2 == [Call(0), Call(1), Reply(1, FileData(b1)), Reply(0, FileData(b0)), Receive(t0, true), Receive(t1, true)];
    ExecAppend(c, Initial(c), s1, s2);
    RepliesOvertake(c, b0, b1);
    ReceivesSeek(c, Exec(c, Initial(c), s1), b0, b1, t0, t1);
  }

  lemma InitialInv(c: Config)
    ensures Inv(c, Initial(c))
  {
    var e := Initial(c);
    assert forall w :: 0 <= w < c.workers ==> e.retryOffset[w].None? && e.inFlight[w].None? && e.tasks[w].Running?;
    assert Finished !in e.tasks;
    assert SchedulerInv(c.size, 0, e.retryOffset, e.inFlight, e.tasks, [], {});
    assert Progress(c, e) == Throttle.Trace(Throttle.Initial(c.start), []);
    assert e.effects == ProgressEffects(c.message, c.buttonId, []) + [];
  }

  lemma TotalLengthSnoc(cs: seq<Chunk>, chunk: Chunk)
    ensures TotalLength(cs + [chunk]) == TotalLength(cs) + |chunk.bytes|
  {
    assert (cs + [chunk])[..|cs|] == cs;
  }

  /** What handling a result may change: the channel and `sent` grow by at most the one chunk. */
  lemma ResultFrame(e: Engine, w: nat, offset: nat, res: RpcResult)
    requires w < |e.retryOffset| && w < |e.dc| && w < |e.tasks|
    ensures var e' := ResultNext(e, w, offset, res);
      e' == e.(downloadedSize := e'.downloadedSize, retryOffset := e'.retryOffset, dc := e'.dc,
               tasks := e'.tasks, channel := e'.channel, sent := e'.sent, lost := e'.lost)
      && |e'.tasks| == |e.tasks|
      && (forall v :: 0 <= v < |e.tasks| && v != w ==> e'.tasks[v] == e.tasks[v])
      && (e'.tasks[w] == e.tasks[w] || !e'.tasks[w].Aborted?)
      && |e.sent| <= |e'.sent| && e'.sent[..|e.sent|] == e.sent && e'.channel == e.channel + e'.sent[|e.sent|..]
  {
  }

  /** The requests made so far stay below the counter, which only grows. */
  lemma RequestsStayFetchable(requests: seq<Request>, r: seq<Request>, n: nat, n': nat, size: nat)
    requires n <= n'
    requires forall k :: 0 <= k < |requests| ==> IsFetchable(requests[k].offset, n, size)
    requires forall k :: 0 <= k < |r| ==> IsFetchable(r[k].offset, n', size)
    ensures forall k :: 0 <= k < |requests + r| ==> IsFetchable((requests + r)[k].offset, n', size)
  {
    assert ChunkStart(n) <= ChunkStart(n');
  }

  lemma CallExitKeeps(c: Config, e: Engine, w: nat)
    requires WorkersInv(c, e) && CallEnabled(e, w)
    requires NextOffset(e.retryOffset[w], e.partIndex) > c.size
    ensures WorkersInv(c, CallNext(e, c.size, w))
  {
    SchedulerExit(c.size, e.partIndex, e.retryOffset, e.inFlight, e.tasks, e.sent, e.lost, w);
    assert CallNext(e, c.size, w) == e.(partIndex := e.partIndex + 1, tasks := e.tasks[w := Finished]);
    RequestsStayFetchable(e.requests, [], e.partIndex, e.partIndex + 1, c.size);
    assert e.requests + [] == e.requests;
  }

  lemma CallRequestKeeps(c: Config, e: Engine, w: nat)
    requires WorkersInv(c, e) && CallEnabled(e, w)
    requires NextOffset(e.retryOffset[w], e.partIndex) <= c.size
    ensures WorkersInv(c, CallNext(e, c.size, w))
  {
    var offset := NextOffset(e.retryOffset[w], e.partIndex);
    var n' := NextIndex(e.retryOffset[w], e.partIndex);
    SchedulerCall(c.size, e.partIndex, e.retryOffset, e.inFlight, e.tasks, e.sent, e.lost, w);
    RequestsStayFetchable(e.requests, [GetFile(w, offset, e.dc[w])], e.partIndex, n', c.size);
  }

  /** Starting a call keeps the invariant: it touches only the counter, the worker and the requests. */
  lemma CallInv(c: Config, e: Engine, w: nat)
    requires Inv(c, e) && e.result.None? && CallEnabled(e, w)
    ensures Inv(c, CallNext(e, c.size, w))
  {
    var e' := CallNext(e, c.size, w);
    if NextOffset(e.retryOffset[w], e.partIndex) > c.size {
      CallExitKeeps(c, e, w);
    } else {
      CallRequestKeeps(c, e, w);
    }
    assert e' == e.(partIndex := e'.partIndex, retryOffset := e'.retryOffset, inFlight := e'.inFlight,
                    tasks := e'.tasks, requests := e'.requests);
    assert Progress(c, e') == Progress(c, e);
  }

  lemma ReplySendKeeps(c: Config, e: Engine, w: nat, bytes: seq<byte>)
    requires WorkersInv(c, e) && ReplyEnabled(e, w)
    ensures WorkersInv(c, ReplyNext(e, w, FileData(bytes)))
  {
    SchedulerSend(c.size, e.partIndex, e.retryOffset, e.inFlight, e.tasks, e.sent, e.lost, w, bytes);
    TotalLengthSnoc(e.sent, Chunk(e.inFlight[w].value, bytes));
  }

  lemma ReplyRedirectKeeps(c: Config, e: Engine, w: nat, value: Option<nat>)
    requires WorkersInv(c, e) && ReplyEnabled(e, w)
    ensures WorkersInv(c, ReplyNext(e, w, RpcError(FILE_MIGRATE, value)))
  {
    SchedulerRedirect(c.size, e.partIndex, e.retryOffset, e.inFlight, e.tasks, e.sent, e.lost, w);
  }

  lemma ReplyFailKeeps(c: Config, e: Engine, w: nat, res: RpcResult)
    requires WorkersInv(c, e) && ReplyEnabled(e, w)
    requires res.OtherError? || (res.RpcError? && res.code != FILE_MIGRATE)
    ensures WorkersInv(c, ReplyNext(e, w, res))
  {
    var error := if res.OtherError? then NonRpc else Rpc(res.code, res.value);
    SchedulerFail(c.size, e.partIndex, e.retryOffset, e.inFlight, e.tasks, e.sent, e.lost, w, error);
  }

  lemma ReplyKeepsWorkers(c: Config, e: Engine, w: nat, res: RpcResult)
    requires WorkersInv(c, e) && ReplyEnabled(e, w)
    ensures WorkersInv(c, ReplyNext(e, w, res))
  {
    if res.FileData? {
      ReplySendKeeps(c, e, w, res.bytes);
    } else if res.RpcError? && res.code == FILE_MIGRATE {
      ReplyRedirectKeeps(c, e, w, res.value);
    } else {
      ReplyFailKeeps(c, e, w, res);
    }
  }

  lemma ReplyKeepsCoalescer(c: Config, e: Engine, w: nat, res: RpcResult)
    requires CoalescerInv(c, e) && OutcomeInv(c, e) && e.result.None? && ReplyEnabled(e, w)
    ensures CoalescerInv(c, ReplyNext(e, w, res)) && OutcomeInv(c, ReplyNext(e, w, res))
  {
    var e' := ReplyNext(e, w, res);
    ResultFrame(e.(inFlight := e.inFlight[w := None]), w, e.inFlight[w].value, res);
    assert Progress(c, e') == Progress(c, e);
    assert e'.sent == e'.written + e'.channel;
  }

  /** A reply keeps the invariant. */
  lemma ReplyInv(c: Config, e: Engine, w: nat, res: RpcResult)
    requires Inv(c, e) && e.result.None? && ReplyEnabled(e, w)
    ensures Inv(c, ReplyNext(e, w, res))
  {
    ReplyKeepsWorkers(c, e, w, res);
    ReplyKeepsCoalescer(c, e, w, res);
  }

  lemma RunSnoc(st: Throttle.State, readings: seq<Throttle.Reading>, r: Throttle.Reading,
                render: Throttle.Sample -> string, message: int, buttonId: seq<byte>)
    ensures var before := Throttle.Run(st, readings, PROGRESS_INTERVAL, render);
      var tick := Throttle.Step(before.final, r.now, r.downloaded, PROGRESS_INTERVAL, render);
      var after := Throttle.Run(st, readings + [r], PROGRESS_INTERVAL, render);
      after.final == tick.state
      && ProgressEffects(message, buttonId, after.edits) == ProgressEffects(message, buttonId, before.edits)
         + if tick.edit.Some? then [EditMessage(message, tick.edit.value, CancelMarkup(buttonId))] else []
  {
    assert (readings + [r])[..|readings|] == readings;
  }

  lemma ReceiveCancelKeeps(c: Config, e: Engine, now: int, ioOk: bool)
    requires Inv(c, e) && e.result.None? && e.channel != [] && e.shouldCancel
    ensures Inv(c, ReceiveNext(c, e, now, ioOk))
  {
    var e' := ReceiveNext(c, e, now, ioOk);
    SchedulerAbort(c.size, e.partIndex, e.retryOffset, e.inFlight, e.tasks, e.sent, e.lost);
    assert Progress(c, e') == Progress(c, e);
    assert WorkersInv(c, e');
    assert OutcomeInv(c, e');
  }
  /** Writing the head of the channel keeps the file equal to the written chunks applied in order. */
  lemma ReceiveWriteKeepsFile(c: Config, e: Engine, now: int)
    requires CoalescerInv(c, e) && e.channel != [] && !e.shouldCancel
    ensures var e' := ReceiveNext(c, e, now, true);
      e'.file == WriteAll(Zeros(c.size), e'.written) && e'.pos == e'.cursor
      && e'.sent == e'.written + e'.channel
  {
    var e' := ReceiveNext(c, e, now, true);
    assert e'.written[..|e'.written| - 1] == e.written;
  }

  /** Writing the head of the channel touches only the coalescer's side of the state. */
  lemma ReceiveWriteFrame(c: Config, e: Engine, now: int)
    requires e.channel != [] && !e.shouldCancel
    ensures var e' := ReceiveNext(c, e, now, true);
      e' == e.(channel := e'.channel, seeks := e'.seeks, file := e'.file, cursor := e'.cursor, pos := e'.pos,
               written := e'.written, readings := e'.readings, throttle := e'.throttle, effects := e'.effects)
  {
  }

  lemma ReceiveWriteWorkers(c: Config, e: Engine, now: int)
    requires WorkersInv(c, e) && e.channel != [] && !e.shouldCancel
    ensures WorkersInv(c, ReceiveNext(c, e, now, true))
  {
    ReceiveWriteFrame(c, e, now);
  }

  lemma ReceiveWriteCoalescer(c: Config, e: Engine, now: int)
    requires CoalescerInv(c, e) && e.channel != [] && !e.shouldCancel
    ensures CoalescerInv(c, ReceiveNext(c, e, now, true))
  {
    ReceiveWriteFrame(c, e, now);
    ReceiveWriteKeepsFile(c, e, now);
    RunSnoc(Throttle.Initial(c.start), e.readings, Throttle.Reading(now, e.downloadedSize), c.render, c.message, c.buttonId);
  }

  lemma ReceiveWriteOutcome(c: Config, e: Engine, now: int)
    requires CoalescerInv(c, e) && OutcomeInv(c, e) && e.result.None? && e.channel != [] && !e.shouldCancel
    ensures OutcomeInv(c, ReceiveNext(c, e, now, true))
  {
    ReceiveWriteFrame(c, e, now);
    RunSnoc(Throttle.Initial(c.start), e.readings, Throttle.Reading(now, e.downloadedSize), c.render, c.message, c.buttonId);
  }

  lemma ReceiveWriteKeeps(c: Config, e: Engine, now: int)
    requires Inv(c, e) && e.result.None? && e.channel != [] && !e.shouldCancel
    ensures Inv(c, ReceiveNext(c, e, now, true))
  {
    ReceiveWriteWorkers(c, e, now);
    ReceiveWriteCoalescer(c, e, now);
    ReceiveWriteOutcome(c, e, now);
  }

  /** A receive keeps the invariant. */
  lemma ReceiveInv(c: Config, e: Engine, now: int, ioOk: bool)
    requires Inv(c, e) && e.result.None? && e.channel != []
    ensures Inv(c, ReceiveNext(c, e, now, ioOk))
  {
    if e.shouldCancel {
      ReceiveCancelKeeps(c, e, now, ioOk);
    } else if ioOk {
      ReceiveWriteKeeps(c, e, now);
    } else {
      assert Progress(c, ReceiveNext(c, e, now, ioOk)) == Progress(c, e);
    }
  }

  lemma CloseInv(c: Config, e: Engine)
    requires Inv(c, e) && e.result.None? && e.channel == [] && AllEnded(e.tasks)
    ensures Inv(c, CloseNext(c, e))
  {
    var e' := CloseNext(c, e);
    assert CoalescerInv(c, e');
    assert OutcomeInv(c, e');
  }

  lemma CancelInv(c: Config, e: Engine)
    requires Inv(c, e)
    ensures Inv(c, e.(shouldCancel := true))
  {
    var e' := e.(shouldCancel := true);
    assert Progress(c, e') == Progress(c, e);
  }

  /** Every step keeps the invariant while the call has not returned. */
  lemma StepInv(c: Config, e: Engine, step: Step)
    requires Inv(c, e) && e.result.None?
    ensures Inv(c, StepNext(c, e, step))
  {
    match step
    case Call(w) =>
      if CallEnabled(e, w) {
        CallInv(c, e, w);
      }
    case Reply(w, res) =>
      if ReplyEnabled(e, w) {
        ReplyInv(c, e, w, res);
      }
    case Receive(now, ioOk) =>
      if e.channel != [] {
        ReceiveInv(c, e, now, ioOk);
      } else if AllEnded(e.tasks) {
        CloseInv(c, e);
      }
    case Cancel =>
      CancelInv(c, e);
  }

  /** Any schedule, run from a state that keeps the invariant, ends in one that keeps it. */
  lemma {:induction false} ExecInv(c: Config, e: Engine, schedule: seq<Step>)
    requires Inv(c, e)
    ensures Inv(c, Exec(c, e, schedule))
    decreases |schedule|
  {
    if schedule != [] && e.result.None? {
      StepInv(c, e, schedule[0]);
      ExecInv(c, StepNext(c, e, schedule[0]), schedule[1..]);
    }
  }


  /** Faithful chunks covering every chunk start below `|remote|`, written in any order over zeros, rebuild `remote`. */
  lemma FileMatchesRemote(remote: seq<byte>, sent: seq<Chunk>)
    requires forall o: nat :: o in Offsets(sent) <==> o % MAX_CHUNK_SIZE == 0 && o <= |remote|
    requires forall k :: 0 <= k < |sent| ==> Faithful(remote, sent[k])
    ensures WriteAll(Zeros(|remote|), sent) == remote
  {
    forall k | 0 <= k < |sent|
      ensures sent[k].offset % MAX_CHUNK_SIZE == 0
    {
      assert Offsets(sent)[k] == sent[k].offset;
      assert sent[k].offset in Offsets(sent);
    }
    WriteAllFaithful(remote, Zeros(|remote|), sent);
    forall p | 0 <= p < |remote|
      ensures WriteAll(Zeros(|remote|), sent)[p] == remote[p]
    {
      StartOfPosition(p);
    }
  }

  lemma StartOfPosition(p: nat)
    ensures ChunkStart(p / MAX_CHUNK_SIZE) <= p && ChunkStart(p / MAX_CHUNK_SIZE) % MAX_CHUNK_SIZE == 0
  {
  }

  /** An Ok outcome with the file in place comes from a normal close with every worker finished. */
  lemma CompletedState(c: Config, e: Engine)
    requires Inv(c, e) && e.result == Some(Ok(Unit)) && e.fileExists
    ensures e.completed && e.written == e.sent && e.file == WriteAll(Zeros(c.size), e.sent)
    ensures forall w :: 0 <= w < |e.tasks| ==> e.tasks[w] == Finished
    ensures e.effects != [] && e.effects[|e.effects| - 1] == EditMessage(c.message, CompleteText(c.path), [])
  {
  }

  /**
   * A call that returned Ok with the file in place, with at least one worker, fetched
   * every chunk start in [0, size] exactly once (`size / MAX_CHUNK_SIZE + 1` chunks),
   * ended with "Download Complete!", and, when every chunk the server sent is the remote
   * object's slice at its offset, left the file equal to the remote object.
   */
  lemma CompletedDownload(c: Config, e: Engine, remote: seq<byte>)
    requires Inv(c, e) && e.result == Some(Ok(Unit)) && e.fileExists && c.workers >= 1
    ensures forall o: nat :: o in Offsets(e.sent) <==> o % MAX_CHUNK_SIZE == 0 && o <= c.size
    ensures forall a, b :: 0 <= a < b < |e.sent| ==> e.sent[a].offset != e.sent[b].offset
    ensures |e.sent| == c.size / MAX_CHUNK_SIZE + 1
    ensures e.effects != [] && e.effects[|e.effects| - 1] == EditMessage(c.message, CompleteText(c.path), [])
    ensures |remote| == c.size && (forall k :: 0 <= k < |e.sent| ==> Faithful(remote, e.sent[k])) ==> e.file == remote
  {
    CompletedState(c, e);
    SchedulerComplete(c.size, e.partIndex, e.retryOffset, e.inFlight, e.tasks, e.sent, e.lost);
    ChunkCount(c.size, e.sent);
    if |remote| == c.size && (forall k :: 0 <= k < |e.sent| ==> Faithful(remote, e.sent[k])) {
      FileMatchesRemote(remote, e.sent);
    }
  }

  /**
   * A call that returned Ok without the file was cancelled: it removed the file, no task
   * is left running, and its last message is "Download Cancelled".
   */
  lemma CancelledDownload(c: Config, e: Engine)
    requires Inv(c, e) && e.result == Some(Ok(Unit)) && !e.fileExists
    ensures AllEnded(e.tasks)
    ensures e.effects != [] && e.effects[|e.effects| - 1] == EditMessage(c.message, CANCELLED_TEXT, [])
  {
  }

  /**
   * The progress edits of any run: they go before the closing message, no two successive
   * ones carry the same text, and successive ones are at least 5 s apart, the first at
   * least 5 s after the start.
   */
  lemma ProgressOfDownload(c: Config, e: Engine)
    requires OutcomeInv(c, e)
    ensures var edits := Progress(c, e).edits;
      |edits| <= |e.effects| <= |edits| + 1
      && e.effects[..|edits|] == ProgressEffects(c.message, c.buttonId, edits)
      && (edits != [] ==> edits[0].at >= c.start + PROGRESS_INTERVAL)
      && forall i, j :: 0 <= i < j < |edits| && j == i + 1 ==> edits[i].text != edits[j].text && edits[j].at >= edits[i].at + PROGRESS_INTERVAL
  {
    Throttle.RunEditsDistinctAndSpaced(Throttle.Initial(c.start), e.readings, PROGRESS_INTERVAL, c.render);
    var edits := Progress(c, e).edits;
    assert e.effects[..|edits|] == ProgressEffects(c.message, c.buttonId, edits);
  }

  /**
   * Everything the call promises about its outputs once allocation succeeded and the
   * schedule left the download in state `e`.
   */
  lemma DownloadOutcome(size: nat, path: string, workers: nat, message: int, buttonId: seq<byte>,
                        render: Throttle.Sample -> string, start: int, e: Engine, remote: seq<byte>,
                        r: Option<Result<Unit, DownloadError>>, effects: seq<Effect>, file: seq<byte>, fileExists: bool,
                        requests: seq<Request>, sent: seq<Chunk>, edits: seq<Throttle.SentEdit>)
    requires Inv(Config(size, path, workers, message, buttonId, render, start), e)
    requires r == e.result && effects == e.effects && file == e.file && fileExists == e.fileExists
    requires requests == e.requests && sent == e.sent
    requires edits == Progress(Config(size, path, workers, message, buttonId, render, start), e).edits
    ensures forall k :: 0 <= k < |requests| ==> requests[k].offset % MAX_CHUNK_SIZE == 0 && requests[k].offset <= size
    ensures |edits| <= |effects| <= |edits| + 1
      && effects[..|edits|] == ProgressEffects(message, buttonId, edits)
      && (edits != [] ==> edits[0].at >= start + PROGRESS_INTERVAL)
      && forall i, j :: 0 <= i < j < |edits| && j == i + 1 ==> edits[i].text != edits[j].text && edits[j].at >= edits[i].at + PROGRESS_INTERVAL
    ensures r == Some(Ok(Unit)) && fileExists && workers >= 1 ==>
      (forall o: nat :: o in Offsets(sent) <==> o % MAX_CHUNK_SIZE == 0 && o <= size)
      && (forall a, b :: 0 <= a < b < |sent| ==> sent[a].offset != sent[b].offset)
      && |sent| == size / MAX_CHUNK_SIZE + 1
      && effects != [] && effects[|effects| - 1] == EditMessage(message, CompleteText(path), [])
      && (|remote| == size && (forall k :: 0 <= k < |sent| ==> Faithful(remote, sent[k])) ==> file == remote)
    ensures r == Some(Ok(Unit)) && !fileExists ==>
      effects != [] && effects[|effects| - 1] == EditMessage(message, CANCELLED_TEXT, [])
    ensures r.Some? && r.value.Err? && r.value.error.Worker? ==>
      effects != [] && effects[|effects| - 1] == EditMessage(message, CompleteText(path), [])
    ensures r == Some(Err(Io)) ==> fileExists && effects == ProgressEffects(message, buttonId, edits)
  {
    var c := Config(size, path, workers, message, buttonId, render, start);
    ProgressOfDownload(c, e);
    if r == Some(Ok(Unit)) && fileExists && workers >= 1 {
      CompletedDownload(c, e, remote);
    }
    if r == Some(Ok(Unit)) && !fileExists {
      CancelledDownload(c, e);
    }
    if r == Some(Err(Io)) {
      assert effects == ProgressEffects(message, buttonId, edits) + [];
    }
  }

  // ---------------------------------------------------------------- the call

  /** The state of one `download_media_concurrent` call, updated in place by its workers and its coalescer. */
  class ConcurrentDownload {
    const size: nat
    const path: string
    const workers: nat
    const message: int
    const buttonId: seq<byte>
    const render: Throttle.Sample -> string
    const start: int

    var partIndex: nat
    var downloadedSize: nat
    var shouldCancel: bool
    var retryOffset: seq<Option<nat>>
    var inFlight: seq<Option<nat>>
    var dc: seq<Option<nat>>
    var tasks: seq<TaskState>
    var channel: seq<Chunk>
    var requests: seq<Request>
    var file: seq<byte>
    var fileExists: bool
    var cursor: nat
    var seeks: seq<nat>
    var pos: nat
    var throttle: Throttle.State
    var effects: seq<Effect>
    var result: Option<Result<Unit, DownloadError>>

    ghost var sent: seq<Chunk>
    ghost var written: seq<Chunk>
    ghost var lost: set<nat>
    ghost var readings: seq<Throttle.Reading>
    ghost var final: seq<Effect>
    ghost var completed: bool

    function Cfg(): Config
    {
      Config(size, path, workers, message, buttonId, render, start)
    }

    ghost function State(): Engine
      reads this
    {
      Engine(partIndex, downloadedSize, shouldCancel, retryOffset, inFlight, dc, tasks, channel, requests,
             file, fileExists, cursor, seeks, pos, throttle, effects, result,
             sent, written, lost, readings, final, completed)
    }

    ghost predicate Valid()
      reads this
    {
      Inv(Cfg(), State())
    }

    /** Allocation (the file created and sized to `size`, the handle at 0) and the workers' start. */
    constructor (size: nat, path: string, workers: nat, message: int, buttonId: seq<byte>,
                 render: Throttle.Sample -> string, start: int)
      ensures this.size == size && this.path == path && this.workers == workers && this.message == message
      ensures this.buttonId == buttonId && this.render == render && this.start == start
      ensures State() == Initial(Cfg()) && Valid()
    {
      this.size := size;
      this.path := path;
      this.workers := workers;
      this.message := message;
      this.buttonId := buttonId;
      this.render := render;
      this.start := start;
      partIndex := 0;
      downloadedSize := 0;
      shouldCancel := false;
      retryOffset := seq(workers, _ => None);
      inFlight := seq(workers, _ => None);
      dc := seq(workers, _ => None);
      tasks := seq(workers, _ => Running);
      channel := [];
      requests := [];
      file := Zeros(size);
      fileExists := true;
      cursor := 0;
      seeks := [];
      pos := 0;
      throttle := Throttle.Initial(start);
      effects := [];
      result := None;
      sent := [];
      written := [];
      lost := {};
      readings := [];
      final := [];
      completed := false;
      new;
      InitialInv(Cfg());
    }

    /** Lock `part_index`, increment it, and hand out the chunk start it held. */
    method Claim() returns (offset: nat)
      modifies this`partIndex
      ensures partIndex == old(partIndex) + 1 && offset == ChunkStart(old(partIndex))
    {
      partIndex := partIndex + 1;
      offset := MAX_CHUNK_SIZE * (partIndex - 1);
    }

    /** Worker `w` starts an iteration of its loop: it takes its next offset and, unless past `size`, calls for it. */
    method WorkerCall(w: nat)
      requires Valid() && result.None? && w < |tasks| && tasks[w].Running? && inFlight[w].None?
      modifies this
      ensures State() == CallNext(old(State()), size, w)
      ensures Valid()
    {
      CallInv(Cfg(), State(), w);
      BeginIteration(w);
    }

    method BeginIteration(w: nat)
      requires |retryOffset| == |inFlight| == |dc| == |tasks| && w < |tasks|
      modifies this
      ensures State() == CallNext(old(State()), size, w)
    {
      var offset := TakeOffset(w);
      if offset > size {
        tasks := tasks[w := Finished];
      } else {
        SendRequest(w, offset);
      }
    }

    method TakeOffset(w: nat) returns (offset: nat)
      requires w < |retryOffset|
      modifies this`partIndex, this`retryOffset
      ensures State() == TakeOffsetNext(old(State()), w) && offset == NextOffset(old(retryOffset[w]), old(partIndex))
    {
      if retryOffset[w].Some? {
        offset := retryOffset[w].value;
        retryOffset := retryOffset[w := None];
      } else {
        offset := Claim();
      }
    }

    /** `invoke`/`invoke_in_dc` of `upload.getFile` at `offset`, to the data centre `dc` names. */
    method SendRequest(w: nat, offset: nat)
      requires w < |dc| && w < |inFlight|
      modifies this`requests, this`inFlight
      ensures State() == RequestNext(old(State()), w, offset)
    {
      requests := requests + [GetFile(w, offset, dc[w])];
      inFlight := inFlight[w := Some(offset)];
    }

    /** The call worker `w` awaits returns `res`, and the worker handles it. */
    method WorkerReply(w: nat, res: RpcResult)
      requires Valid() && result.None? && w < |tasks| && tasks[w].Running? && inFlight[w].Some?
      modifies this
      ensures State() == ReplyNext(old(State()), w, res)
      ensures Valid()
    {
      ReplyInv(Cfg(), State(), w, res);
      EndIteration(w, res);
    }

    method EndIteration(w: nat, res: RpcResult)
      requires |retryOffset| == |inFlight| == |dc| == |tasks| && w < |tasks| && inFlight[w].Some?
      modifies this
      ensures State() == ReplyNext(old(State()), w, res)
    {
      var offset := inFlight[w].value;
      inFlight := inFlight[w := None];
      match res
      case FileData(bytes) =>
        Deliver(Chunk(offset, bytes));
      case RpcError(code, value) =>
        if code == FILE_MIGRATE {
          Redirect(w, offset, value);
        } else {
          Fail(w, offset, Rpc(code, value));
        }
      case OtherError =>
        Fail(w, offset, NonRpc);
    }

    /** Count the bytes and send the chunk into the channel. */
    method Deliver(chunk: Chunk)
      modifies this`downloadedSize, this`channel, this`sent
      ensures State() == old(State()).(downloadedSize := old(downloadedSize) + |chunk.bytes|,
                                       channel := old(channel) + [chunk], sent := old(sent) + [chunk])
    {
      downloadedSize := downloadedSize + |chunk.bytes|;
      channel := channel + [chunk];
      sent := sent + [chunk];
    }

    /** `FILE_MIGRATE` (303): remember the data centre and retry the same offset. */
    method Redirect(w: nat, offset: nat, value: Option<nat>)
      requires w < |retryOffset| && w < |dc|
      modifies this`dc, this`retryOffset
      ensures State() == old(State()).(retryOffset := old(retryOffset)[w := Some(offset)], dc := old(dc)[w := value])
    {
      dc := dc[w := value];
      retryOffset := retryOffset[w := Some(offset)];
    }

    /** Any other error ends the worker with it; its offset is never fetched. */
    method Fail(w: nat, offset: nat, error: InvocationError)
      requires w < |tasks|
      modifies this`tasks, this`lost
      ensures State() == old(State()).(tasks := old(tasks)[w := Failed(error)], lost := old(lost) + {offset})
    {
      tasks := tasks[w := Failed(error)];
      lost := lost + {offset};
    }

    /** The cancel button sets `should_cancel`. */
    method RequestCancel()
      requires Valid()
      modifies this`shouldCancel
      ensures State() == old(State()).(shouldCancel := true)
      ensures Valid()
    {
      CancelInv(Cfg(), State());
      shouldCancel := true;
    }

    /** `for task in tasks { task.abort() }` */
    method AbortTasks()
      modifies this`tasks
      ensures tasks == AbortAll(old(tasks))
    {
      var i := 0;
      while i < |tasks|
        invariant 0 <= i <= |tasks| && |tasks| == |old(tasks)|
        invariant forall v :: 0 <= v < |tasks| ==>
          tasks[v] == if v < i && old(tasks)[v].Running? then Aborted else old(tasks)[v]
      {
        if tasks[i].Running? {
          tasks := tasks[i := Aborted];
        }
        i := i + 1;
      }
    }

    /** One chunk received by the coalescer. */
    method Receive(now: int, ioOk: bool)
      requires Valid() && result.None? && channel != []
      modifies this
      ensures State() == ReceiveNext(Cfg(), old(State()), now, ioOk)
      ensures Valid()
    {
      ReceiveInv(Cfg(), State(), now, ioOk);
      ReceiveChunk(now, ioOk);
    }

    method ReceiveChunk(now: int, ioOk: bool)
      requires channel != []
      modifies this
      ensures State() == ReceiveNext(Cfg(), old(State()), now, ioOk)
    {
      var chunk := channel[0];
      channel := channel[1..];
      if shouldCancel {
        CancelDownload();
      } else if !ioOk {
        result := Some(Err(Io));
      } else {
        WriteChunk(chunk, now);
      }
    }

    /** Abort every task, delete the file and edit "Download Cancelled". */
    method CancelDownload()
      modifies this`tasks, this`fileExists, this`effects, this`final, this`result
      ensures State() == CancelledNext(Cfg(), old(State()))
    {
      Abandon();
    }

    method Abandon()
      modifies this`tasks, this`fileExists, this`effects, this`final, this`result
      ensures tasks == AbortAll(old(tasks)) && !fileExists && result == Some(Ok(Unit))
      ensures effects == old(effects) + [EditMessage(message, CANCELLED_TEXT, [])]
      ensures final == [EditMessage(message, CANCELLED_TEXT, [])]
    {
      AbortTasks();
      fileExists := false;
      effects := effects + [EditMessage(message, CANCELLED_TEXT, [])];
      final := [EditMessage(message, CANCELLED_TEXT, [])];
      result := Some(Ok(Unit));
    }

    method WriteChunk(chunk: Chunk, now: int)
      modifies this
      ensures State() == WriteNext(Cfg(), old(State()), chunk, now)
    {
      Store(chunk);
      Report(now);
    }

    /** Seek unless the chunk starts where the previous one ended, then write it. */
    method Store(chunk: Chunk)
      modifies this`seeks, this`cursor, this`file, this`pos, this`written
      ensures State() == StoreNext(old(State()), chunk)
    {
      SeekAndWrite(chunk);
    }

    method SeekAndWrite(chunk: Chunk)
      modifies this`seeks, this`cursor, this`file, this`pos, this`written
      ensures var at := if chunk.offset != old(pos) then chunk.offset else old(cursor);
        seeks == old(seeks) + (if chunk.offset != old(pos) then [chunk.offset] else [])
        && file == WriteAt(old(file), at, chunk.bytes) && cursor == at + |chunk.bytes|
      ensures pos == chunk.offset + |chunk.bytes| && written == old(written) + [chunk]
    {
      if chunk.offset != pos {
        seeks := seeks + [chunk.offset];
        cursor := chunk.offset;
      }
      file := WriteAt(file, cursor, chunk.bytes);
      cursor := cursor + |chunk.bytes|;
      pos := chunk.offset + |chunk.bytes|;
      written := written + [chunk];
    }

    /** The throttled progress edit. */
    method Report(now: int)
      modifies this`readings, this`throttle, this`effects
      ensures State() == ReportNext(Cfg(), old(State()), now)
    {
      CheckProgress(now);
    }

    method CheckProgress(now: int)
      modifies this`readings, this`throttle, this`effects
      ensures readings == old(readings) + [Throttle.Reading(now, downloadedSize)]
      ensures var tick := Throttle.Step(old(throttle), now, downloadedSize, PROGRESS_INTERVAL, render);
        throttle == tick.state
        && effects == old(effects) + if tick.edit.Some? then [EditMessage(message, tick.edit.value, CancelMarkup(buttonId))] else []
    {
      readings := readings + [Throttle.Reading(now, downloadedSize)];
      var tick := Throttle.Step(throttle, now, downloadedSize, PROGRESS_INTERVAL, render);
      throttle := tick.state;
      if tick.edit.Some? {
        effects := effects + [EditMessage(message, tick.edit.value, CancelMarkup(buttonId))];
      }
    }

    /** `for task in tasks { task.await?...? }`: the error of the first failed task, in spawn order. */
    method AwaitTasks() returns (r: Result<Unit, DownloadError>)
      ensures r == if FirstFailure(tasks).None? then Ok(Unit) else Err(Worker(FirstFailure(tasks).value))
    {
      var i := 0;
      while i < |tasks|
        invariant 0 <= i <= |tasks|
        invariant FirstFailure(tasks) == FirstFailure(tasks[i..])
      {
        if tasks[i].Failed? {
          return Err(Worker(tasks[i].error));
        }
        assert tasks[i..][1..] == tasks[i + 1..];
        i := i + 1;
      }
      return Ok(Unit);
    }

    /** The channel has closed: edit "Download Complete!", then report the first failed worker. */
    method Close()
      requires Valid() && result.None? && channel == [] && AllEnded(tasks)
      modifies this
      ensures State() == CloseNext(Cfg(), old(State()))
      ensures Valid()
    {
      CloseInv(Cfg(), State());
      Finish();
    }

    method Finish()
      modifies this`effects, this`final, this`completed, this`result
      ensures State() == CloseNext(Cfg(), old(State()))
    {
      Complete();
    }

    method Complete()
      modifies this`effects, this`final, this`completed, this`result
      ensures effects == old(effects) + [EditMessage(message, CompleteText(path), [])]
      ensures final == [EditMessage(message, CompleteText(path), [])] && completed
      ensures result == Some(if FirstFailure(tasks).None? then Ok(Unit) else Err(Worker(FirstFailure(tasks).value)))
    {
      effects := effects + [EditMessage(message, CompleteText(path), [])];
      final := [EditMessage(message, CompleteText(path), [])];
      completed := true;
      var r := AwaitTasks();
      result := Some(r);
    }

    /**
     * One step of the interleaving (see `StepNext`): a step that does not match the worker's
     * phase, or a receive on an empty channel while some worker runs, changes nothing.
     */
    method Perform(step: Step)
      requires Valid() && result.None?
      modifies this
      ensures State() == StepNext(Cfg(), old(State()), step)
      ensures Valid()
    {
      match step {
        case Call(w) =>
          if w < |tasks| && tasks[w].Running? && inFlight[w].None? {
            WorkerCall(w);
          }
        case Reply(w, res) =>
          if w < |tasks| && tasks[w].Running? && inFlight[w].Some? {
            WorkerReply(w, res);
          }
        case Receive(now, ioOk) =>
          if channel != [] {
            Receive(now, ioOk);
          } else if AllEnded(tasks) {
            Close();
          }
        case Cancel =>
          RequestCancel();
      }
    }

    /** The workers and the coalescer through `schedule`, up to the step at which the call returns. */
    method Run(schedule: seq<Step>)
      requires Valid()
      modifies this
      ensures State() == Exec(Cfg(), old(State()), schedule)
      ensures Valid()
    {
      var k := 0;
      while k < |schedule| && result.None?
        invariant 0 <= k <= |schedule| && Valid()
        invariant Exec(Cfg(), old(State()), schedule) == Exec(Cfg(), State(), schedule[k..])
        decreases |schedule| - k
      {
        ExecUnfold(Cfg(), State(), schedule, k);
        Perform(schedule[k]);
        k := k + 1;
      }
    }
  }

  /**
   * `download_media_concurrent` under the interleaving `schedule`: when the file cannot be
   * created and sized the call fails with the I/O error before any worker starts;
   * otherwise its outputs are those of the state the schedule leads to from the initial
   * one, which keeps the invariant (`InitialInv`, `ExecInv`) and so makes the promises of
   * `DownloadOutcome`; `r` is None when the schedule ends before the call returns.
   */
  method DownloadMediaConcurrent(size: nat, path: string, workers: nat, message: int, buttonId: seq<byte>,
                                 render: Throttle.Sample -> string, start: int, allocOk: bool, schedule: seq<Step>)
    returns (r: Option<Result<Unit, DownloadError>>, effects: seq<Effect>, file: seq<byte>, fileExists: bool,
             requests: seq<Request>, ghost sent: seq<Chunk>, ghost edits: seq<Throttle.SentEdit>)
    ensures !allocOk ==> r == Some(Err(Io)) && effects == [] && requests == []
    ensures allocOk ==>
      var c := Config(size, path, workers, message, buttonId, render, start);
      var e := Exec(c, Initial(c), schedule);
      r == e.result && effects == e.effects && file == e.file && fileExists == e.fileExists
      && requests == e.requests && sent == e.sent && edits == Progress(c, e).edits
  {
    if !allocOk {
      return Some(Err(Io)), [], [], false, [], [], [];
    }
    var d := new ConcurrentDownload(size, path, workers, message, buttonId, render, start);
    d.Run(schedule);
    r, effects, file, fileExists, requests := d.result, d.effects, d.file, d.fileExists, d.requests;
    sent, edits := d.sent, Progress(d.Cfg(), d.State()).edits;
  }
}

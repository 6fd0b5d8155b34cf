/**
 * The single-stream download of a document (src/message_handler/document_handler.rs):
 * `handle_document` builds the destination path and creates the directory, and `load`
 * appends the chunks of the download iterator to a new file while reporting progress.
 */
module DocumentHandler {
  import opened Common
  import opened Telegram
  import Throttle

  const PROGRESS_INTERVAL: nat := 1
  const WRITE_FAILED_TEXT := "failed to update chunk "
  const CREATE_FAILED_TEXT := "failed to create file "
  const DIRECTORY_FAILED_TEXT := "Failed to create download directory: "

  /** One call of the download iterator's `next`, and what became of its chunk. */
  datatype Pull =
    | Chunk(bytes: seq<byte>, now: int, writeOk: bool)  // a chunk, the clock when it came, whether `write_all` succeeded
    | PullFailed                                         // `next` returned an error

  datatype LoadError = TransferFailed

  datatype HandlerError = DirectoryCreation(reason: string)

  function CompleteText(path: string): string
  {
    "Download Complete!, Stored at: " + path
  }

  /** A pull the loop gets past: a chunk that was written. */
  predicate Written(p: Pull)
  {
    p.Chunk? && p.writeOk
  }

  /** The bytes of the chunks among `pulls`, in arrival order. */
  function Concat(pulls: seq<Pull>): seq<byte>
    decreases |pulls|
  {
    if pulls == [] then []
    else
      var last := pulls[|pulls| - 1];
      Concat(pulls[..|pulls| - 1]) + if last.Chunk? then last.bytes else []
  }

  /** Appending what comes later never changes what is already there. */
  lemma {:induction false} ConcatPrefix(pulls: seq<Pull>, n: nat)
    requires n <= |pulls|
    ensures Concat(pulls[..n]) <= Concat(pulls)
    decreases |pulls|
  {
    if n < |pulls| {
      var init := pulls[..|pulls| - 1];
      assert init[..n] == pulls[..n];
      ConcatPrefix(init, n);
    } else {
      assert pulls[..n] == pulls;
    }
  }

  lemma ConcatStep(pulls: seq<Pull>, i: nat)
    requires i < |pulls| && pulls[i].Chunk?
    ensures Concat(pulls[..i + 1]) == Concat(pulls[..i]) + pulls[i].bytes
  {
    assert pulls[..i + 1][..i] == pulls[..i];
  }

  /** The progress check of each chunk: its clock reading and the running size including it. */
  function Readings(pulls: seq<Pull>): seq<Throttle.Reading>
    decreases |pulls|
  {
    if pulls == [] then []
    else
      var last := pulls[|pulls| - 1];
      Readings(pulls[..|pulls| - 1]) + if last.Chunk? then [Throttle.Reading(last.now, |Concat(pulls)|)] else []
  }

  lemma ReadingsStep(pulls: seq<Pull>, i: nat)
    requires i < |pulls| && pulls[i].Chunk?
    ensures Readings(pulls[..i + 1]) == Readings(pulls[..i]) + [Throttle.Reading(pulls[i].now, |Concat(pulls[..i + 1])|)]
  {
    assert pulls[..i + 1][..i] == pulls[..i];
  }

  /** The progress edits of the given throttle trace, as client calls on message `target`. */
  function EditEffects(target: int, edits: seq<Throttle.SentEdit>): (es: seq<Effect>)
    ensures |es| == |edits|
    ensures forall k :: 0 <= k < |edits| ==> es[k] == EditMessage(target, edits[k].text, [])
  {
    seq(|edits|, k requires 0 <= k < |edits| => EditMessage(target, edits[k].text, []))
  }

  /** The throttle run over the chunks of `pulls`, starting from the clock reading `start`. */
  function Progress(start: int, pulls: seq<Pull>, render: Throttle.Sample -> string): Throttle.Trace
  {
    Throttle.Run(Throttle.Initial(start), Readings(pulls), PROGRESS_INTERVAL, render)
  }

  /** Handling chunk `i` extends the throttle run by exactly one check. */
  lemma ProgressStep(start: int, pulls: seq<Pull>, i: nat, render: Throttle.Sample -> string, target: int)
    requires i < |pulls| && pulls[i].Chunk?
    ensures var before := Progress(start, pulls[..i], render);
      var tick := Throttle.Step(before.final, pulls[i].now, |Concat(pulls[..i + 1])|, PROGRESS_INTERVAL, render);
      var after := Progress(start, pulls[..i + 1], render);
      after.final == tick.state
      && EditEffects(target, after.edits) == EditEffects(target, before.edits)
         + if tick.edit.Some? then [EditMessage(target, tick.edit.value, [])] else []
  {
    ReadingsStep(pulls, i);
    var readings := Readings(pulls[..i + 1]);
    assert readings[..|readings| - 1] == Readings(pulls[..i]);
  }

  /**
   * The progress edits of `load`: the first is not the empty text and comes at least 1 s
   * after the start, no two successive ones carry the same text, and successive ones are
   * at least 1 s apart.
   */
  lemma ProgressOfLoad(start: int, pulls: seq<Pull>, render: Throttle.Sample -> string)
    ensures var edits := Progress(start, pulls, render).edits;
      (edits != [] ==> edits[0].text != "" && edits[0].at >= start + PROGRESS_INTERVAL)
      && forall i, j :: 0 <= i < j < |edits| && j == i + 1 ==>
           edits[i].text != edits[j].text && edits[j].at >= edits[i].at + PROGRESS_INTERVAL
  {
    Throttle.RunEditsDistinctAndSpaced(Throttle.Initial(start), Readings(pulls), PROGRESS_INTERVAL, render);
  }

  /**
   * The `while let` loop of `load`: for each chunk add its length to the running size,
   * run the 1 s throttle, then append the chunk to the file. A failed pull ends the loop
   * with `pullFailed`; a failed write sends "failed to update chunk " and ends it too.
   * `stoppedAt` is the index of the pull that ended the loop, or `|pulls|`.
   */
  method CopyChunks(chatId: int, progressId: int, start: int, pulls: seq<Pull>, render: Throttle.Sample -> string)
    returns (pullFailed: bool, sent: seq<Effect>, content: seq<byte>, downloaded: nat, stoppedAt: nat)
    ensures stoppedAt <= |pulls| && content == Concat(pulls[..stoppedAt])
    ensures forall j :: 0 <= j < stoppedAt ==> Written(pulls[j])
    ensures pullFailed <==> stoppedAt < |pulls| && pulls[stoppedAt].PullFailed?
    ensures stoppedAt < |pulls| && pulls[stoppedAt].Chunk? ==> !pulls[stoppedAt].writeOk
    ensures var seen := if stoppedAt < |pulls| && pulls[stoppedAt].Chunk? then stoppedAt + 1 else stoppedAt;
      downloaded == |Concat(pulls[..seen])|
      && sent == EditEffects(progressId, Progress(start, pulls[..seen], render).edits)
                 + if seen == stoppedAt then [] else [SendMessage(chatId, WRITE_FAILED_TEXT)]
  {
    content, downloaded, sent := [], 0, [];
    var throttle := Throttle.Initial(start);
    ghost var trace := Progress(start, [], render);
    var i := 0;
    while i < |pulls|
      invariant i <= |pulls|
      invariant forall j :: 0 <= j < i ==> Written(pulls[j])
      invariant content == Concat(pulls[..i]) && downloaded == |content|
      invariant trace == Progress(start, pulls[..i], render)
      invariant throttle == trace.final && sent == EditEffects(progressId, trace.edits)
    {
      if pulls[i].PullFailed? {
        return true, sent, content, downloaded, i;
      }
      var chunk := pulls[i];
      downloaded := downloaded + |chunk.bytes|;
      ConcatStep(pulls, i);
      ProgressStep(start, pulls, i, render, progressId);
      var tick := Throttle.Step(throttle, chunk.now, downloaded, PROGRESS_INTERVAL, render);
      throttle := tick.state;
      trace := Progress(start, pulls[..i + 1], render);
      if tick.edit.Some? {
        sent := sent + [EditMessage(progressId, tick.edit.value, [])];
      }
      if !chunk.writeOk {
        sent := sent + [SendMessage(chatId, WRITE_FAILED_TEXT)];
        return false, sent, content, downloaded, i;
      }
      content := content + chunk.bytes;
      i := i + 1;
    }
    assert pulls[..i] == pulls;
    return false, sent, content, downloaded, i;
  }

  /**
   * What `load` sends once the file exists, when it stops at pull `stoppedAt`: the
   * zero-progress message, then the progress edits of the pulls it handled, then
   * "Download Complete!" when the iterator ran out, nothing more after a failed pull,
   * and the write-failure message after a chunk that could not be written.
   */
  function LoadEffects(chat: Chat, path: string, progressId: int, start: int, pulls: seq<Pull>,
                       render: Throttle.Sample -> string, stoppedAt: nat): seq<Effect>
    requires stoppedAt <= |pulls|
  {
    [SendMessage(chat.id, render(Throttle.Sample(0, 0, 0)))]
    + if stoppedAt == |pulls| then
        EditEffects(progressId, Progress(start, pulls, render).edits) + [EditMessage(progressId, CompleteText(path), [])]
      else if pulls[stoppedAt].PullFailed? then
        EditEffects(progressId, Progress(start, pulls[..stoppedAt], render).edits)
      else
        EditEffects(progressId, Progress(start, pulls[..stoppedAt + 1], render).edits) + [SendMessage(chat.id, WRITE_FAILED_TEXT)]
  }

  /**
   * `load`: create the file (failure: one message, Ok, nothing downloaded), send the
   * progress message `progressId` rendered from a zero sample, copy the chunks, and
   * finish with the "Download Complete!" edit when the iterator ran out. A failed pull
   * is an Err; a failed write is an Ok after its message.
   */
  method Load(chat: Chat, path: string, createOk: bool, progressId: int, start: int,
              pulls: seq<Pull>, render: Throttle.Sample -> string)
    returns (r: Result<Unit, LoadError>, effects: seq<Effect>, file: Option<seq<byte>>, downloaded: nat, stoppedAt: nat)
    ensures !createOk ==>
      r == Ok(Unit) && effects == [SendMessage(chat.id, CREATE_FAILED_TEXT + path)] && file == None && downloaded == 0
    ensures createOk ==> stoppedAt <= |pulls| && file == Some(Concat(pulls[..stoppedAt]))
    ensures createOk ==> forall j :: 0 <= j < stoppedAt ==> Written(pulls[j])
    ensures createOk && stoppedAt <= |pulls| ==> effects == LoadEffects(chat, path, progressId, start, pulls, render, stoppedAt)
    ensures createOk && stoppedAt == |pulls| ==> r == Ok(Unit) && downloaded == |Concat(pulls)|
    ensures createOk && stoppedAt < |pulls| && pulls[stoppedAt].PullFailed? ==>
      r == Err(TransferFailed) && downloaded == |Concat(pulls[..stoppedAt])|
    ensures createOk && stoppedAt < |pulls| && pulls[stoppedAt].Chunk? ==>
      !pulls[stoppedAt].writeOk && r == Ok(Unit) && downloaded == |Concat(pulls[..stoppedAt + 1])|
  {
    if !createOk {
      return Ok(Unit), [SendMessage(chat.id, CREATE_FAILED_TEXT + path)], None, 0, 0;
    }
    var first := SendMessage(chat.id, render(Throttle.Sample(0, 0, 0)));
    var pullFailed, sent, content;
    pullFailed, sent, content, downloaded, stoppedAt := CopyChunks(chat.id, progressId, start, pulls, render);
    file := Some(content);
    if pullFailed {
      return Err(TransferFailed), [first] + sent, file, downloaded, stoppedAt;
    }
    if stoppedAt < |pulls| {
      return Ok(Unit), [first] + sent, file, downloaded, stoppedAt;
    }
    assert pulls[..stoppedAt] == pulls;
    effects := [first] + sent + [EditMessage(progressId, CompleteText(path), [])];
    r := Ok(Unit);
  }

  /**
   * `handle_document`: the destination is the directory, "/", and the document's name.
   * If the directory cannot be created, one message explains why and the result is Err.
   * Otherwise `load` runs and whatever it returns, the result is Ok. `saved` is the
   * content of the destination file, if it was created: always a prefix of the chunks'
   * concatenation, and all of it when every chunk was pulled and written.
   */
  method HandleDocument(chat: Chat, document: Document, downloadDirectory: string,
                        createDirError: Option<string>, createFileOk: bool, progressId: int, start: int,
                        pulls: seq<Pull>, render: Throttle.Sample -> string)
    returns (r: Result<Unit, HandlerError>, effects: seq<Effect>, dest: string, saved: Option<seq<byte>>, stoppedAt: nat)
    ensures dest == downloadDirectory + "/" + document.name
    ensures createDirError.Some? ==>
      r == Err(DirectoryCreation(createDirError.value))
      && effects == [SendMessage(chat.id, DIRECTORY_FAILED_TEXT + createDirError.value)]
      && saved == None
    ensures createDirError.None? ==>
      r == Ok(Unit)
      && (saved.Some? <==> createFileOk)
      && (saved.Some? ==> saved.value <= Concat(pulls))
      && (saved.Some? && (forall j :: 0 <= j < |pulls| ==> Written(pulls[j])) ==> saved.value == Concat(pulls))
    ensures createDirError.None? && !createFileOk ==> effects == [SendMessage(chat.id, CREATE_FAILED_TEXT + dest)]
    ensures createDirError.None? && createFileOk ==>
      stoppedAt <= |pulls| && effects == LoadEffects(chat, dest, progressId, start, pulls, render, stoppedAt)
      && (forall j :: 0 <= j < stoppedAt ==> Written(pulls[j])) && (stoppedAt < |pulls| ==> !Written(pulls[stoppedAt]))
  {
    dest := downloadDirectory + "/" + document.name;
    if createDirError.Some? {
      var e := createDirError.value;
      return Err(DirectoryCreation(e)), [SendMessage(chat.id, DIRECTORY_FAILED_TEXT + e)], dest, None, 0;
    }
    var loaded, downloaded;
    loaded, effects, saved, downloaded, stoppedAt := Load(chat, dest, createFileOk, progressId, start, pulls, render);
    if saved.Some? {
      ConcatPrefix(pulls, stoppedAt);
      if forall j :: 0 <= j < |pulls| ==> Written(pulls[j]) {
        assert stoppedAt == |pulls|;
        assert pulls[..stoppedAt] == pulls;
      }
    }
    // an error of `load` is only printed
    r := Ok(Unit);
  }
}

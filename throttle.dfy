/**
 * The progress throttle shared by both download loops
 * (src/utils/download_utils.rs:115-156 with a 5 s interval,
 * src/message_handler/document_handler.rs:72-98 with a 1 s interval).
 * The clock is an abstract integer count of seconds; the rendered text is an
 * opaque function of the sample it is rendered from.
 */
module Throttle {
  import opened Common

  /** What a progress text is rendered from: bytes so far, bytes since the previous sample, seconds since it. */
  datatype Sample = Sample(downloaded: nat, sinceLast: int, elapsed: int)

  /** The loop variables `last_update_time`, `last_downloaded_size` and `last_progress_text`. */
  datatype State = State(lastUpdateTime: int, lastDownloadedSize: nat, lastProgressText: string)

  function Initial(now: int): State
  {
    State(now, 0, "")
  }

  /** The new throttle state and the edit sent, if any. */
  datatype Tick = Tick(state: State, edit: Option<string>)

  /**
   * One progress check. An edit is sent only when at least `interval` seconds have
   * elapsed AND the text differs from the last one sent; the last text changes only
   * when an edit is sent; the clock and the size reset whenever the interval has elapsed.
   */
  function Step(st: State, now: int, downloaded: nat, interval: nat, render: Sample -> string): (t: Tick)
    ensures t.edit.Some? ==>
      now - st.lastUpdateTime >= interval && t.edit.value != st.lastProgressText
      && t.edit.value == render(Sample(downloaded, downloaded - st.lastDownloadedSize, now - st.lastUpdateTime))
    ensures t.state.lastProgressText == if t.edit.Some? then t.edit.value else st.lastProgressText
    ensures now - st.lastUpdateTime >= interval ==>
      t.state.lastUpdateTime == now && t.state.lastDownloadedSize == downloaded
      && (t.edit.None? <==>
            render(Sample(downloaded, downloaded - st.lastDownloadedSize, now - st.lastUpdateTime)) == st.lastProgressText)
    ensures now - st.lastUpdateTime < interval ==> t == Tick(st, None)
  {
    if now - st.lastUpdateTime >= interval then
      var text := render(Sample(downloaded, downloaded - st.lastDownloadedSize, now - st.lastUpdateTime));
      if st.lastProgressText != text then Tick(State(now, downloaded, text), Some(text))
      else Tick(State(now, downloaded, st.lastProgressText), None)
    else
      Tick(st, None)
  }

  /** A progress check: the clock reading and the downloaded size at that moment. */
  datatype Reading = Reading(now: int, downloaded: nat)

  datatype SentEdit = SentEdit(at: int, text: string)

  datatype Trace = Trace(final: State, edits: seq<SentEdit>)

  /** The throttle applied to a sequence of checks, in order. */
  function Run(st: State, readings: seq<Reading>, interval: nat, render: Sample -> string): Trace
    decreases |readings|
  {
    if readings == [] then Trace(st, [])
    else
      var prev := Run(st, readings[..|readings| - 1], interval, render);
      var r := readings[|readings| - 1];
      var t := Step(prev.final, r.now, r.downloaded, interval, render);
      Trace(t.state, prev.edits + if t.edit.Some? then [SentEdit(r.now, t.edit.value)] else [])
  }

  /**
   * Over any run: no two successive edits carry the same text, successive edits are at
   * least `interval` apart on the clock, the first differs from the text before the run,
   * and the last text remembered is the one most recently sent.
   */
  lemma {:induction false} RunEditsDistinctAndSpaced(st: State, readings: seq<Reading>, interval: nat, render: Sample -> string)
    ensures var tr := Run(st, readings, interval, render);
      var e := tr.edits;
      tr.final.lastUpdateTime >= st.lastUpdateTime
      && (e == [] ==> tr.final.lastProgressText == st.lastProgressText)
      && (e != [] ==>
            tr.final.lastProgressText == e[|e| - 1].text
            && tr.final.lastUpdateTime >= e[|e| - 1].at
            && e[0].text != st.lastProgressText
            && e[0].at >= st.lastUpdateTime + interval)
      && forall i, j :: 0 <= i < j < |e| && j == i + 1 ==> e[i].text != e[j].text && e[j].at >= e[i].at + interval
    decreases |readings|
  {
    if readings != [] {
      RunEditsDistinctAndSpaced(st, readings[..|readings| - 1], interval, render);
    }
  }
}

/** Vocabulary shared by the server session and the viewer page: the playback
    record and the named events that travel over the socket channel. */
module Protocol {

  datatype Option<+T> = None | Some(value: T)

  /** The shared `videoState` record. `time` is a position in seconds that the
      program only stores and forwards, never computes on. */
  datatype Playback = Playback(playing: bool, time: real)

  /** The state a freshly published video starts in (and the server starts in). */
  const Reset: Playback := Playback(false, 0.0)

  /** Socket events. `LoadVideo` and `VideoState` only go from server to
      viewers, `UpdateTime` only from viewers to the server; `Play`, `Pause`
      and `Seek` travel both ways. */
  datatype Message =
    | LoadVideo(url: string)
    | VideoState(state: Playback)
    | Play
    | Pause
    | Seek(time: real)
    | UpdateTime(time: real)

  /** The value a field holds after a write `w` (None: not written). */
  function Override<T>(w: Option<T>, current: T): T
  {
    match w
    case Some(x) => x
    case None => current
  }

  /** Last-write-wins reference: the value a field holds after the events
      `xs`, where `writes` says which value (if any) each event writes,
      read from the most recent event backwards. */
  function Latest<E, T>(xs: seq<E>, writes: E -> Option<T>, init: T): T
    decreases |xs|
  {
    if xs == [] then init
    else Override(writes(xs[|xs| - 1]), Latest(xs[..|xs| - 1], writes, init))
  }
}

/** The server's shared playback session (server.js): the module-level
    `currentVideo` and `videoState`, the socket handlers that update them, and
    the publish/validation outcome of the upload route. Every handler is a
    function from the session to the next session and the emits it makes;
    class SessionServer performs the same updates in place. */
module Server {
  import opened Protocol

  /** A socket connection, identified by its id. */
  type ConnId = nat

  type Byte = bv8

  /** The session: the published video (None while `currentVideo` is null),
      the playback record, and the sockets currently connected. */
  datatype Session = Session(currentVideo: Option<string>, playback: Playback, clients: set<ConnId>)

  /** The session when the process starts: no video, paused at 0, nobody connected. */
  const Initial: Session := Session(None, Reset, {})

  /** One emit call: `socket.emit` addresses one connection, `io.emit`
      every connected one. */
  datatype Emit = Emit(to: set<ConnId>, msg: Message)

  /** The next session and the emits made, in order. */
  datatype Step = Step(next: Session, out: seq<Emit>)

  /** What the storage service reports for an upload: an error (or an
      exception thrown while starting the upload), a stored video with its
      secure URL, or neither an error nor a result. */
  datatype StorageOutcome = StoreFailed | Stored(url: string) | NoResult

  /** The HTTP answer to the uploader: none at all, 200 with the video URL,
      400 (no file data) or 500 (storage or server error). */
  datatype Reply = NoReply | Published(videoUrl: string) | BadRequest | ServerError

  datatype UploadResult = UploadResult(step: Step, reply: Reply)

  /** Socket and upload events, in the order the server's event loop runs them. */
  datatype Event =
    | Connected(id: ConnId)
    | Disconnected(id: ConnId)
    | PlayFrom(sender: ConnId)
    | PauseFrom(sender: ConnId)
    | SeekFrom(sender: ConnId, time: real)
    | UpdateTimeFrom(sender: ConnId, time: real)
    | Upload(body: Option<seq<Byte>>, outcome: StorageOutcome)

  /** JavaScript truthiness of `currentVideo`: null and "" are both falsy. */
  predicate HasVideo(v: Option<string>)
  {
    v.Some? && v.value != ""
  }

  /** Consecutive emits of `msgs`, each addressed to `to`. */
  function Broadcast(to: set<ConnId>, msgs: seq<Message>): seq<Emit>
  {
    seq(|msgs|, i requires 0 <= i < |msgs| => Emit(to, msgs[i]))
  }

  /** The messages connection `c` receives from `out`, in order. */
  function Inbox(out: seq<Emit>, c: ConnId): seq<Message>
  {
    if out == [] then []
    else (if c in out[0].to then [out[0].msg] else []) + Inbox(out[1..], c)
  }

  /** `out` delivers exactly `msgs`, in order, to every connection in `to`
      and nothing to any other connection. */
  ghost predicate Delivers(out: seq<Emit>, to: set<ConnId>, msgs: seq<Message>)
  {
    forall c :: Inbox(out, c) == if c in to then msgs else []
  }

  lemma {:induction false} InboxOfBroadcastAt(to: set<ConnId>, msgs: seq<Message>, c: ConnId)
    ensures Inbox(Broadcast(to, msgs), c) == if c in to then msgs else []
    decreases |msgs|
  {
    if msgs != [] {
      var b := Broadcast(to, msgs);
      assert b[1..] == Broadcast(to, msgs[1..]);
      InboxOfBroadcastAt(to, msgs[1..], c);
      assert msgs == [msgs[0]] + msgs[1..];
    }
  }

  lemma BroadcastDelivers(to: set<ConnId>, msgs: seq<Message>)
    ensures Delivers(Broadcast(to, msgs), to, msgs)
  {
    forall c ensures Inbox(Broadcast(to, msgs), c) == if c in to then msgs else [] {
      InboxOfBroadcastAt(to, msgs, c);
    }
  }

  lemma {:induction false} InboxAppend(a: seq<Emit>, b: seq<Emit>, c: ConnId)
    ensures Inbox(a + b, c) == Inbox(a, c) + Inbox(b, c)
    decreases |a|
  {
    if a == [] {
      assert a + b == b;
    } else {
      assert (a + b)[1..] == a[1..] + b;
      InboxAppend(a[1..], b, c);
    }
  }

  // ---- socket handlers (server.js, io.on('connection', ...)) ----

  /** A new connection joins the broadcast set; if a video is published it
      alone is sent that video and then the current playback state. */
  function OnConnect(s: Session, id: ConnId): (r: Step)
    ensures r.next.currentVideo == s.currentVideo && r.next.playback == s.playback
    ensures r.next.clients == s.clients + {id}
    ensures HasVideo(s.currentVideo) ==>
              Delivers(r.out, {id}, [LoadVideo(s.currentVideo.value), VideoState(s.playback)])
    ensures !HasVideo(s.currentVideo) ==> r.out == []
  {
    var msgs := if HasVideo(s.currentVideo)
                then [LoadVideo(s.currentVideo.value), VideoState(s.playback)]
                else [];
    BroadcastDelivers({id}, msgs);
    Step(s.(clients := s.clients + {id}), Broadcast({id}, msgs))
  }

  /** A disconnect only leaves the broadcast set. */
  function OnDisconnect(s: Session, id: ConnId): (r: Step)
    ensures r.next.currentVideo == s.currentVideo && r.next.playback == s.playback
    ensures r.next.clients == s.clients - {id}
    ensures r.out == []
  {
    Step(s.(clients := s.clients - {id}), [])
  }

  /** `play` marks the session playing and is echoed to every connection,
      the sender included. */
  function OnPlay(s: Session, sender: ConnId): (r: Step)
    ensures r.next.playback.playing
    ensures r.next.playback.time == s.playback.time
    ensures r.next.currentVideo == s.currentVideo && r.next.clients == s.clients
    ensures Delivers(r.out, s.clients, [Play])
    ensures sender in s.clients ==> Inbox(r.out, sender) == [Play]
  {
    BroadcastDelivers(s.clients, [Play]);
    Step(s.(playback := s.playback.(playing := true)), Broadcast(s.clients, [Play]))
  }

  /** `pause` marks the session paused and is echoed to every connection,
      the sender included. */
  function OnPause(s: Session, sender: ConnId): (r: Step)
    ensures !r.next.playback.playing
    ensures r.next.playback.time == s.playback.time
    ensures r.next.currentVideo == s.currentVideo && r.next.clients == s.clients
    ensures Delivers(r.out, s.clients, [Pause])
    ensures sender in s.clients ==> Inbox(r.out, sender) == [Pause]
  {
    BroadcastDelivers(s.clients, [Pause]);
    Step(s.(playback := s.playback.(playing := false)), Broadcast(s.clients, [Pause]))
  }

  /** `seek(t)` records t as the position and is echoed to every connection,
      the sender included; whether the session plays is untouched. */
  function OnSeek(s: Session, sender: ConnId, t: real): (r: Step)
    ensures r.next.playback.time == t
    ensures r.next.playback.playing == s.playback.playing
    ensures r.next.currentVideo == s.currentVideo && r.next.clients == s.clients
    ensures Delivers(r.out, s.clients, [Seek(t)])
    ensures sender in s.clients ==> Inbox(r.out, sender) == [Seek(t)]
  {
    BroadcastDelivers(s.clients, [Seek(t)]);
    Step(s.(playback := s.playback.(time := t)), Broadcast(s.clients, [Seek(t)]))
  }

  /** `updateTime(t)` is a silent heartbeat: it records t and sends nothing. */
  function OnUpdateTime(s: Session, sender: ConnId, t: real): (r: Step)
    ensures r.next.playback.time == t
    ensures r.next.playback.playing == s.playback.playing
    ensures r.next.currentVideo == s.currentVideo && r.next.clients == s.clients
    ensures r.out == []
  {
    Step(s.(playback := s.playback.(time := t)), [])
  }

  // ---- the upload route (server.js, app.post('/upload', ...)) ----

  /** Publishing a stored video: it becomes the current video, playback is
      reset, and every connection is sent the video and then the reset state. */
  function OnPublish(s: Session, url: string): (r: Step)
    ensures r.next.currentVideo == Some(url)
    ensures r.next.playback == Reset && !r.next.playback.playing && r.next.playback.time == 0.0
    ensures r.next.clients == s.clients
    ensures Delivers(r.out, s.clients, [LoadVideo(url), VideoState(Reset)])
  {
    BroadcastDelivers(s.clients, [LoadVideo(url), VideoState(Reset)]);
    Step(Session(Some(url), Reset, s.clients), Broadcast(s.clients, [LoadVideo(url), VideoState(Reset)]))
  }

  /** An upload request with `body` whose storage attempt ends in `outcome`.
      A missing or empty body is refused with 400 before storage is tried; a
      storage error gives 500; only a stored video publishes. Every refusal
      leaves the session as it was and sends nothing on the sockets. */
  function OnUpload(s: Session, body: Option<seq<Byte>>, outcome: StorageOutcome): (r: UploadResult)
    ensures r.reply == BadRequest <==> body.None? || |body.value| == 0
    ensures r.reply == ServerError <==> body.Some? && |body.value| > 0 && outcome == StoreFailed
    ensures r.reply == NoReply <==> body.Some? && |body.value| > 0 && outcome == NoResult
    ensures r.reply.Published? <==> body.Some? && |body.value| > 0 && outcome.Stored?
    ensures r.reply.Published? ==> r.reply.videoUrl == outcome.url && r.step == OnPublish(s, outcome.url)
    ensures !r.reply.Published? ==> r.step == Step(s, [])
  {
    if body.None? || |body.value| == 0 then UploadResult(Step(s, []), BadRequest)
    else
      match outcome
      case StoreFailed => UploadResult(Step(s, []), ServerError)
      case NoResult => UploadResult(Step(s, []), NoReply)
      case Stored(url) => UploadResult(OnPublish(s, url), Published(url))
  }

  /** Dispatch of one event to its handler. */
  function Handle(s: Session, e: Event): Step
  {
    match e
    case Connected(id) => OnConnect(s, id)
    case Disconnected(id) => OnDisconnect(s, id)
    case PlayFrom(sender) => OnPlay(s, sender)
    case PauseFrom(sender) => OnPause(s, sender)
    case SeekFrom(sender, t) => OnSeek(s, sender, t)
    case UpdateTimeFrom(sender, t) => OnUpdateTime(s, sender, t)
    case Upload(body, outcome) => OnUpload(s, body, outcome).step
  }

  /** The server process's session state, updated in place as server.js
      updates its module-level variables. */
  class SessionServer {
    var currentVideo: Option<string>
    var playing: bool
    var time: real
    var clients: set<ConnId>

    function State(): Session
      reads this
    {
      Session(currentVideo, Playback(playing, time), clients)
    }

    constructor ()
      ensures State() == Initial
    {
      currentVideo := None;
      playing := false;
      time := 0.0;
      clients := {};
    }

    method Connect(id: ConnId) returns (out: seq<Emit>)
      modifies this
      ensures State() == OnConnect(old(State()), id).next
      ensures out == OnConnect(old(State()), id).out
    {
      clients := clients + {id};
      if currentVideo.Some? && currentVideo.value != "" {
        out := [Emit({id}, LoadVideo(currentVideo.value)), Emit({id}, VideoState(Playback(playing, time)))];
      } else {
        out := [];
      }
    }

    method Disconnect(id: ConnId) returns (out: seq<Emit>)
      modifies this
      ensures State() == OnDisconnect(old(State()), id).next
      ensures out == OnDisconnect(old(State()), id).out
    {
      clients := clients - {id};
      out := [];
    }

    method Play(sender: ConnId) returns (out: seq<Emit>)
      modifies this
      ensures State() == OnPlay(old(State()), sender).next
      ensures out == OnPlay(old(State()), sender).out
    {
      playing := true;
      out := [Emit(clients, Message.Play)];
    }

    method Pause(sender: ConnId) returns (out: seq<Emit>)
      modifies this
      ensures State() == OnPause(old(State()), sender).next
      ensures out == OnPause(old(State()), sender).out
    {
      playing := false;
      out := [Emit(clients, Message.Pause)];
    }

    method Seek(sender: ConnId, t: real) returns (out: seq<Emit>)
      modifies this
      ensures State() == OnSeek(old(State()), sender, t).next
      ensures out == OnSeek(old(State()), sender, t).out
    {
      time := t;
      out := [Emit(clients, Message.Seek(t))];
    }

    method UpdateTime(sender: ConnId, t: real) returns (out: seq<Emit>)
      modifies this
      ensures State() == OnUpdateTime(old(State()), sender, t).next
      ensures out == OnUpdateTime(old(State()), sender, t).out
    {
      time := t;
      out := [];
    }

    method Publish(url: string) returns (out: seq<Emit>)
      modifies this
      ensures State() == OnPublish(old(State()), url).next
      ensures out == OnPublish(old(State()), url).out
    {
      currentVideo := Some(url);
      playing, time := false, 0.0;
      out := [Emit(clients, LoadVideo(url)), Emit(clients, VideoState(Playback(playing, time)))];
    }

    method Upload(body: Option<seq<Byte>>, outcome: StorageOutcome) returns (reply: Reply, out: seq<Emit>)
      modifies this
      ensures State() == OnUpload(old(State()), body, outcome).step.next
      ensures out == OnUpload(old(State()), body, outcome).step.out
      ensures reply == OnUpload(old(State()), body, outcome).reply
    {
      if body.None? || |body.value| == 0 {
        return BadRequest, [];
      }
      match outcome
      case StoreFailed =>
        reply, out := ServerError, [];
      case NoResult =>
        reply, out := NoReply, [];
      case Stored(url) =>
        out := Publish(url);
        reply := Published(url);
    }
  }
}

/** The viewer page (public/script.js): the `isSeeking` echo guard, the
    handlers for events the server sends, and the handlers for events the
    video element reports. The element itself is abstract state: its source,
    its playhead position and whether it is paused. Each handler is a
    function from the page's state to the next state and the messages it
    emits to the server; class ViewerPage performs the same updates in place. */
module Client {
  import opened Protocol

  /** The part of the `<video>` element the handlers read or write. */
  datatype Player = Player(src: Option<string>, position: real, paused: bool)

  /** The page: the echo guard and the player. */
  datatype Viewer = Viewer(isSeeking: bool, player: Player)

  /** The next page state and the messages emitted to the server, in order. */
  datatype Reaction = Reaction(next: Viewer, out: seq<Message>)

  /** Notifications of the video element the page listens to. */
  datatype PlayerEvent = Played | Paused | Seeked | TimeUpdate

  /** Everything the page reacts to. */
  datatype Input = FromServer(msg: Message) | FromPlayer(e: PlayerEvent)

  // ---- events from the server ----

  /** `loadVideo(path)` points the player at `path` and reloads it. */
  function OnLoadVideo(v: Viewer, path: string): (r: Reaction)
    ensures r.next.player.src == Some(path)
    ensures r.next.player.position == v.player.position && r.next.player.paused == v.player.paused
    ensures r.next.isSeeking == v.isSeeking
    ensures r.out == []
  {
    Reaction(v.(player := v.player.(src := Some(path))), [])
  }

  /** `videoState(st)` moves the playhead to `st.time` unless a seek is
      pending, and always plays or pauses as `st` says. */
  function OnVideoState(v: Viewer, st: Playback): (r: Reaction)
    ensures r.next.player.position == (if v.isSeeking then v.player.position else st.time)
    ensures r.next.player.paused == !st.playing
    ensures r.next.player.src == v.player.src
    ensures r.next.isSeeking == v.isSeeking
    ensures r.out == []
  {
    var position := if !v.isSeeking then st.time else v.player.position;
    Reaction(v.(player := Player(v.player.src, position, !st.playing)), [])
  }

  /** A server `play` only starts the player. */
  function OnServerPlay(v: Viewer): (r: Reaction)
    ensures !r.next.player.paused
    ensures r.next.player.src == v.player.src && r.next.player.position == v.player.position
    ensures r.next.isSeeking == v.isSeeking
    ensures r.out == []
  {
    Reaction(v.(player := v.player.(paused := false)), [])
  }

  /** A server `pause` only pauses the player. */
  function OnServerPause(v: Viewer): (r: Reaction)
    ensures r.next.player.paused
    ensures r.next.player.src == v.player.src && r.next.player.position == v.player.position
    ensures r.next.isSeeking == v.isSeeking
    ensures r.out == []
  {
    Reaction(v.(player := v.player.(paused := true)), [])
  }

  /** A server `seek(t)` raises the guard and moves the playhead to t. */
  function OnServerSeek(v: Viewer, t: real): (r: Reaction)
    ensures r.next.isSeeking
    ensures r.next.player.position == t
    ensures r.next.player.src == v.player.src && r.next.player.paused == v.player.paused
    ensures r.out == []
  {
    Reaction(Viewer(true, v.player.(position := t)), [])
  }

  // ---- events from the video element ----

  /** The element started playing: reported to the server iff no seek is pending. */
  function OnPlayed(v: Viewer): (r: Reaction)
    ensures r.next == v
    ensures r.out != [] <==> !v.isSeeking
    ensures r.out != [] ==> r.out == [Play]
  {
    Reaction(v, if !v.isSeeking then [Play] else [])
  }

  /** The element paused: reported to the server iff no seek is pending. */
  function OnPaused(v: Viewer): (r: Reaction)
    ensures r.next == v
    ensures r.out != [] <==> !v.isSeeking
    ensures r.out != [] ==> r.out == [Pause]
  {
    Reaction(v, if !v.isSeeking then [Pause] else [])
  }

  /** The element finished a seek: the guard drops and the position is sent
      as a seek, whether the seek came from the server or from the viewer. */
  function OnSeeked(v: Viewer): (r: Reaction)
    ensures !r.next.isSeeking
    ensures r.next.player == v.player
    ensures r.out == [Seek(v.player.position)]
  {
    Reaction(v.(isSeeking := false), [Seek(v.player.position)])
  }

  /** The playhead advanced: the position is sent as a heartbeat iff the
      element is playing and no seek is pending. */
  function OnTimeUpdate(v: Viewer): (r: Reaction)
    ensures r.next == v
    ensures r.out != [] <==> !v.player.paused && !v.isSeeking
    ensures r.out != [] ==> r.out == [UpdateTime(v.player.position)]
  {
    Reaction(v, if !v.player.paused && !v.isSeeking then [UpdateTime(v.player.position)] else [])
  }

  /** Dispatch of one input to its listener. The page has no listener for
      `updateTime`, which the server never sends. */
  function React(v: Viewer, i: Input): Reaction
  {
    match i
    case FromServer(LoadVideo(path)) => OnLoadVideo(v, path)
    case FromServer(VideoState(st)) => OnVideoState(v, st)
    case FromServer(Play) => OnServerPlay(v)
    case FromServer(Pause) => OnServerPause(v)
    case FromServer(Seek(t)) => OnServerSeek(v, t)
    case FromServer(UpdateTime(_)) => Reaction(v, [])
    case FromPlayer(Played) => OnPlayed(v)
    case FromPlayer(Paused) => OnPaused(v)
    case FromPlayer(Seeked) => OnSeeked(v)
    case FromPlayer(TimeUpdate) => OnTimeUpdate(v)
  }

  /** The page after DOMContentLoaded: the guard is down, the player as found. */
  function Loaded(p: Player): (v: Viewer)
    ensures !v.isSeeking && v.player == p
  {
    Viewer(false, p)
  }

  /** The running page, updated in place as public/script.js updates its
      `isSeeking` variable and the video element's properties. */
  class ViewerPage {
    var isSeeking: bool
    var src: Option<string>
    var position: real
    var paused: bool

    function State(): Viewer
      reads this
    {
      Viewer(isSeeking, Player(src, position, paused))
    }

    constructor (p: Player)
      ensures State() == Loaded(p)
    {
      isSeeking := false;
      src, position, paused := p.src, p.position, p.paused;
    }

    method ReceiveLoadVideo(path: string) returns (out: seq<Message>)
      modifies this
      ensures State() == OnLoadVideo(old(State()), path).next
      ensures out == OnLoadVideo(old(State()), path).out
    {
      src := Some(path);
      out := [];
    }

    method ReceiveVideoState(st: Playback) returns (out: seq<Message>)
      modifies this
      ensures State() == OnVideoState(old(State()), st).next
      ensures out == OnVideoState(old(State()), st).out
    {
      if !isSeeking {
        position := st.time;
      }
      if st.playing {
        paused := false;
      } else {
        paused := true;
      }
      out := [];
    }

    method ReceivePlay() returns (out: seq<Message>)
      modifies this
      ensures State() == OnServerPlay(old(State())).next
      ensures out == OnServerPlay(old(State())).out
    {
      paused := false;
      out := [];
    }

    method ReceivePause() returns (out: seq<Message>)
      modifies this
      ensures State() == OnServerPause(old(State())).next
      ensures out == OnServerPause(old(State())).out
    {
      paused := true;
      out := [];
    }

    method ReceiveSeek(t: real) returns (out: seq<Message>)
      modifies this
      ensures State() == OnServerSeek(old(State()), t).next
      ensures out == OnServerSeek(old(State()), t).out
    {
      isSeeking := true;
      position := t;
      out := [];
    }

    method PlayerPlayed() returns (out: seq<Message>)
      ensures out == OnPlayed(State()).out
    {
      if !isSeeking {
        out := [Play];
      } else {
        out := [];
      }
    }

    method PlayerPaused() returns (out: seq<Message>)
      ensures out == OnPaused(State()).out
    {
      if !isSeeking {
        out := [Pause];
      } else {
        out := [];
      }
    }

    method PlayerSeeked() returns (out: seq<Message>)
      modifies this
      ensures State() == OnSeeked(old(State())).next
      ensures out == OnSeeked(old(State())).out
    {
      isSeeking := false;
      out := [Seek(position)];
    }

    method PlayerTimeUpdate() returns (out: seq<Message>)
      ensures out == OnTimeUpdate(State()).out
    {
      if !paused && !isSeeking {
        out := [UpdateTime(position)];
      } else {
        out := [];
      }
    }
  }
}

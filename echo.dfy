/** Server and page together: what happens to a seek one viewer makes. The
    server echoes every seek to all connections, the sender included, and
    the page answers every finished seek with a seek of its own, so the
    `isSeeking` guard does not stop a seek the server initiated from being
    sent back; it only silences play, pause and heartbeats while it settles. */
module Echo {
  import opened Protocol
  import opened Server
  import opened Client

  /** The page's answer to one seek the server sent to connection `id`,
      whose page is `v`, assuming the element reports `seeked` after the page
      moves its playhead: the page applies the seek and raises its guard, the
      element reports the finished seek, the page sends its position back as
      a seek, and the server handles that seek. Yields the session, the page
      and the emits the server made. */
  function Answer(s: Session, v: Viewer, id: ConnId, t: real): (Session, Viewer, seq<Emit>)
  {
    var finished := OnSeeked(OnServerSeek(v, t).next);
    var echo := OnSeek(s, id, finished.next.player.position);
    (echo.next, finished.next, echo.out)
  }

  /** A server-initiated seek comes straight back: the server sends seek(t)
      to connection `id`, the page answers with the very seek it was told to
      make, the session stays where the first seek left it, and `id` has been
      sent `seek(t)` twice, the second time as the echo of its own answer. */
  lemma SeekIsEchoedBack(s: Session, v: Viewer, id: ConnId, sender: ConnId, t: real)
    requires id in s.clients
    ensures var first := OnSeek(s, sender, t);
            var (s2, v2, echoed) := Answer(first.next, v, id, t);
            && Inbox(first.out, id) == [Seek(t)]
            && OnSeeked(OnServerSeek(v, t).next).out == [Seek(t)]
            && s2 == first.next
            && !v2.isSeeking && v2.player.position == t
            && Inbox(first.out + echoed, id) == [Seek(t), Seek(t)]
  {
    var first := OnSeek(s, sender, t);
    var echo := OnSeek(first.next, id, t);
    InboxAppend(first.out, echo.out, id);
  }

  /** n successive answers of the page, each to the echo of the previous one. */
  function Answers(s: Session, v: Viewer, id: ConnId, t: real, n: nat): (Session, Viewer, seq<Emit>)
    decreases n
  {
    if n == 0 then (s, v, [])
    else
      var (s1, v1, out1) := Answer(s, v, id, t);
      var (sn, vn, rest) := Answers(s1, v1, id, t, n - 1);
      (sn, vn, out1 + rest)
  }

  /** Once the session holds t, every answer leaves it exactly as it was and
      sends `id` one more seek(t): n answers send n seeks. */
  lemma {:induction false} AnswersKeepEchoing(s: Session, v: Viewer, id: ConnId, t: real, n: nat)
    requires id in s.clients && s.playback.time == t
    ensures Answers(s, v, id, t, n).0 == s
    ensures |Inbox(Answers(s, v, id, t, n).2, id)| == n
    ensures forall k :: 0 <= k < n ==> Inbox(Answers(s, v, id, t, n).2, id)[k] == Seek(t)
    decreases n
  {
    if n > 0 {
      var (s1, v1, out1) := Answer(s, v, id, t);
      assert s1 == s;
      assert Inbox(out1, id) == [Seek(t)];
      AnswersKeepEchoing(s1, v1, id, t, n - 1);
      InboxAppend(out1, Answers(s1, v1, id, t, n - 1).2, id);
    }
  }

  /** The exchange never settles: a seek to t from any sender, followed by n
      answers of the page, sends connection `id` exactly n + 1 seeks to t,
      and the last answer is again followed by a seek the page must apply. */
  lemma EchoNeverSettles(s: Session, v: Viewer, id: ConnId, sender: ConnId, t: real, n: nat)
    requires id in s.clients
    ensures var first := OnSeek(s, sender, t);
            var out := first.out + Answers(first.next, v, id, t, n).2;
            && |Inbox(out, id)| == n + 1
            && forall k :: 0 <= k < n + 1 ==> Inbox(out, id)[k] == Seek(t)
  {
    var first := OnSeek(s, sender, t);
    AnswersKeepEchoing(first.next, v, id, t, n);
    InboxAppend(first.out, Answers(first.next, v, id, t, n).2, id);
  }

  /** The same round trip on the running objects: the server handles a seek,
      the page applies the echo, the element reports `seeked`, and the
      page's answer is handled by the server, which sends `seek(t)` back to
      the page's own connection. */
  method SeekRoundTrip(server: SessionServer, page: ViewerPage, id: ConnId, sender: ConnId, t: real)
    returns (broadcast: seq<Emit>, echoed: seq<Emit>)
    requires id in server.clients
    modifies server, page
    ensures broadcast == OnSeek(old(server.State()), sender, t).out
    ensures server.State() == OnSeek(OnSeek(old(server.State()), sender, t).next, id, t).next
    ensures page.State() == OnSeeked(OnServerSeek(old(page.State()), t).next).next
    ensures server.time == t && server.playing == old(server.playing)
    ensures server.currentVideo == old(server.currentVideo) && server.clients == old(server.clients)
    ensures !page.isSeeking && page.position == t
    ensures page.src == old(page.src) && page.paused == old(page.paused)
    ensures Inbox(broadcast, id) == [Seek(t)] && Inbox(echoed, id) == [Seek(t)]
  {
    broadcast := server.Seek(sender, t);
    var _ := page.ReceiveSeek(t);
    var answer := page.PlayerSeeked();
    echoed := server.Seek(id, answer[0].time);
  }
}

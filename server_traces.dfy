/** The server's event loop runs one handler at a time to completion. These
    functions follow the session through a whole sequence of events, and the
    lemmas say what the session holds afterwards: each shared field is the
    last value written to it (last write wins), whichever connection wrote it. */
module ServerTraces {
  import opened Protocol
  import opened Server

  /** The session after handling `evs` in order. */
  function Final(s: Session, evs: seq<Event>): Session
    decreases |evs|
  {
    if evs == [] then s else Final(Handle(s, evs[0]).next, evs[1..])
  }

  /** Every emit made while handling `evs`, in order. */
  function Emitted(s: Session, evs: seq<Event>): seq<Emit>
    decreases |evs|
  {
    if evs == [] then []
    else Handle(s, evs[0]).out + Emitted(Handle(s, evs[0]).next, evs[1..])
  }

  // ---- which field each event writes (the reference for last write wins) ----

  /** The URL an upload publishes: only a non-empty body that was stored. */
  function PublishedUrl(e: Event): Option<string>
  {
    match e
    case Upload(body, Stored(url)) => if body.Some? && |body.value| > 0 then Some(url) else None
    case _ => None
  }

  function VideoWrittenBy(e: Event): Option<Option<string>>
  {
    match PublishedUrl(e)
    case Some(url) => Some(Some(url))
    case None => None
  }

  function PlayingWrittenBy(e: Event): Option<bool>
  {
    match e
    case PlayFrom(_) => Some(true)
    case PauseFrom(_) => Some(false)
    case _ => if PublishedUrl(e).Some? then Some(false) else None
  }

  function TimeWrittenBy(e: Event): Option<real>
  {
    match e
    case SeekFrom(_, t) => Some(t)
    case UpdateTimeFrom(_, t) => Some(t)
    case _ => if PublishedUrl(e).Some? then Some(0.0) else None
  }

  /** Whether `e` makes connection `c` join (Some(true)) or leave (Some(false)). */
  function MembershipWrittenBy(c: ConnId, e: Event): Option<bool>
  {
    match e
    case Connected(id) => if id == c then Some(true) else None
    case Disconnected(id) => if id == c then Some(false) else None
    case _ => None
  }

  /** One handler writes exactly what the tables above say, and nothing else. */
  lemma HandleWrites(s: Session, e: Event)
    ensures Handle(s, e).next.currentVideo == Override(VideoWrittenBy(e), s.currentVideo)
    ensures Handle(s, e).next.playback.playing == Override(PlayingWrittenBy(e), s.playback.playing)
    ensures Handle(s, e).next.playback.time == Override(TimeWrittenBy(e), s.playback.time)
    ensures forall c :: c in Handle(s, e).next.clients <==> Override(MembershipWrittenBy(c, e), c in s.clients)
  {
  }

  lemma {:induction false} FinalSnoc(s: Session, evs: seq<Event>, e: Event)
    ensures Final(s, evs + [e]) == Handle(Final(s, evs), e).next
    decreases |evs|
  {
    if evs == [] {
      assert evs + [e] == [e];
    } else {
      assert (evs + [e])[1..] == evs[1..] + [e];
      FinalSnoc(Handle(s, evs[0]).next, evs[1..], e);
    }
  }

  /** Last write wins: after any sequence of events from any connections,
      the video is the last one published, `playing` the effect of the last
      play, pause or publish, `time` the last seek, heartbeat or publish
      reset, and a connection is connected iff its last connect is later
      than its last disconnect. */
  lemma {:induction false} SessionIsLastWrite(s: Session, evs: seq<Event>)
    ensures Final(s, evs).currentVideo == Latest(evs, VideoWrittenBy, s.currentVideo)
    ensures Final(s, evs).playback.playing == Latest(evs, PlayingWrittenBy, s.playback.playing)
    ensures Final(s, evs).playback.time == Latest(evs, TimeWrittenBy, s.playback.time)
    ensures forall c :: c in Final(s, evs).clients <==>
                        Latest(evs, e => MembershipWrittenBy(c, e), c in s.clients)
    decreases |evs|
  {
    if evs != [] {
      var pre, e := evs[..|evs| - 1], evs[|evs| - 1];
      assert evs == pre + [e];
      FinalSnoc(s, pre, e);
      SessionIsLastWrite(s, pre);
      HandleWrites(Final(s, pre), e);
    }
  }

  /** Connection and disconnection events never touch the shared video and
      playback record: dropping them from a trace leaves both as they were. */
  function WithoutMembership(evs: seq<Event>): seq<Event>
    decreases |evs|
  {
    if evs == [] then []
    else if evs[0].Connected? || evs[0].Disconnected? then WithoutMembership(evs[1..])
    else [evs[0]] + WithoutMembership(evs[1..])
  }

  lemma {:induction false} MembershipLeavesSharedState(s: Session, t: Session, evs: seq<Event>)
    requires s.currentVideo == t.currentVideo && s.playback == t.playback
    ensures Final(s, evs).currentVideo == Final(t, WithoutMembership(evs)).currentVideo
    ensures Final(s, evs).playback == Final(t, WithoutMembership(evs)).playback
    decreases |evs|
  {
    if evs != [] {
      var e := evs[0];
      if e.Connected? || e.Disconnected? {
        MembershipLeavesSharedState(Handle(s, e).next, t, evs[1..]);
      } else {
        var rest := WithoutMembership(evs[1..]);
        assert ([e] + rest)[1..] == rest;
        MembershipLeavesSharedState(Handle(s, e).next, Handle(t, e).next, evs[1..]);
      }
    }
  }

  // ---- scenarios ----

  /** A seek followed by a heartbeat: the heartbeat's time wins, and the seek
      is the only broadcast. */
  lemma SeekThenUpdateTime(s: Session, a: ConnId, b: ConnId, t1: real, t2: real)
    ensures Final(s, [SeekFrom(a, t1), UpdateTimeFrom(b, t2)]).playback.time == t2
    ensures |Emitted(s, [SeekFrom(a, t1), UpdateTimeFrom(b, t2)])| == 1
    ensures Delivers(Emitted(s, [SeekFrom(a, t1), UpdateTimeFrom(b, t2)]), s.clients, [Seek(t1)])
  {
    var evs := [SeekFrom(a, t1), UpdateTimeFrom(b, t2)];
    assert evs[1..] == [UpdateTimeFrom(b, t2)] && evs[1..][1..] == [];
    var s1 := OnSeek(s, a, t1);
    var s2 := OnUpdateTime(s1.next, b, t2);
    assert Final(s, evs) == Final(s2.next, []);
    assert Emitted(s1.next, evs[1..]) == s2.out + Emitted(s2.next, []);
    assert Emitted(s, evs) == s1.out + (s2.out + []);
    assert s1.out + [] == s1.out;
  }

  /** Two publishes: the second URL wins, playback is reset, and every
      connection is sent each video and its reset state, in order. */
  lemma TwoPublishes(s: Session, b1: seq<Byte>, u1: string, b2: seq<Byte>, u2: string)
    requires |b1| > 0 && |b2| > 0
    ensures Final(s, [Upload(Some(b1), Stored(u1)), Upload(Some(b2), Stored(u2))]) ==
            Session(Some(u2), Reset, s.clients)
    ensures Delivers(Emitted(s, [Upload(Some(b1), Stored(u1)), Upload(Some(b2), Stored(u2))]),
                     s.clients,
                     [LoadVideo(u1), VideoState(Reset), LoadVideo(u2), VideoState(Reset)])
  {
    var evs := [Upload(Some(b1), Stored(u1)), Upload(Some(b2), Stored(u2))];
    assert evs[1..] == [Upload(Some(b2), Stored(u2))] && evs[1..][1..] == [];
    var p1 := OnPublish(s, u1);
    var p2 := OnPublish(p1.next, u2);
    assert Final(s, evs) == Final(p2.next, []);
    assert Emitted(p1.next, evs[1..]) == p2.out + Emitted(p2.next, []);
    assert Emitted(s, evs) == p1.out + (p2.out + []);
    assert p2.out + [] == p2.out;
    forall c ensures Inbox(Emitted(s, evs), c) ==
                     if c in s.clients then [LoadVideo(u1), VideoState(Reset), LoadVideo(u2), VideoState(Reset)] else []
    {
      InboxAppend(p1.out, p2.out, c);
    }
  }

  /** Three viewers watch "v1" at 42.5 s, playing; a fourth joins and is
      alone sent the video and the state; then the first pauses, and all
      four, the first included, are sent `pause`. */
  lemma LateJoinerThenPause()
    ensures var s := Session(Some("v1"), Playback(true, 42.5), {1, 2, 3});
            var join := [Connected(4)];
            var both := [Connected(4), PauseFrom(1)];
            && Inbox(Emitted(s, join), 4) == [LoadVideo("v1"), VideoState(Playback(true, 42.5))]
            && Inbox(Emitted(s, join), 1) == [] && Inbox(Emitted(s, join), 2) == []
            && Inbox(Emitted(s, join), 3) == []
            && Final(s, both) == Session(Some("v1"), Playback(false, 42.5), {1, 2, 3, 4})
            && (forall c :: Inbox(Emitted(s, both), c) ==
                              (if c == 4 then [LoadVideo("v1"), VideoState(Playback(true, 42.5))] else []) +
                              (if c in {1, 2, 3, 4} then [Pause] else []))
  {
    var s := Session(Some("v1"), Playback(true, 42.5), {1, 2, 3});
    var both := [Connected(4), PauseFrom(1)];
    assert both[1..] == [PauseFrom(1)];
    var j := OnConnect(s, 4);
    var p := OnPause(j.next, 1);
    assert Emitted(s, [Connected(4)]) == j.out + [];
    assert Emitted(s, both) == j.out + (p.out + []);
    assert p.out + [] == p.out && j.out + [] == j.out;
    forall c ensures Inbox(Emitted(s, both), c) ==
                     (if c == 4 then [LoadVideo("v1"), VideoState(Playback(true, 42.5))] else []) +
                     (if c in {1, 2, 3, 4} then [Pause] else [])
    {
      InboxAppend(j.out, p.out, c);
    }
  }
}

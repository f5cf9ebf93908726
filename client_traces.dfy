/** The page handles one input at a time. These functions follow it through
    a sequence of inputs that the server and the video element may deliver in
    any order, and the lemmas say what the `isSeeking` guard does over the
    whole sequence. */
module ClientTraces {
  import opened Protocol
  import opened Client

  /** The page after reacting to `ins` in order. */
  function After(v: Viewer, ins: seq<Input>): Viewer
    decreases |ins|
  {
    if ins == [] then v else After(React(v, ins[0]).next, ins[1..])
  }

  /** Every message the page emits while reacting to `ins`, in order. */
  function Sent(v: Viewer, ins: seq<Input>): seq<Message>
    decreases |ins|
  {
    if ins == [] then []
    else React(v, ins[0]).out + Sent(React(v, ins[0]).next, ins[1..])
  }

  /** How an input writes the guard: a server seek raises it, a finished seek
      drops it, and nothing else touches it. */
  function GuardWrittenBy(i: Input): Option<bool>
  {
    match i
    case FromServer(Seek(_)) => Some(true)
    case FromPlayer(Seeked) => Some(false)
    case _ => None
  }

  lemma ReactWritesGuard(v: Viewer, i: Input)
    ensures React(v, i).next.isSeeking == Override(GuardWrittenBy(i), v.isSeeking)
  {
  }

  lemma {:induction false} AfterSnoc(v: Viewer, ins: seq<Input>, i: Input)
    ensures After(v, ins + [i]) == React(After(v, ins), i).next
    decreases |ins|
  {
    if ins == [] {
      assert ins + [i] == [i];
    } else {
      assert (ins + [i])[1..] == ins[1..] + [i];
      AfterSnoc(React(v, ins[0]).next, ins[1..], i);
    }
  }

  /** The guard is up exactly when the most recent of the server seeks and
      finished seeks is a server seek (or, with neither, when it started up). */
  lemma {:induction false} GuardIsLatestSeek(v: Viewer, ins: seq<Input>)
    ensures After(v, ins).isSeeking == Latest(ins, GuardWrittenBy, v.isSeeking)
    decreases |ins|
  {
    if ins != [] {
      var pre, i := ins[..|ins| - 1], ins[|ins| - 1];
      assert ins == pre + [i];
      AfterSnoc(v, pre, i);
      GuardIsLatestSeek(v, pre);
      ReactWritesGuard(After(v, pre), i);
    }
  }

  /** While a seek is pending (the guard is up and the element has not yet
      reported `seeked`), the page emits nothing at all: play, pause and
      heartbeat notifications are swallowed, and server messages emit nothing. */
  lemma {:induction false} PendingSeekIsSilent(v: Viewer, ins: seq<Input>)
    requires v.isSeeking
    requires forall k :: 0 <= k < |ins| ==> ins[k] != FromPlayer(Seeked)
    ensures Sent(v, ins) == []
    ensures After(v, ins).isSeeking
    decreases |ins|
  {
    if ins != [] {
      assert ins[0] != FromPlayer(Seeked);
      var r := React(v, ins[0]);
      assert r.out == [] && r.next.isSeeking;
      PendingSeekIsSilent(r.next, ins[1..]);
    }
  }

  /** Only the element's own notifications make the page emit anything:
      what the server sends is applied to the player and never answered. */
  lemma {:induction false} ServerInputsAreNeverAnswered(v: Viewer, ins: seq<Input>)
    requires forall k :: 0 <= k < |ins| ==> ins[k].FromServer?
    ensures Sent(v, ins) == []
    decreases |ins|
  {
    if ins != [] {
      ServerInputsAreNeverAnswered(React(v, ins[0]).next, ins[1..]);
    }
  }
}

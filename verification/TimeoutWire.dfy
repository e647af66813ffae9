/**
 The timeout middleware's hold on one ASGI response: the inner application sends through a
 tracker until it returns, fails or meets the deadline, and the deadline branch then closes
 the response. The application is any list of messages. A send reaches the wire or is lost
 (the client is gone, or the deadline cancels the send itself).
 */
module TimeoutWire {

  datatype Message =
    | Start(status: int)
    | Body(content: string, more: bool)
    | Other

  datatype Send = Send(message: Message, delivered: bool)

  /** The tracker's two flags and what the client has been sent. */
  datatype Conn = Conn(started: bool, terminal: bool, wire: seq<Message>)

  const FRESH := Conn(false, false, [])

  predicate Final(m: Message) {
    m.Body? && !m.more
  }

  const TIMED_OUT: seq<Message> := [Start(504), Body("REQUEST_TIMEOUT", false)]
  const CLOSING := Body("", false)

  /** How the inner application ended. A cancellation from outside is not caught. */
  datatype Ending = Returned | Raised(isTimeout: bool, expired: bool) | Cancelled

  predicate IsDeadline(e: Ending) {
    e.Raised? && (e.isTimeout || e.expired)
  }

  /** Whether the middleware's own first and second send reach the wire. */
  datatype Own = Own(first: bool, second: bool)

  // ---- what each part does ----

  function Tracked(c: Conn, s: Send): Conn {
    if c.terminal then c
    else Conn(c.started || s.message.Start?, Final(s.message), if s.delivered then c.wire + [s.message] else c.wire)
  }

  function TrackedAll(c: Conn, sends: seq<Send>): Conn {
    if sends == [] then c else Tracked(TrackedAll(c, sends[..|sends| - 1]), sends[|sends| - 1])
  }

  /** The deadline branch. A 504 whose send fails leaves by that failure, the flag still unset. */
  function Closed(c: Conn, own: Own): Conn {
    if c.terminal then c
    else if !c.started then
      if !own.first then c
      else if !own.second then c.(wire := c.wire + TIMED_OUT[..1])
      else Conn(c.started, true, c.wire + TIMED_OUT)
    else
      Conn(c.started, true, if own.first then c.wire + [CLOSING] else c.wire)
  }

  /** A whole request, and then whatever the torn-down application still tries to send. */
  function Served(sends: seq<Send>, e: Ending, own: Own): Conn {
    var c := TrackedAll(FRESH, sends);
    if IsDeadline(e) then Closed(c, own) else c
  }

  function ServedThenLate(sends: seq<Send>, e: Ending, own: Own, late: seq<Send>): Conn {
    TrackedAll(Served(sends, e, own), late)
  }

  // ---- the middleware ----

  class Middleware {
    var started: bool
    var terminal: bool
    var wire: seq<Message>

    function State(): Conn
      reads this
    {
      Conn(started, terminal, wire)
    }

    constructor ()
      ensures State() == FRESH
    {
      started, terminal, wire := false, false, [];
    }

    method OriginalSend(m: Message, delivered: bool) returns (failed: bool)
      modifies this`wire
      ensures wire == if delivered then old(wire) + [m] else old(wire)
      ensures failed == !delivered
    {
      failed := !delivered;
      if delivered {
        wire := wire + [m];
      }
    }

    method TrackedSend(s: Send)
      modifies this
      ensures State() == Tracked(old(State()), s)
    {
      if terminal {
        return;
      }
      match s.message {
        case Start(_) => started := true;
        case Body(_, more) => if !more { terminal := true; }
        case Other =>
      }
      var _ := OriginalSend(s.message, s.delivered);
    }

    method OnDeadline(own: Own) returns (escapes: bool)
      modifies this
      ensures State() == Closed(old(State()), own)
      ensures escapes <==> !old(terminal) && !old(started) && !(own.first && own.second)
    {
      escapes := false;
      if terminal {
        return;
      }
      if !started {
        escapes := OriginalSend(TIMED_OUT[0], own.first);
        if escapes {
          return;
        }
        escapes := OriginalSend(TIMED_OUT[1], own.second);
        if escapes {
          return;
        }
        terminal := true;
        return;
      }
      var _ := OriginalSend(CLOSING, own.first);
      terminal := true;
    }

    /** One request; `escapes` says whether an error leaves the middleware. */
    method Call(sends: seq<Send>, e: Ending, own: Own) returns (escapes: bool)
      requires State() == FRESH
      modifies this
      ensures State() == Served(sends, e, own)
      ensures e == Returned ==> !escapes
      ensures (e.Raised? && !IsDeadline(e)) || e.Cancelled? ==> escapes
      ensures IsDeadline(e) ==>
                (escapes <==> FirstFinal(sends) == |sends| && !AnyStart(sends) && !(own.first && own.second))
    {
      for i := 0 to |sends|
        invariant State() == TrackedAll(FRESH, sends[..i])
      {
        TrackedSend(sends[i]);
        assert sends[..i + 1][..i] == sends[..i];
      }
      assert sends[..|sends|] == sends;
      TrackerIsTransparent(sends);
      match e
      case Returned => escapes := false;
      case Cancelled => escapes := true;
      case Raised(isTimeout, expired) =>
        if !isTimeout && !expired {
          escapes := true;
        } else {
          escapes := OnDeadline(own);
        }
    }
  }

  // ---- nothing follows the end of a response ----

  ghost predicate EndsOnce(wire: seq<Message>) {
    forall i :: 0 <= i < |wire| - 1 ==> !Final(wire[i])
  }

  /** The flag is up once the wire carries an ending; until then the wire carries none. */
  ghost predicate FlagTracksEnd(c: Conn) {
    EndsOnce(c.wire) && (c.wire != [] && Final(c.wire[|c.wire| - 1]) ==> c.terminal)
  }

  lemma {:induction false} TrackingKeepsFlag(c: Conn, sends: seq<Send>)
    requires FlagTracksEnd(c)
    ensures FlagTracksEnd(TrackedAll(c, sends))
    decreases |sends|
  {
    if sends != [] {
      TrackingKeepsFlag(c, sends[..|sends| - 1]);
    }
  }

  lemma {:induction false} TerminalStays(c: Conn, sends: seq<Send>)
    requires c.terminal
    ensures TrackedAll(c, sends) == c
    decreases |sends|
  {
    if sends != [] {
      TerminalStays(c, sends[..|sends| - 1]);
    }
  }

  /** For any application, well behaved or not, nothing on the wire follows a terminal body. */
  lemma NothingAfterTheEnd(sends: seq<Send>, e: Ending, own: Own, late: seq<Send>)
    ensures EndsOnce(ServedThenLate(sends, e, own, late).wire)
  {
    TrackingKeepsFlag(FRESH, sends);
    assert FlagTracksEnd(Served(sends, e, own));
    TrackingKeepsFlag(Served(sends, e, own), late);
  }

  // ---- one start ----

  function Starts(wire: seq<Message>): nat {
    if wire == [] then 0 else Starts(wire[..|wire| - 1]) + if wire[|wire| - 1].Start? then 1 else 0
  }

  function Messages(sends: seq<Send>): (ms: seq<Message>)
    ensures |ms| == |sends| && forall i :: 0 <= i < |ms| ==> ms[i] == sends[i].message
  {
    if sends == [] then [] else Messages(sends[..|sends| - 1]) + [sends[|sends| - 1].message]
  }

  lemma StartsOfAppend(wire: seq<Message>, m: Message)
    ensures Starts(wire + [m]) == Starts(wire) + if m.Start? then 1 else 0
  {
    assert (wire + [m])[..|wire|] == wire;
  }

  /** Tracking adds at most the starts the application sent, and none unseen by the flag. */
  lemma {:induction false} StartsTracked(c: Conn, sends: seq<Send>)
    ensures var t := TrackedAll(c, sends);
            && Starts(c.wire) <= Starts(t.wire) <= Starts(c.wire) + Starts(Messages(sends))
            && (c.started ==> t.started)
            && (!t.started ==> Starts(t.wire) == Starts(c.wire))
    decreases |sends|
  {
    if sends != [] {
      var prev := sends[..|sends| - 1];
      StartsTracked(c, prev);
      var t := TrackedAll(c, prev);
      StartsOfAppend(t.wire, sends[|sends| - 1].message);
      StartsOfAppend(Messages(prev), sends[|sends| - 1].message);
    }
  }

  lemma ClosingStarts(c: Conn, own: Own)
    ensures Starts(Closed(c, own).wire) <= Starts(c.wire) + if c.started then 0 else 1
  {
    if !c.terminal && !c.started {
      StartsOfAppend(c.wire, TIMED_OUT[0]);
      StartsOfAppend(c.wire + [TIMED_OUT[0]], TIMED_OUT[1]);
      assert c.wire + [TIMED_OUT[0]] + [TIMED_OUT[1]] == c.wire + TIMED_OUT;
      assert c.wire + TIMED_OUT[..1] == c.wire + [TIMED_OUT[0]];
    } else {
      StartsOfAppend(c.wire, CLOSING);
    }
  }

  /** The middleware adds a start only where the application has sent none. */
  lemma OneStart(sends: seq<Send>, e: Ending, own: Own)
    requires Starts(Messages(sends)) <= 1
    ensures Starts(Served(sends, e, own).wire) <= 1
  {
    StartsTracked(FRESH, sends);
    ClosingStarts(TrackedAll(FRESH, sends), own);
    assert Starts(FRESH.wire) == 0;
  }

  // ---- the deadline branch closes the response ----

  /** The application's first terminal body, or its length when it sent none. */
  function FirstFinal(sends: seq<Send>): (k: nat)
    ensures k <= |sends| && (k < |sends| ==> Final(sends[k].message))
    ensures forall i :: 0 <= i < k ==> !Final(sends[i].message)
  {
    if sends == [] then 0
    else
      var k := FirstFinal(sends[..|sends| - 1]);
      if k == |sends| - 1 && !Final(sends[k].message) then |sends| else k
  }

  predicate AnyStart(sends: seq<Send>) {
    exists i :: 0 <= i < |sends| && sends[i].message.Start?
  }

  /** Everything sent up to the first terminal body and not lost, in order. */
  function Delivered(sends: seq<Send>): (ms: seq<Message>) {
    if sends == [] then []
    else Delivered(sends[..|sends| - 1]) + if sends[|sends| - 1].delivered then [sends[|sends| - 1].message] else []
  }

  /** The tracker passes on exactly the messages up to the first terminal body. */
  lemma {:induction false} TrackerIsTransparent(sends: seq<Send>)
    ensures var c := TrackedAll(FRESH, sends);
            var k := FirstFinal(sends);
            && (c.terminal <==> k < |sends|)
            && (if k < |sends| then c.wire == Delivered(sends[..k + 1]) else c.wire == Delivered(sends))
            && (k == |sends| ==> (c.started <==> AnyStart(sends)))
    decreases |sends|
  {
    if sends != [] {
      var n := |sends| - 1;
      TrackerIsTransparent(sends[..n]);
      var k := FirstFinal(sends[..n]);
      if k < n {
        assert sends[..n][..k + 1] == sends[..k + 1];
      } else {
        assert sends[..n + 1] == sends;
        assert AnyStart(sends) <==> AnyStart(sends[..n]) || sends[n].message.Start?;
      }
    }
  }

  /** What a caller can say beforehand about which sends get through. */
  predicate EndGetsThrough(sends: seq<Send>, own: Own) {
    var k := FirstFinal(sends);
    if k < |sends| then sends[k].delivered
    else if AnyStart(sends) then own.first
    else own.first && own.second
  }

  ghost predicate EndedExactlyOnce(wire: seq<Message>) {
    wire != [] && Final(wire[|wire| - 1]) && EndsOnce(wire)
  }

  lemma {:induction false} DeliveredHasNoEnd(sends: seq<Send>)
    requires forall i :: 0 <= i < |sends| ==> !Final(sends[i].message)
    ensures forall i :: 0 <= i < |Delivered(sends)| ==> !Final(Delivered(sends)[i])
    decreases |sends|
  {
    if sends != [] {
      DeliveredHasNoEnd(sends[..|sends| - 1]);
    }
  }

  /**
   When the deadline branch runs, the wire ends with exactly one terminal body precisely when
   the send that carries it gets through; the tracker raises its flag before it sends, so a
   terminal body lost in flight is not sent again.
   */
  lemma DeadlineClosesExactlyWhen(sends: seq<Send>, e: Ending, own: Own)
    requires IsDeadline(e)
    ensures EndedExactlyOnce(Served(sends, e, own).wire) <==> EndGetsThrough(sends, own)
  {
    TrackerIsTransparent(sends);
    var k := FirstFinal(sends);
    if k < |sends| {
      DeliveredHasNoEnd(sends[..k]);
      assert sends[..k + 1][..k] == sends[..k];
    } else {
      DeliveredHasNoEnd(sends);
    }
  }

  /**
   After the deadline branch the application, however ill behaved, adds nothing, unless the
   middleware's own 504 failed half way.
   */
  lemma LateSendsAreSuppressed(sends: seq<Send>, e: Ending, own: Own, late: seq<Send>)
    requires IsDeadline(e)
    requires FirstFinal(sends) < |sends| || AnyStart(sends) || (own.first && own.second)
    ensures ServedThenLate(sends, e, own, late) == Served(sends, e, own)
  {
    TrackerIsTransparent(sends);
    TerminalStays(Served(sends, e, own), late);
  }

  // ---- a legal application ----

  /** A prefix of: one start, body chunks, one terminal body. */
  ghost predicate Legal(ms: seq<Message>) {
    && (forall i :: 0 <= i < |ms| ==> (ms[i].Start? <==> i == 0))
    && (forall i :: 0 <= i < |ms| - 1 ==> !Final(ms[i]))
    && Other !in ms
  }

  ghost predicate CompleteResponse(ms: seq<Message>) {
    Legal(ms) && |ms| >= 2 && Final(ms[|ms| - 1])
  }

  lemma {:induction false} AllDelivered(sends: seq<Send>)
    requires forall i :: 0 <= i < |sends| ==> sends[i].delivered
    ensures Delivered(sends) == Messages(sends)
    decreases |sends|
  {
    if sends != [] {
      AllDelivered(sends[..|sends| - 1]);
    }
  }

  /**
   A legal application cut at any point by the deadline, with no send lost: the client gets
   one complete response, which is everything the application sent and then, if that was not
   already complete, a 504 of its own or one empty closing chunk.
   */
  lemma {:induction false} DeadlineGivesOneCompleteResponse(sends: seq<Send>, e: Ending)
    requires IsDeadline(e) && Legal(Messages(sends))
    requires forall i :: 0 <= i < |sends| ==> sends[i].delivered
    ensures var wire := Served(sends, e, Own(true, true)).wire;
            && CompleteResponse(wire)
            && wire == Messages(sends) + (if sends == [] then [Start(504), Body("REQUEST_TIMEOUT", false)]
                                          else if Final(sends[|sends| - 1].message) then [] else [CLOSING])
  {
    TrackerIsTransparent(sends);
    AllDelivered(sends);
    var k := FirstFinal(sends);
    var ms := Messages(sends);
    if sends != [] {
      assert sends[0].message == ms[0];
      assert ms[0].Start?;
      if k < |sends| {
        assert Final(ms[k]);
        assert k == |sends| - 1;
        assert sends[..k + 1] == sends;
      } else {
        assert !Final(ms[|sends| - 1]);
      }
    }
  }

  // ---- a legal application whose sends may be lost ----

  /** The application sent its response start, and it was lost. */
  predicate StartLost(sends: seq<Send>) {
    sends != [] && !sends[0].delivered
  }

  /** What gets through of an unfinished legal response: its start first, or no start at all. */
  ghost predicate Unfinished(ms: seq<Message>, lost: bool) {
    && (forall i :: 0 <= i < |ms| ==> !Final(ms[i]) && ms[i] != Other && (ms[i].Start? <==> i == 0 && !lost))
    && (!lost ==> ms != [])
  }

  lemma {:induction false} UnfinishedGetsThrough(sends: seq<Send>)
    requires sends != [] && Legal(Messages(sends)) && FirstFinal(sends) == |sends|
    ensures Unfinished(Delivered(sends), StartLost(sends))
    decreases |sends|
  {
    var n := |sends| - 1;
    var ms := Messages(sends);
    assert ms[n] == sends[n].message && ms[n] in ms;
    if n == 0 {
      assert sends[..0] == [];
    } else {
      LegalPrefix(sends);
      UnfinishedGetsThrough(sends[..n]);
    }
  }

  lemma {:induction false} LegalPrefix(sends: seq<Send>)
    requires |sends| > 1 && Legal(Messages(sends)) && FirstFinal(sends) >= |sends| - 1
    ensures Legal(Messages(sends[..|sends| - 1])) && FirstFinal(sends[..|sends| - 1]) == |sends| - 1
  {
    var n := |sends| - 1;
    var ms, prefix := Messages(sends), Messages(sends[..n]);
    assert forall i :: 0 <= i < n ==> prefix[i] == ms[i];
    forall m | m in prefix ensures m in ms {
      var i :| 0 <= i < |prefix| && prefix[i] == m;
      assert ms[i] == m;
    }
  }

  /** An unfinished response and one terminal body: complete exactly when the start is there. */
  lemma {:induction false} ClosedIsComplete(ms: seq<Message>, lost: bool, m: Message)
    requires Unfinished(ms, lost) && Final(m)
    ensures CompleteResponse(ms + [m]) <==> !lost
  {
    var all := ms + [m];
    assert all[|ms|] == m && !m.Start? && m != Other;
    if lost {
      assert !all[0].Start?;
    }
  }

  lemma {:induction false} UnclosedIsIncomplete(ms: seq<Message>, lost: bool)
    requires Unfinished(ms, lost)
    ensures !CompleteResponse(ms)
  {
  }

  /** The application finished on its own before the deadline branch ran. */
  lemma {:induction false} FinishedResponse(sends: seq<Send>)
    requires sends != [] && Legal(Messages(sends)) && FirstFinal(sends) < |sends|
    ensures FirstFinal(sends) == |sends| - 1 && |sends| > 1
    ensures CompleteResponse(Delivered(sends)) <==> !StartLost(sends) && sends[|sends| - 1].delivered
  {
    var n := |sends| - 1;
    var ms, k := Messages(sends), FirstFinal(sends);
    assert ms[k] == sends[k].message && ms[0] == sends[0].message;
    assert k == n;
    LegalPrefix(sends);
    UnfinishedGetsThrough(sends[..n]);
    if sends[n].delivered {
      ClosedIsComplete(Delivered(sends[..n]), StartLost(sends[..n]), sends[n].message);
    } else {
      UnclosedIsIncomplete(Delivered(sends[..n]), StartLost(sends[..n]));
      assert Delivered(sends) == Delivered(sends[..n]);
    }
  }

  /**
   A legal application cut at any point by the deadline, any of its sends lost: the client gets one
   complete response exactly when the response start, if one was sent, and the send that carries
   the end get through. The tracker raises its flag before the start is sent too, so a lost start
   is followed by a closing chunk, not by a 504.
   */
  lemma {:induction false} DeadlineCompletesExactlyWhen(sends: seq<Send>, e: Ending, own: Own)
    requires IsDeadline(e) && Legal(Messages(sends))
    ensures CompleteResponse(Served(sends, e, own).wire) <==> !StartLost(sends) && EndGetsThrough(sends, own)
  {
    TrackerIsTransparent(sends);
    if sends == [] {
      NothingSent(own);
    } else if FirstFinal(sends) < |sends| {
      FinishedResponse(sends);
      assert sends[..|sends|] == sends;
    } else {
      assert Messages(sends)[0] == sends[0].message;
      UnfinishedGetsThrough(sends);
      ClosedIsComplete(Delivered(sends), StartLost(sends), CLOSING);
      UnclosedIsIncomplete(Delivered(sends), StartLost(sends));
    }
  }

  lemma NothingSent(own: Own)
    ensures CompleteResponse(Closed(FRESH, own).wire) <==> own.first && own.second
  {
    assert [] + TIMED_OUT == TIMED_OUT;
    assert [] + TIMED_OUT[..1] == TIMED_OUT[..1];
  }
}

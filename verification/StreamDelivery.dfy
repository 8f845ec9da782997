/** Delivery of one terminal session to one connected client: replay first, then live events.

    `connect` subscribes before it replays, so live events arrive while the replay is still being
    sent. Each step below is the code between two awaits; the environment chooses when the host
    publishes, when a send completes or fails, and when the client acknowledges. */
module StreamDelivery {
  import opened Wrappers
  import opened ReplayBuffer

  datatype StreamLimits = StreamLimits(maxBufferedBytes: int, maxUnacknowledgedEvents: int)

  datatype Sending = Nothing | Snapshot | Sequenced(event: Event)

  /** The variables of one `connect` call. `replaying` holds the replay events not sent yet, until
      the replay loop is left. `sent` is history: every sequenced event handed to the sink. */
  datatype Conn = Conn(
    closed: bool,
    ready: bool,
    lastAcknowledged: int,
    latestSent: int,
    sendQueue: seq<Event>,
    beforeReady: seq<Event>,
    inFlight: Sending,
    replaying: Option<seq<Event>>,
    sent: seq<Event>)

  function Opened(lastAck: int, replay: seq<Event>): Conn {
    Conn(false, false, lastAck, lastAck, [], [], Snapshot, Some(replay), [])
  }

  predicate Blocked(lim: StreamLimits, c: Conn, event: Event, buffered: int) {
    buffered > lim.maxBufferedBytes || event.sequence - c.lastAcknowledged > lim.maxUnacknowledgedEvents
  }

  function Queued(lim: StreamLimits, c: Conn, event: Event): Conn {
    if c.closed || event.sequence <= c.latestSent then c
    else if c.ready then c.(sendQueue := c.sendQueue + [event])
    else if |c.beforeReady| >= lim.maxUnacknowledgedEvents then c.(closed := true)
    else c.(beforeReady := c.beforeReady + [event])
  }

  function QueuedAll(lim: StreamLimits, c: Conn, events: seq<Event>): Conn
    decreases |events|
  {
    if events == [] then c else QueuedAll(lim, Queued(lim, c, events[0]), events[1..])
  }

  /** Leaving the replay loop: the connection is ready and takes what arrived meanwhile. */
  function MadeReady(lim: StreamLimits, c: Conn): Conn {
    QueuedAll(lim, c.(ready := true, replaying := None), c.beforeReady).(beforeReady := [])
  }

  function Handed(c: Conn, event: Event): Conn {
    c.(inFlight := Sequenced(event), sent := c.sent + [event])
  }

  function ReplayStep(lim: StreamLimits, c: Conn, buffered: int): Conn
    requires c.replaying.Some?
  {
    var events := c.replaying.value;
    if events == [] then MadeReady(lim, c)
    else if Blocked(lim, c, events[0], buffered) then MadeReady(lim, c.(closed := true))
    else Handed(c.(replaying := Some(events[1..])), events[0])
  }

  function TaskStep(lim: StreamLimits, c: Conn, buffered: int): Conn
    requires c.sendQueue != []
  {
    var event, c' := c.sendQueue[0], c.(sendQueue := c.sendQueue[1..]);
    if c.closed || event.sequence <= c.latestSent then c'
    else if Blocked(lim, c, event, buffered) then c'.(closed := true)
    else Handed(c', event)
  }

  function SendDone(lim: StreamLimits, c: Conn, ok: bool): Conn {
    var c' := c.(inFlight := Nothing);
    if ok then (if c.inFlight.Sequenced? then c'.(latestSent := c.inFlight.event.sequence) else c')
    else if c.replaying.Some? then MadeReady(lim, c'.(closed := true))
    else c'.(closed := true)
  }

  predicate AckAccepted(c: Conn, sameSession: bool, sequence: int) {
    !c.closed && sameSession && c.lastAcknowledged <= sequence <= c.latestSent
  }

  function Acknowledged(c: Conn, sameSession: bool, sequence: int): Conn {
    if AckAccepted(c, sameSession, sequence) then c.(lastAcknowledged := sequence) else c.(closed := true)
  }

  // ----- the connection object -----

  class Connection {
    const lim: StreamLimits
    var closed: bool
    var ready: bool
    var lastAcknowledged: int
    var latestSent: int
    var sendQueue: seq<Event>
    var beforeReady: seq<Event>
    var inFlight: Sending
    var replaying: Option<seq<Event>>
    ghost var sent: seq<Event>

    ghost function View(): Conn
      reads this
    {
      Conn(closed, ready, lastAcknowledged, latestSent, sendQueue, beforeReady, inFlight, replaying, sent)
    }

    constructor (lim: StreamLimits, lastAck: int, replay: seq<Event>)
      ensures View() == Opened(lastAck, replay) && this.lim == lim
    {
      this.lim := lim;
      closed, ready, lastAcknowledged, latestSent := false, false, lastAck, lastAck;
      sendQueue, beforeReady, inFlight, replaying, sent := [], [], Snapshot, Some(replay), [];
    }

    method QueueEvent(event: Event)
      modifies this
      ensures View() == Queued(lim, old(View()), event)
    {
      if closed || event.sequence <= latestSent { return; }
      if !ready {
        if |beforeReady| >= lim.maxUnacknowledgedEvents {
          closed := true;
          return;
        }
        beforeReady := beforeReady + [event];
        return;
      }
      sendQueue := sendQueue + [event];
    }

    method LeaveReplay()
      modifies this
      ensures View() == MadeReady(lim, old(View()))
    {
      ready := true;
      replaying := None;
      ghost var start := View();
      var pending := beforeReady;
      var i := 0;
      assert pending[0..] == pending;
      while i < |pending|
        invariant 0 <= i <= |pending|
        invariant ready && replaying.None?
        invariant QueuedAll(lim, View(), pending[i..]) == QueuedAll(lim, start, pending)
      {
        assert pending[i..][1..] == pending[i + 1..];
        QueueEvent(pending[i]);
        i := i + 1;
      }
      assert pending[i..] == [];
      beforeReady := [];
    }

    method SendNextReplayed(buffered: int)
      requires replaying.Some? && inFlight.Nothing?
      modifies this
      ensures View() == ReplayStep(lim, old(View()), buffered)
    {
      var events := replaying.value;
      if |events| == 0 {
        LeaveReplay();
      } else if buffered > lim.maxBufferedBytes
             || events[0].sequence - lastAcknowledged > lim.maxUnacknowledgedEvents {
        closed := true;
        LeaveReplay();
      } else {
        replaying := Some(events[1..]);
        inFlight := Sequenced(events[0]);
        sent := sent + [events[0]];
      }
    }

    method RunTask(buffered: int)
      requires sendQueue != [] && inFlight.Nothing?
      modifies this
      ensures View() == TaskStep(lim, old(View()), buffered)
    {
      var event := sendQueue[0];
      sendQueue := sendQueue[1..];
      if closed || event.sequence <= latestSent { return; }
      if buffered > lim.maxBufferedBytes || event.sequence - lastAcknowledged > lim.maxUnacknowledgedEvents {
        closed := true;
        return;
      }
      inFlight := Sequenced(event);
      sent := sent + [event];
    }

    method CompleteSend(ok: bool)
      requires !inFlight.Nothing?
      modifies this
      ensures View() == SendDone(lim, old(View()), ok)
    {
      if ok {
        if inFlight.Sequenced? { latestSent := inFlight.event.sequence; }
        inFlight := Nothing;
      } else {
        inFlight := Nothing;
        closed := true;
        if replaying.Some? { LeaveReplay(); }
      }
    }

    method Acknowledge(sameSession: bool, sequence: int) returns (accepted: bool)
      modifies this
      ensures View() == Acknowledged(old(View()), sameSession, sequence)
      ensures accepted == old(AckAccepted(View(), sameSession, sequence))
    {
      if closed || !sameSession || sequence < lastAcknowledged || sequence > latestSent {
        closed := true;
        return false;
      }
      lastAcknowledged := sequence;
      return true;
    }

    method Close()
      modifies this
      ensures View() == old(View()).(closed := true)
    {
      if !closed { closed := true; }
    }
  }

  // ----- every interleaving -----

  /** `log` is every event of the session. `origin` is the event the client had acknowledged when it
      connected, `start` the first event it is owed. */
  datatype Sys = Sys(log: seq<Event>, conn: Option<Conn>, origin: int, start: int)

  datatype Act =
    | Publish(body: Body, timestamp: int)
    | Open(lastAck: int, truncated: bool)
    | SendReplayed(buffered: int)
    | StartTask(buffered: int)
    | Complete(ok: bool)
    | Ack(sameSession: bool, sequence: int)
    | Heartbeat(valid: bool)
    | CloseIt

  ghost predicate Possible(s: Sys, a: Act) {
    match a
    case Publish(_, _) => true
    case Open(k, _) => s.conn.None? && 0 <= k <= |s.log|
    case SendReplayed(_) => s.conn.Some? && s.conn.value.inFlight.Nothing? && s.conn.value.replaying.Some?
    case StartTask(_) => s.conn.Some? && s.conn.value.inFlight.Nothing? && s.conn.value.sendQueue != []
    case Complete(_) => s.conn.Some? && !s.conn.value.inFlight.Nothing?
    case _ => s.conn.Some? && s.conn.value.ready
  }

  ghost function Next(lim: StreamLimits, s: Sys, a: Act): Sys
    requires Possible(s, a)
  {
    match a
    case Publish(body, timestamp) =>
      var event := Event(|s.log| + 1, timestamp, body);
      s.(log := s.log + [event], conn := if s.conn.None? then None else Some(Queued(lim, s.conn.value, event)))
    case Open(k, truncated) =>
      s.(conn := Some(Opened(k, if truncated then [] else s.log[k..])),
         origin := k, start := if truncated then |s.log| + 1 else k + 1)
    case SendReplayed(buffered) => s.(conn := Some(ReplayStep(lim, s.conn.value, buffered)))
    case StartTask(buffered) => s.(conn := Some(TaskStep(lim, s.conn.value, buffered)))
    case Complete(ok) => s.(conn := Some(SendDone(lim, s.conn.value, ok)))
    case Ack(same, sequence) => s.(conn := Some(Acknowledged(s.conn.value, same, sequence)))
    case Heartbeat(valid) => if valid && !s.conn.value.closed then s else s.(conn := Some(s.conn.value.(closed := true)))
    case CloseIt => s.(conn := Some(s.conn.value.(closed := true)))
  }

  ghost predicate RunOf(lim: StreamLimits, s: Sys, acts: seq<Act>, t: Sys)
    decreases |acts|
  {
    if acts == [] then s == t
    else Possible(s, acts[0]) && RunOf(lim, Next(lim, s, acts[0]), acts[1..], t)
  }

  /** Where `latestSent` stands after `n` deliveries. */
  ghost function Delivered(s: Sys, n: int): int {
    if n == 0 then s.origin else s.start - 1 + n
  }

  ghost predicate Numbered(log: seq<Event>) {
    forall i :: 0 <= i < |log| ==> log[i].sequence == i + 1
  }

  ghost predicate Positions(s: Sys, c: Conn) {
    && 0 <= s.origin < s.start
    && s.start - 1 + |c.sent| <= |s.log|
    && c.sent == s.log[s.start - 1..s.start - 1 + |c.sent|]
  }

  /** What is still to be sent is the rest of the log, in order. */
  ghost predicate Owed(s: Sys, c: Conn)
    requires Positions(s, c)
  {
    var rest := s.log[s.start - 1 + |c.sent|..];
    if c.replaying.Some? then
      && !c.ready && c.sendQueue == []
      && c.replaying.value <= rest
      && (c.closed || c.replaying.value + c.beforeReady == rest)
    else
      && c.ready && c.beforeReady == []
      && (c.closed || c.sendQueue == rest)
  }

  ghost predicate Counted(s: Sys, c: Conn) {
    && s.origin <= c.lastAcknowledged <= c.latestSent
    && match c.inFlight
       case Sequenced(e) => c.sent != [] && e == c.sent[|c.sent| - 1] && c.latestSent == Delivered(s, |c.sent| - 1)
       case Snapshot => c.sent == [] && c.latestSent == Delivered(s, 0) && c.replaying.Some?
       case Nothing =>
         || c.latestSent == Delivered(s, |c.sent|)
         || (c.closed && c.replaying.None? && c.sent != [] && c.latestSent == Delivered(s, |c.sent| - 1))
  }

  ghost predicate InWindow(lim: StreamLimits, c: Conn) {
    forall i :: 0 <= i < |c.sent| ==> c.sent[i].sequence - c.lastAcknowledged <= lim.maxUnacknowledgedEvents
  }

  ghost predicate InOrder(lim: StreamLimits, s: Sys, c: Conn) {
    Positions(s, c) && Owed(s, c) && Counted(s, c) && InWindow(lim, c)
  }

  ghost predicate Ordered(lim: StreamLimits, s: Sys) {
    Numbered(s.log) && (s.conn.Some? ==> InOrder(lim, s, s.conn.value))
  }

  /** Queueing events that are all newer than `latestSent` keeps every one of them, in order. */
  lemma {:induction false} QueuedAllKeeps(lim: StreamLimits, c: Conn, events: seq<Event>)
    requires c.ready && forall i :: 0 <= i < |events| ==> events[i].sequence > c.latestSent
    ensures QueuedAll(lim, c, events) == if c.closed then c else c.(sendQueue := c.sendQueue + events)
    decreases |events|
  {
    if events == [] {
      assert c.sendQueue + [] == c.sendQueue;
    } else {
      QueuedAllKeeps(lim, Queued(lim, c, events[0]), events[1..]);
      assert (c.sendQueue + [events[0]]) + events[1..] == c.sendQueue + events;
    }
  }

  lemma {:induction false} QueuedAllClosed(lim: StreamLimits, c: Conn, events: seq<Event>)
    requires c.closed
    ensures QueuedAll(lim, c, events) == c
    decreases |events|
  {
    if events != [] { QueuedAllClosed(lim, c, events[1..]); }
  }

  lemma MadeReadyKeepsAll(lim: StreamLimits, s: Sys, c: Conn)
    requires Numbered(s.log) && Positions(s, c) && Owed(s, c)
    requires c.replaying.Some? && (c.closed || c.replaying.value == [])
    requires !c.closed ==> c.latestSent == Delivered(s, |c.sent|)
    ensures MadeReady(lim, c) == c.(ready := true, replaying := None, beforeReady := [],
                                    sendQueue := if c.closed then [] else s.log[s.start - 1 + |c.sent|..])
  {
    var c1 := c.(ready := true, replaying := None);
    if c.closed {
      QueuedAllClosed(lim, c1, c.beforeReady);
    } else {
      var n := s.start - 1 + |c.sent|;
      assert c.beforeReady == s.log[n..] by { assert [] + c.beforeReady == c.beforeReady; }
      forall i | 0 <= i < |c.beforeReady| ensures c.beforeReady[i].sequence > c1.latestSent {
        assert c.beforeReady[i] == s.log[n + i];
      }
      QueuedAllKeeps(lim, c1, c.beforeReady);
      assert [] + c.beforeReady == c.beforeReady;
    }
  }

  lemma ReadyKeepsOrder(lim: StreamLimits, s: Sys, c: Conn)
    requires Numbered(s.log) && Positions(s, c) && Owed(s, c) && InWindow(lim, c)
    requires c.replaying.Some? && (c.closed || c.replaying.value == [])
    requires c.inFlight.Nothing? && s.origin <= c.lastAcknowledged <= c.latestSent
    requires c.latestSent == Delivered(s, |c.sent|)
          || (c.closed && c.sent != [] && c.latestSent == Delivered(s, |c.sent| - 1))
    ensures Ordered(lim, s.(conn := Some(MadeReady(lim, c))))
  {
    MadeReadyKeepsAll(lim, s, c);
  }

  lemma PublishKeepsOrder(lim: StreamLimits, s: Sys, a: Act)
    requires Ordered(lim, s) && a.Publish?
    ensures Ordered(lim, Next(lim, s, a))
  {
    if s.conn.Some? {
      var event := Event(|s.log| + 1, a.timestamp, a.body);
      LogGrows(s, Next(lim, s, a), s.conn.value, event);
      QueuedOwed(lim, s, Next(lim, s, a), s.conn.value, event);
    }
  }

  ghost predicate Grown(s: Sys, s': Sys, event: Event) {
    s'.log == s.log + [event] && s'.start == s.start && s'.origin == s.origin
  }

  /** What was sent and what is still owed, once one more event is in the log. */
  lemma LogGrows(s: Sys, s': Sys, c: Conn, event: Event)
    requires Positions(s, c) && Grown(s, s', event)
    ensures Positions(s', c) && s'.log[s.start - 1 + |c.sent|..] == s.log[s.start - 1 + |c.sent|..] + [event]
  {
  }

  /** Queueing the new event, or holding it until the replay is done, keeps it owed. */
  lemma QueuedOwed(lim: StreamLimits, s: Sys, s': Sys, c: Conn, event: Event)
    requires InOrder(lim, s, c) && Numbered(s.log) && Grown(s, s', event) && event.sequence == |s.log| + 1
    requires Positions(s', c) && s'.log[s.start - 1 + |c.sent|..] == s.log[s.start - 1 + |c.sent|..] + [event]
    ensures InOrder(lim, s', Queued(lim, c, event))
  {
    if !c.closed && c.replaying.Some? {
      assert c.replaying.value + (c.beforeReady + [event]) == (c.replaying.value + c.beforeReady) + [event];
    }
  }

  /** Handing out the next event owed extends what was sent by exactly that event. */
  lemma HandedKeeps(lim: StreamLimits, s: Sys, c: Conn, c': Conn, event: Event)
    requires Numbered(s.log) && Positions(s, c) && InWindow(lim, c)
    requires s.start - 1 + |c.sent| < |s.log| && event == s.log[s.start - 1 + |c.sent|]
    requires c'.sent == c.sent + [event] && c'.lastAcknowledged == c.lastAcknowledged
    requires event.sequence - c.lastAcknowledged <= lim.maxUnacknowledgedEvents
    ensures Positions(s, c') && InWindow(lim, c')
  {
  }

  lemma OwedNext(rest: seq<Event>, replay: seq<Event>, before: seq<Event>)
    requires replay != [] && replay <= rest
    ensures rest != [] && replay[0] == rest[0] && replay[1..] <= rest[1..]
    ensures replay + before == rest ==> replay[1..] + before == rest[1..]
  {
    assert (replay + before)[1..] == replay[1..] + before;
  }

  lemma ReplaySentInOrder(lim: StreamLimits, s: Sys, c: Conn, buffered: int)
    requires Numbered(s.log) && InOrder(lim, s, c) && c.inFlight.Nothing? && c.replaying.Some? && c.replaying.value != []
    requires !Blocked(lim, c, c.replaying.value[0], buffered)
    ensures InOrder(lim, s, ReplayStep(lim, c, buffered))
  {
    var n, events := s.start - 1 + |c.sent|, c.replaying.value;
    OwedNext(s.log[n..], events, c.beforeReady);
    assert s.log[n..][1..] == s.log[n + 1..];
    HandedKeeps(lim, s, c, ReplayStep(lim, c, buffered), events[0]);
  }

  lemma ReplayKeepsOrder(lim: StreamLimits, s: Sys, a: Act)
    requires Ordered(lim, s) && a.SendReplayed? && Possible(s, a)
    ensures Ordered(lim, Next(lim, s, a))
  {
    var c := s.conn.value;
    var events := c.replaying.value;
    if events == [] {
      ReadyKeepsOrder(lim, s, c);
    } else if Blocked(lim, c, events[0], a.buffered) {
      ReadyKeepsOrder(lim, s, c.(closed := true));
    } else {
      ReplaySentInOrder(lim, s, c, a.buffered);
      StaysInOrder(lim, s, ReplayStep(lim, c, a.buffered));
    }
  }

  lemma StaysInOrder(lim: StreamLimits, s: Sys, c: Conn)
    requires Numbered(s.log) && InOrder(lim, s, c)
    ensures Ordered(lim, s.(conn := Some(c)))
  {
  }

  lemma TaskInOrder(lim: StreamLimits, s: Sys, c: Conn, buffered: int)
    requires Numbered(s.log) && InOrder(lim, s, c) && c.inFlight.Nothing? && c.sendQueue != []
    ensures InOrder(lim, s, TaskStep(lim, c, buffered))
  {
    var n := s.start - 1 + |c.sent|;
    if !c.closed {
      assert c.sendQueue[0] == s.log[n] && s.log[n..][1..] == s.log[n + 1..];
      if !Blocked(lim, c, c.sendQueue[0], buffered) { HandedKeeps(lim, s, c, TaskStep(lim, c, buffered), c.sendQueue[0]); }
    }
  }

  lemma TaskKeepsOrder(lim: StreamLimits, s: Sys, a: Act)
    requires Ordered(lim, s) && a.StartTask? && Possible(s, a)
    ensures Ordered(lim, Next(lim, s, a))
  {
    TaskInOrder(lim, s, s.conn.value, a.buffered);
    StaysInOrder(lim, s, TaskStep(lim, s.conn.value, a.buffered));
  }

  lemma CompleteKeepsOrder(lim: StreamLimits, s: Sys, a: Act)
    requires Ordered(lim, s) && a.Complete? && Possible(s, a)
    ensures Ordered(lim, Next(lim, s, a))
  {
    var c := s.conn.value;
    if !a.ok && c.replaying.Some? {
      ReadyKeepsOrder(lim, s, c.(inFlight := Nothing, closed := true));
    }
  }

  lemma NextKeepsOrder(lim: StreamLimits, s: Sys, a: Act)
    requires Ordered(lim, s) && Possible(s, a)
    ensures Ordered(lim, Next(lim, s, a))
  {
    match a
    case Publish(_, _) => PublishKeepsOrder(lim, s, a);
    case Open(k, truncated) =>
      assert s.log[|s.log|..] == [];
    case SendReplayed(_) => ReplayKeepsOrder(lim, s, a);
    case StartTask(_) => TaskKeepsOrder(lim, s, a);
    case Complete(_) => CompleteKeepsOrder(lim, s, a);
    case _ =>
  }

  lemma {:induction false} RunKeepsOrder(lim: StreamLimits, s: Sys, acts: seq<Act>, t: Sys)
    requires Ordered(lim, s) && RunOf(lim, s, acts, t)
    ensures Ordered(lim, t)
    decreases |acts|
  {
    if acts != [] {
      NextKeepsOrder(lim, s, acts[0]);
      RunKeepsOrder(lim, Next(lim, s, acts[0]), acts[1..], t);
    }
  }

  ghost function Start(log: seq<Event>): Sys { Sys(log, None, 0, 1) }

  /** Whatever the interleaving of publishing, sends, failures and acknowledgements, the events handed
      to the client are the log from `start` on, each once and in order. `start` is the event after
      the one the client had acknowledged, unless the history it asked for was truncated. */
  lemma SentExactlyOnceInOrder(lim: StreamLimits, log: seq<Event>, acts: seq<Act>, t: Sys, i: nat)
    requires Numbered(log) && RunOf(lim, Start(log), acts, t)
    requires t.conn.Some? && i < |t.conn.value.sent|
    ensures 1 <= t.start && t.start - 1 + i < |t.log| && t.conn.value.sent[i] == t.log[t.start - 1 + i]
    ensures t.conn.value.sent[i].sequence == t.start + i
  {
    RunKeepsOrder(lim, Start(log), acts, t);
  }

  /** Without truncation the first event sent is `lastAck + 1`. */
  lemma {:induction false} StartFollowsOrigin(lim: StreamLimits, s: Sys, acts: seq<Act>, t: Sys)
    requires s.conn.Some? ==> s.start == s.origin + 1
    requires RunOf(lim, s, acts, t) && t.conn.Some?
    requires forall i :: 0 <= i < |acts| && acts[i].Open? ==> !acts[i].truncated
    ensures t.start == t.origin + 1
    decreases |acts|
  {
    if acts != [] {
      StartFollowsOrigin(lim, Next(lim, s, acts[0]), acts[1..], t);
    }
  }

  /** The window and the acknowledgements hold at every moment: nothing is sent further than the
      window ahead of the last acknowledgement, and nothing unsent is ever acknowledged. */
  lemma WindowRespected(lim: StreamLimits, log: seq<Event>, acts: seq<Act>, t: Sys)
    requires Numbered(log) && RunOf(lim, Start(log), acts, t) && t.conn.Some?
    ensures var c := t.conn.value;
      && t.origin <= c.lastAcknowledged <= c.latestSent <= |t.log|
      && (forall i :: 0 <= i < |c.sent| ==> c.sent[i].sequence <= c.lastAcknowledged + lim.maxUnacknowledgedEvents)
  {
    RunKeepsOrder(lim, Start(log), acts, t);
  }

  /** An open connection with nothing left to do has sent everything the session ever published. */
  lemma IdleMeansComplete(lim: StreamLimits, log: seq<Event>, acts: seq<Act>, t: Sys)
    requires Numbered(log) && RunOf(lim, Start(log), acts, t) && t.conn.Some?
    requires var c := t.conn.value;
      !c.closed && c.ready && c.inFlight.Nothing? && c.sendQueue == []
    ensures 1 <= t.start <= |t.log| + 1 && t.conn.value.sent == t.log[t.start - 1..]
    ensures t.conn.value.latestSent == if t.conn.value.sent == [] then t.origin else |t.log|
  {
    RunKeepsOrder(lim, Start(log), acts, t);
    var c := t.conn.value;
    assert t.log[t.start - 1 + |c.sent|..] == [];
  }

  /** The replay that opens a stream is what the bounded buffer answers, so `Open` covers it. */
  lemma OpenTakesBufferReplay(l: Log, k: nat)
    requires Sound(l) && k <= |l.events|
    ensures var r := ReplayOf(l, k);
      r.events == if r.historyTruncated then [] else EventsOf(l.events)[k..]
  {
    ReplayExact(l, k);
  }
}

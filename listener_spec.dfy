/**
 * The listener's outbound queue and inbound change counter as a pure state
 * machine. Each call a listener receives is one `Call`; `Step` says what it
 * does to the state, and `Run` applies a whole sequence of calls. The
 * methods of `Listeners.Listener` are proved against `Step`, so the lemmas
 * here about `Run` hold of every sequence of calls made on a listener.
 *
 * `sent` is the log of announcements handed to the transport's `Announce`;
 * `connected` is what the transport's `IsConnected` reports. The transport
 * itself changes `connected`, which is what `TransportUp` and
 * `TransportDown` stand for.
 */
module ListenerSpec {
  import opened Announcements

  datatype ListenerState = ListenerState(
    announceQueue: seq<Announcement>,
    sent: seq<Announcement>,
    connected: bool,
    changesQueue: int)

  /** The state of a listener that has just been created. */
  function Initial(): ListenerState
  {
    ListenerState([], [], false, 0)
  }

  datatype Call =
    | AnnounceBase(announcement: Announcement)
    | OnConnected
    | OnDisconnected
    | OnRemoteChange(announcement: Announcement)
    | DecrementChangesQueue
    | TransportUp
    | TransportDown

  /**
   * `OnConnected` is defined while the transport reports a connection, or
   * when nothing is queued (the drain is then skipped). With a non-empty
   * queue and no connection, the first queued announcement would be
   * appended to the list being walked, and the walk would then fail.
   */
  predicate Enabled(s: ListenerState, c: Call)
  {
    c.OnConnected? ==> s.connected || s.announceQueue == []
  }

  function Step(s: ListenerState, c: Call): ListenerState
    requires Enabled(s, c)
  {
    match c
    case AnnounceBase(a) =>
      if s.connected then s.(sent := s.sent + [a])
      else s.(announceQueue := s.announceQueue + [a])
    case OnConnected => s.(sent := s.sent + s.announceQueue, announceQueue := [])
    case OnDisconnected => s
    case OnRemoteChange(_) => s.(changesQueue := s.changesQueue + 1)
    case DecrementChangesQueue => s.(changesQueue := s.changesQueue - 1)
    case TransportUp => s.(connected := true)
    case TransportDown => s.(connected := false)
  }

  /** Every call of `calls`, made in order from `s`, is enabled when it is made. */
  predicate Runs(s: ListenerState, calls: seq<Call>)
    decreases |calls|
  {
    calls == [] || (Enabled(s, calls[0]) && Runs(Step(s, calls[0]), calls[1..]))
  }

  function Run(s: ListenerState, calls: seq<Call>): ListenerState
    requires Runs(s, calls)
    decreases |calls|
  {
    if calls == [] then s else Run(Step(s, calls[0]), calls[1..])
  }

  /** The announcements passed to `AnnounceBase` in `calls`, in call order. */
  function Announced(calls: seq<Call>): seq<Announcement>
  {
    if calls == [] then []
    else (if calls[0].AnnounceBase? then [calls[0].announcement] else []) + Announced(calls[1..])
  }

  function RemoteChanges(calls: seq<Call>): nat
  {
    if calls == [] then 0
    else (if calls[0].OnRemoteChange? then 1 else 0) + RemoteChanges(calls[1..])
  }

  function Decrements(calls: seq<Call>): nat
  {
    if calls == [] then 0
    else (if calls[0].DecrementChangesQueue? then 1 else 0) + Decrements(calls[1..])
  }

  /** One `AnnounceBase` call per announcement of `batch`, in order. */
  function AnnounceAll(batch: seq<Announcement>): (calls: seq<Call>)
    ensures |calls| == |batch|
    ensures forall i :: 0 <= i < |batch| ==> calls[i] == AnnounceBase(batch[i])
  {
    if batch == [] then [] else [AnnounceBase(batch[0])] + AnnounceAll(batch[1..])
  }

  /** Running two sequences of calls one after the other is running their concatenation. */
  lemma {:induction false} RunAppend(s: ListenerState, xs: seq<Call>, ys: seq<Call>)
    requires Runs(s, xs)
    ensures Runs(s, xs + ys) <==> Runs(Run(s, xs), ys)
    ensures Runs(s, xs + ys) ==> Run(s, xs + ys) == Run(Run(s, xs), ys)
    decreases |xs|
  {
    if xs != [] {
      assert (xs + ys)[0] == xs[0];
      assert (xs + ys)[1..] == xs[1..] + ys;
      RunAppend(Step(s, xs[0]), xs[1..], ys);
    } else {
      assert xs + ys == ys;
    }
  }

  /**
   * The change counter moves by exactly one per remote change and per
   * acknowledgement: after `n` remote changes and `m` decrements it has
   * moved by `n - m`, whatever else happened in between.
   */
  lemma {:induction false} ChangesAfterRun(s: ListenerState, calls: seq<Call>)
    requires Runs(s, calls)
    ensures Run(s, calls).changesQueue == s.changesQueue + RemoteChanges(calls) - Decrements(calls)
    decreases |calls|
  {
    if calls != [] {
      ChangesAfterRun(Step(s, calls[0]), calls[1..]);
    }
  }

  /**
   * Without a drain nothing leaves the queue: whatever was queued is still
   * at the head of the queue, and the log of sent announcements only grows,
   * across any number of disconnects, reconnects of the transport and
   * further announcements.
   */
  lemma {:induction false} QueueSurvivesWithoutDrain(s: ListenerState, calls: seq<Call>)
    requires Runs(s, calls)
    requires forall i :: 0 <= i < |calls| ==> !calls[i].OnConnected?
    ensures s.announceQueue <= Run(s, calls).announceQueue
    ensures s.sent <= Run(s, calls).sent
    decreases |calls|
  {
    if calls != [] {
      var t := Step(s, calls[0]);
      assert s.announceQueue <= t.announceQueue && s.sent <= t.sent;
      QueueSurvivesWithoutDrain(t, calls[1..]);
    }
  }

  /**
   * No announcement is lost or duplicated: the announcements that have been
   * sent or are still queued are exactly those that were there before plus
   * those passed to `AnnounceBase`.
   */
  lemma {:induction false} NothingLostOrDuplicated(s: ListenerState, calls: seq<Call>)
    requires Runs(s, calls)
    ensures multiset(Run(s, calls).sent) + multiset(Run(s, calls).announceQueue)
         == multiset(s.sent) + multiset(s.announceQueue) + multiset(Announced(calls))
    decreases |calls|
  {
    if calls != [] {
      var t := Step(s, calls[0]);
      NothingLostOrDuplicated(t, calls[1..]);
      assert multiset(t.sent) + multiset(t.announceQueue)
          == multiset(s.sent) + multiset(s.announceQueue)
           + multiset(if calls[0].AnnounceBase? then [calls[0].announcement] else []);
    }
  }

  /** Announcements made while disconnected are appended to the queue in order, and nothing is sent. */
  lemma {:induction false} QueuedWhileDisconnected(s: ListenerState, batch: seq<Announcement>)
    requires !s.connected
    ensures Runs(s, AnnounceAll(batch))
    ensures Run(s, AnnounceAll(batch)) == s.(announceQueue := s.announceQueue + batch)
    decreases |batch|
  {
    if batch != [] {
      var calls := AnnounceAll(batch);
      assert calls[1..] == AnnounceAll(batch[1..]);
      var t := Step(s, AnnounceBase(batch[0]));
      QueuedWhileDisconnected(t, batch[1..]);
      assert s.announceQueue + [batch[0]] + batch[1..] == s.announceQueue + batch;
    }
  }

  /**
   * Announcements made while disconnected, followed by the transport
   * connecting and reporting it, are each sent exactly once, after what was
   * already queued and in the order they were made; the queue is empty
   * afterwards.
   */
  lemma DeliveredInOrderAfterReconnect(s: ListenerState, batch: seq<Announcement>)
    requires !s.connected
    ensures Runs(s, AnnounceAll(batch) + [TransportUp, OnConnected])
    ensures Run(s, AnnounceAll(batch) + [TransportUp, OnConnected]).sent == s.sent + s.announceQueue + batch
    ensures Run(s, AnnounceAll(batch) + [TransportUp, OnConnected]).announceQueue == []
  {
    QueuedWhileDisconnected(s, batch);
    var queued := Run(s, AnnounceAll(batch));
    var up := Step(queued, TransportUp);
    assert [TransportUp, OnConnected][1..] == [OnConnected];
    assert [OnConnected][1..] == [];
    assert Runs(queued, [TransportUp, OnConnected]);
    assert Run(queued, [TransportUp, OnConnected]) == Step(up, OnConnected);
    RunAppend(s, AnnounceAll(batch), [TransportUp, OnConnected]);
  }

  /**
   * FIFO order holds only up to the `Connected` callback: an announcement
   * made after the transport reports a connection but before `OnConnected`
   * runs is sent at once, ahead of everything still queued.
   */
  lemma AnnouncedBeforeCallbackOvertakesQueue(s: ListenerState, a: Announcement)
    requires s.connected
    ensures Runs(s, [AnnounceBase(a), OnConnected])
    ensures Run(s, [AnnounceBase(a), OnConnected]).sent == s.sent + [a] + s.announceQueue
  {
    assert [AnnounceBase(a), OnConnected][1..] == [OnConnected];
    assert [OnConnected][1..] == [];
  }
}

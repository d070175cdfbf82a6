/**
 * A persistent connection to a notification server that queues outbound
 * announcements while disconnected and counts inbound remote changes.
 *
 * The transport behind the listener is abstract: `sent` logs what is handed
 * to its `Announce`, `connected` is what its `IsConnected` reports, and
 * `channels` is the list of folders it has been asked to listen to. The
 * events the listener raises to its subscribers are logged in `raised`.
 * Every method that changes the queue, the sent log, the counter or the
 * connection state is proved against `ListenerSpec.Step`, and `Apply`
 * chains them, so the lemmas of `ListenerSpec` about sequences of calls
 * apply to a listener.
 */
module Listeners {
  import opened Announcements
  import opened ListenerSpec

  /** An event raised to the listener's subscribers. */
  datatype ListenerEvent = Connected | Disconnected | RemoteChange(announcement: Announcement)

  class Listener {
    /** Announcements that were not sent off because the transport was disconnected. */
    var announceQueue: seq<Announcement>
    /** Every announcement handed to the transport, in order. */
    ghost var sent: seq<Announcement>
    /** What the transport reports as its connection state. */
    var connected: bool
    /** Remote changes received and not yet acknowledged by a consumer. */
    var changesQueue: int
    const server: string
    /** The folders the transport listens to on this connection. */
    var channels: seq<string>
    var isConnecting: bool
    /** Events raised to subscribers, in order. */
    ghost var raised: seq<ListenerEvent>

    ghost function State(): ListenerState
      reads this
    {
      ListenerState(announceQueue, sent, connected, changesQueue)
    }

    function Server(): string
    {
      server
    }

    function ChangesQueue(): int
      reads this
    {
      changesQueue
    }

    function IsConnecting(): bool
      reads this
    {
      isConnecting
    }

    /**
     * A listener for `server` that listens to `folderIdentifier`. The
     * transport is not connected yet and nothing is queued or counted.
     */
    constructor (server: string, folderIdentifier: string, serverType: NotificationServerType)
      ensures State() == Initial()
      ensures Server() == server && ChangesQueue() == 0 && !IsConnecting()
      ensures channels == [folderIdentifier] && raised == []
    {
      this.server := server;
      announceQueue := [];
      sent := [];
      connected := false;
      changesQueue := 0;
      channels := [folderIdentifier];
      isConnecting := false;
      raised := [];
    }

    /**
     * Sends `announcement` straight away when connected, and otherwise
     * appends it to the tail of the queue.
     */
    method AnnounceBase(announcement: Announcement)
      modifies this
      ensures State() == Step(old(State()), Call.AnnounceBase(announcement))
      ensures old(connected) ==> sent == old(sent) + [announcement] && announceQueue == old(announceQueue)
      ensures !old(connected) ==> announceQueue == old(announceQueue) + [announcement] && sent == old(sent)
      ensures connected == old(connected) && changesQueue == old(changesQueue)
      ensures channels == old(channels) && isConnecting == old(isConnecting) && raised == old(raised)
    {
      if connected {
        sent := sent + [announcement];
      } else {
        announceQueue := announceQueue + [announcement];
      }
    }

    /** Acknowledges one remote change. There is no check against going below zero. */
    method DecrementChangesQueue()
      modifies this
      ensures State() == Step(old(State()), Call.DecrementChangesQueue)
      ensures ChangesQueue() == old(ChangesQueue()) - 1
      ensures announceQueue == old(announceQueue) && sent == old(sent) && connected == old(connected)
      ensures channels == old(channels) && isConnecting == old(isConnecting) && raised == old(raised)
    {
      changesQueue := changesQueue - 1;
    }

    /**
     * Called by the transport once it is connected: raises `Connected`,
     * then, if anything is queued, hands every queued announcement to
     * `AnnounceBase` in FIFO order (each is sent, since the transport is
     * connected) and empties the queue.
     */
    method OnConnected()
      requires connected || announceQueue == []
      modifies this
      ensures State() == Step(old(State()), Call.OnConnected)
      ensures sent == old(sent) + old(announceQueue) && announceQueue == []
      ensures raised == old(raised) + [Connected]
      ensures connected == old(connected) && changesQueue == old(changesQueue)
      ensures channels == old(channels) && isConnecting == old(isConnecting)
    {
      raised := raised + [Connected];
      if |announceQueue| > 0 {
        var pending := announceQueue;
        var i := 0;
        while i < |pending|
          invariant 0 <= i <= |pending|
          invariant announceQueue == pending
          invariant sent == old(sent) + pending[..i]
          invariant connected && changesQueue == old(changesQueue)
          invariant channels == old(channels) && isConnecting == old(isConnecting)
          invariant raised == old(raised) + [Connected]
        {
          AnnounceBase(pending[i]);
          assert pending[..i + 1] == pending[..i] + [pending[i]];
          i := i + 1;
        }
        assert pending[..i] == pending;
        announceQueue := [];
      }
    }

    /** Called by the transport when the connection drops: raises `Disconnected` and keeps the queue. */
    method OnDisconnected()
      modifies this
      ensures State() == Step(old(State()), Call.OnDisconnected)
      ensures announceQueue == old(announceQueue) && changesQueue == old(changesQueue)
      ensures sent == old(sent) && connected == old(connected)
      ensures raised == old(raised) + [Disconnected]
      ensures channels == old(channels) && isConnecting == old(isConnecting)
    {
      raised := raised + [Disconnected];
    }

    /** Called by the transport when a remote change arrives: counts it and raises `RemoteChange`. */
    method OnRemoteChange(announcement: Announcement)
      modifies this
      ensures State() == Step(old(State()), Call.OnRemoteChange(announcement))
      ensures ChangesQueue() == old(ChangesQueue()) + 1
      ensures announceQueue == old(announceQueue) && sent == old(sent) && connected == old(connected)
      ensures raised == old(raised) + [RemoteChange(announcement)]
      ensures channels == old(channels) && isConnecting == old(isConnecting)
    {
      changesQueue := changesQueue + 1;
      raised := raised + [RemoteChange(announcement)];
    }

    /**
     * Asks the transport to listen to one more folder on this connection.
     * The transport's behaviour is assumed: the folder is registered once,
     * and registering it again changes nothing.
     */
    method AlsoListenTo(folderIdentifier: string)
      modifies this
      ensures folderIdentifier in old(channels) ==> channels == old(channels)
      ensures folderIdentifier !in old(channels) ==> channels == old(channels) + [folderIdentifier]
      ensures State() == old(State()) && isConnecting == old(isConnecting) && raised == old(raised)
    {
      if folderIdentifier !in channels {
        channels := channels + [folderIdentifier];
      }
    }

    /** The transport's connection state changes; this is the transport's doing, not the listener's. */
    method SetConnected(up: bool)
      modifies this
      ensures State() == Step(old(State()), if up then TransportUp else TransportDown)
      ensures connected == up
      ensures announceQueue == old(announceQueue) && sent == old(sent) && changesQueue == old(changesQueue)
      ensures channels == old(channels) && isConnecting == old(isConnecting) && raised == old(raised)
    {
      connected := up;
    }
  }

  /**
   * Two announcements made while disconnected reach the transport in the
   * order they were made once it connects, and the queue is empty afterwards.
   */
  method QueuedThenDelivered(listener: Listener, a1: Announcement, a2: Announcement)
    requires !listener.connected && listener.announceQueue == []
    modifies listener
    ensures listener.sent == old(listener.sent) + [a1, a2]
    ensures listener.announceQueue == []
  {
    listener.AnnounceBase(a1);
    listener.AnnounceBase(a2);
    listener.SetConnected(true);
    listener.OnConnected();
  }

  /**
   * Makes the calls of `calls` on `listener`, in order. The listener ends in
   * the state `ListenerSpec.Run` gives, so every lemma about `Run` holds of
   * the listener itself.
   */
  method Apply(listener: Listener, calls: seq<Call>)
    requires Runs(listener.State(), calls)
    modifies listener
    ensures listener.State() == Run(old(listener.State()), calls)
    decreases |calls|
  {
    if calls == [] {
      return;
    }
    match calls[0] {
      case AnnounceBase(a) => listener.AnnounceBase(a);
      case OnConnected => listener.OnConnected();
      case OnDisconnected => listener.OnDisconnected();
      case OnRemoteChange(a) => listener.OnRemoteChange(a);
      case DecrementChangesQueue => listener.DecrementChangesQueue();
      case TransportUp => listener.SetConnected(true);
      case TransportDown => listener.SetConnected(false);
    }
    Apply(listener, calls[1..]);
  }
}

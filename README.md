# SparkleShare notification listener: a Dafny model

SparkleShare keeps one persistent connection per notification server. It
uses the connection to announce local changes and to hear about remote
ones. This project models the two stateful parts of that layer, both in
`SparkleLib/SparkleListenerBase.cs`:

- **The listener** (`SparkleListenerBase`), modelled by the class
  `Listeners.Listener`. It has an outbound FIFO queue of announcements that
  were made while disconnected. It has a counter of remote changes that no
  consumer has acknowledged yet. Its server address never changes. The
  transport under it is abstract, so the model puts fields in its place:
  - `sent` is a ghost log of what was handed to `Announce`;
  - `connected` is what `IsConnected` reports;
  - `channels` is the list of folders the transport listens to.

  The events raised to subscribers are recorded in a ghost log, `raised`.
  An announcement (`SparkleAnnouncement`, lines 30-41) is the value type
  `Announcements.Announcement`.
  The getters `Server`, `ChangesQueue` and `IsConnecting` are functions of
  the same names. The constructor's contract uses all three, and the
  contracts of `DecrementChangesQueue` and `OnRemoteChange` use
  `ChangesQueue`; the other contracts read the fields directly.
- **The listener factory** (`SparkleListenerFactory`), modelled by the
  class `ListenerFactory.ListenerRegistry`. It is a list of listeners that
  is created on first use. A request first resolves the server address:
  `Central` always means the central service at `204.62.14.135`. It then
  scans the list for a listener bound to that address. If one is found,
  the folder is registered on it and it is returned. Otherwise a new
  listener is appended and returned. `Valid()` is the registry invariant:
  no two listeners share a server address.

Every listener method that changes the queue, the sent log, the counter or
the connection state is proved against a pure state machine,
`ListenerSpec.Step`; the constructor is proved against
`ListenerSpec.Initial`, and `AlsoListenTo` is proved to leave that state
unchanged. `ListenerSpec.Run` applies a sequence of calls, and
`Listeners.Apply`, which makes those calls on a listener one by one, is
proved to leave the listener in the state `Run` gives. The lemmas about
`Run` therefore state what holds of a listener over any number of calls:
- the counter moves by exactly `n - m`;
- queued announcements survive disconnects;
- no announcement is lost or duplicated;
- announcements made while disconnected are delivered in order on reconnect.

Three details of the code that the model keeps:
- `DecrementChangesQueue` has no guard (line 148), so the counter can go
  below zero.
- `OnConnected` and `OnDisconnected` do not change the connection state.
  `IsConnected` is the transport's (line 98), and the model changes it only
  through `SetConnected`.
- The listener's folders are a list, as `List<string>` at line 105.

## Model

| member | source | states |
|---|---|---|
| Listeners.Listener.constructor | SparkleLib/SparkleListenerBase.cs:103-110 | a new listener has an empty queue, a zero counter, is not connected or connecting, is bound to the given server and listens to the given folder |
| Listeners.Listener.Server | SparkleLib/SparkleListenerBase.cs:113-117 | the server the listener is bound to, set at construction; it is a constant field, so no method changes it |
| Listeners.Listener.ChangesQueue | SparkleLib/SparkleListenerBase.cs:121-125 | the number of unacknowledged remote changes, as moved by OnRemoteChange and DecrementChangesQueue |
| Listeners.Listener.IsConnecting | SparkleLib/SparkleListenerBase.cs:128-132 | whether the transport is connecting; false from construction, and no method changes it |
| Listeners.Listener.AnnounceBase | SparkleLib/SparkleListenerBase.cs:135-143 | when connected the announcement is sent and the queue is untouched; otherwise it is appended at the tail of the queue and nothing is sent; counter, connection state and folders are unchanged |
| Listeners.Listener.DecrementChangesQueue | SparkleLib/SparkleListenerBase.cs:146-149 | the counter drops by exactly one, with no lower bound; nothing else changes |
| Listeners.Listener.OnConnected | SparkleLib/SparkleListenerBase.cs:152-166 | raises Connected; if anything is queued (which requires the transport to be connected), sends every queued announcement exactly once in FIFO order (sent = old sent + old queue) and leaves the queue empty; with an empty queue it only raises Connected, connected or not; counter and connection state are unchanged |
| Listeners.Apply | SparkleLib/SparkleListenerBase.cs:135-186 | making any enabled sequence of calls on a listener leaves it in the state the pure state machine's Run gives, so the lemmas about Run hold of the listener |
| Listeners.Listener.OnDisconnected | SparkleLib/SparkleListenerBase.cs:169-175 | raises Disconnected and changes neither the queue, the sent log, the counter nor the connection state |
| Listeners.Listener.OnRemoteChange | SparkleLib/SparkleListenerBase.cs:178-186 | the counter rises by exactly one and a RemoteChange event carrying the announcement is raised; the queue is untouched |
| Listeners.Listener.AlsoListenTo | SparkleLib/SparkleListenerBase.cs:96 | the folder is added to the listener's folders once; asking again changes nothing; queue, counter and connection state are unchanged |
| Listeners.Listener.SetConnected | SparkleLib/SparkleListenerBase.cs:98 | the transport's connection state becomes the given value; queue, sent log and counter are unchanged |
| Listeners.QueuedThenDelivered | SparkleLib/SparkleListenerBase.cs:135-165 | two announcements made while disconnected reach the transport in order once it connects, and the queue ends empty |
| ListenerSpec.ChangesAfterRun | SparkleLib/SparkleListenerBase.cs:146-186 | after any sequence of calls the counter has moved by the number of remote changes minus the number of decrements (from 0: exactly n - m) |
| ListenerSpec.QueueSurvivesWithoutDrain | SparkleLib/SparkleListenerBase.cs:135-175 | without an OnConnected call, the old queue stays a prefix of the queue and the sent log only grows, across any number of disconnects and announcements |
| ListenerSpec.NothingLostOrDuplicated | SparkleLib/SparkleListenerBase.cs:135-165 | the announcements sent or still queued are exactly those queued or sent before plus those passed to AnnounceBase, as a multiset |
| ListenerSpec.QueuedWhileDisconnected | SparkleLib/SparkleListenerBase.cs:139-142 | announcements made while disconnected are appended to the queue in call order and none is sent |
| ListenerSpec.DeliveredInOrderAfterReconnect | SparkleLib/SparkleListenerBase.cs:135-165 | announcements made while disconnected, then a connect and OnConnected, send the old queue followed by those announcements in order, each once, and empty the queue |
| ListenerSpec.AnnouncedBeforeCallbackOvertakesQueue | SparkleLib/SparkleListenerBase.cs:135-165 | an announcement made after the transport connects but before OnConnected runs is sent ahead of the queued ones |
| ListenerFactory.ResolveServer | SparkleLib/SparkleListenerBase.cs:58-59 | with Central the resolved address is 204.62.14.135 whatever server is passed; with Own it is the server passed |
| ListenerFactory.ListenerRegistry.constructor | SparkleLib/SparkleListenerBase.cs:46 | the registry starts uncreated and empty, and satisfies the one-listener-per-server invariant |
| ListenerFactory.ListenerRegistry.Lookup | SparkleLib/SparkleListenerBase.cs:61-67 | finds the first listener bound to the server, or reports that no listener is bound to it |
| ListenerFactory.ListenerRegistry.CreateIrcListener | SparkleLib/SparkleListenerBase.cs:48-72 | the list is created on first use; the result is bound to the resolved server and listens to the folder; an existing listener for that server is returned with the folder registered and the list, its queue, sent log, counter, connection state, connecting flag and event log unchanged; otherwise exactly one fresh listener (empty queue and logs, zero counter, not connected or connecting) is appended and returned; no two listeners ever share a server, and other listeners are untouched |
| ListenerFactory.SameServerShared | SparkleLib/SparkleListenerBase.cs:61-71 | two requests for the same server with different folders return the same listener, which listens to both folders |
| ListenerFactory.CentralShared | SparkleLib/SparkleListenerBase.cs:58-71 | two Central requests naming different servers return the same listener, bound to the central address |

## Left out

- Diagnostic logging (`SparkleHelpers.DebugInfo`): a side effect of a helper that is not part of this model.
- Event dispatch to subscribers (`Connected`, `Disconnected`, `RemoteChange` and their null checks): the delegates are foreign callbacks. The model records each raised event in the ghost log `raised`.
- The concrete IRC transport `SparkleListenerIrc`, and the abstract `Connect`, `Announce` and `Dispose`: the wire protocol and network code are not part of this model. `Announce` is represented by the `sent` log. The `(SparkleListenerIrc)` casts in the factory are not modelled.
- Listeners.Listener.AlsoListenTo: the source method is abstract. The model assumes the transport registers each folder once. This is an assumption about the transport, not source behaviour.
- Listeners.Listener.constructor: the base constructor is empty. The model sets the server and the first folder, as the transport subclass (not part of this model) is assumed to do.
- Listeners.Listener.OnConnected: requires `connected` or an empty queue. Only the case of a disconnected transport with a non-empty queue is excluded: there the C# code would re-queue an announcement into the list it is iterating and throw. That case is not modelled.
- Listeners.Listener.DecrementChangesQueue: the counter is an unbounded integer. The 32-bit wrap-around of the C# `int` below `int.MinValue` is not modelled.
- Listeners.Listener.OnRemoteChange: the counter is an unbounded integer. The 32-bit wrap-around of `changes_queue++` at `int.MaxValue` is not modelled.
- ListenerFactory.ListenerRegistry.CreateIrcListener: the source's `listeners` is one static list shared by the whole process. The model makes it a field of a `ListenerRegistry` object that the caller creates, so two registries would not share listeners.
- Concurrency: the code takes no locks, and the drain can race with concurrent announcements. The model is sequential.
- `is_connecting` is only read; the base class never writes it. The model keeps it false from construction on.
- The listener's `server` is a constant field, since no code in this file assigns it after construction.

/**
 * The process-wide table of listeners, at most one per server address.
 * Asking for a listener for a server that already has one registers the
 * folder on that listener instead of opening a second connection.
 */
module ListenerFactory {
  import opened Announcements
  import opened Listeners

  /** The address of the central notification service. */
  const CentralServer: string := "204.62.14.135"

  /** The server actually contacted: the central service for `Central`, whatever `server` says. */
  function ResolveServer(server: string, serverType: NotificationServerType): (resolved: string)
    ensures serverType == Central ==> resolved == CentralServer
    ensures serverType == Own ==> resolved == server
  {
    if serverType == Central then CentralServer else server
  }

  ghost predicate UniqueServers(listeners: seq<Listener>)
  {
    forall i, j :: 0 <= i < j < |listeners| ==> listeners[i].server != listeners[j].server
  }

  ghost predicate HasServer(listeners: seq<Listener>, server: string)
  {
    exists i :: 0 <= i < |listeners| && listeners[i].server == server
  }

  class ListenerRegistry {
    var listeners: seq<Listener>
    /** Whether the list has been created; it is created on first use. */
    var initialized: bool

    ghost predicate Valid()
      reads this
    {
      (!initialized ==> listeners == []) && UniqueServers(listeners)
    }

    constructor ()
      ensures Valid() && !initialized && listeners == []
    {
      listeners := [];
      initialized := false;
    }

    /** The first registered listener bound to `server`, if there is one. */
    method Lookup(server: string) returns (found: bool, index: nat)
      ensures found ==> index < |listeners| && listeners[index].server == server
      ensures found ==> forall j :: 0 <= j < index ==> listeners[j].server != server
      ensures !found <==> forall j :: 0 <= j < |listeners| ==> listeners[j].server != server
    {
      index := 0;
      while index < |listeners|
        invariant index <= |listeners|
        invariant forall j :: 0 <= j < index ==> listeners[j].server != server
      {
        if listeners[index].server == server {
          return true, index;
        }
        index := index + 1;
      }
      return false, 0;
    }

    /**
     * The listener for `server` (or for the central service when
     * `serverType` is `Central`), listening to `folderIdentifier`: the one
     * already registered for that address, or else a new one appended to
     * the table. The table never holds two listeners for one address.
     */
    method CreateIrcListener(server: string, folderIdentifier: string, serverType: NotificationServerType)
      returns (listener: Listener)
      requires Valid()
      modifies this, listeners
      ensures Valid() && initialized
      ensures listener.server == ResolveServer(server, serverType)
      ensures listener in listeners && folderIdentifier in listener.channels
      ensures HasServer(old(listeners), listener.server) ==>
        listeners == old(listeners) && listener in old(listeners) &&
        listener.State() == old(listener.State()) &&
        listener.isConnecting == old(listener.isConnecting) && listener.raised == old(listener.raised) &&
        (folderIdentifier in old(listener.channels) ==> listener.channels == old(listener.channels)) &&
        (folderIdentifier !in old(listener.channels) ==> listener.channels == old(listener.channels) + [folderIdentifier])
      ensures !HasServer(old(listeners), listener.server) ==>
        listeners == old(listeners) + [listener] && fresh(listener) &&
        listener.State() == ListenerSpec.Initial() && listener.channels == [folderIdentifier] &&
        !listener.isConnecting && listener.raised == []
      ensures forall i :: 0 <= i < |old(listeners)| && old(listeners)[i] != listener ==> unchanged(old(listeners)[i])
    {
      if !initialized {
        listeners := [];
        initialized := true;
      }
      var resolved := ResolveServer(server, serverType);
      var found, index := Lookup(resolved);
      if found {
        listener := listeners[index];
        listener.AlsoListenTo(folderIdentifier);
        return;
      }
      listener := new Listener(resolved, folderIdentifier, serverType);
      listeners := listeners + [listener];
      listener := listeners[|listeners| - 1];
    }
  }

  /**
   * Two requests for one server, for two folders, share one listener, which
   * listens to both folders.
   */
  method SameServerShared(registry: ListenerRegistry, server: string, folderA: string, folderB: string,
                          serverType: NotificationServerType)
    returns (first: Listener, second: Listener)
    requires registry.Valid()
    modifies registry, registry.listeners
    ensures first == second && first.server == ResolveServer(server, serverType)
    ensures folderA in first.channels && folderB in first.channels
  {
    first := registry.CreateIrcListener(server, folderA, serverType);
    second := registry.CreateIrcListener(server, folderB, serverType);
  }

  /** With `Central`, two requests naming different servers still share the central listener. */
  method CentralShared(registry: ListenerRegistry, server1: string, server2: string, folderA: string, folderB: string)
    returns (first: Listener, second: Listener)
    requires registry.Valid()
    modifies registry, registry.listeners
    ensures first == second && first.server == CentralServer
  {
    first := registry.CreateIrcListener(server1, folderA, Central);
    second := registry.CreateIrcListener(server2, folderB, Central);
  }
}

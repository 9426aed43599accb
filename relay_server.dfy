/** The relay server's state as the object its handlers update in place. */
module Relay {
  import opened Media
  import opened Signal
  import opened RelayModel

  class Server {
    /** `namespaces`, with each namespace's connected sockets. */
    var rooms: map<string, seq<nat>>
    var acks: seq<nat>
    var deliveries: seq<Delivery>

    ghost function View(): RelayState
      reads this
    {
      RelayState(rooms, acks, deliveries)
    }

    constructor ()
      ensures View() == Init()
    {
      rooms, acks, deliveries := map[], [], [];
    }

    /** The `create` handler of admin socket `admin`, with own-key lookup. */
    method Create(admin: nat, name: Option<string>)
      requires Wf(View())
      modifies this
      ensures View() == RelayModel.Create(old(View()), admin, name)
    {
      if name.None? || name.value == "" {
        return;
      }
      if name.value !in rooms {
        rooms := rooms[name.value := []];
      }
      acks := acks + [admin];
    }

    /** A `connection` on `/ns`. */
    method Connection(ns: string, socket: nat)
      requires Wf(View())
      modifies this
      ensures View() == RelayModel.Connection(old(View()), ns, socket)
    {
      if ns in rooms && socket !in rooms[ns] {
        rooms := rooms[ns := rooms[ns] + [socket]];
      }
    }

    /** The `signal` handler of socket `from` on `/ns`: `socket.broadcast.emit('signal', payload)`. */
    method Signal(ns: string, from: nat, payload: Option<Envelope>)
      modifies this
      ensures View() == RelayModel.Relay(old(View()), ns, from, payload)
    {
      if ns in rooms && from in rooms[ns] {
        deliveries := deliveries + Broadcast(rooms[ns], ns, from, payload);
      }
    }
  }
}

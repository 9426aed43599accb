/** The socket.io signaling client as an object whose operations update its fields in place. */
module SocketIo {
  import opened Media
  import opened Identity
  import opened Signal
  import opened SocketIoModel

  class Client {
    const channel: string
    var socket: Option<nat>
    var pending: set<nat>
    var live: set<nat>
    var next: nat
    var requests: seq<string>
    var emitted: seq<Emit>
    var dispatched: seq<Envelope>
    var closed: seq<nat>

    ghost function View(): SigState
      reads this
    {
      SigState(channel, socket, pending, live, next, requests, emitted, dispatched, closed)
    }

    /** The constructor once the channel name passed its test. */
    constructor (channel: string)
      requires CheckChannel(channel).Ok?
      ensures View() == Init(channel)
    {
      this.channel := channel;
      socket, pending, live, next := None, {}, {}, 0;
      requests, emitted, dispatched, closed := [], [], [], [];
    }

    /** `get connected()`. */
    method IsConnected() returns (r: bool)
      ensures r <==> Connected(View())
    {
      r := socket.Some?;
    }

    /** `connect()`. */
    method Connect()
      requires Wf(View())
      modifies this
      ensures View() == SocketIoModel.Connect(old(View()))
    {
      if socket.Some? {
        return;
      }
      pending := pending + {next};
      requests := requests + [channel];
      next := next + 1;
    }

    /** The `created` handler of admin socket `admin`. */
    method OnCreated(admin: nat)
      requires Wf(View())
      modifies this
      ensures View() == SocketIoModel.OnCreated(old(View()), admin)
    {
      if admin in pending {
        socket := Some(next);
        live := live + {next};
        next := next + 1;
        pending := pending - {admin};
        closed := closed + [admin];
      }
    }

    /** `disconnect()`. */
    method Disconnect()
      requires Wf(View())
      modifies this
      ensures View() == SocketIoModel.Disconnect(old(View()))
    {
      if socket.Some? {
        closed := closed + [socket.value];
        live := live - {socket.value};
        socket := None;
      }
    }

    /** `send(payload)`. */
    method Send(payload: Envelope)
      modifies this
      ensures View() == SocketIoModel.Send(old(View()), payload)
    {
      if socket.Some? {
        emitted := emitted + [Emit(socket.value, payload)];
      }
    }

    /** The `signal` handler of channel socket `h`. */
    method OnSignal(h: nat, payload: Option<Envelope>)
      modifies this
      ensures View() == SocketIoModel.OnSignal(old(View()), h, payload)
    {
      if h in live && payload.Some? {
        dispatched := dispatched + [payload.value];
      }
    }
  }

  /** `new VieroWebRTCVideoChatSocketIoSignaling(channel)`: a client, or the error 975600. */
  method NewClient(channel: string) returns (r: Result<Client>)
    ensures r.Err? <==> !ChannelRegex(channel)
    ensures r.Err? ==> r.code == ErrInvalidChannel
    ensures r.Ok? ==> fresh(r.value) && r.value.View() == Init(channel)
  {
    var checked := CheckChannel(channel);
    if checked.Err? {
      return Err(checked.code);
    }
    var c := new Client(channel);
    r := Ok(c);
  }
}

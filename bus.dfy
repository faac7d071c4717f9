/**
  The bus transport as the mediator sees it: every call it makes becomes an
  entry in an effect log, and the signal receivers it adds are kept in a
  table keyed by the handle (`match` object) the transport returns. `World`
  is the value of one connection; `Connection` is the object whose fields
  the talkers update through the transport's calls.
*/
module Bus {
  import opened Wrappers
  import opened Volume
  import opened Signals

  /** The match object `add_signal_receiver` returns. */
  type Handle = nat

  /** The handler `SLfac(signal_name, obj_path, funcs)` builds. */
  datatype Handler = Handler(name: string, path: Option<Path>, funcs: seq<Reaction>)

  /** What a receiver matches on and what it runs. */
  datatype Receiver =
    | SignalReceiver(iface: string, member: string, path: Option<Path>, handler: Handler)
    | GestureReceiver(iface: string, member: string, gesture: Gesture)
  {
    /** The object path, interface and member the transport files this receiver under. */
    function Keys(): (Option<Path>, Option<string>, Option<string>)
    {
      match this
      case SignalReceiver(iface, member, path, _) => (path, Some(iface), Some(member))
      case GestureReceiver(iface, member, _) => (None, Some(iface), Some(member))
    }
  }

  /** One call the mediator makes on a connection. */
  datatype Effect =
    | ListenForSignal(name: string, path: Option<Path>)
    | AddReceiver(receiver: Receiver, handle: Handle)
    | RemoveReceiver(handle: Handle)
    | CallGetVolume(sink: Path)
    | CallSetVolume(sink: Path, levels: seq<Level>)
    | CallGetFallbackSink
    | SetDesktopVol(volume: int)

  /** The state of one connection: the calls made, the live receivers, the next handle. */
  datatype World = World(log: seq<Effect>, receivers: map<Handle, Receiver>, next: Handle)
  {
    /** Every live receiver's handle was handed out before `next`. */
    predicate WellFormed()
    {
      forall h :: h in receivers ==> h < next
    }

    /** `add_signal_receiver(r)`: a fresh handle, live from now on. */
    function Add(r: Receiver): (res: (Handle, World))
      ensures res.0 == next && res.1.next == next + 1
      ensures res.1.log == log + [AddReceiver(r, res.0)]
      ensures WellFormed() ==> res.1.WellFormed() && res.0 !in receivers
      ensures res.0 in res.1.receivers && res.1.receivers[res.0] == r
      ensures forall h :: h != res.0 ==> (h in res.1.receivers <==> h in receivers)
      ensures forall h :: h in receivers && h != res.0 ==> res.1.receivers[h] == receivers[h]
    {
      (next, World(log + [AddReceiver(r, next)], receivers[next := r], next + 1))
    }

    /**
      `match.remove()`: the receiver `h` is looked up under its own keys and is
      no longer dispatched to (a no-op on the receivers for a dead handle).
    */
    function Remove(h: Handle): (w: World)
      ensures w.log == log + [RemoveReceiver(h)] && w.next == next
      ensures WellFormed() ==> w.WellFormed()
      ensures h !in w.receivers
      ensures forall g :: g != h ==> (g in w.receivers <==> g in receivers)
      ensures forall g :: g in w.receivers ==> w.receivers[g] == receivers[g]
    {
      World(log + [RemoveReceiver(h)], receivers - {h}, next)
    }

    /**
      `remove_signal_receiver(h, signal_name=member, dbus_interface=iface, path=path)`:
      the transport looks `h` up only among the receivers filed under exactly
      these keys, so `h` is removed only when they are its own.
    */
    function RemoveFiledUnder(h: Handle, path: Option<Path>, iface: Option<string>, member: Option<string>): (w: World)
      ensures w.log == log + [RemoveReceiver(h)] && w.next == next
      ensures h in w.receivers <==> h in receivers && receivers[h].Keys() != (path, iface, member)
      ensures forall g :: g != h ==> (g in w.receivers <==> g in receivers)
      ensures forall g :: g in w.receivers ==> w.receivers[g] == receivers[g]
    {
      if h in receivers && receivers[h].Keys() == (path, iface, member) then Remove(h)
      else Send(RemoveReceiver(h))
    }

    /** A method call that changes no receiver. */
    function Send(e: Effect): World
    {
      World(log + [e], receivers, next)
    }
  }

  /** Looking a live receiver up under its own keys is `match.remove()`. */
  lemma RemoveUnderOwnKeys(w: World, h: Handle)
    requires h in w.receivers
    ensures var k := w.receivers[h].Keys();
            w.RemoveFiledUnder(h, k.0, k.1, k.2) == w.Remove(h)
  {
  }

  /** Every receiver is filed under an interface, so a lookup without one removes nothing. */
  lemma RemoveWithoutKeysRemovesNothing(w: World, h: Handle)
    ensures w.RemoveFiledUnder(h, None, None, None).receivers == w.receivers
  {
  }

  /** A bus connection whose state the talkers change through its calls. */
  class Connection {
    var log: seq<Effect>
    var receivers: map<Handle, Receiver>
    var next: Handle

    /** The connection's current state as a value. */
    function Value(): World
      reads this
    {
      World(log, receivers, next)
    }

    constructor ()
      ensures Value() == World([], map[], 0)
    {
      log, receivers, next := [], map[], 0;
    }

    method AddSignalReceiver(r: Receiver) returns (h: Handle)
      modifies this
      ensures (h, Value()) == old(Value()).Add(r)
    {
      h := next;
      log := log + [AddReceiver(r, h)];
      receivers := receivers[h := r];
      next := next + 1;
    }

    /** `match.remove()` on the match `h`. */
    method RemoveSignalReceiver(h: Handle)
      modifies this
      ensures Value() == old(Value()).Remove(h)
    {
      log := log + [RemoveReceiver(h)];
      receivers := receivers - {h};
    }

    method Call(e: Effect)
      modifies this
      ensures Value() == old(Value()).Send(e)
    {
      log := log + [e];
    }
  }
}

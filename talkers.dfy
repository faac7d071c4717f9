/**
  The two talkers as objects whose fields their methods update. Every
  method of `PulseTalker` is proved to change the object, its audio
  connection and the session connection exactly as the corresponding
  function of `PulseModel` changes a `TalkerState`; the lemmas of
  `PulseProofs` then apply to the objects.
*/
module Talkers {
  import opened Wrappers
  import opened Volume
  import opened Names
  import opened Signals
  import opened Bus
  import opened PulseModel
  import PulseProofs

  /** The handles `n` successive `add_signal_receiver` calls return, from `first` on. */
  function Handles(first: Handle, n: nat): (hs: seq<Handle>)
    ensures |hs| == n && forall i :: 0 <= i < n ==> hs[i] == first + i
  {
    if n == 0 then [] else Handles(first, n - 1) + [first + n - 1]
  }

  /** The session connection after `add_sig_recv` of each gesture of `gs`, in order. */
  function AddGestureReceivers(w: World, gs: seq<Gesture>): (r: World)
    ensures w.WellFormed() ==> r.WellFormed()
    ensures r.next == w.next + |gs| && |r.log| == |w.log| + |gs|
    decreases |gs|
  {
    if gs == [] then w
    else AddGestureReceivers(w.Add(GestureReceiver(ToolsIface, GestureSignal(gs[0]), gs[0])).1, gs[1..])
  }

  /** The gesture reaction for `g` is subscribed under handle `h` on the desktop interface. */
  predicate GestureLive(w: World, h: Handle, g: Gesture)
  {
    h in w.receivers && w.receivers[h] == GestureReceiver(ToolsIface, GestureSignal(g), g)
  }

  /**
    After `AddGestureReceivers`, gesture `gs[i]` is live under handle
    `w.next + i` with its own signal name, and every earlier receiver is kept.
  */
  lemma {:induction false} GestureReceiversLive(w: World, gs: seq<Gesture>)
    requires w.WellFormed()
    ensures var r := AddGestureReceivers(w, gs);
            && (forall h :: h in w.receivers ==> h in r.receivers && r.receivers[h] == w.receivers[h])
            && forall i :: 0 <= i < |gs| ==> GestureLive(r, w.next + i, gs[i])
    decreases |gs|
  {
    if gs != [] {
      var rec := GestureReceiver(ToolsIface, GestureSignal(gs[0]), gs[0]);
      var w' := w.Add(rec).1;
      assert w'.receivers == w.receivers[w.next := rec] && w'.next == w.next + 1;
      GestureReceiversLive(w', gs[1..]);
      var r := AddGestureReceivers(w, gs);
      assert r == AddGestureReceivers(w', gs[1..]);
      forall i | 0 <= i < |gs|
        ensures GestureLive(r, w.next + i, gs[i])
      {
        if i == 0 {
          assert w.next in w'.receivers && w'.receivers[w.next] == rec;
        } else {
          assert gs[1..][i - 1] == gs[i];
          assert GestureLive(r, w'.next + (i - 1), gs[1..][i - 1]);
        }
      }
    }
  }

  /** The desktop side: forwards gestures into the PulseTalker and shows the volume. */
  class AwesomeTalker {
    const session: Connection
    var sigRecvs: seq<Handle>
    var paw: PulseTalker?

    constructor (session: Connection)
      ensures this.session == session && sigRecvs == [] && paw == null
    {
      this.session := session;
      sigRecvs := [];
      paw := null;
    }

    /** `add_sig_recv(handler, sig_name, dbus_iface)`: subscribes one gesture reaction and keeps its handle. */
    method AddSigRecv(g: Gesture, sigName: string, iface: string := ToolsIface)
      modifies this, session
      ensures paw == old(paw)
      ensures sigRecvs == old(sigRecvs) + [old(session.next)]
      ensures (old(session.next), session.Value()) == old(session.Value()).Add(GestureReceiver(iface, sigName, g))
    {
      var m := session.AddSignalReceiver(GestureReceiver(iface, sigName, g));
      sigRecvs := sigRecvs + [m];
    }

    /** `init_paw(paw_obj)`: records the PulseTalker and subscribes every gesture reaction. */
    method InitPaw(p: PulseTalker)
      modifies this, session
      ensures paw == p
      ensures session.Value() == AddGestureReceivers(old(session.Value()), Gestures)
      ensures sigRecvs == old(sigRecvs) + Handles(old(session.next), |Gestures|)
    {
      paw := p;
      AddSigRecvs(Gestures);
    }

    /** The loop of `init_paw`: `add_sig_recv` for each gesture of `gs`, in order. */
    method AddSigRecvs(gs: seq<Gesture>)
      modifies this, session
      ensures paw == old(paw)
      ensures session.Value() == AddGestureReceivers(old(session.Value()), gs)
      ensures sigRecvs == old(sigRecvs) + Handles(old(session.next), |gs|)
    {
      for i := 0 to |gs|
        invariant paw == old(paw)
        invariant AddGestureReceivers(session.Value(), gs[i..]) == AddGestureReceivers(old(session.Value()), gs)
        invariant session.next == old(session.next) + i
        invariant sigRecvs == old(sigRecvs) + Handles(old(session.next), i)
      {
        var g := gs[i];
        ghost var before := session.Value();
        assert gs[i..][0] == g && gs[i..][1..] == gs[i + 1..];
        assert AddGestureReceivers(before, gs[i..])
            == AddGestureReceivers(before.Add(GestureReceiver(ToolsIface, GestureSignal(g), g)).1, gs[i + 1..]);
        AddSigRecv(g, GestureSignal(g));
      }
      assert gs[|gs|..] == [];
    }

    /** `set_default_vol(volume)`: one call on the desktop side. */
    method SetDefaultVol(volume: int)
      modifies session
      ensures session.Value() == old(session.Value()).Send(SetDesktopVol(volume))
    {
      session.Call(SetDesktopVol(volume));
    }

    /** A gesture reaction of `sig_funcs`: the wheel ones forward to the volume steps. */
    method OnGesture(g: Gesture) returns (out: Outcome)
      requires paw != null && paw.Valid() && paw.awesome == this
      modifies paw, paw.conn, session
      ensures Next(out, paw.Model()) == ForwardGesture(g, old(paw.Model()))
    {
      match g
      case WheelUp => out := paw.SetFsinkVolUp();
      case WheelDown => out := paw.SetFsinkVolDown();
      case _ => out := Done;
    }

    /** The session connection dispatching a desktop signal to the receiver `h`, if it is live. */
    method Deliver(h: Handle) returns (out: Outcome)
      requires paw != null && paw.Valid() && paw.awesome == this
      modifies paw, paw.conn, session
      ensures old(h in session.receivers && session.receivers[h].GestureReceiver?) ==>
                Next(out, paw.Model()) == ForwardGesture(old(session.receivers[h].gesture), old(paw.Model()))
      ensures !old(h in session.receivers && session.receivers[h].GestureReceiver?) ==>
                out == Done && paw.Model() == old(paw.Model())
    {
      if h in session.receivers && session.receivers[h].GestureReceiver? {
        out := OnGesture(session.receivers[h].gesture);
      } else {
        out := Done;
      }
    }
  }

  /** The audio side: owns the subscription tables, the fallback sink and its volume. */
  class PulseTalker {
    const awesome: AwesomeTalker
    const conn: Connection
    const matrix: seq<Row>
    var sigHandlers: map<Key, Handle>
    var paSignals: set<Key>
    var fbSinkVol: Option<seq<Level>>
    var fallbackSink: Path

    /** The private connection to the audio server is not the session connection. */
    ghost predicate Valid()
    {
      conn != awesome.session
    }

    /** The object, its connection and the session connection as one value. */
    function Model(): TalkerState
      reads this, conn, awesome.session
    {
      TalkerState(sigHandlers, paSignals, fbSinkVol, fallbackSink, conn.Value(), awesome.session.Value())
    }

    /**
      `PulseTalker(conn, awesome_obj=awesome)`: opens its own connection, runs
      the bootstrap loop over `_matrix`, then hands itself to `init_paw`.
      `initialFallback` is the FallbackSink property the constructor reads.
      The table, the registry and the connection end as `Booted` describes.
    */
    constructor (awesome: AwesomeTalker, initialFallback: Path)
      modifies awesome, awesome.session
      ensures Valid() && fresh(conn) && this.awesome == awesome
      ensures matrix == Matrix(initialFallback)
      ensures Model().(desktop := old(awesome.session.Value())) == PulseProofs.Booted(initialFallback, old(awesome.session.Value()))
      ensures PulseProofs.Subscribed(Model()) && PulseProofs.ExactlyOnce(Model())
      ensures awesome.paw == this
      ensures awesome.session.Value() == AddGestureReceivers(old(awesome.session.Value()), Gestures)
      ensures awesome.sigRecvs == old(awesome.sigRecvs) + Handles(old(awesome.session.next), |Gestures|)
    {
      this.awesome := awesome;
      conn := new Connection();
      matrix := Matrix(initialFallback);
      sigHandlers, paSignals, fbSinkVol, fallbackSink := map[], {}, None, initialFallback;
      new;
      ghost var desktop := awesome.session.Value();
      assert Model() == Initial(initialFallback, desktop);
      var out := Bootstrap();
      PulseProofs.BootstrapRuns(initialFallback, desktop);
      PulseProofs.BootstrapSubscribes(initialFallback, desktop);
      ghost var booted := Model();
      assert booted == PulseProofs.Booted(initialFallback, desktop);
      awesome.InitPaw(this);
      assert Model() == booted.(desktop := awesome.session.Value());
      PulseProofs.DesktopIrrelevant(booted, awesome.session.Value());
    }

    /** The loop of the constructor: each row of `_matrix` in turn; an exception ends it. */
    method Bootstrap() returns (out: Outcome)
      requires Valid()
      modifies this, conn, awesome.session
      ensures Next(out, Model()) == RunMatrix(matrix, old(Model()))
    {
      out := Done;
      var i := 0;
      while i < |matrix|
        invariant 0 <= i <= |matrix|
        invariant RunMatrix(matrix[i..], Model()) == RunMatrix(matrix, old(Model()))
        invariant out == Done
      {
        var row := matrix[i];
        assert matrix[i..][0] == row && matrix[i..][1..] == matrix[i + 1..];
        ghost var before := Model();
        out := RunMatrixRow(row);
        if out.Raised? {
          assert RunMatrix(matrix[i..], before) == Next(out, Model());
          return;
        }
        i := i + 1;
      }
      assert matrix[i..] == [];
    }

    /** One pass of the constructor's loop: an 'init' row runs at once, any other is connected. */
    method RunMatrixRow(row: Row) returns (out: Outcome)
      requires Valid()
      modifies this, conn, awesome.session
      ensures Next(out, Model()) == RunRow(row, old(Model()))
    {
      if row.name == InitName {
        out := RunHandler(row.funcs, NoArgs);
      } else {
        out := ConnectSignal(row.name, row.path, row.funcs);
      }
    }

    /** `_pa_signal_on(name, path)`. */
    method PaSignalOn(name: string, path: Option<Path>) returns (already: bool)
      requires Valid()
      modifies this, conn
      ensures (already, Model()) == SignalOnStep(old(Model()), name, path)
    {
      if (name, path) in paSignals {
        return true;
      }
      conn.Call(ListenForSignal(name, path));
      paSignals := paSignals + {(name, path)};
      already := false;
    }

    /** `_connect_signal(SLfac, name, path, funcs)`. */
    method ConnectSignal(name: string, path: Option<Path>, funcs: seq<Reaction>) returns (out: Outcome)
      requires Valid()
      modifies this, conn
      ensures Next(out, Model()) == ConnectStep(old(Model()), name, path, funcs)
    {
      var _ := PaSignalOn(name, None);
      match RSplitOnce(name)
      case None =>
        out := Raised(UnsplittableName(name));
      case Some((iface, member)) =>
        var m := conn.AddSignalReceiver(SignalReceiver(iface, member, path, Handler(name, path, funcs)));
        sigHandlers := sigHandlers[(name, path) := m];
        out := Done;
    }

    /**
      `_disconnect_signal(name, path)`, removing the stored match as
      `match.remove()` does (see `AsWritten` for the call as written).
    */
    method DisconnectSignal(name: string, path: Option<Path>) returns (out: Outcome)
      requires Valid()
      modifies conn
      ensures Next(out, Model()) == DisconnectStep(old(Model()), name, path)
    {
      if (name, path) !in sigHandlers {
        return Raised(MissingKey((name, path)));
      }
      conn.RemoveSignalReceiver(sigHandlers[(name, path)]);
      out := Done;
    }

    /** `fsink_vol_update(vec)`. */
    method FsinkVolUpdate(p: Payload) returns (out: Outcome)
      requires Valid()
      modifies this, awesome.session
      ensures Next(out, Model()) == FsinkVolUpdateStep(p, old(Model()))
    {
      if !p.LevelsArg? {
        return Raised(BadPayload);
      }
      if |p.levels| == 0 {
        return Raised(EmptyVector);
      }
      awesome.SetDefaultVol(Max(p.levels));
      fbSinkVol := Some(p.levels);
      out := Done;
    }

    /** `get_fsink_vol()`. */
    method GetFsinkVol() returns (out: Outcome)
      requires Valid()
      modifies conn
      ensures Next(out, Model()) == GetFsinkVolStep(old(Model()))
    {
      conn.Call(CallGetVolume(fallbackSink));
      out := Done;
    }

    /** `set_fsink_vol_up()`. */
    method SetFsinkVolUp() returns (out: Outcome)
      requires Valid()
      modifies conn
      ensures Next(out, Model()) == SetFsinkVolUpStep(old(Model()))
    {
      if fbSinkVol.None? {
        return Raised(NoVolumeYet);
      }
      if |fbSinkVol.value| == 0 {
        return Raised(EmptyVector);
      }
      var v := StepUp(fbSinkVol.value);
      conn.Call(CallSetVolume(fallbackSink, [v]));
      out := Done;
    }

    /** `set_fsink_vol_down()`. */
    method SetFsinkVolDown() returns (out: Outcome)
      requires Valid()
      modifies conn
      ensures Next(out, Model()) == SetFsinkVolDownStep(old(Model()))
    {
      if fbSinkVol.None? {
        return Raised(NoVolumeYet);
      }
      if |fbSinkVol.value| == 0 {
        return Raised(EmptyVector);
      }
      var v := StepDown(fbSinkVol.value);
      conn.Call(CallSetVolume(fallbackSink, [v]));
      out := Done;
    }

    /** `change_fsink(new)`. */
    method ChangeFsink(p: Payload) returns (out: Outcome)
      requires Valid()
      modifies this, conn
      ensures Next(out, Model()) == ChangeFsinkStep(p, old(Model()))
    {
      if !p.SinkArg? {
        return Raised(BadPayload);
      }
      var fsink := p.sink;
      out := DisconnectSignal(VolumeUpdated, Some(fallbackSink));
      if out.Raised? {
        return;
      }
      out := ConnectSignal(VolumeUpdated, Some(fsink), [Reaction.FsinkVolUpdate]);
      if out.Raised? {
        return;
      }
      fallbackSink := fsink;
    }

    /** `get_fsink()`. */
    method GetFsink() returns (out: Outcome)
      requires Valid()
      modifies conn
      ensures Next(out, Model()) == GetFsinkStep(old(Model()))
    {
      conn.Call(CallGetFallbackSink);
      out := Done;
    }

    /** `sig_functions[r](*args)`. */
    method Invoke(r: Reaction, p: Payload) returns (out: Outcome)
      requires Valid()
      modifies this, conn, awesome.session
      ensures Next(out, Model()) == Apply(r, p, old(Model()))
    {
      match r
      case FsinkVolUpdate => out := FsinkVolUpdate(p);
      case GetFsinkVol => out := GetFsinkVol();
      case SetFsinkVolUp => out := SetFsinkVolUp();
      case SetFsinkVolDown => out := SetFsinkVolDown();
      case ChangeFsink => out := ChangeFsink(p);
      case GetFsink => out := GetFsink();
    }

    /** The handler `SLfac(_, _, funcs)` returns, called with `p`. */
    method RunHandler(funcs: seq<Reaction>, p: Payload) returns (out: Outcome)
      requires Valid()
      modifies this, conn, awesome.session
      ensures Next(out, Model()) == RunAll(funcs, p, old(Model()))
    {
      out := Done;
      var i := 0;
      while i < |funcs|
        invariant 0 <= i <= |funcs|
        invariant RunAll(funcs[i..], p, Model()) == RunAll(funcs, p, old(Model()))
        invariant out == Done
      {
        assert funcs[i..][0] == funcs[i] && funcs[i..][1..] == funcs[i + 1..];
        out := Invoke(funcs[i], p);
        if out.Raised? {
          return;
        }
        i := i + 1;
      }
      assert funcs[i..] == [];
    }

    /** The audio connection dispatching a signal to the receiver `h`, if it is live. */
    method Deliver(h: Handle, p: Payload) returns (out: Outcome)
      requires Valid()
      modifies this, conn, awesome.session
      ensures Next(out, Model()) == PulseModel.Deliver(h, p, old(Model()))
    {
      if h in conn.receivers && conn.receivers[h].SignalReceiver? {
        out := RunHandler(conn.receivers[h].handler.funcs, p);
      } else {
        out := Done;
      }
    }

    /** The reply to `get_fsink_vol`'s Get: its reply handler is `fsink_vol_update`. */
    method OnVolumeReply(levels: seq<Level>) returns (out: Outcome)
      requires Valid()
      modifies this, awesome.session
      ensures Next(out, Model()) == Apply(Reaction.FsinkVolUpdate, LevelsArg(levels), old(Model()))
    {
      out := FsinkVolUpdate(LevelsArg(levels));
    }

    /** The reply to `get_fsink`'s Get: its reply handler runs `['change_fsink', 'get_fsink_vol']`. */
    method OnFallbackSinkReply(sink: Path) returns (out: Outcome)
      requires Valid()
      modifies this, conn, awesome.session
      ensures Next(out, Model()) == RunAll(FallbackReplyReactions, SinkArg(sink), old(Model()))
    {
      out := RunHandler(FallbackReplyReactions, SinkArg(sink));
    }
  }
}

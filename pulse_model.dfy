/**
  `PulseTalker` as a state machine on values. A `TalkerState` holds the
  object's own tables and fields, the state of its private connection to
  the audio server (`conn`) and the state of the session connection to the
  desktop side (`desktop`). Each reaction of `sig_functions` is a function
  from a state to a `Next`: whether it completed or raised, and the state it
  left. A raised exception stops the handler that ran the reaction, with
  the effects made before it in place.
*/
module PulseModel {
  import opened Wrappers
  import opened Volume
  import opened Names
  import opened Signals
  import opened Bus

  /** A key of `_sig_handlers` and of `_pa_state['pa_signals']`. */
  type Key = (string, Option<Path>)

  /** The Python exceptions a reaction can raise. */
  datatype Failure =
    | MissingKey(key: Key)          // KeyError in `_disconnect_signal`
    | UnsplittableName(name: string) // ValueError unpacking `rsplit` of a dotless name
    | NoVolumeYet                    // TypeError: `max(None)`
    | EmptyVector                    // ValueError: `max([])`
    | BadPayload                     // an argument of the wrong kind

  datatype Outcome = Done | Raised(failure: Failure)

  datatype TalkerState = TalkerState(
    sigHandlers: map<Key, Handle>,
    paSignals: set<Key>,
    fbSinkVol: Option<seq<Level>>,
    fallbackSink: Path,
    conn: World,
    desktop: World)

  datatype Next = Next(outcome: Outcome, state: TalkerState)

  /** The state `s` with one more call made on the audio connection. */
  function Call(s: TalkerState, e: Effect): TalkerState
  {
    s.(conn := s.conn.Send(e))
  }

  /**
    `_pa_signal_on(name, path)`: asks the server to emit the signal unless
    the key was recorded before; returns whether it was (`True`, else `None`).
  */
  function SignalOnStep(s: TalkerState, name: string, path: Option<Path>): (r: (bool, TalkerState))
    ensures r.0 <==> (name, path) in s.paSignals
    ensures r.1.paSignals == s.paSignals + {(name, path)}
    ensures r.0 ==> r.1 == s
    ensures !r.0 ==> && r.1.conn.log == s.conn.log + [ListenForSignal(name, path)]
                     && r.1.conn.receivers == s.conn.receivers && r.1.conn.next == s.conn.next
                     && r.1.(paSignals := s.paSignals, conn := s.conn) == s
  {
    if (name, path) in s.paSignals then (true, s)
    else (false, Call(s.(paSignals := s.paSignals + {(name, path)}), ListenForSignal(name, path)))
  }

  /**
    `_connect_signal(SLfac, name, path, funcs)`: registers the signal name
    (with no path), splits the name at its last dot and adds a receiver
    running `funcs`, whose handle overwrites the table entry for `(name, path)`.
  */
  function ConnectStep(s: TalkerState, name: string, path: Option<Path>, funcs: seq<Reaction>): (r: Next)
    ensures r.outcome.Done? <==> '.' in name
    ensures r.state.paSignals == s.paSignals + {(name, None)}
    ensures r.outcome.Raised? ==> r.state == SignalOnStep(s, name, None).1
    ensures r.outcome.Done? ==>
              && RSplitOnce(name).Some?
              && r.state.sigHandlers == s.sigHandlers[(name, path) := s.conn.next]
              && r.state.conn.next == s.conn.next + 1
              && s.conn.next in r.state.conn.receivers
              && r.state.conn.receivers[s.conn.next]
                 == SignalReceiver(RSplitOnce(name).value.0, RSplitOnce(name).value.1, path, Handler(name, path, funcs))
              && r.state.conn.log == SignalOnStep(s, name, None).1.conn.log
                                     + [AddReceiver(r.state.conn.receivers[s.conn.next], s.conn.next)]
              && (forall g :: g in s.conn.receivers && g != s.conn.next ==>
                    g in r.state.conn.receivers && r.state.conn.receivers[g] == s.conn.receivers[g])
    ensures r.state.fallbackSink == s.fallbackSink && r.state.fbSinkVol == s.fbSinkVol
    ensures r.state.desktop == s.desktop
  {
    var s1 := SignalOnStep(s, name, None).1;
    match RSplitOnce(name)
    case None => Next(Raised(UnsplittableName(name)), s1)
    case Some((iface, member)) =>
      var (h, w) := s1.conn.Add(SignalReceiver(iface, member, path, Handler(name, path, funcs)));
      Next(Done, s1.(sigHandlers := s1.sigHandlers[(name, path) := h], conn := w))
  }

  /**
    `_disconnect_signal(name, path)` with the removal it evidently intends:
    the receiver stored under the key, which must be present, is removed as
    `match.remove()` removes it; the table itself is left as it was.
  */
  function DisconnectStep(s: TalkerState, name: string, path: Option<Path>): (r: Next)
    ensures r.outcome.Done? <==> (name, path) in s.sigHandlers
    ensures r.state.sigHandlers == s.sigHandlers && r.state.paSignals == s.paSignals
    ensures r.outcome.Done? ==>
              var h := s.sigHandlers[(name, path)];
              && r.state.conn.receivers == s.conn.receivers - {h}
              && r.state.conn.log == s.conn.log + [RemoveReceiver(h)]
              && r.state.conn.next == s.conn.next
              && r.state.(conn := s.conn) == s
    ensures r.outcome.Raised? ==> r.state == s
  {
    if (name, path) !in s.sigHandlers then Next(Raised(MissingKey((name, path))), s)
    else Next(Done, s.(conn := s.conn.Remove(s.sigHandlers[(name, path)])))
  }

  /** `fsink_vol_update(vec)`: pushes `max(vec)` to the desktop, then stores `vec`. */
  function FsinkVolUpdateStep(p: Payload, s: TalkerState): (n: Next)
    ensures n.outcome.Done? <==> p.LevelsArg? && |p.levels| > 0
    ensures n.outcome.Raised? ==> n.state == s
    ensures n.outcome.Done? ==> n.state.fbSinkVol == Some(p.levels) && n.state.(fbSinkVol := s.fbSinkVol, desktop := s.desktop) == s
    ensures n.state.desktop.receivers == s.desktop.receivers && n.state.desktop.next == s.desktop.next
  {
    match p
    case LevelsArg(v) =>
      if |v| == 0 then Next(Raised(EmptyVector), s)
      else Next(Done, s.(desktop := s.desktop.Send(SetDesktopVol(Max(v))), fbSinkVol := Some(v)))
    case _ => Next(Raised(BadPayload), s)
  }

  /** `get_fsink_vol()`: an asynchronous Get of the current fallback sink's Volume. */
  function GetFsinkVolStep(s: TalkerState): (n: Next)
    ensures n.outcome == Done
    ensures n.state.conn.log == s.conn.log + [CallGetVolume(s.fallbackSink)]
    ensures n.state.conn.receivers == s.conn.receivers && n.state.conn.next == s.conn.next
    ensures n.state.(conn := s.conn) == s
  {
    Next(Done, Call(s, CallGetVolume(s.fallbackSink)))
  }

  /** `set_fsink_vol_up()`: an asynchronous Set of `[StepUp(fb_sink_vol)]` on the fallback sink. */
  function SetFsinkVolUpStep(s: TalkerState): (n: Next)
    ensures n.outcome.Done? <==> s.fbSinkVol.Some? && |s.fbSinkVol.value| > 0
    ensures n.outcome == Raised(NoVolumeYet) <==> s.fbSinkVol.None?
    ensures n.outcome.Raised? ==> n.state == s
    ensures n.outcome.Done? ==>
              && n.state.conn.log == s.conn.log + [CallSetVolume(s.fallbackSink, [StepUp(s.fbSinkVol.value)])]
              && n.state.conn.receivers == s.conn.receivers && n.state.conn.next == s.conn.next
              && n.state.(conn := s.conn) == s
  {
    match s.fbSinkVol
    case None => Next(Raised(NoVolumeYet), s)
    case Some(v) =>
      if |v| == 0 then Next(Raised(EmptyVector), s)
      else Next(Done, Call(s, CallSetVolume(s.fallbackSink, [StepUp(v)])))
  }

  /** `set_fsink_vol_down()`: an asynchronous Set of `[StepDown(fb_sink_vol)]` on the fallback sink. */
  function SetFsinkVolDownStep(s: TalkerState): (n: Next)
    ensures n.outcome.Done? <==> s.fbSinkVol.Some? && |s.fbSinkVol.value| > 0
    ensures n.outcome == Raised(NoVolumeYet) <==> s.fbSinkVol.None?
    ensures n.outcome.Raised? ==> n.state == s
    ensures n.outcome.Done? ==>
              && n.state.conn.log == s.conn.log + [CallSetVolume(s.fallbackSink, [StepDown(s.fbSinkVol.value)])]
              && n.state.conn.receivers == s.conn.receivers && n.state.conn.next == s.conn.next
              && n.state.(conn := s.conn) == s
  {
    match s.fbSinkVol
    case None => Next(Raised(NoVolumeYet), s)
    case Some(v) =>
      if |v| == 0 then Next(Raised(EmptyVector), s)
      else Next(Done, Call(s, CallSetVolume(s.fallbackSink, [StepDown(v)])))
  }

  /**
    `change_fsink(new)`: disconnects VolumeUpdated for the old fallback sink,
    connects it for `new` with `['fsink_vol_update']`, then records `new`.
  */
  function ChangeFsinkStep(p: Payload, s: TalkerState): (n: Next)
    ensures !p.SinkArg? ==> n == Next(Raised(BadPayload), s)
    ensures p.SinkArg? ==> (n.outcome.Done? <==> (VolumeUpdated, Some(s.fallbackSink)) in s.sigHandlers)
    ensures p.SinkArg? && (VolumeUpdated, Some(s.fallbackSink)) !in s.sigHandlers ==>
              n == Next(Raised(MissingKey((VolumeUpdated, Some(s.fallbackSink)))), s)
    ensures n.outcome.Done? ==>
              && n.state.fallbackSink == p.sink
              && n.state.sigHandlers == s.sigHandlers[(VolumeUpdated, Some(p.sink)) := s.conn.next]
              && n.state.paSignals == s.paSignals + {(VolumeUpdated, None)}
    ensures n.state.fbSinkVol == s.fbSinkVol && n.state.desktop == s.desktop
  {
    match p
    case SinkArg(sink) =>
      var d := DisconnectStep(s, VolumeUpdated, Some(s.fallbackSink));
      if d.outcome.Raised? then d
      else
        var c := ConnectStep(d.state, VolumeUpdated, Some(sink), [FsinkVolUpdate]);
        if c.outcome.Raised? then c
        else Next(Done, c.state.(fallbackSink := sink))
    case _ => Next(Raised(BadPayload), s)
  }

  /** `get_fsink()`: an asynchronous Get of the server's FallbackSink property. */
  function GetFsinkStep(s: TalkerState): (n: Next)
    ensures n.outcome == Done
    ensures n.state.conn.log == s.conn.log + [CallGetFallbackSink]
    ensures n.state.conn.receivers == s.conn.receivers && n.state.conn.next == s.conn.next
    ensures n.state.(conn := s.conn) == s
  {
    Next(Done, Call(s, CallGetFallbackSink))
  }

  /** `t` has the subscriptions of `s`: the table, the registry, the fallback sink and the receivers. */
  predicate SameSubscriptions(s: TalkerState, t: TalkerState)
  {
    && t.sigHandlers == s.sigHandlers && t.paSignals == s.paSignals && t.fallbackSink == s.fallbackSink
    && t.conn.receivers == s.conn.receivers && t.conn.next == s.conn.next
  }

  /**
    `sig_functions[r](*args)`. The registry only grows, and only
    `change_fsink` touches the subscriptions.
  */
  function Apply(r: Reaction, p: Payload, s: TalkerState): (n: Next)
    ensures s.paSignals <= n.state.paSignals
    ensures r != ChangeFsink ==> SameSubscriptions(s, n.state)
  {
    match r
    case FsinkVolUpdate => FsinkVolUpdateStep(p, s)
    case GetFsinkVol => GetFsinkVolStep(s)
    case SetFsinkVolUp => SetFsinkVolUpStep(s)
    case SetFsinkVolDown => SetFsinkVolDownStep(s)
    case ChangeFsink => ChangeFsinkStep(p, s)
    case GetFsink => GetFsinkStep(s)
  }

  /**
    The handler `SLfac(_, _, funcs)` builds: each reaction in list order,
    all with the same arguments, each on the state the previous one left;
    the first exception ends the run.
  */
  function RunAll(funcs: seq<Reaction>, p: Payload, s: TalkerState): (n: Next)
    ensures s.paSignals <= n.state.paSignals
    ensures ChangeFsink !in funcs ==> SameSubscriptions(s, n.state)
    decreases |funcs|
  {
    if funcs == [] then Next(Done, s)
    else
      var n := Apply(funcs[0], p, s);
      if n.outcome.Raised? then n else RunAll(funcs[1..], p, n.state)
  }

  /** The connection dispatching a signal to the receiver `h`, if it is still live. */
  function Deliver(h: Handle, p: Payload, s: TalkerState): (n: Next)
    ensures !(h in s.conn.receivers && s.conn.receivers[h].SignalReceiver?) ==> n == Next(Done, s)
    ensures s.paSignals <= n.state.paSignals
  {
    if h in s.conn.receivers && s.conn.receivers[h].SignalReceiver?
    then RunAll(s.conn.receivers[h].handler.funcs, p, s)
    else Next(Done, s)
  }

  /** The reply handler of `get_fsink`'s Get. */
  const FallbackReplyReactions: seq<Reaction> := [ChangeFsink, GetFsinkVol]

  /** A wheel gesture forwarded from the desktop side; the others do nothing here. */
  function ForwardGesture(g: Gesture, s: TalkerState): (n: Next)
    ensures SameSubscriptions(s, n.state) && n.state.fbSinkVol == s.fbSinkVol && n.state.desktop == s.desktop
    ensures n.outcome.Raised? ==> n.state == s
    ensures g in {MouseEnter, MouseLeave} ==> n == Next(Done, s)
  {
    match g
    case WheelUp => Apply(SetFsinkVolUp, NoArgs, s)
    case WheelDown => Apply(SetFsinkVolDown, NoArgs, s)
    case _ => Next(Done, s)
  }

  /** One row of `_matrix`. */
  datatype Row = Row(name: string, path: Option<Path>, funcs: seq<Reaction>)

  const InitName := "init"

  /** `_matrix`, built with the fallback sink known at construction. */
  function Matrix(fallback: Path): (rows: seq<Row>)
    ensures |rows| == 4 && rows[0] == Row(InitName, None, [GetFsink])
    ensures forall i :: 1 <= i < |rows| ==> rows[i].name != InitName
    ensures rows[3] == Row(VolumeUpdated, Some(fallback), [FsinkVolUpdate])
  {
    [ Row(InitName, None, [GetFsink]),
      Row(FallbackSinkUpdated, None, [ChangeFsink, GetFsinkVol]),
      Row(FallbackSinkUnset, None, []),
      Row(VolumeUpdated, Some(fallback), [FsinkVolUpdate]) ]
  }

  /** An `'init'` row is run at once with no arguments; any other is connected. */
  function RunRow(row: Row, s: TalkerState): (n: Next)
    ensures s.paSignals <= n.state.paSignals
    ensures row.name != InitName ==> (row.name, None) in n.state.paSignals
    ensures row.name == InitName && ChangeFsink !in row.funcs ==> SameSubscriptions(s, n.state)
  {
    if row.name == InitName then RunAll(row.funcs, NoArgs, s)
    else ConnectStep(s, row.name, row.path, row.funcs)
  }

  /** The bootstrap loop over the rows; an exception ends it. */
  function RunMatrix(rows: seq<Row>, s: TalkerState): (n: Next)
    ensures s.paSignals <= n.state.paSignals
    decreases |rows|
  {
    if rows == [] then Next(Done, s)
    else
      var n := RunRow(rows[0], s);
      if n.outcome.Raised? then n else RunMatrix(rows[1..], n.state)
  }

  /** The state just before the bootstrap loop, on a fresh audio connection. */
  function Initial(fallback: Path, desktop: World): TalkerState
  {
    TalkerState(map[], {}, None, fallback, World([], map[], 0), desktop)
  }
}

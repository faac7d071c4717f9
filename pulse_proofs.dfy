/**
  What the bookkeeping of `PulseTalker` guarantees, proved on the value
  model: the three subscriptions of the matrix stay live, the volume one
  always scoped to the current fallback sink and the only one of its kind
  (`Subscribed`); every key of `pa_signals` was asked for exactly once
  (`ExactlyOnce`); rescoping removes the old receiver before adding the new
  one; handler lists run in order; the bootstrap establishes both invariants.
*/
module PulseProofs {
  import opened Wrappers
  import opened Volume
  import opened Names
  import opened Signals
  import opened Bus
  import opened PulseModel

  function VolumeKey(sink: Path): Key
  {
    (VolumeUpdated, Some(sink))
  }

  /** The receiver `change_fsink` adds for `sink`. */
  function VolumeReceiver(sink: Path): Receiver
  {
    SignalReceiver(DeviceIface, VolumeUpdatedMember, Some(sink), Handler(VolumeUpdated, Some(sink), [FsinkVolUpdate]))
  }

  function FallbackReceiver(): Receiver
  {
    SignalReceiver(CoreIface, FallbackSinkUpdatedMember, None, Handler(FallbackSinkUpdated, None, FallbackReplyReactions))
  }

  function UnsetReceiver(): Receiver
  {
    SignalReceiver(CoreIface, FallbackSinkUnsetMember, None, Handler(FallbackSinkUnset, None, []))
  }

  /** A receiver the bus would dispatch Device.VolumeUpdated signals to. */
  predicate ForVolume(r: Receiver)
  {
    r.SignalReceiver? && r.iface == DeviceIface && r.member == VolumeUpdatedMember
  }

  /** The table entry `k` holds a live receiver equal to `r`. */
  predicate Live(s: TalkerState, k: Key, r: Receiver)
  {
    k in s.sigHandlers && s.sigHandlers[k] in s.conn.receivers && s.conn.receivers[s.sigHandlers[k]] == r
  }

  /**
    The subscription state after the bootstrap: FallbackSinkUpdated and
    FallbackSinkUnset are live, VolumeUpdated is live for the current
    fallback sink, and no other VolumeUpdated receiver is live.
  */
  predicate Subscribed(s: TalkerState)
  {
    && s.conn.WellFormed()
    && (VolumeUpdated, None) in s.paSignals
    && Live(s, (FallbackSinkUpdated, None), FallbackReceiver())
    && Live(s, (FallbackSinkUnset, None), UnsetReceiver())
    && Live(s, VolumeKey(s.fallbackSink), VolumeReceiver(s.fallbackSink))
    && forall g :: g in s.conn.receivers && ForVolume(s.conn.receivers[g]) ==> g == s.sigHandlers[VolumeKey(s.fallbackSink)]
  }

  lemma VolumeUpdatedSplits()
    ensures RSplitOnce(VolumeUpdated) == Some((DeviceIface, VolumeUpdatedMember))
  {
    assert '.' !in VolumeUpdatedMember;
    RSplitOnceOfJoin(DeviceIface, VolumeUpdatedMember);
  }

  /**
    `change_fsink(sink)` in a subscribed state: it cannot fail; it makes
    exactly two calls, the removal of the old VolumeUpdated receiver then
    the addition of one for `sink`; the table entry for `sink` becomes the
    new handle, every other entry is kept; the old receiver is no longer
    live and the state is subscribed again, now scoped to `sink`.
  */
  lemma ChangeFsinkRescopes(s: TalkerState, sink: Path)
    requires Subscribed(s)
    ensures var n := ChangeFsinkStep(SinkArg(sink), s);
            var h := s.sigHandlers[VolumeKey(s.fallbackSink)];
            && n.outcome == Done
            && n.state.conn.log == s.conn.log + [RemoveReceiver(h), AddReceiver(VolumeReceiver(sink), s.conn.next)]
            && n.state.sigHandlers == s.sigHandlers[VolumeKey(sink) := s.conn.next]
            && n.state.fallbackSink == sink
            && h !in n.state.conn.receivers
            && n.state.paSignals == s.paSignals && n.state.fbSinkVol == s.fbSinkVol && n.state.desktop == s.desktop
            && Subscribed(n.state)
  {
    VolumeUpdatedSplits();
    var h := s.sigHandlers[VolumeKey(s.fallbackSink)];
    var d := DisconnectStep(s, VolumeUpdated, Some(s.fallbackSink));
    assert d.state == s.(conn := s.conn.Remove(h));
    assert SignalOnStep(d.state, VolumeUpdated, None).1 == d.state;
    var c := ConnectStep(d.state, VolumeUpdated, Some(sink), [FsinkVolUpdate]);
    var hFallback := s.sigHandlers[(FallbackSinkUpdated, None)];
    var hUnset := s.sigHandlers[(FallbackSinkUnset, None)];
    assert !ForVolume(FallbackReceiver()) && !ForVolume(UnsetReceiver());
    assert hFallback != h && hUnset != h;
    assert s.conn.next !in s.conn.receivers;
    assert c.state.conn == d.state.conn.Add(VolumeReceiver(sink)).1;
  }

  /** No reaction can break the subscription state. */
  lemma ApplyKeepsSubscribed(r: Reaction, p: Payload, s: TalkerState)
    requires Subscribed(s)
    ensures Subscribed(Apply(r, p, s).state)
  {
    if r == ChangeFsink && p.SinkArg? {
      ChangeFsinkRescopes(s, p.sink);
    }
  }

  lemma {:induction false} RunAllKeepsSubscribed(funcs: seq<Reaction>, p: Payload, s: TalkerState)
    requires Subscribed(s)
    ensures Subscribed(RunAll(funcs, p, s).state)
    decreases |funcs|
  {
    if funcs != [] {
      ApplyKeepsSubscribed(funcs[0], p, s);
      RunAllKeepsSubscribed(funcs[1..], p, Apply(funcs[0], p, s).state);
    }
  }

  /** Whatever signal arrives, on whatever receiver, the state stays subscribed. */
  lemma DeliverKeepsSubscribed(h: Handle, p: Payload, s: TalkerState)
    requires Subscribed(s)
    ensures Subscribed(Deliver(h, p, s).state)
  {
    if h in s.conn.receivers && s.conn.receivers[h].SignalReceiver? {
      RunAllKeepsSubscribed(s.conn.receivers[h].handler.funcs, p, s);
    }
  }

  /** A live VolumeUpdated receiver is scoped to the current fallback sink and runs `fsink_vol_update`. */
  lemma VolumeDeliveryIsCurrent(h: Handle, p: Payload, s: TalkerState)
    requires Subscribed(s) && h in s.conn.receivers && ForVolume(s.conn.receivers[h])
    ensures s.conn.receivers[h].path == Some(s.fallbackSink)
    ensures Deliver(h, p, s) == FsinkVolUpdateStep(p, s)
  {
  }

  /** After rescoping, a signal for the receiver of the old sink reaches nothing and changes nothing. */
  lemma StaleVolumeDeliveryDropped(s: TalkerState, sink: Path, p: Payload)
    requires Subscribed(s)
    ensures var t := ChangeFsinkStep(SinkArg(sink), s).state;
            Deliver(s.sigHandlers[VolumeKey(s.fallbackSink)], p, t) == Next(Done, t)
  {
    ChangeFsinkRescopes(s, sink);
  }

  /** Running `f1 + f2` is running `f1`, then (unless it raised) `f2` on the state it left. */
  lemma {:induction false} RunAllAppend(f1: seq<Reaction>, f2: seq<Reaction>, p: Payload, s: TalkerState)
    ensures RunAll(f1 + f2, p, s) ==
            (var n := RunAll(f1, p, s); if n.outcome.Raised? then n else RunAll(f2, p, n.state))
    decreases |f1|
  {
    if f1 == [] {
      assert f1 + f2 == f2;
    } else {
      assert (f1 + f2)[0] == f1[0];
      assert (f1 + f2)[1..] == f1[1..] + f2;
      var n := Apply(f1[0], p, s);
      if n.outcome.Done? {
        RunAllAppend(f1[1..], f2, p, n.state);
      }
    }
  }

  /**
    The FallbackSinkUpdated handler (and the reply of `get_fsink`) runs
    `change_fsink` fully before `get_fsink_vol`: the removal and the
    addition come first, and the Get then targets the new sink.
  */
  lemma FallbackUpdateRescopesThenFetches(s: TalkerState, sink: Path)
    requires Subscribed(s)
    ensures var n := RunAll(FallbackReplyReactions, SinkArg(sink), s);
            var h := s.sigHandlers[VolumeKey(s.fallbackSink)];
            && n.outcome == Done
            && n.state.conn.log == s.conn.log + [RemoveReceiver(h), AddReceiver(VolumeReceiver(sink), s.conn.next), CallGetVolume(sink)]
            && n.state.fallbackSink == sink
            && Subscribed(n.state)
  {
    var c := ChangeFsinkStep(SinkArg(sink), s);
    ChangeFsinkRescopes(s, sink);
    ChangeThenFetch(s, sink);
    CallKeepsSubscribed(c.state, CallGetVolume(sink));
    var t := Call(c.state, CallGetVolume(sink));
    assert t.conn.log == c.state.conn.log + [CallGetVolume(sink)];
  }

  lemma ChangeThenFetch(s: TalkerState, sink: Path)
    requires ChangeFsinkStep(SinkArg(sink), s).outcome == Done
    ensures RunAll(FallbackReplyReactions, SinkArg(sink), s)
            == Next(Done, Call(ChangeFsinkStep(SinkArg(sink), s).state, CallGetVolume(sink)))
  {
    RunTwo(ChangeFsink, GetFsinkVol, SinkArg(sink), s);
  }

  /** A handler list of two reactions runs the first, then the second on its result. */
  lemma RunTwo(a: Reaction, b: Reaction, p: Payload, s: TalkerState)
    ensures RunAll([a, b], p, s) ==
            (var n := Apply(a, p, s); if n.outcome.Raised? then n else Apply(b, p, n.state))
  {
    assert [a, b][1..] == [b];
    assert [b][1..] == [];
    var n := Apply(a, p, s);
    if n.outcome.Done? {
      var m := Apply(b, p, n.state);
      assert RunAll([b], p, n.state) == if m.outcome.Raised? then m else RunAll([], p, m.state);
    }
  }

  lemma CallKeepsSubscribed(s: TalkerState, e: Effect)
    requires Subscribed(s)
    ensures Subscribed(Call(s, e))
  {
  }

  /** The signal the FallbackSinkUpdated receiver runs on is exactly the fallback reply's handler list. */
  lemma FallbackDeliveryRescopes(s: TalkerState, sink: Path)
    requires Subscribed(s)
    ensures Deliver(s.sigHandlers[(FallbackSinkUpdated, None)], SinkArg(sink), s)
            == RunAll(FallbackReplyReactions, SinkArg(sink), s)
  {
  }

  /**
    `fsink_vol_update(vec)`: for a non-empty vector it stores `vec` and makes
    exactly one desktop call, with the maximum of `vec`; nothing else
    changes. An empty vector raises and changes nothing.
  */
  lemma FsinkVolUpdateStoresAndPushes(s: TalkerState, vec: seq<Level>)
    ensures var n := Apply(FsinkVolUpdate, LevelsArg(vec), s);
            && (|vec| == 0 ==> n == Next(Raised(EmptyVector), s))
            && (|vec| > 0 ==>
                  && n.outcome == Done
                  && n.state.fbSinkVol == Some(vec)
                  && |n.state.desktop.log| == |s.desktop.log| + 1
                  && n.state.desktop.log[..|s.desktop.log|] == s.desktop.log
                  && (var pushed := n.state.desktop.log[|s.desktop.log|];
                      && pushed.SetDesktopVol? && pushed.volume in vec
                      && forall i :: 0 <= i < |vec| ==> vec[i] <= pushed.volume)
                  && n.state.desktop.receivers == s.desktop.receivers && n.state.desktop.next == s.desktop.next
                  && n.state.(fbSinkVol := s.fbSinkVol, desktop := s.desktop) == s)
  {
    if |vec| > 0 {
      var n := Apply(FsinkVolUpdate, LevelsArg(vec), s);
      assert n.state.desktop.log == s.desktop.log + [SetDesktopVol(Max(vec))];
    }
  }

  /**
    `set_fsink_vol_up()` / `set_fsink_vol_down()`: with a stored non-empty
    vector they make exactly one call, a Set of the one-element vector
    holding the clamped step, to the current fallback sink, and change
    nothing else; from levels in [0, 65536] the written value is in range.
    Without a stored vector, or with an empty one, they raise and change nothing.
  */
  lemma VolumeStepWritesOneSet(s: TalkerState, up: bool)
    ensures var n := Apply(if up then SetFsinkVolUp else SetFsinkVolDown, NoArgs, s);
            && (s.fbSinkVol.None? ==> n == Next(Raised(NoVolumeYet), s))
            && (s.fbSinkVol == Some([]) ==> n == Next(Raised(EmptyVector), s))
            && (s.fbSinkVol.Some? && |s.fbSinkVol.value| > 0 ==>
                  var v := s.fbSinkVol.value;
                  var w := if up then StepUp(v) else StepDown(v);
                  && n.outcome == Done
                  && n.state == s.(conn := World(s.conn.log + [CallSetVolume(s.fallbackSink, [w])], s.conn.receivers, s.conn.next))
                  && (InRange(v) ==> 0 <= w <= MaxVolume))
  {
    if s.fbSinkVol.Some? && |s.fbSinkVol.value| > 0 && InRange(s.fbSinkVol.value) {
      StepsStayInRange(s.fbSinkVol.value);
    }
  }

  /** A wheel-up gesture is `set_fsink_vol_up`, a wheel-down one `set_fsink_vol_down`; enter and leave change nothing. */
  lemma GesturesForwardToVolumeSteps(g: Gesture, s: TalkerState)
    ensures g == WheelUp ==> ForwardGesture(g, s) == SetFsinkVolUpStep(s)
    ensures g == WheelDown ==> ForwardGesture(g, s) == SetFsinkVolDownStep(s)
    ensures g in {MouseEnter, MouseLeave} ==> ForwardGesture(g, s) == Next(Done, s)
  {
  }

  // ---- ListenForSignal is issued exactly once per recorded key ----

  /** How many times `ListenForSignal(k)` appears in `log`. */
  function Listens(log: seq<Effect>, k: Key): nat
  {
    if log == [] then 0
    else Listens(log[..|log| - 1], k) + (if log[|log| - 1] == ListenForSignal(k.0, k.1) then 1 else 0)
  }

  lemma {:induction false} ListensAppend(log: seq<Effect>, e: Effect, k: Key)
    ensures Listens(log + [e], k) == Listens(log, k) + (if e == ListenForSignal(k.0, k.1) then 1 else 0)
  {
    assert (log + [e])[..|log|] == log;
  }

  /** Each key of `pa_signals` was asked for exactly once, and no other key ever was. */
  ghost predicate ExactlyOnce(s: TalkerState)
  {
    forall k :: Listens(s.conn.log, k) == (if k in s.paSignals then 1 else 0)
  }

  /** Appending a call that is not a ListenForSignal keeps the count. */
  lemma AppendKeepsExactlyOnce(s: TalkerState, t: TalkerState, e: Effect)
    requires ExactlyOnce(s) && !e.ListenForSignal?
    requires t.conn.log == s.conn.log + [e] && t.paSignals == s.paSignals
    ensures ExactlyOnce(t)
  {
    forall k ensures Listens(t.conn.log, k) == (if k in t.paSignals then 1 else 0) {
      ListensAppend(s.conn.log, e, k);
    }
  }

  lemma SignalOnKeepsExactlyOnce(s: TalkerState, name: string, path: Option<Path>)
    requires ExactlyOnce(s)
    ensures ExactlyOnce(SignalOnStep(s, name, path).1)
  {
    if (name, path) !in s.paSignals {
      var t := SignalOnStep(s, name, path).1;
      forall k ensures Listens(t.conn.log, k) == (if k in t.paSignals then 1 else 0) {
        ListensAppend(s.conn.log, ListenForSignal(name, path), k);
      }
    }
  }

  lemma ConnectKeepsExactlyOnce(s: TalkerState, name: string, path: Option<Path>, funcs: seq<Reaction>)
    requires ExactlyOnce(s)
    ensures ExactlyOnce(ConnectStep(s, name, path, funcs).state)
  {
    var s1 := SignalOnStep(s, name, None).1;
    SignalOnKeepsExactlyOnce(s, name, None);
    match RSplitOnce(name)
    case None =>
    case Some((iface, member)) =>
      var r := SignalReceiver(iface, member, path, Handler(name, path, funcs));
      AppendKeepsExactlyOnce(s1, ConnectStep(s, name, path, funcs).state, AddReceiver(r, s1.conn.next));
  }

  lemma DisconnectKeepsExactlyOnce(s: TalkerState, name: string, path: Option<Path>)
    requires ExactlyOnce(s)
    ensures ExactlyOnce(DisconnectStep(s, name, path).state)
  {
    if (name, path) in s.sigHandlers {
      AppendKeepsExactlyOnce(s, DisconnectStep(s, name, path).state, RemoveReceiver(s.sigHandlers[(name, path)]));
    }
  }

  lemma ApplyKeepsExactlyOnce(r: Reaction, p: Payload, s: TalkerState)
    requires ExactlyOnce(s)
    ensures ExactlyOnce(Apply(r, p, s).state)
  {
    match r
    case FsinkVolUpdate =>
    case GetFsinkVol =>
      AppendKeepsExactlyOnce(s, Apply(r, p, s).state, CallGetVolume(s.fallbackSink));
    case SetFsinkVolUp =>
      var n := Apply(r, p, s);
      if n.outcome.Done? {
        AppendKeepsExactlyOnce(s, n.state, CallSetVolume(s.fallbackSink, [StepUp(s.fbSinkVol.value)]));
      }
    case SetFsinkVolDown =>
      var n := Apply(r, p, s);
      if n.outcome.Done? {
        AppendKeepsExactlyOnce(s, n.state, CallSetVolume(s.fallbackSink, [StepDown(s.fbSinkVol.value)]));
      }
    case ChangeFsink =>
      if p.SinkArg? {
        DisconnectKeepsExactlyOnce(s, VolumeUpdated, Some(s.fallbackSink));
        var d := DisconnectStep(s, VolumeUpdated, Some(s.fallbackSink));
        if d.outcome.Done? {
          ConnectKeepsExactlyOnce(d.state, VolumeUpdated, Some(p.sink), [FsinkVolUpdate]);
        }
      }
    case GetFsink =>
      AppendKeepsExactlyOnce(s, Apply(r, p, s).state, CallGetFallbackSink);
  }

  lemma {:induction false} RunAllKeepsExactlyOnce(funcs: seq<Reaction>, p: Payload, s: TalkerState)
    requires ExactlyOnce(s)
    ensures ExactlyOnce(RunAll(funcs, p, s).state)
    decreases |funcs|
  {
    if funcs != [] {
      ApplyKeepsExactlyOnce(funcs[0], p, s);
      RunAllKeepsExactlyOnce(funcs[1..], p, Apply(funcs[0], p, s).state);
    }
  }

  /** Whatever is delivered, ListenForSignal stays issued exactly once per recorded key. */
  lemma DeliverKeepsExactlyOnce(h: Handle, p: Payload, s: TalkerState)
    requires ExactlyOnce(s)
    ensures ExactlyOnce(Deliver(h, p, s).state)
  {
    if h in s.conn.receivers && s.conn.receivers[h].SignalReceiver? {
      RunAllKeepsExactlyOnce(s.conn.receivers[h].handler.funcs, p, s);
    }
  }

  lemma {:induction false} RunMatrixKeepsExactlyOnce(rows: seq<Row>, s: TalkerState)
    requires ExactlyOnce(s)
    ensures ExactlyOnce(RunMatrix(rows, s).state)
    decreases |rows|
  {
    if rows != [] {
      var row := rows[0];
      if row.name == InitName {
        RunAllKeepsExactlyOnce(row.funcs, NoArgs, s);
      } else {
        ConnectKeepsExactlyOnce(s, row.name, row.path, row.funcs);
      }
      RunMatrixKeepsExactlyOnce(rows[1..], RunRow(row, s).state);
    }
  }

  /** Neither invariant depends on the desktop side. */
  lemma DesktopIrrelevant(s: TalkerState, d: World)
    ensures Subscribed(s) == Subscribed(s.(desktop := d))
    ensures ExactlyOnce(s) == ExactlyOnce(s.(desktop := d))
  {
  }

  /** A second `_pa_signal_on` for the same key returns True and changes nothing. */
  lemma SignalOnIdempotent(s: TalkerState, name: string, path: Option<Path>)
    ensures var t := SignalOnStep(s, name, path).1;
            SignalOnStep(t, name, path) == (true, t)
  {
  }

  // ---- The bootstrap ----

  /** The state the bootstrap leaves: three calls per subscribed row after the one Get. */
  function Booted(fallback: Path, desktop: World): TalkerState
  {
    TalkerState(
      map[(FallbackSinkUpdated, None) := 0, (FallbackSinkUnset, None) := 1, VolumeKey(fallback) := 2],
      {(FallbackSinkUpdated, None), (FallbackSinkUnset, None), (VolumeUpdated, None)},
      None,
      fallback,
      World(
        [ CallGetFallbackSink,
          ListenForSignal(FallbackSinkUpdated, None), AddReceiver(FallbackReceiver(), 0),
          ListenForSignal(FallbackSinkUnset, None), AddReceiver(UnsetReceiver(), 1),
          ListenForSignal(VolumeUpdated, None), AddReceiver(VolumeReceiver(fallback), 2) ],
        map[0 := FallbackReceiver(), 1 := UnsetReceiver(), 2 := VolumeReceiver(fallback)],
        3),
      desktop)
  }

  /**
    The bootstrap loop over `_matrix` on a fresh connection: 'init' runs
    `get_fsink` at once (one Get of FallbackSink) and is never subscribed;
    each other row is registered once with ListenForSignal and gets one
    receiver, in row order. The result is subscribed, with the volume
    receiver scoped to the fallback sink known at construction, and every
    registered key was asked for exactly once.
  */
  lemma BootstrapSubscribes(fallback: Path, desktop: World)
    ensures var n := RunMatrix(Matrix(fallback), Initial(fallback, desktop));
            && n.outcome == Done
            && n.state.conn.log == [
                 CallGetFallbackSink,
                 ListenForSignal(FallbackSinkUpdated, None), AddReceiver(FallbackReceiver(), 0),
                 ListenForSignal(FallbackSinkUnset, None), AddReceiver(UnsetReceiver(), 1),
                 ListenForSignal(VolumeUpdated, None), AddReceiver(VolumeReceiver(fallback), 2)]
            && n.state.sigHandlers == map[(FallbackSinkUpdated, None) := 0, (FallbackSinkUnset, None) := 1, VolumeKey(fallback) := 2]
            && n.state.paSignals == {(FallbackSinkUpdated, None), (FallbackSinkUnset, None), (VolumeUpdated, None)}
            && n.state.fallbackSink == fallback && n.state.fbSinkVol == None && n.state.desktop == desktop
            && Subscribed(n.state) && ExactlyOnce(n.state)
  {
    BootstrapRuns(fallback, desktop);
    BootedSubscribed(fallback, desktop);
    var s0 := Initial(fallback, desktop);
    assert ExactlyOnce(s0) by {
      forall k ensures Listens(s0.conn.log, k) == (if k in s0.paSignals then 1 else 0) {
      }
    }
    RunMatrixKeepsExactlyOnce(Matrix(fallback), s0);
  }

  lemma BootedSubscribed(fallback: Path, desktop: World)
    ensures Subscribed(Booted(fallback, desktop))
  {
  }

  /** The bootstrap loop computes `Booted`, one row at a time. */
  lemma BootstrapRuns(fallback: Path, desktop: World)
    ensures RunMatrix(Matrix(fallback), Initial(fallback, desktop)) == Next(Done, Booted(fallback, desktop))
  {
    var rows := Matrix(fallback);
    var s0 := Initial(fallback, desktop);
    var s1 := Call(s0, CallGetFallbackSink);
    var s2 := Registered(s1, FallbackSinkUpdated, None, FallbackReceiver());
    var s3 := Registered(s2, FallbackSinkUnset, None, UnsetReceiver());
    var s4 := Registered(s3, VolumeUpdated, Some(fallback), VolumeReceiver(fallback));
    InitRowFetchesFallback(rows[0], s0);
    FallbackRowRegisters(rows[1], s1);
    UnsetRowRegisters(rows[2], s2);
    VolumeRowRegisters(rows[3], s3, fallback);
    RunMatrixOfFour(rows, s0, s1, s2, s3, s4);
    BootedUnfolds(fallback, desktop);
  }

  /** The FallbackSinkUpdated row, connected first: one registration and one receiver. */
  lemma FallbackRowRegisters(row: Row, s: TalkerState)
    requires row == Row(FallbackSinkUpdated, None, FallbackReplyReactions) && s.paSignals == {}
    ensures RunRow(row, s) == Next(Done, Registered(s, FallbackSinkUpdated, None, FallbackReceiver()))
  {
    assert '.' !in FallbackSinkUpdatedMember;
    RSplitOnceOfJoin(CoreIface, FallbackSinkUpdatedMember);
    ConnectFresh(s, FallbackSinkUpdated, CoreIface, FallbackSinkUpdatedMember, None, FallbackReplyReactions);
  }

  /** The FallbackSinkUnset row, connected after FallbackSinkUpdated. */
  lemma UnsetRowRegisters(row: Row, s: TalkerState)
    requires row == Row(FallbackSinkUnset, None, []) && s.paSignals == {(FallbackSinkUpdated, None)}
    ensures RunRow(row, s) == Next(Done, Registered(s, FallbackSinkUnset, None, UnsetReceiver()))
  {
    assert '.' !in FallbackSinkUnsetMember;
    RSplitOnceOfJoin(CoreIface, FallbackSinkUnsetMember);
    assert FallbackSinkUnsetMember != FallbackSinkUpdatedMember;
    ConnectFresh(s, FallbackSinkUnset, CoreIface, FallbackSinkUnsetMember, None, []);
  }

  /** The VolumeUpdated row, connected last and scoped to the fallback sink. */
  lemma VolumeRowRegisters(row: Row, s: TalkerState, fallback: Path)
    requires row == Row(VolumeUpdated, Some(fallback), [FsinkVolUpdate])
    requires s.paSignals == {(FallbackSinkUpdated, None), (FallbackSinkUnset, None)}
    ensures RunRow(row, s) == Next(Done, Registered(s, VolumeUpdated, Some(fallback), VolumeReceiver(fallback)))
  {
    VolumeUpdatedSplits();
    ConnectFresh(s, VolumeUpdated, DeviceIface, VolumeUpdatedMember, Some(fallback), [FsinkVolUpdate]);
  }

  /** A four-row matrix whose rows all complete ends in the last row's state. */
  lemma RunMatrixOfFour(rows: seq<Row>, s0: TalkerState, s1: TalkerState, s2: TalkerState, s3: TalkerState, s4: TalkerState)
    requires |rows| == 4
    requires RunRow(rows[0], s0) == Next(Done, s1) && RunRow(rows[1], s1) == Next(Done, s2)
    requires RunRow(rows[2], s2) == Next(Done, s3) && RunRow(rows[3], s3) == Next(Done, s4)
    ensures RunMatrix(rows, s0) == Next(Done, s4)
  {
    var t1, t2, t3 := rows[1..], rows[2..], rows[3..];
    assert t1[0] == rows[1] && t1[1..] == t2;
    assert t2[0] == rows[2] && t2[1..] == t3;
    assert t3[0] == rows[3] && t3[1..] == [];
    RunMatrixStep(t3, s3, s4);
    RunMatrixStep(t2, s2, s3);
    RunMatrixStep(t1, s1, s2);
    RunMatrixStep(rows, s0, s1);
  }

  /** A first row that completes hands its state to the rest of the loop. */
  lemma RunMatrixStep(rows: seq<Row>, s: TalkerState, t: TalkerState)
    requires |rows| > 0 && RunRow(rows[0], s) == Next(Done, t)
    ensures RunMatrix(rows, s) == RunMatrix(rows[1..], t)
  {
  }

  /** `Booted` is the three registrations applied after the Get. */
  lemma BootedUnfolds(fallback: Path, desktop: World)
    ensures Booted(fallback, desktop) ==
            var s1 := Call(Initial(fallback, desktop), CallGetFallbackSink);
            var s2 := Registered(s1, FallbackSinkUpdated, None, FallbackReceiver());
            var s3 := Registered(s2, FallbackSinkUnset, None, UnsetReceiver());
            Registered(s3, VolumeUpdated, Some(fallback), VolumeReceiver(fallback))
  {
    SevenCalls(CallGetFallbackSink,
      ListenForSignal(FallbackSinkUpdated, None), AddReceiver(FallbackReceiver(), 0),
      ListenForSignal(FallbackSinkUnset, None), AddReceiver(UnsetReceiver(), 1),
      ListenForSignal(VolumeUpdated, None), AddReceiver(VolumeReceiver(fallback), 2));
  }

  /** The state after a first `_connect_signal` of `name` that added the receiver `r`. */
  function Registered(s: TalkerState, name: string, path: Option<Path>, r: Receiver): TalkerState
  {
    s.(sigHandlers := s.sigHandlers[(name, path) := s.conn.next],
       paSignals := s.paSignals + {(name, None)},
       conn := World(s.conn.log + [ListenForSignal(name, None), AddReceiver(r, s.conn.next)],
                     s.conn.receivers[s.conn.next := r], s.conn.next + 1))
  }

  lemma SevenCalls(a: Effect, b: Effect, c: Effect, d: Effect, e: Effect, f: Effect, g: Effect)
    ensures [a] + [b, c] + [d, e] + [f, g] == [a, b, c, d, e, f, g]
  {
  }

  /** The 'init' row runs `get_fsink` alone: one Get of FallbackSink, no subscription. */
  lemma InitRowFetchesFallback(row: Row, s: TalkerState)
    requires row == Row(InitName, None, [GetFsink])
    ensures RunRow(row, s) == Next(Done, Call(s, CallGetFallbackSink))
  {
    assert row.funcs[1..] == [];
  }

  /** `_connect_signal` for a name never registered before, whose split is known. */
  lemma ConnectFresh(s: TalkerState, name: string, iface: string, member: string, path: Option<Path>, funcs: seq<Reaction>)
    requires RSplitOnce(name) == Some((iface, member)) && (name, None) !in s.paSignals
    ensures ConnectStep(s, name, path, funcs)
            == Next(Done, Registered(s, name, path, SignalReceiver(iface, member, path, Handler(name, path, funcs))))
  {
  }
}

# PulseTalker / AwesomeTalker: a verified model

The program in `test.py` links PulseAudio's D-Bus interface (`org.PulseAudio.Core1`) to the
AwesomeWM desktop over the session bus.

- `PulseTalker` subscribes, on its own connection to the audio server, to three signals:
  FallbackSinkUpdated, FallbackSinkUnset and VolumeUpdated. VolumeUpdated is scoped to the
  current fallback sink.
- It keeps the channel volumes of the fallback sink and pushes their maximum to the desktop.
- When the fallback sink changes, it moves the VolumeUpdated subscription to the new sink.
- `AwesomeTalker` subscribes to four gestures of the desktop widget. The two wheel gestures
  step the volume up or down by 2000, clamped to 65536 and 0.

The project models this in two layers.

- **Pure layer.** `pulse_model.dfy` is a state machine on values. A `TalkerState` holds:
  - the `_sig_handlers` table;
  - the `pa_signals` registry;
  - `fb_sink_vol`;
  - the fallback sink;
  - the states of the two connections, each an effect log plus the live signal receivers.

  Each reaction of `sig_functions` is a function to `Next(outcome, state)`. A Python exception
  becomes `Raised(failure)`, which ends the running handler; effects made before it stay.
  Three modules support it: `volume.dfy` (`max` and the clamped steps), `names.dfy`
  (`str.rsplit('.', 1)`) and `bus.dfy` (a connection: calls made, receivers added and removed).
- **Object layer.** `talkers.dfy` has two classes:
  - `PulseTalker`, with the fields the source updates;
  - `AwesomeTalker`.

  Each method is proved to change the object and its connections exactly as the corresponding
  model function does, so the lemmas of `pulse_proofs.dfy` hold for the objects.

The lemmas in `pulse_proofs.dfy` prove two invariants.

- **`Subscribed`:**
  - FallbackSinkUpdated and FallbackSinkUnset are live;
  - VolumeUpdated is live for the current fallback sink;
  - no other VolumeUpdated receiver is live.
- **`ExactlyOnce`:** each key of `pa_signals` led to exactly one ListenForSignal call, and no
  other key led to any.

The constructor's bootstrap over `_matrix` establishes both. Every reaction, handler run and
signal delivery preserves both.

The design intends three things the code does not do. The model follows the code:

- Activating a subscription twice was meant to leave one subscription. Only `_pa_signal_on`
  is idempotent; a second `_connect_signal` of one key adds a second receiver and overwrites
  the stored handle.
- Tearing down a subscription that was never made was meant to be a safe no-op.
  `_disconnect_signal` of an unknown key raises `KeyError` (`MissingKey`).
- A late delivery for an old scope was meant to be detected and dropped. No handler compares
  a delivery's scope with the current fallback sink. With the corrected teardown below, a
  removed receiver is never dispatched to (`StaleVolumeDeliveryDropped`).

The teardown at test.py:167 does not remove anything as written (see "## Findings"). The
model keeps that call as written in `AsWritten` and uses the evidently intended removal,
`match.remove()`, everywhere else.

## Model

| member | source | states |
|---|---|---|
| Volume.Max | test.py:80 | `max(vec)` of a non-empty vector is one of its elements and no element exceeds it |
| Volume.StepUp | test.py:90-91 | the raised level is `max + 2000` when that is at most 65536, else 65536; never above either |
| Volume.StepDown | test.py:100-101 | the lowered level is `max - 2000` when that is positive, else 0; never below either |
| Volume.StepsStayInRange | test.py:89-108 | from levels in [0, 65536], both clamped steps land in [0, 65536], so the written vector is in range |
| Volume.StepsUndoEachOther | test.py:89-108 | away from the clamps, a step down after a step up (and up after down) returns to `max` |
| Volume.StepExamples | test.py:90-101 | concrete clamped values: 30000 up is 32000, 64500 up is 65536, 1000 down is 0, 65536 down is 63536 |
| Names.LastDot | test.py:158 | the position found holds a dot and no dot follows it; none is found only for a dotless name |
| Names.RSplitOnce | test.py:158 | the split fails exactly for a dotless name; otherwise `iface + "." + member` is the name and `member` holds no dot |
| Names.LastDotIgnoresDotlessTail | test.py:158 | appending a dotless suffix after a dot does not move the last dot |
| Names.RSplitOnceOfJoin | test.py:158 | `rsplit` of `iface + "." + member` with dotless `member` gives back `(iface, member)`: the round trip |
| Bus.World.Add | test.py:159-163 | `add_signal_receiver` returns the next handle, which is now live with the new receiver; the next handle moves by one; one AddReceiver entry is logged; every other handle keeps its liveness and its receiver |
| Bus.World.Remove | test.py:167 | `match.remove()` makes the handle dead; one RemoveReceiver entry is logged; the next handle and every other handle, with its receiver, are kept |
| Bus.World.RemoveFiledUnder | test.py:167 | `remove_signal_receiver(h, ...)` with explicit keys: `h` stays live exactly when it was live and filed under other keys than those given; one RemoveReceiver is logged; every other handle keeps its liveness and its receiver |
| Bus.RemoveUnderOwnKeys | test.py:167 | looking a live receiver up under its own path, interface and member is `match.remove()` |
| Bus.RemoveWithoutKeysRemovesNothing | test.py:167 | a lookup with no path, interface or member removes no receiver, as every receiver is filed under an interface |
| Bus.Connection.constructor | test.py:65 | a new connection has no calls and no receivers |
| Bus.Connection.AddSignalReceiver | test.py:159-162 | the connection changes as `World.Add` says and the method returns the new handle |
| Bus.Connection.RemoveSignalReceiver | test.py:167 | `match.remove()`: the connection changes as `World.Remove` says |
| Bus.Connection.Call | test.py:83-88 | a call appends exactly one entry to the connection's log |
| PulseModel.SignalOnStep | test.py:149-154 | returns True exactly when the key was recorded, and then changes nothing. Otherwise it records the key and logs exactly one ListenForSignal for it, and nothing else changes. Either way the key is recorded afterwards |
| PulseModel.ConnectStep | test.py:156-164 | completes exactly when the name has a dot, and always registers the name with no path. On failure the state is what that registration left. On success the next handle is live with the receiver built from the split, `path` and `funcs`; one AddReceiver is logged after the registration; the entry for `(name, path)` becomes that handle and all other entries are unchanged; every other receiver is kept. The fallback sink, the stored volumes and the desktop are untouched |
| PulseModel.DisconnectStep | test.py:166-168 | the evidently intended teardown. It completes exactly when the key is in the table: its receiver is removed, one RemoveReceiver is logged, and nothing else changes. It raises `KeyError` otherwise, changing nothing. The table and the registry are never changed |
| PulseModel.FsinkVolUpdateStep | test.py:79-81 | completes exactly for a non-empty vector; then the vector is stored and only the stored volumes and the desktop log change. Otherwise it raises, changing nothing. `FsinkVolUpdateStoresAndPushes` states the one desktop call with the maximum |
| PulseModel.GetFsinkVolStep | test.py:82-88 | always completes; logs exactly one Get of the current fallback sink's volume and changes nothing else |
| PulseModel.SetFsinkVolUpStep | test.py:89-98 | completes exactly when a non-empty vector is stored; `max(None)` (no vector yet) raises `NoVolumeYet`; a raise changes nothing. On success it logs exactly one Set of `[StepUp(vector)]` on the current fallback sink and changes nothing else |
| PulseModel.SetFsinkVolDownStep | test.py:99-108 | the same as the step up, with `[StepDown(vector)]` |
| PulseModel.ChangeFsinkStep | test.py:109-115 | for a sink argument it completes exactly when VolumeUpdated is in the table for the current fallback sink, and raises `KeyError` changing nothing otherwise. On success the fallback sink is the new one, only its table entry is re-pointed (to the next handle) and VolumeUpdated is registered. The stored volumes and the desktop are never touched. `ChangeFsinkRescopes` states the two calls |
| PulseModel.GetFsinkStep | test.py:116-119 | always completes; logs exactly one Get of the server's FallbackSink and changes nothing else |
| PulseModel.Apply | test.py:128 | a reaction never shrinks the registry, and every reaction other than `change_fsink` leaves the table, the registry, the fallback sink and the receivers unchanged |
| PulseModel.RunAll | test.py:122-129 | a handler run never shrinks the registry; a handler list without `change_fsink` leaves the subscriptions unchanged. `RunAllAppend` states the order |
| PulseModel.Deliver | test.py:159-162 | a dead handle, or one that is not a signal receiver, runs nothing and changes nothing; a delivery never shrinks the registry |
| PulseModel.ForwardGesture | test.py:28-33 | a gesture never changes the subscriptions, the stored volumes or the desktop; a raise changes nothing; enter and leave do nothing here |
| PulseModel.Matrix | test.py:131-136 | four rows: 'init' with `get_fsink` first and only there, VolumeUpdated scoped to the fallback sink last |
| PulseModel.RunRow | test.py:139-143 | a row never shrinks the registry; a subscribed row registers its name; an 'init' row without `change_fsink` subscribes nothing |
| PulseModel.RunMatrix | test.py:138-143 | the bootstrap loop never shrinks the registry. `BootstrapSubscribes` states its whole result |
| PulseProofs.VolumeUpdatedSplits | test.py:111-114 | the VolumeUpdated name splits into the Device interface and `VolumeUpdated` |
| PulseProofs.ChangeFsinkRescopes | test.py:109-115 | in a subscribed state `change_fsink(sink)` cannot fail. It makes exactly two calls, the removal of the old receiver and then the addition of one for `sink`. It re-points only the `sink` entry, records `sink` as the fallback, leaves the old receiver dead and the state subscribed |
| PulseProofs.ApplyKeepsSubscribed | test.py:79-119 | no reaction, with any argument, breaks `Subscribed` |
| PulseProofs.RunAllKeepsSubscribed | test.py:122-129 | no handler run breaks `Subscribed` |
| PulseProofs.DeliverKeepsSubscribed | test.py:122-129 | no signal delivery, to any handle, breaks `Subscribed` |
| PulseProofs.VolumeDeliveryIsCurrent | test.py:113-114 | in a subscribed state, every live VolumeUpdated receiver is scoped to the current fallback sink and runs `fsink_vol_update` |
| PulseProofs.StaleVolumeDeliveryDropped | test.py:111-114 | after rescoping, a signal for the old sink's receiver runs nothing and changes nothing |
| PulseProofs.RunAllAppend | test.py:126-128 | running `f1 + f2` is running `f1` and then, unless it raised, `f2` on the state it left |
| PulseProofs.FallbackUpdateRescopesThenFetches | test.py:133 | the FallbackSinkUpdated handler runs `change_fsink` completely before `get_fsink_vol`. The removal and addition come first, then one Get for the new sink |
| PulseProofs.ChangeThenFetch | test.py:118 | when `change_fsink` completes, the reply handler's run is that state plus one Get of the new sink's volume |
| PulseProofs.RunTwo | test.py:126-128 | a two-reaction handler runs the first, then the second on its state unless the first raised |
| PulseProofs.CallKeepsSubscribed | test.py:83-119 | a call on the connection keeps `Subscribed` |
| PulseProofs.FallbackDeliveryRescopes | test.py:133 | a FallbackSinkUpdated signal runs `['change_fsink', 'get_fsink_vol']` with the signal's argument |
| PulseProofs.FsinkVolUpdateStoresAndPushes | test.py:79-81 | for a non-empty vector: stores the vector and makes exactly one desktop call, with its maximum; nothing else changes. An empty vector raises and changes nothing |
| PulseProofs.VolumeStepWritesOneSet | test.py:89-108 | with stored volumes: exactly one Set, of the one-element clamped step, on the current fallback sink, and in range from levels in range. With none stored, or an empty vector: raises, changes nothing |
| PulseProofs.GesturesForwardToVolumeSteps | test.py:24-32 | wheel up is `set_fsink_vol_up`, wheel down is `set_fsink_vol_down`; enter and leave change nothing here |
| PulseProofs.ListensAppend | test.py:152-153 | appending one call adds one to the ListenForSignal count exactly when it is that key's ListenForSignal |
| PulseProofs.AppendKeepsExactlyOnce | test.py:152-154 | a call other than ListenForSignal keeps `ExactlyOnce` |
| PulseProofs.SignalOnKeepsExactlyOnce | test.py:149-154 | `_pa_signal_on` keeps `ExactlyOnce`: it asks only for a key it has not recorded, and records it |
| PulseProofs.ConnectKeepsExactlyOnce | test.py:156-164 | `_connect_signal` keeps `ExactlyOnce` |
| PulseProofs.DisconnectKeepsExactlyOnce | test.py:166-168 | `_disconnect_signal` keeps `ExactlyOnce` |
| PulseProofs.ApplyKeepsExactlyOnce | test.py:79-119 | every reaction keeps `ExactlyOnce` |
| PulseProofs.RunAllKeepsExactlyOnce | test.py:122-129 | every handler run keeps `ExactlyOnce` |
| PulseProofs.DeliverKeepsExactlyOnce | test.py:122-129 | every signal delivery keeps `ExactlyOnce` |
| PulseProofs.RunMatrixKeepsExactlyOnce | test.py:138-143 | the bootstrap loop keeps `ExactlyOnce` |
| PulseProofs.SignalOnIdempotent | test.py:150-151 | a second `_pa_signal_on` for the same key returns True and changes nothing |
| PulseProofs.BootstrapSubscribes | test.py:131-143 | the bootstrap completes. It makes one Get of FallbackSink, then ListenForSignal and one receiver per subscribed row. It stores handles 0, 1, 2 under the three keys (VolumeUpdated scoped to the fallback sink) and records the three names with no path. 'init' is never subscribed, and both invariants hold |
| PulseProofs.BootstrapRuns | test.py:131-143 | the bootstrap loop ends, completed, in the state `Booted` |
| PulseProofs.BootedSubscribed | test.py:131-136 | the state after the bootstrap is subscribed |
| PulseProofs.RunMatrixOfFour | test.py:138-143 | four rows that all complete end in the last row's state |
| PulseProofs.RunMatrixStep | test.py:138-143 | a first row that completes hands its state to the rest of the loop |
| PulseProofs.BootedUnfolds | test.py:131-143 | `Booted` is the Get followed by the three row registrations |
| PulseProofs.InitRowFetchesFallback | test.py:140-141 | the 'init' row runs `get_fsink` at once: one Get of FallbackSink, no subscription |
| PulseProofs.FallbackRowRegisters | test.py:133 | the FallbackSinkUpdated row, connected first, registers its name once and adds one receiver running `['change_fsink', 'get_fsink_vol']` |
| PulseProofs.UnsetRowRegisters | test.py:134 | the FallbackSinkUnset row registers its name once and adds one receiver with an empty list |
| PulseProofs.VolumeRowRegisters | test.py:135 | the VolumeUpdated row registers the name with no path and adds one receiver scoped to the fallback sink |
| PulseProofs.ConnectFresh | test.py:156-164 | connecting a name not yet registered asks for it once and adds one receiver under the next handle |
| AsWritten.DisconnectAsWritten | test.py:166-168 | the call as written completes exactly when the key is in the table, and keeps every receiver live |
| AsWritten.ChangeFsinkKeepsOldReceiver | test.py:109-115 | with the teardown as written, `change_fsink(sink)` in a subscribed state leaves the old VolumeUpdated receiver live beside the new one. The state is no longer subscribed, and a signal for the old receiver still runs `fsink_vol_update` |
| AsWritten.FirstFallbackReplyDoublesVolumeReceiver | test.py:116-143 | after the bootstrap, the first `get_fsink` reply leaves handles 2 and 3 both live VolumeUpdated receivers for the same sink |
| Talkers.AddGestureReceivers | test.py:45-46 | each gesture adds one log entry and one handle; it keeps the connection well formed. `GestureReceiversLive` states which receivers are live |
| Talkers.GestureReceiversLive | test.py:43-46 | `init_paw` makes each gesture live under its own handle with its own signal name, and keeps every earlier receiver |
| Talkers.AwesomeTalker.constructor | test.py:15-22 | a new desktop talker has no receivers and no PulseTalker |
| Talkers.AwesomeTalker.AddSigRecv | test.py:38-40 | subscribes one gesture on the session connection and appends its handle to `_sig_recvs` |
| Talkers.AwesomeTalker.InitPaw | test.py:43-46 | records the PulseTalker, subscribes all four gestures in order, and appends their four consecutive handles |
| Talkers.AwesomeTalker.AddSigRecvs | test.py:45-46 | the loop of `init_paw`, over any list of gestures |
| Talkers.AwesomeTalker.SetDefaultVol | test.py:49-51 | one desktop call with the volume |
| Talkers.AwesomeTalker.OnGesture | test.py:24-32 | a gesture changes the PulseTalker as `ForwardGesture` says |
| Talkers.AwesomeTalker.Deliver | test.py:24-32 | a session signal on a live gesture receiver runs that gesture; any other handle changes nothing |
| Talkers.PulseTalker.constructor | test.py:60-147 | opens a fresh connection, runs the bootstrap into the `Booted` state with `Subscribed` and `ExactlyOnce` holding, then `init_paw` subscribes the four gestures |
| Talkers.PulseTalker.Bootstrap | test.py:138-143 | the loop over `_matrix` changes the object as `RunMatrix` says |
| Talkers.PulseTalker.RunMatrixRow | test.py:139-143 | one row of the loop changes the object as `RunRow` says |
| Talkers.PulseTalker.PaSignalOn | test.py:149-154 | changes the object as `SignalOnStep` says |
| Talkers.PulseTalker.ConnectSignal | test.py:156-164 | changes the object as `ConnectStep` says |
| Talkers.PulseTalker.DisconnectSignal | test.py:166-168 | changes the object as `DisconnectStep` says, removing the match as `match.remove()` does |
| Talkers.PulseTalker.FsinkVolUpdate | test.py:79-81 | changes the object and the desktop as `FsinkVolUpdateStep` says |
| Talkers.PulseTalker.GetFsinkVol | test.py:82-88 | one Get of the current fallback sink's volume |
| Talkers.PulseTalker.SetFsinkVolUp | test.py:89-98 | changes the object as `SetFsinkVolUpStep` says |
| Talkers.PulseTalker.SetFsinkVolDown | test.py:99-108 | changes the object as `SetFsinkVolDownStep` says |
| Talkers.PulseTalker.ChangeFsink | test.py:109-115 | changes the object as `ChangeFsinkStep` says: remove, then add, then record the sink |
| Talkers.PulseTalker.GetFsink | test.py:116-119 | one Get of the server's FallbackSink |
| Talkers.PulseTalker.Invoke | test.py:128 | `sig_functions[func](*args)` changes the object as `Apply` says |
| Talkers.PulseTalker.RunHandler | test.py:122-129 | the `SLfac` handler runs its list in order on the same arguments, as `RunAll` says |
| Talkers.PulseTalker.Deliver | test.py:159-162 | a signal on a live receiver runs its handler list; any other handle changes nothing |
| Talkers.PulseTalker.OnVolumeReply | test.py:87 | the volume reply runs `fsink_vol_update` |
| Talkers.PulseTalker.OnFallbackSinkReply | test.py:118 | the FallbackSink reply runs `['change_fsink', 'get_fsink_vol']` |

## Findings

| source | as written | input that shows it | evidently intended | confidence | as-written member | corrected member |
|---|---|---|---|---|---|---|
| test.py:167 | `remove_signal_receiver(match)` gives no path, interface or member. dbus-python looks a match up only among the receivers filed under the keys given, and every receiver here has an interface, so nothing is removed | the first reply of `get_fsink` after the bootstrap runs `change_fsink(A)`, A being the sink the bootstrap subscribed for; handles 2 and 3 are then both live VolumeUpdated receivers for A, so each VolumeUpdated from A runs `fsink_vol_update` twice. After a change from A to B, A's updates still reach the desktop | remove the receiver, as `match.remove()` does | not executed; medium, as it rests on dbus-python's lookup, which is not part of this model | AsWritten.ChangeFsinkKeepsOldReceiver | PulseProofs.ChangeFsinkRescopes |

## Left out

- D-Bus setup is left out: looking up the server address (`ServerLookup1.Address`), exporting the objects, the GLib main
  loop and the module-level start-up. A `PulseTalker` receives the initial FallbackSink as a parameter, and each
  connection starts empty.
- Asynchrony is not modelled as such. Replies of `call_async` and of the asynchronous `Get` appear only as logged calls.
  They are delivered through separate methods (`OnVolumeReply`, `OnFallbackSinkReply`), in whatever order a caller
  chooses.
- `error_handler`, every `print`, the `TMeta` metaclass and `test_receiver` only print or build the namespaces. They are
  left out.
- `_fallback_change` and `_fallback_volume_changed` do nothing observable and are left out.
- The D-Bus wrappers `dbus.UInt32` and `dbus.Array(..., variant_level=1)` are left out. A level is an integer in
  [0, 2^32), and the Set call carries the one-element vector.
- The FallbackSinkUnset row has an empty handler list: it is subscribed and does nothing when delivered. This is modelled
  as written.
- A reaction given an argument of the wrong kind raises `BadPayload` before any effect. The source would fail in some
  other way; no row of `_matrix` does this.
- `_pa_signal_on` is only ever called with no path, so passing a path string to `dbus.Array` is never exercised. The
  ListenForSignal call records the `Option` path as given.
- Exceptions that the constructor's synchronous D-Bus calls, or `set_default_vol`'s remote call, could raise from the
  remote side are left out.
- Talkers.AwesomeTalker.OnGesture: it forwards only the wheel gestures. Enter and leave only print in the source.
- Bus.World.RemoveFiledUnder: dbus-python is not part of this model. Its `remove_signal_receiver`, which finds a match only under the object path, interface and member it is given, is modelled as that lookup and nothing more.

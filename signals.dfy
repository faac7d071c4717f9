/**
  The fixed vocabulary of the mediator: the audio server's interface and
  signal names, the named reactions of `PulseTalker.sig_functions`, the
  payloads a reaction can receive, and the desktop widget's gestures.
*/
module Signals {
  import opened Volume

  /** A D-Bus object path (the fallback sink is identified by one). */
  type Path = string

  const CoreIface := "org.PulseAudio.Core1"
  const DeviceIface := CoreIface + ".Device"

  const FallbackSinkUpdatedMember := "FallbackSinkUpdated"
  const FallbackSinkUnsetMember := "FallbackSinkUnset"
  const VolumeUpdatedMember := "VolumeUpdated"

  const FallbackSinkUpdated := CoreIface + "." + FallbackSinkUpdatedMember
  const FallbackSinkUnset := CoreIface + "." + FallbackSinkUnsetMember
  const VolumeUpdated := DeviceIface + "." + VolumeUpdatedMember

  /** The desktop side's signal interface (the default of `add_sig_recv`). */
  const ToolsIface := "org.awesomewm.awful.sototools.Tools1"

  /** The reactions of `sig_functions` that a handler list can name. */
  datatype Reaction =
    | FsinkVolUpdate
    | GetFsinkVol
    | SetFsinkVolUp
    | SetFsinkVolDown
    | ChangeFsink
    | GetFsink

  /** The first positional argument a handler receives, if any. */
  datatype Payload =
    | NoArgs
    | SinkArg(sink: Path)
    | LevelsArg(levels: seq<Level>)

  /** The gesture reactions of `AwesomeTalker.sig_funcs`. */
  datatype Gesture = MouseEnter | MouseLeave | WheelUp | WheelDown

  /** The desktop signal each gesture reaction is registered for. */
  function GestureSignal(g: Gesture): string
  {
    match g
    case MouseEnter => "pawMouseEnter"
    case MouseLeave => "pawMouseLeave"
    case WheelUp => "pawMouseWheelUp"
    case WheelDown => "pawMouseWheelDown"
  }

  /** `sig_funcs.items()` in definition order. */
  const Gestures: seq<Gesture> := [MouseEnter, MouseLeave, WheelUp, WheelDown]
}

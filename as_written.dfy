/**
  The teardown exactly as `_disconnect_signal` performs it. The call passes
  only the match object, and the transport looks a match up under the object
  path, interface and member it is given; with none given it finds nothing,
  so no receiver is removed. The rest of the model uses the removal the code
  evidently intends (`PulseModel.DisconnectStep`, `match.remove()`).
*/
module AsWritten {
  import opened Wrappers
  import opened Signals
  import opened Bus
  import opened PulseModel
  import opened PulseProofs

  /** `_disconnect_signal(name, path)` as written: `remove_signal_receiver(match)` with no keys. */
  function DisconnectAsWritten(s: TalkerState, name: string, path: Option<Path>): (r: Next)
    ensures r.outcome.Done? <==> (name, path) in s.sigHandlers
    ensures r.outcome.Raised? ==> r.state == s
    ensures r.state.conn.receivers == s.conn.receivers
    ensures r.state.sigHandlers == s.sigHandlers && r.state.paSignals == s.paSignals
  {
    if (name, path) !in s.sigHandlers then Next(Raised(MissingKey((name, path))), s)
    else Next(Done, s.(conn := s.conn.RemoveFiledUnder(s.sigHandlers[(name, path)], None, None, None)))
  }

  /** `change_fsink(new)` on top of the teardown as written. */
  function ChangeFsinkAsWritten(p: Payload, s: TalkerState): Next
  {
    match p
    case SinkArg(sink) =>
      var d := DisconnectAsWritten(s, VolumeUpdated, Some(s.fallbackSink));
      if d.outcome.Raised? then d
      else
        var c := ConnectStep(d.state, VolumeUpdated, Some(sink), [FsinkVolUpdate]);
        if c.outcome.Raised? then c
        else Next(Done, c.state.(fallbackSink := sink))
    case _ => Next(Raised(BadPayload), s)
  }

  /**
    In a subscribed state `change_fsink(sink)` as written completes, but the
    old VolumeUpdated receiver stays live beside the new one. The state is no
    longer subscribed, and a signal for the old receiver still runs
    `fsink_vol_update`.
  */
  lemma ChangeFsinkKeepsOldReceiver(s: TalkerState, sink: Path, p: Payload)
    requires Subscribed(s)
    ensures var n := ChangeFsinkAsWritten(SinkArg(sink), s);
            var h := s.sigHandlers[VolumeKey(s.fallbackSink)];
            && n.outcome == Done && n.state.fallbackSink == sink
            && h != s.conn.next
            && h in n.state.conn.receivers && n.state.conn.receivers[h] == VolumeReceiver(s.fallbackSink)
            && s.conn.next in n.state.conn.receivers && n.state.conn.receivers[s.conn.next] == VolumeReceiver(sink)
            && !Subscribed(n.state)
            && Deliver(h, p, n.state) == FsinkVolUpdateStep(p, n.state)
  {
    VolumeUpdatedSplits();
    var h := s.sigHandlers[VolumeKey(s.fallbackSink)];
    var d := DisconnectAsWritten(s, VolumeUpdated, Some(s.fallbackSink));
    assert d.state.conn.receivers == s.conn.receivers && d.state.conn.next == s.conn.next;
    assert s.conn.next !in s.conn.receivers;
    var n := ChangeFsinkAsWritten(SinkArg(sink), s);
    assert n.state.conn.receivers == s.conn.receivers[s.conn.next := VolumeReceiver(sink)];
    assert ForVolume(n.state.conn.receivers[h]);
    assert n.state.sigHandlers[VolumeKey(sink)] == s.conn.next;
    assert [FsinkVolUpdate][1..] == [];
  }

  /**
    The first reply of `get_fsink` after the bootstrap runs `change_fsink` with
    the sink the bootstrap subscribed for: handles 2 and 3 are then both live
    VolumeUpdated receivers for that sink, so each of its VolumeUpdated
    signals runs `fsink_vol_update` twice.
  */
  lemma FirstFallbackReplyDoublesVolumeReceiver(fallback: Path, desktop: World, p: Payload)
    ensures var n := ChangeFsinkAsWritten(SinkArg(fallback), Booted(fallback, desktop));
            && n.outcome == Done
            && 2 in n.state.conn.receivers && 3 in n.state.conn.receivers
            && n.state.conn.receivers[2] == VolumeReceiver(fallback)
            && n.state.conn.receivers[3] == VolumeReceiver(fallback)
            && !Subscribed(n.state)
  {
    BootedSubscribed(fallback, desktop);
    ChangeFsinkKeepsOldReceiver(Booted(fallback, desktop), fallback, p);
  }
}

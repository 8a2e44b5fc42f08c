/** The five-state transport controller shared by the UnixMatrix, Old99AppleFeel and
    AppleFeel players, as functions on the controller's fields. Each player's class is
    proved to update its fields exactly as these functions say. */
module TransportController {
  import opened AudioTypes
  import PositionFormat

  datatype TransportState = Stopped | Starting | Playing | Paused | Stopping

  /** The fields the handlers read and write: the state, the enabled flags of the
      Play, Pause and Stop buttons, the transport and the optional reader source. */
  datatype Controls = Controls(
    state: TransportState,
    playEnabled: bool,
    pauseEnabled: bool,
    stopEnabled: bool,
    transport: TransportSource,
    reader: Option<ReaderSource>)

  /** The constructor's values: Stopped, every button disabled, nothing loaded. */
  const Initial := Controls(Stopped, false, false, false, IdleTransport, None)

  /** changeState: nothing at all when the state is already `newState`; otherwise the state
      becomes `newState` and only the flags and transport effects of that case apply. */
  function ChangeState(c: Controls, newState: TransportState): (r: Controls)
    ensures r.state == newState && r.reader == c.reader
    ensures c.state == newState ==> r == c
    ensures c.state != newState && newState == Stopped ==>
              r.playEnabled && !r.pauseEnabled && !r.stopEnabled && r.transport == c.transport.(position := 0)
    ensures c.state != newState && newState == Starting ==>
              !r.playEnabled && !r.pauseEnabled && r.stopEnabled == c.stopEnabled
              && r.transport == c.transport.(playing := true)
    ensures c.state != newState && newState == Playing ==>
              r.playEnabled == c.playEnabled && r.pauseEnabled && r.stopEnabled && r.transport == c.transport
    ensures c.state != newState && newState == Paused ==>
              r.playEnabled && !r.pauseEnabled && r.stopEnabled && r.transport == c.transport
    ensures c.state != newState && newState == Stopping ==>
              r.playEnabled == c.playEnabled && r.pauseEnabled == c.pauseEnabled && r.stopEnabled == c.stopEnabled
              && r.transport == c.transport.(playing := false)
  {
    if c.state == newState then c
    else
      var c := c.(state := newState);
      match newState
      case Stopped =>
        c.(stopEnabled := false, playEnabled := true, pauseEnabled := false,
           transport := c.transport.(position := 0))
      case Starting =>
        c.(playEnabled := false, pauseEnabled := false, transport := c.transport.(playing := true))
      case Playing =>
        c.(stopEnabled := true, pauseEnabled := true)
      case Paused =>
        c.(pauseEnabled := false, playEnabled := true, stopEnabled := true)
      case Stopping =>
        c.(transport := c.transport.(playing := false))
  }

  /** changeListenerCallback: ignored while Paused; otherwise the state follows the transport,
      with every effect changeState has on entering that state. */
  function TransportChanged(c: Controls): (r: Controls)
    ensures c.state == Paused ==> r == c
    ensures c.state != Paused ==> r.state == (if c.transport.playing then Playing else Stopped)
    ensures c.state != Paused ==> r == ChangeState(c, r.state)
    ensures r.reader == c.reader && r.transport.playing == c.transport.playing
  {
    if c.state == Paused then c
    else if c.transport.playing then ChangeState(c, Playing)
    else ChangeState(c, Stopped)
  }

  /** updateLoopState: push `shouldLoop` onto the reader source, if there is one. */
  function UpdateLoopState(c: Controls, shouldLoop: bool): (r: Controls)
    ensures c.reader.None? ==> r == c
    ensures c.reader.Some? ==> r.reader.Some? && r.reader.value.looping == shouldLoop
                               && r.reader.value.file == c.reader.value.file
    ensures r.(reader := c.reader) == c
  {
    match c.reader
    case None => c
    case Some(source) => c.(reader := Some(source.(looping := shouldLoop)))
  }

  /** playButtonClicked: push the loop toggle, request Starting, then enable Pause. */
  function PlayClicked(c: Controls, loopToggle: bool): (r: Controls)
    ensures r.state == Starting && r.pauseEnabled
    ensures c.state != Starting ==> !r.playEnabled && r.transport.playing
    ensures c.state == Starting ==> r.playEnabled == c.playEnabled && r.transport.playing == c.transport.playing
    ensures r.stopEnabled == c.stopEnabled && r.transport.position == c.transport.position
    ensures r.reader == if c.reader.Some? then Some(c.reader.value.(looping := loopToggle)) else None
  {
    var c1 := UpdateLoopState(c, loopToggle);
    var c2 := ChangeState(c1, Starting);
    c2.(pauseEnabled := true)
  }

  /** pauseButtonClicked: stop the transport, keeping its position, then request Paused. */
  function PauseClicked(c: Controls): (r: Controls)
    ensures r.state == Paused && r.reader == c.reader
    ensures r.transport == c.transport.(playing := false)
    ensures c.state != Paused ==> r.playEnabled && !r.pauseEnabled && r.stopEnabled
    ensures c.state == Paused ==> r == c.(transport := r.transport)
  {
    ChangeState(c.(transport := c.transport.(playing := false)), Paused)
  }

  /** stopButtonClicked: stop the transport, rewind it to 0, then request Stopped. */
  function StopClicked(c: Controls): (r: Controls)
    ensures r.state == Stopped && r.reader == c.reader
    ensures r.transport == IdleTransport
    ensures c.state != Stopped ==> r.playEnabled && !r.pauseEnabled && !r.stopEnabled
    ensures c.state == Stopped ==> r == c.(transport := IdleTransport)
  {
    ChangeState(c.(transport := c.transport.(playing := false).(position := 0)), Stopped)
  }

  /** The completion of the open dialog: with a reader, install it, enable Play and disable
      Pause and Stop, leaving the state as it was; without one, change nothing. */
  function OpenCompleted(c: Controls, outcome: OpenOutcome): (r: Controls)
    ensures !outcome.ReaderCreated? ==> r == c
    ensures outcome.ReaderCreated? ==>
              r.playEnabled && !r.pauseEnabled && !r.stopEnabled
              && r.reader == Some(NewReader(outcome.file))
              && r.state == c.state && r.transport == c.transport
  {
    match outcome
    case ReaderCreated(file) =>
      c.(playEnabled := true, pauseEnabled := false, stopEnabled := false, reader := Some(NewReader(file)))
    case _ => c
  }

  /** The text timerCallback puts in the position label. */
  function PositionLabel(c: Controls): (text: string)
    ensures c.transport.playing ==>
              PositionFormat.IsReadout(text)
              && PositionFormat.ReadoutValue(text) == c.transport.position % PositionFormat.HourMillis
    ensures c.transport.playing ==>
              PositionFormat.DecimalValue(text[0..2]) == PositionFormat.Minutes(c.transport.position)
              && PositionFormat.DecimalValue(text[3..5]) == PositionFormat.Seconds(c.transport.position)
              && PositionFormat.DecimalValue(text[6..9]) == PositionFormat.Millis(c.transport.position)
    ensures !c.transport.playing ==> text == (if c.state == Paused then "Paused" else "Stopped")
  {
    if c.transport.playing then
      PositionFormat.PositionStringRoundTrip(c.transport.position);
      PositionFormat.PositionFields(c.transport.position);
      PositionFormat.PositionString(c.transport.position)
    else if c.state == Paused then "Paused"
    else "Stopped"
  }

  // ---------------------------------------------------------------------------
  // Sequences of events

  /** What can happen to the controller: a button press, the completion of the open dialog,
      the transport's change notification, or the transport ending playback by itself
      (the notification for that arrives as a separate TransportNotified). */
  datatype Event =
    | PlayPressed(loopToggle: bool)
    | PausePressed
    | StopPressed
    | LoopToggled(loopToggle: bool)
    | FileOpened(outcome: OpenOutcome)
    | TransportNotified
    | PlaybackEnded

  function Step(c: Controls, e: Event): Controls {
    match e
    case PlayPressed(t) => PlayClicked(c, t)
    case PausePressed => PauseClicked(c)
    case StopPressed => StopClicked(c)
    case LoopToggled(t) => UpdateLoopState(c, t)
    case FileOpened(o) => OpenCompleted(c, o)
    case TransportNotified => TransportChanged(c)
    case PlaybackEnded => c.(transport := c.transport.(playing := false))
  }

  function Run(c: Controls, events: seq<Event>): Controls
    decreases |events|
  {
    if events == [] then c else Run(Step(c, events[0]), events[1..])
  }

  /** What every reachable controller satisfies: Stopping is never entered; in Stopped the
      Pause and Stop buttons are disabled and the transport is idle at position 0; in Paused Play is
      enabled, Pause disabled and the transport not playing. */
  ghost predicate Coherent(c: Controls) {
    && c.state != Stopping
    && (c.state == Stopped ==> !c.pauseEnabled && !c.stopEnabled && c.transport == IdleTransport)
    && (c.state == Paused ==> c.playEnabled && !c.pauseEnabled && !c.transport.playing)
  }

  lemma StepKeepsCoherent(c: Controls, e: Event)
    requires Coherent(c)
    ensures Coherent(Step(c, e))
  {
    match e
    case PlayPressed(t) =>
    case PausePressed =>
    case StopPressed =>
    case LoopToggled(t) =>
    case FileOpened(o) =>
    case TransportNotified =>
    case PlaybackEnded =>
  }

  lemma {:induction false} RunKeepsCoherent(c: Controls, events: seq<Event>)
    requires Coherent(c)
    ensures Coherent(Run(c, events))
    decreases |events|
  {
    if events != [] {
      StepKeepsCoherent(c, events[0]);
      RunKeepsCoherent(Step(c, events[0]), events[1..]);
    }
  }

  /** No handler requests Stopping, so from the constructor's state it is never entered,
      whatever the buttons, the dialog and the transport do. */
  lemma StoppingNeverEntered(events: seq<Event>)
    ensures Run(Initial, events).state != Stopping
  {
    RunKeepsCoherent(Initial, events);
  }

  /** While Paused, any number of transport notifications leave every field as it was. */
  lemma {:induction false} PausedIgnoresNotifications(c: Controls, events: seq<Event>)
    requires c.state == Paused
    requires forall k :: 0 <= k < |events| ==> events[k] == TransportNotified
    ensures Run(c, events) == c
    decreases |events|
  {
    if events != [] {
      PausedIgnoresNotifications(Step(c, events[0]), events[1..]);
    }
  }

  /** Pressing Stop twice is the same as pressing it once; likewise Pause. */
  lemma StopAndPauseIdempotent(c: Controls)
    ensures StopClicked(StopClicked(c)) == StopClicked(c)
    ensures PauseClicked(PauseClicked(c)) == PauseClicked(c)
  {
  }

  /** Requesting the same state twice is the same as requesting it once. */
  lemma ChangeStateIdempotent(c: Controls, s: TransportState)
    ensures ChangeState(ChangeState(c, s), s) == ChangeState(c, s)
  {
  }
}

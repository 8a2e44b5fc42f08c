/** The four-state transport controller of the first playing-sound-files tutorial: Play and
    Stop buttons only, no Paused state, and Stop goes through a real Stopping state that only
    the transport's change notification completes. */
module TutorialController {
  import opened AudioTypes

  datatype TransportState = Stopped | Starting | Playing | Stopping

  datatype Controls = Controls(
    state: TransportState,
    playEnabled: bool,
    stopEnabled: bool,
    transport: TransportSource,
    reader: Option<ReaderSource>)

  /** The constructor's values: Stopped, both buttons disabled, nothing loaded. */
  const Initial := Controls(Stopped, false, false, IdleTransport, None)

  /** changeState: nothing when the state is already `newState`; otherwise the state becomes
      `newState` and only that case's effects apply. */
  function ChangeState(c: Controls, newState: TransportState): (r: Controls)
    ensures r.state == newState && r.reader == c.reader
    ensures c.state == newState ==> r == c
    ensures c.state != newState && newState == Stopped ==>
              r.playEnabled && !r.stopEnabled && r.transport == c.transport.(position := 0)
    ensures c.state != newState && newState == Starting ==>
              !r.playEnabled && r.stopEnabled == c.stopEnabled && r.transport == c.transport.(playing := true)
    ensures c.state != newState && newState == Playing ==>
              r.playEnabled == c.playEnabled && r.stopEnabled && r.transport == c.transport
    ensures c.state != newState && newState == Stopping ==>
              r.playEnabled == c.playEnabled && r.stopEnabled == c.stopEnabled
              && r.transport == c.transport.(playing := false)
  {
    if c.state == newState then c
    else
      var c := c.(state := newState);
      match newState
      case Stopped =>
        c.(stopEnabled := false, playEnabled := true, transport := c.transport.(position := 0))
      case Starting =>
        c.(playEnabled := false, transport := c.transport.(playing := true))
      case Playing =>
        c.(stopEnabled := true)
      case Stopping =>
        c.(transport := c.transport.(playing := false))
  }

  /** changeListenerCallback: the state follows the transport, with no exception, and with
      every effect changeState has on entering that state. */
  function TransportChanged(c: Controls): (r: Controls)
    ensures r.state == (if c.transport.playing then Playing else Stopped)
    ensures r.reader == c.reader && r.transport.playing == c.transport.playing
    ensures r == ChangeState(c, r.state)
  {
    if c.transport.playing then ChangeState(c, Playing) else ChangeState(c, Stopped)
  }

  /** playButtonClicked: request Starting. */
  function PlayClicked(c: Controls): (r: Controls)
    ensures r.state == Starting && r.reader == c.reader && r.stopEnabled == c.stopEnabled
    ensures c.state != Starting ==> !r.playEnabled && r.transport == c.transport.(playing := true)
    ensures c.state == Starting ==> r == c
  {
    ChangeState(c, Starting)
  }

  /** stopButtonClicked: request Stopping, which stops the transport without rewinding it
      and leaves both buttons as they were. */
  function StopClicked(c: Controls): (r: Controls)
    ensures r.state == Stopping && r.reader == c.reader
    ensures r.playEnabled == c.playEnabled && r.stopEnabled == c.stopEnabled
    ensures r.transport.position == c.transport.position
    ensures c.state != Stopping ==> !r.transport.playing
    ensures c.state == Stopping ==> r == c
  {
    ChangeState(c, Stopping)
  }

  /** The completion of the open dialog: with a reader, install it and enable Play, touching
      neither the Stop button nor the state; without one, change nothing. */
  function OpenCompleted(c: Controls, outcome: OpenOutcome): (r: Controls)
    ensures !outcome.ReaderCreated? ==> r == c
    ensures outcome.ReaderCreated? ==>
              r.playEnabled && r.reader == Some(NewReader(outcome.file))
              && r.stopEnabled == c.stopEnabled && r.state == c.state && r.transport == c.transport
  {
    match outcome
    case ReaderCreated(file) => c.(playEnabled := true, reader := Some(NewReader(file)))
    case _ => c
  }

  // ---------------------------------------------------------------------------
  // Sequences of events

  /** A button press, the completion of the open dialog, the transport's change
      notification, or the transport ending playback by itself. */
  datatype Event =
    | PlayPressed
    | StopPressed
    | FileOpened(outcome: OpenOutcome)
    | TransportNotified
    | PlaybackEnded

  function Step(c: Controls, e: Event): Controls {
    match e
    case PlayPressed => PlayClicked(c)
    case StopPressed => StopClicked(c)
    case FileOpened(o) => OpenCompleted(c, o)
    case TransportNotified => TransportChanged(c)
    case PlaybackEnded => c.(transport := c.transport.(playing := false))
  }

  function Run(c: Controls, events: seq<Event>): Controls
    decreases |events|
  {
    if events == [] then c else Run(Step(c, events[0]), events[1..])
  }

  /** What every reachable controller satisfies: in Stopped the Stop button is disabled and
      the transport is idle at position 0; in Stopping the transport is not playing. */
  ghost predicate Coherent(c: Controls) {
    && (c.state == Stopped ==> !c.stopEnabled && c.transport == IdleTransport)
    && (c.state == Stopping ==> !c.transport.playing)
  }

  lemma StepKeepsCoherent(c: Controls, e: Event)
    requires Coherent(c)
    ensures Coherent(Step(c, e))
  {
    match e
    case PlayPressed =>
    case StopPressed =>
    case FileOpened(o) =>
    case TransportNotified =>
    case PlaybackEnded =>
  }

  lemma {:induction false} RunKeepsCoherent(c: Controls, events: seq<Event>)
    requires Coherent(c)
    ensures Coherent(Run(c, events))
    decreases |events|
  {
    if events != [] {
      StepKeepsCoherent(c, events[0]);
      RunKeepsCoherent(Step(c, events[0]), events[1..]);
    }
  }

  /** Stopped is entered from another state only by a change notification that finds the
      transport not playing; no button press leads there. */
  lemma StoppedOnlyByNotification(c: Controls, e: Event)
    requires c.state != Stopped && Step(c, e).state == Stopped
    ensures e == TransportNotified && !c.transport.playing
  {
  }

  /** In every reachable controller, the notification that follows a Stop press completes
      the move: Stopped, rewound to 0, Play enabled, Stop disabled, the same reader. */
  lemma StopThenNotificationStops(events: seq<Event>)
    ensures var c := Run(Initial, events);
            var r := TransportChanged(StopClicked(c));
            r.state == Stopped && r.transport == IdleTransport && r.playEnabled && !r.stopEnabled
            && r.reader == c.reader
  {
    RunKeepsCoherent(Initial, events);
  }

  /** Stopping is reachable: open a file, press Play, press Stop. */
  lemma StoppingIsReachable()
    ensures Run(Initial, [FileOpened(ReaderCreated("a.wav")), PlayPressed, StopPressed]).state == Stopping
  {
  }
}

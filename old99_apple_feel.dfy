/** The Old99AppleFeel player's main component: the five-state transport controller behind
    Open, Play, Pause, Stop and Loop, and a timer that refreshes the position label. */
module Old99AppleFeel {
  import opened AudioTypes
  import TransportController
  import AudioBlock
  import PositionFormat

  type TransportState = TransportController.TransportState

  class MainContentComponent {
    var state: TransportState
    var playEnabled: bool
    var pauseEnabled: bool
    var stopEnabled: bool
    var transport: TransportSource
    var readerSource: Option<ReaderSource>
    var positionLabel: string

    /** The transport controller's fields as one value. */
    ghost function Controls(): TransportController.Controls
      reads this
    {
      TransportController.Controls(state, playEnabled, pauseEnabled, stopEnabled, transport, readerSource)
    }

    constructor ()
      ensures Controls() == TransportController.Initial
      ensures positionLabel == "Stopped"
    {
      state := TransportController.Stopped;
      playEnabled, pauseEnabled, stopEnabled := false, false, false;
      transport := IdleTransport;
      readerSource := None;
      positionLabel := "Stopped";
    }

    method ChangeState(newState: TransportState)
      modifies this`state, this`playEnabled, this`pauseEnabled, this`stopEnabled, this`transport
      ensures Controls() == TransportController.ChangeState(old(Controls()), newState)
    {
      if state != newState {
        state := newState;
        match state
        case Stopped =>
          stopEnabled := false;
          playEnabled := true;
          pauseEnabled := false;
          transport := transport.(position := 0);
        case Starting =>
          playEnabled := false;
          pauseEnabled := false;
          transport := transport.(playing := true);
        case Playing =>
          stopEnabled := true;
          pauseEnabled := true;
        case Paused =>
          pauseEnabled := false;
          playEnabled := true;
          stopEnabled := true;
        case Stopping =>
          transport := transport.(playing := false);
      }
    }

    /** The transport's change notification. */
    method ChangeListenerCallback()
      modifies this`state, this`playEnabled, this`pauseEnabled, this`stopEnabled, this`transport
      ensures Controls() == TransportController.TransportChanged(old(Controls()))
    {
      if state == TransportController.Paused {
        return;
      }
      if transport.playing {
        ChangeState(TransportController.Playing);
      } else {
        ChangeState(TransportController.Stopped);
      }
    }

    method UpdateLoopState(shouldLoop: bool)
      modifies this`readerSource
      ensures Controls() == TransportController.UpdateLoopState(old(Controls()), shouldLoop)
    {
      if readerSource.Some? {
        readerSource := Some(readerSource.value.(looping := shouldLoop));
      }
    }

    /** What the open dialog's completion callback does with the dialog's outcome. */
    method OpenCompleted(outcome: OpenOutcome)
      modifies this`playEnabled, this`pauseEnabled, this`stopEnabled, this`readerSource
      ensures Controls() == TransportController.OpenCompleted(old(Controls()), outcome)
    {
      if outcome.ReaderCreated? {
        var newSource := NewReader(outcome.file);
        playEnabled := true;
        pauseEnabled := false;
        stopEnabled := false;
        readerSource := Some(newSource);
      }
    }

    method PlayButtonClicked(loopToggle: bool)
      modifies this`state, this`playEnabled, this`pauseEnabled, this`stopEnabled, this`transport,
               this`readerSource
      ensures Controls() == TransportController.PlayClicked(old(Controls()), loopToggle)
    {
      UpdateLoopState(loopToggle);
      ChangeState(TransportController.Starting);
      pauseEnabled := true;
    }

    method StopButtonClicked()
      modifies this`state, this`playEnabled, this`pauseEnabled, this`stopEnabled, this`transport
      ensures Controls() == TransportController.StopClicked(old(Controls()))
    {
      transport := transport.(playing := false);
      transport := transport.(position := 0);
      ChangeState(TransportController.Stopped);
    }

    method PauseButtonClicked()
      modifies this`state, this`playEnabled, this`pauseEnabled, this`stopEnabled, this`transport
      ensures Controls() == TransportController.PauseClicked(old(Controls()))
    {
      transport := transport.(playing := false);
      ChangeState(TransportController.Paused);
    }

    method LoopButtonChanged(loopToggle: bool)
      modifies this`readerSource
      ensures Controls() == TransportController.UpdateLoopState(old(Controls()), loopToggle)
    {
      UpdateLoopState(loopToggle);
    }

    /** The timer: refresh the position label. */
    method TimerCallback()
      modifies this`positionLabel
      ensures positionLabel == TransportController.PositionLabel(Controls())
    {
      if transport.playing {
        positionLabel := PositionFormat.PositionString(transport.position);
      } else if state == TransportController.Paused {
        positionLabel := "Paused";
      } else {
        positionLabel := "Stopped";
      }
    }

    /** The audio callback: with no reader source the active region is cleared; otherwise the
        transport renders into the buffer, which this model leaves as it is. */
    method GetNextAudioBlock(buffer: array2?<real>, startSample: nat, numSamples: nat)
      requires buffer != null ==> startSample + numSamples <= buffer.Length1
      modifies buffer
      ensures readerSource.None? && buffer != null ==> AudioBlock.RegionCleared(buffer, startSample, numSamples)
      ensures readerSource.Some? && buffer != null ==> unchanged(buffer)
    {
      if readerSource.None? && buffer != null {
        AudioBlock.ClearRegion(buffer, startSample, numSamples);
      }
    }
  }
}

/** The UnixMatrix player's main component: the five-state transport controller, a volume
    gain applied to each rendered block, a peak level taken from each block, and a 64-slot
    history of those levels that the timer fills and paint draws as a scrolling meter. */
module UnixMatrix {
  import opened AudioTypes
  import TransportController
  import MeterHistory
  import AudioBlock
  import PositionFormat

  type TransportState = TransportController.TransportState

  class MainContentComponent {
    var state: TransportState
    var playEnabled: bool
    var pauseEnabled: bool
    var stopEnabled: bool
    var transport: TransportSource
    var readerSource: Option<ReaderSource>
    var positionLabel: string

    const meterLevels: array<real>
    var meterWriteIndex: nat
    var lastLevel: real
    var targetGain: real

    ghost predicate Valid()
      reads this
    {
      meterLevels.Length == MeterHistory.Size && meterWriteIndex < MeterHistory.Size
    }

    /** The transport controller's fields as one value. */
    ghost function Controls(): TransportController.Controls
      reads this
    {
      TransportController.Controls(state, playEnabled, pauseEnabled, stopEnabled, transport, readerSource)
    }

    /** The meter history as one value. */
    ghost function Meter(): MeterHistory.Ring
      reads this, meterLevels
    {
      MeterHistory.Ring(meterLevels[..], meterWriteIndex)
    }

    constructor ()
      ensures Valid() && fresh(meterLevels)
      ensures Controls() == TransportController.Initial
      ensures Meter() == MeterHistory.Empty()
      ensures positionLabel == "Stopped" && lastLevel == 0.0 && targetGain == 1.0
    {
      state := TransportController.Stopped;
      playEnabled, pauseEnabled, stopEnabled := false, false, false;
      transport := IdleTransport;
      readerSource := None;
      positionLabel := "Stopped";
      meterLevels := new real[MeterHistory.Size](_ => 0.0);
      meterWriteIndex := 0;
      lastLevel := 0.0;
      targetGain := 1.0;
    }

    /** The volume slider's change callback. */
    method VolumeChanged(value: real)
      modifies this`targetGain
      ensures targetGain == value
    {
      targetGain := value;
    }

    method ChangeState(newState: TransportState)
      modifies this`state, this`playEnabled, this`pauseEnabled, this`stopEnabled, this`transport
      ensures Controls() == TransportController.ChangeState(old(Controls()), newState)
    {
      if state != newState {
        state := newState;
        match state
        case Stopped =>
          stopEnabled := false;
          playEnabled := true;
          pauseEnabled := false;
          transport := transport.(position := 0);
        case Starting =>
          playEnabled := false;
          pauseEnabled := false;
          transport := transport.(playing := true);
        case Playing =>
          stopEnabled := true;
          pauseEnabled := true;
        case Paused =>
          pauseEnabled := false;
          playEnabled := true;
          stopEnabled := true;
        case Stopping =>
          transport := transport.(playing := false);
      }
    }

    /** The transport's change notification. */
    method ChangeListenerCallback()
      modifies this`state, this`playEnabled, this`pauseEnabled, this`stopEnabled, this`transport
      ensures Controls() == TransportController.TransportChanged(old(Controls()))
    {
      if state == TransportController.Paused {
        return;
      }
      if transport.playing {
        ChangeState(TransportController.Playing);
      } else {
        ChangeState(TransportController.Stopped);
      }
    }

    method UpdateLoopState(shouldLoop: bool)
      modifies this`readerSource
      ensures Controls() == TransportController.UpdateLoopState(old(Controls()), shouldLoop)
    {
      if readerSource.Some? {
        readerSource := Some(readerSource.value.(looping := shouldLoop));
      }
    }

    /** What the open dialog's completion callback does with the dialog's outcome. */
    method OpenCompleted(outcome: OpenOutcome)
      modifies this`playEnabled, this`pauseEnabled, this`stopEnabled, this`readerSource
      ensures Controls() == TransportController.OpenCompleted(old(Controls()), outcome)
    {
      if outcome.ReaderCreated? {
        var newSource := NewReader(outcome.file);
        playEnabled := true;
        pauseEnabled := false;
        stopEnabled := false;
        readerSource := Some(newSource);
      }
    }

    method PlayButtonClicked(loopToggle: bool)
      modifies this`state, this`playEnabled, this`pauseEnabled, this`stopEnabled, this`transport,
               this`readerSource
      ensures Controls() == TransportController.PlayClicked(old(Controls()), loopToggle)
    {
      UpdateLoopState(loopToggle);
      ChangeState(TransportController.Starting);
      pauseEnabled := true;
    }

    method StopButtonClicked()
      modifies this`state, this`playEnabled, this`pauseEnabled, this`stopEnabled, this`transport
      ensures Controls() == TransportController.StopClicked(old(Controls()))
    {
      transport := transport.(playing := false);
      transport := transport.(position := 0);
      ChangeState(TransportController.Stopped);
    }

    method PauseButtonClicked()
      modifies this`state, this`playEnabled, this`pauseEnabled, this`stopEnabled, this`transport
      ensures Controls() == TransportController.PauseClicked(old(Controls()))
    {
      transport := transport.(playing := false);
      ChangeState(TransportController.Paused);
    }

    method LoopButtonChanged(loopToggle: bool)
      modifies this`readerSource
      ensures Controls() == TransportController.UpdateLoopState(old(Controls()), loopToggle)
    {
      UpdateLoopState(loopToggle);
    }

    /** The timer: record the latest peak in the meter history, then refresh the label. */
    method TimerCallback()
      requires Valid()
      modifies meterLevels, this`meterWriteIndex, this`positionLabel
      ensures Valid()
      ensures Meter() == MeterHistory.Push(old(Meter()), lastLevel)
      ensures positionLabel == TransportController.PositionLabel(Controls())
    {
      meterLevels[meterWriteIndex] := lastLevel;
      meterWriteIndex := (meterWriteIndex + 1) % MeterHistory.Size;

      if transport.playing {
        positionLabel := PositionFormat.PositionString(transport.position);
      } else if state == TransportController.Paused {
        positionLabel := "Paused";
      } else {
        positionLabel := "Stopped";
      }
    }

    /** The meter part of paint: the level of every bar, left to right, oldest first. */
    method MeterBars() returns (bars: seq<real>)
      requires Valid()
      ensures bars == MeterHistory.Bars(Meter())
    {
      bars := [];
      var i := 0;
      while i < MeterHistory.Size
        invariant 0 <= i <= MeterHistory.Size
        invariant bars == MeterHistory.Bars(Meter())[..i]
      {
        var index := (meterWriteIndex + i) % MeterHistory.Size;
        var level := MeterHistory.Clamp01(meterLevels[index]);
        bars := bars + [level];
        i := i + 1;
      }
    }

    /** The audio callback. With no reader source the active region is cleared and the level
        is left alone. Otherwise the transport has rendered into the buffer, the gain is
        applied when it is not 1, and the level becomes the block's peak (0 for no buffer). */
    method GetNextAudioBlock(buffer: array2?<real>, startSample: nat, numSamples: nat)
      requires buffer != null ==> startSample + numSamples <= buffer.Length1
      modifies this`lastLevel, buffer
      ensures readerSource.None? ==> lastLevel == old(lastLevel)
      ensures readerSource.None? && buffer != null ==> AudioBlock.RegionCleared(buffer, startSample, numSamples)
      ensures readerSource.Some? && buffer != null && targetGain != 1.0 ==>
                AudioBlock.RegionScaled(buffer, startSample, numSamples, targetGain)
      ensures readerSource.Some? && buffer != null && targetGain == 1.0 ==> unchanged(buffer)
      ensures readerSource.Some? && buffer != null ==> AudioBlock.IsPeak(buffer, startSample, numSamples, lastLevel)
      ensures readerSource.Some? && buffer == null ==> lastLevel == 0.0
    {
      if readerSource.None? {
        if buffer != null {
          AudioBlock.ClearRegion(buffer, startSample, numSamples);
        }
        return;
      }

      if buffer == null {
        lastLevel := 0.0;
        return;
      }

      var gain := targetGain;
      if gain != 1.0 {
        AudioBlock.ApplyGain(buffer, startSample, numSamples, gain);
      }

      var level := 0.0;
      if numSamples > 0 && buffer.Length0 > 0 {
        level := AudioBlock.ScanPeak(buffer, startSample, numSamples);
      }
      lastLevel := level;
    }
  }
}

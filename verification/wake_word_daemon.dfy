/** `WakeWordDaemon` (wake_word_daemon.py): the background process. While
    no conversation process runs it converts microphone audio to 16 kHz,
    slices it into wake-word frames and, on a detection, releases the
    audio device and launches the conversation process; when that process
    exits it reopens the streams and listens again. Whether the child has
    exited (`poll()`), its process id, the detector's results and the
    device outcomes are inputs. */
module WakeWordDaemon {
  import opened Wrappers
  import opened Pcm16
  import opened WakeWord
  import Audio

  const ApiRate := 24000
  const WakeWordRate := 16000
  /** The chunk size the daemon opens its streams with (1536 frames at
      48 kHz give 512 samples at 16 kHz). */
  const DaemonChunk := 1536
  /** The debug counter wraps at this many listening iterations. */
  const DebugPeriod := 500

  class WakeWordDaemon {
    var pcmBuffer: seq<int16>
    var wakeWordResampleState: Option<RateCvState>
    var running: bool
    /** The conversation process, by process id, when one was launched. */
    var guiProcess: Option<nat>
    var debugCounter: nat
    const audio: Audio.AudioHandler
    /** The wake-word engine's `frame_length`. */
    const frameLength: nat
    /** `audioop.ratecv`. */
    const ratecv: RateCv

    ghost predicate Valid()
      reads this`debugCounter
    {
      debugCounter < DebugPeriod
    }

    constructor (ratecv: RateCv, configHwRate: int, configOutputChannels: int, frameLength: nat)
      ensures Valid()
      ensures pcmBuffer == [] && wakeWordResampleState == None && running
      ensures guiProcess == None && debugCounter == 0
      ensures this.frameLength == frameLength && this.ratecv == ratecv
      ensures fresh(audio) && audio.ratecv == ratecv
      ensures audio.inputStream == None && audio.outputStream == None
    {
      audio := new Audio.AudioHandler(ratecv, configHwRate, configOutputChannels);
      pcmBuffer := [];
      wakeWordResampleState := None;
      running := true;
      guiProcess := None;
      debugCounter := 0;
      this.frameLength := frameLength;
      this.ratecv := ratecv;
    }

    /** The start of `run`: open the streams with the daemon's chunk size
        and input callback. A failure raises out of `run` (`err`). */
    method Start(outputOk: bool, inputOk: bool) returns (err: Option<Audio.StartError>)
      modifies audio
      ensures err == None <==> outputOk && inputOk
      ensures err == None ==>
        && audio.Recording() && audio.chunkSize == Some(DaemonChunk) && audio.hasInputCallback
        && audio.inputStream == Some(Audio.Opened) && audio.outputStream == Some(Audio.Opened)
      ensures !outputOk ==> audio.inputStream == old(audio.inputStream) && audio.outputStream == old(audio.outputStream)
      ensures outputOk && !inputOk ==>
        audio.inputStream == old(audio.inputStream) && audio.outputStream == Some(Audio.Closed)
      ensures err != None ==> audio.chunkSize == old(audio.chunkSize) && audio.hasInputCallback == old(audio.hasInputCallback)
      ensures audio.running && audio.targetRate == ApiRate
      ensures audio.hwRate == audio.configHwRate && audio.outputChannels == audio.configOutputChannels
      ensures audio.written == old(audio.written) && audio.terminated == old(audio.terminated)
      ensures audio.inputResampleState == old(audio.inputResampleState)
      ensures audio.outputResampleState == old(audio.outputResampleState)
    {
      err := audio.StartStream(ApiRate, DaemonChunk, true, outputOk, inputOk);
    }

    /** `audio_input_callback`: while a conversation process exists the
        chunk is ignored; otherwise it is converted to 16 kHz and all its
        samples join the buffer, in order. */
    method AudioInputCallback(inData: seq<byte>)
      modifies this`pcmBuffer, this`wakeWordResampleState
      ensures guiProcess.Some? ==>
        pcmBuffer == old(pcmBuffer) && wakeWordResampleState == old(wakeWordResampleState)
      ensures guiProcess == None ==>
        var (converted, next) := ratecv(inData, ApiRate, WakeWordRate, old(wakeWordResampleState));
        && wakeWordResampleState == Some(next)
        && pcmBuffer == old(pcmBuffer) + Samples(converted)
    {
      if guiProcess.Some? {
        return;
      }
      var result := ratecv(inData, ApiRate, WakeWordRate, wakeWordResampleState);
      wakeWordResampleState := Some(result.1);
      pcmBuffer := pcmBuffer + Samples(result.0);
    }

    /** `launch_gui_app`: unless a conversation process is still running,
        release the audio device and launch one (process id `pid`). */
    method LaunchGuiApp(childExited: bool, pid: nat)
      modifies this`guiProcess, audio`running, audio`inputStream, audio`outputStream
      ensures old(guiProcess) == None || childExited ==>
        && guiProcess == Some(pid) && !audio.running
        && audio.inputStream == (if old(audio.inputStream).Some? then Some(Audio.Closed) else None)
        && audio.outputStream == (if old(audio.outputStream).Some? then Some(Audio.Closed) else None)
      ensures old(guiProcess).Some? && !childExited ==>
        && guiProcess == old(guiProcess) && audio.running == old(audio.running)
        && audio.inputStream == old(audio.inputStream) && audio.outputStream == old(audio.outputStream)
    {
      if guiProcess == None || childExited {
        audio.StopStream();
        guiProcess := Some(pid);
      }
    }

    /** The first part of a loop iteration: when the conversation process
        has exited, forget it, clear the buffer and conversion state and
        reopen the streams. A failure to reopen raises out of the loop
        (`crashed`). */
    method ReapChild(childExited: bool, outputOk: bool, inputOk: bool) returns (crashed: bool)
      modifies this`guiProcess, this`pcmBuffer, this`wakeWordResampleState, audio
      ensures crashed <==> old(guiProcess).Some? && childExited && !(outputOk && inputOk)
      ensures old(guiProcess).Some? && childExited ==>
        && guiProcess == None && pcmBuffer == [] && wakeWordResampleState == None
        && audio.running && audio.targetRate == ApiRate
        && audio.hwRate == audio.configHwRate && audio.outputChannels == audio.configOutputChannels
        && (crashed ==> audio.chunkSize == old(audio.chunkSize) && audio.hasInputCallback == old(audio.hasInputCallback))
        && (!crashed ==>
              && audio.Recording() && audio.chunkSize == Some(DaemonChunk) && audio.hasInputCallback
              && audio.inputStream == Some(Audio.Opened) && audio.outputStream == Some(Audio.Opened))
        && (!outputOk ==> audio.inputStream == old(audio.inputStream) && audio.outputStream == old(audio.outputStream))
        && (outputOk && !inputOk ==>
              audio.inputStream == old(audio.inputStream) && audio.outputStream == Some(Audio.Closed))
      ensures !(old(guiProcess).Some? && childExited) ==>
        && guiProcess == old(guiProcess) && pcmBuffer == old(pcmBuffer)
        && wakeWordResampleState == old(wakeWordResampleState)
        && unchanged(audio)
      // reopening touches neither the converters nor what was played
      ensures audio.written == old(audio.written) && audio.terminated == old(audio.terminated)
      ensures audio.inputResampleState == old(audio.inputResampleState)
      ensures audio.outputResampleState == old(audio.outputResampleState)
    {
      crashed := false;
      if guiProcess.Some? && childExited {
        guiProcess := None;
        pcmBuffer := [];
        wakeWordResampleState := None;
        var err := audio.StartStream(ApiRate, DaemonChunk, true, outputOk, inputOk);
        crashed := err != None;
      }
    }

    /** The second part of a loop iteration, run only while no
        conversation process exists: a whole frame is taken from the front
        of the buffer and given to the detector, whose result is `detect`;
        a detection launches the conversation process. The debug counter
        counts these iterations modulo `DebugPeriod`. */
    method ListenStep(detect: KeywordIndex, pid: nat) returns (frame: Option<seq<int16>>)
      requires Valid()
      modifies this`pcmBuffer, this`guiProcess, this`debugCounter, audio`running, audio`inputStream, audio`outputStream
      ensures Valid()
      ensures frame == if old(guiProcess) == None && |old(pcmBuffer)| >= frameLength
                       then Some(TakeFrame(old(pcmBuffer), frameLength).0) else None
      ensures pcmBuffer == if frame == None then old(pcmBuffer) else TakeFrame(old(pcmBuffer), frameLength).1
      ensures guiProcess == if frame.Some? && Detected(detect) then Some(pid) else old(guiProcess)
      ensures frame.Some? && Detected(detect) ==>
        && !audio.running
        && audio.inputStream == (if old(audio.inputStream).Some? then Some(Audio.Closed) else None)
        && audio.outputStream == (if old(audio.outputStream).Some? then Some(Audio.Closed) else None)
      ensures !(frame.Some? && Detected(detect)) ==>
        audio.running == old(audio.running) && audio.inputStream == old(audio.inputStream)
        && audio.outputStream == old(audio.outputStream)
      ensures debugCounter == if old(guiProcess) == None then (old(debugCounter) + 1) % DebugPeriod else old(debugCounter)
    {
      frame := None;
      if guiProcess == None {
        if |pcmBuffer| >= frameLength {
          frame := Some(pcmBuffer[..frameLength]);
          pcmBuffer := pcmBuffer[frameLength..];
          if detect >= 0 {
            LaunchGuiApp(false, pid);
          }
        }
        debugCounter := debugCounter + 1;
        if debugCounter >= DebugPeriod {
          debugCounter := 0;
        }
      }
    }

    /** One iteration of `run`'s loop. */
    method Step(childExited: bool, outputOk: bool, inputOk: bool, detect: KeywordIndex, pid: nat)
      returns (frame: Option<seq<int16>>, crashed: bool)
      requires Valid()
      modifies this`guiProcess, this`pcmBuffer, this`wakeWordResampleState, this`debugCounter, audio
      ensures Valid()
      ensures crashed <==> old(guiProcess).Some? && childExited && !(outputOk && inputOk)
      ensures crashed ==> guiProcess == None && pcmBuffer == [] && frame == None
      // reaping the exited child
      ensures var reaped := old(guiProcess).Some? && childExited;
        && wakeWordResampleState == (if reaped then None else old(wakeWordResampleState))
        && (reaped ==>
              && audio.targetRate == ApiRate
              && audio.hwRate == audio.configHwRate && audio.outputChannels == audio.configOutputChannels)
        && (reaped && !crashed ==> audio.chunkSize == Some(DaemonChunk) && audio.hasInputCallback)
        && (crashed ==>
              && audio.running && debugCounter == old(debugCounter)
              && audio.chunkSize == old(audio.chunkSize) && audio.hasInputCallback == old(audio.hasInputCallback)
              && (!outputOk ==> audio.inputStream == old(audio.inputStream) && audio.outputStream == old(audio.outputStream))
              && (outputOk && !inputOk ==>
                    audio.inputStream == old(audio.inputStream) && audio.outputStream == Some(Audio.Closed)))
      // listening for the wake word
      ensures !crashed ==>
        var listening := old(guiProcess) == None || childExited;
        var reaped := old(guiProcess).Some? && childExited;
        var buffer := if reaped then [] else old(pcmBuffer);
        var launched := frame.Some? && Detected(detect);
        && frame == (if listening && |buffer| >= frameLength then Some(TakeFrame(buffer, frameLength).0) else None)
        && pcmBuffer == (if frame == None then buffer else TakeFrame(buffer, frameLength).1)
        && guiProcess == (if launched then Some(pid) else if listening then None else old(guiProcess))
        && debugCounter == (if listening then (old(debugCounter) + 1) % DebugPeriod else old(debugCounter))
        && (reaped && !launched ==>
              && audio.Recording() && audio.inputStream == Some(Audio.Opened) && audio.outputStream == Some(Audio.Opened))
        && (launched ==>
              && !audio.running
              && audio.inputStream == (if reaped || old(audio.inputStream).Some? then Some(Audio.Closed) else None)
              && audio.outputStream == (if reaped || old(audio.outputStream).Some? then Some(Audio.Closed) else None))
        && (!reaped && !launched ==> unchanged(audio))
      // without a restart the stream settings are kept
      ensures !(old(guiProcess).Some? && childExited) ==>
        && audio.chunkSize == old(audio.chunkSize) && audio.hasInputCallback == old(audio.hasInputCallback)
        && audio.targetRate == old(audio.targetRate) && audio.hwRate == old(audio.hwRate)
        && audio.outputChannels == old(audio.outputChannels)
      ensures audio.written == old(audio.written) && audio.terminated == old(audio.terminated)
      ensures audio.inputResampleState == old(audio.inputResampleState)
      ensures audio.outputResampleState == old(audio.outputResampleState)
    {
      crashed := ReapChild(childExited, outputOk, inputOk);
      if crashed {
        return None, true;
      }
      frame := ListenStep(detect, pid);
    }

    /** `cleanup`: terminate a conversation process that is still running
        (`terminatedChild`) and release the audio device. */
    method Cleanup(childExited: bool) returns (terminatedChild: bool)
      modifies audio`running, audio`inputStream, audio`outputStream, audio`terminated
      ensures terminatedChild <==> guiProcess.Some? && !childExited
      ensures audio.terminated && !audio.running
      ensures audio.inputStream == if old(audio.inputStream).Some? then Some(Audio.Closed) else None
      ensures audio.outputStream == if old(audio.outputStream).Some? then Some(Audio.Closed) else None
    {
      terminatedChild := guiProcess.Some? && !childExited;
      audio.Terminate();
    }
  }
}

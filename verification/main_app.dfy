/** `Application` (main.py): the single-process assistant. In IDLE it feeds
    microphone audio, converted to 16 kHz, to the wake-word buffer; a
    detection connects to the Realtime API, after which microphone audio
    goes to the API and received audio is queued and played one chunk per
    loop iteration. Clock readings (milliseconds), detector results and
    device and network outcomes are inputs. */
module MainApp {
  import opened Wrappers
  import opened Pcm16
  import opened WakeWord
  import Gui
  import Pagination
  import Base64
  import Audio
  import RealtimeClient

  /** The application's own state strings. */
  datatype Mode = Idle | Listening | Processing | Speaking

  /** Rates of the wake-word conversion (the API rate to Porcupine's). */
  const ApiRate := 24000
  const WakeWordRate := 16000
  /** `start_stream`'s default chunk size. */
  const DefaultChunk := 1024
  /** A conversation ends after this many milliseconds without activity. */
  const ConversationTimeout := 10000

  /** The callbacks `main.py` registers with the client. */
  const AppHandlers := RealtimeClient.Handlers(true, true, true, true, false, false)

  class Application {
    var state: Mode
    var audioQueue: seq<seq<byte>>
    var isPlayingResponse: bool
    var pcmBuffer: seq<int16>
    var wakeWordResampleState: Option<RateCvState>
    var lastInteractionTime: int
    const gui: Gui.GuiHandler
    const audio: Audio.AudioHandler
    const client: RealtimeClient.Client
    /** The wake-word engine's `frame_length`. */
    const frameLength: nat
    /** `audioop.ratecv`. */
    const ratecv: RateCv

    ghost predicate Valid()
      reads this, gui
    {
      gui.Valid()
    }

    constructor (screenW: int, width: Pagination.Width, ratecv: RateCv, configHwRate: int,
                 configOutputChannels: int, frameLength: nat)
      ensures Valid()
      ensures state == Idle && audioQueue == [] && !isPlayingResponse && pcmBuffer == []
      ensures wakeWordResampleState == None && lastInteractionTime == 0
      ensures this.frameLength == frameLength && this.ratecv == ratecv
      ensures fresh(gui) && fresh(audio) && fresh(client)
      ensures gui.running && gui.state == Gui.StateIdle
      ensures audio.ratecv == ratecv && audio.inputStream == None && audio.outputStream == None
      ensures client.ws == RealtimeClient.NoSocket && client.sent == [] && client.handlers == AppHandlers
    {
      state := Idle;
      gui := new Gui.GuiHandler(screenW, width);
      audio := new Audio.AudioHandler(ratecv, configHwRate, configOutputChannels);
      client := new RealtimeClient.Client(AppHandlers);
      audioQueue := [];
      isPlayingResponse := false;
      pcmBuffer := [];
      wakeWordResampleState := None;
      lastInteractionTime := 0;
      this.frameLength := frameLength;
      this.ratecv := ratecv;
    }

    /** The start of `run`: open the streams with this application's input
        callback. A failure raises out of `run` (`err`). */
    method Start(outputOk: bool, inputOk: bool) returns (err: Option<Audio.StartError>)
      modifies audio
      ensures err == None <==> outputOk && inputOk
      ensures err == None ==>
        && audio.Recording() && audio.chunkSize == Some(DefaultChunk) && audio.hasInputCallback
        && audio.inputStream == Some(Audio.Opened) && audio.outputStream == Some(Audio.Opened)
      ensures !outputOk ==> audio.inputStream == old(audio.inputStream) && audio.outputStream == old(audio.outputStream)
      ensures outputOk && !inputOk ==>
        audio.inputStream == old(audio.inputStream) && audio.outputStream == Some(Audio.Closed)
      ensures err != None ==> audio.chunkSize == old(audio.chunkSize) && audio.hasInputCallback == old(audio.hasInputCallback)
      ensures audio.running && audio.targetRate == ApiRate
      ensures audio.hwRate == audio.configHwRate && audio.outputChannels == audio.configOutputChannels
      ensures audio.written == old(audio.written) && audio.terminated == old(audio.terminated)
      ensures audio.inputResampleState == old(audio.inputResampleState)
      ensures audio.outputResampleState == old(audio.outputResampleState)
    {
      err := audio.StartStream(ApiRate, DefaultChunk, true, outputOk, inputOk);
    }

    /** `audio_input_callback`: in IDLE the chunk is converted to 16 kHz and
        all its samples join the wake-word buffer, in order; while
        listening or speaking it is sent to the API; otherwise it is
        dropped. */
    method AudioInputCallback(inData: seq<byte>, sendOk: bool)
      modifies this`pcmBuffer, this`wakeWordResampleState, client`sent
      ensures old(state) == Idle ==>
        var (converted, next) := ratecv(inData, ApiRate, WakeWordRate, old(wakeWordResampleState));
        && wakeWordResampleState == Some(next)
        && pcmBuffer == old(pcmBuffer) + Samples(converted)
        && client.sent == old(client.sent)
      ensures old(state) == Listening || old(state) == Speaking ==>
        && pcmBuffer == old(pcmBuffer) && wakeWordResampleState == old(wakeWordResampleState)
        && client.sent == old(client.sent) +
             (if client.ws == RealtimeClient.Open && sendOk
              then [RealtimeClient.InputAudioBufferAppend(Base64.Encode(inData))] else [])
      ensures old(state) == Processing ==>
        && pcmBuffer == old(pcmBuffer) && wakeWordResampleState == old(wakeWordResampleState)
        && client.sent == old(client.sent)
    {
      if state == Idle {
        var result := ratecv(inData, ApiRate, WakeWordRate, wakeWordResampleState);
        wakeWordResampleState := Some(result.1);
        pcmBuffer := pcmBuffer + Samples(result.0);
      } else if state == Listening || state == Speaking {
        client.SendAudio(inData, sendOk);
      }
    }

    /** `handle_audio_delta`: queue the chunk for playback at the tail. */
    method HandleAudioDelta(audioBytes: seq<byte>, now: int)
      modifies this`lastInteractionTime, this`audioQueue
      ensures lastInteractionTime == now
      ensures audioQueue == old(audioQueue) + [audioBytes]
    {
      lastInteractionTime := now;
      audioQueue := audioQueue + [audioBytes];
    }

    /** `on_user_speech_start`: note the activity and, during a
        conversation, show the processing indicator. */
    method OnUserSpeechStart(now: int)
      modifies this`lastInteractionTime, gui`state
      ensures lastInteractionTime == now
      ensures gui.state == if state != Idle then Gui.StateProcessing else old(gui.state)
    {
      lastInteractionTime := now;
      if state != Idle {
        gui.SetState(Gui.StateProcessing);
      }
    }

    /** `reset_to_idle`: back to IDLE with the connection closed and both
        buffers emptied. */
    method ResetToIdle()
      modifies this`state, this`audioQueue, this`pcmBuffer, gui`state, client`ws
      ensures state == Idle && gui.state == Gui.StateIdle
      ensures audioQueue == [] && pcmBuffer == []
      ensures client.ws == if old(client.ws) == RealtimeClient.NoSocket then RealtimeClient.NoSocket else RealtimeClient.Closed
    {
      state := Idle;
      gui.SetState(Gui.StateIdle);
      client.Close();
      audioQueue := [];
      pcmBuffer := [];
    }

    /** `start_conversation`: show LISTENING and connect; on success the
        inactivity clock restarts, on failure the application returns to
        IDLE and resets. */
    method StartConversation(now: int, connectOk: bool, sendOk: bool)
      modifies this`state, this`audioQueue, this`pcmBuffer, this`lastInteractionTime, gui`state, client`ws, client`sent
      ensures connectOk ==>
        && state == Listening && gui.state == Gui.StateListening
        && client.ws == RealtimeClient.Open && lastInteractionTime == now
        && audioQueue == old(audioQueue) && pcmBuffer == old(pcmBuffer)
        && client.sent == old(client.sent) + (if sendOk then [RealtimeClient.SessionUpdate(RealtimeClient.DefaultSession)] else [])
      ensures !connectOk ==>
        && state == Idle && gui.state == Gui.StateIdle
        && audioQueue == [] && pcmBuffer == [] && lastInteractionTime == old(lastInteractionTime)
        && client.ws == (if old(client.ws) == RealtimeClient.NoSocket then RealtimeClient.NoSocket else RealtimeClient.Closed)
        && client.sent == old(client.sent)
    {
      state := Listening;
      gui.SetState(Gui.StateListening);
      var ok := client.Connect(connectOk, sendOk);
      if ok {
        lastInteractionTime := now;
      } else {
        state := Idle;
        gui.SetState(Gui.StateIdle);
        ResetToIdle();
      }
    }

    /** Step 1 of the loop: during a conversation, more than
        `ConversationTimeout` ms without activity stops the GUI (the loop
        then ends at its next test). */
    method CheckTimeout(now: int)
      modifies gui`running
      ensures gui.running == (old(gui.running) && !(state != Idle && now - lastInteractionTime > ConversationTimeout))
    {
      if state != Idle {
        if now - lastInteractionTime > ConversationTimeout {
          gui.running := false;
        }
      }
    }

    /** Step 2 of the loop: in IDLE, a whole frame is taken from the front
        of the wake-word buffer and given to the detector, whose result is
        `detect`; a detection starts a conversation. */
    method WakeWordStep(now: int, detect: KeywordIndex, connectOk: bool, sendOk: bool)
      returns (frame: Option<seq<int16>>)
      modifies this`state, this`audioQueue, this`pcmBuffer, this`lastInteractionTime, gui`state, client`ws, client`sent
      ensures frame == if old(state) == Idle && |old(pcmBuffer)| >= frameLength
                       then Some(TakeFrame(old(pcmBuffer), frameLength).0) else None
      ensures frame == None ==>
        && state == old(state) && pcmBuffer == old(pcmBuffer) && audioQueue == old(audioQueue)
        && lastInteractionTime == old(lastInteractionTime) && gui.state == old(gui.state)
        && client.ws == old(client.ws) && client.sent == old(client.sent)
      ensures frame.Some? && !Detected(detect) ==>
        && state == Idle && pcmBuffer == TakeFrame(old(pcmBuffer), frameLength).1
        && audioQueue == old(audioQueue) && lastInteractionTime == old(lastInteractionTime)
        && gui.state == old(gui.state) && client.ws == old(client.ws) && client.sent == old(client.sent)
      ensures frame.Some? && Detected(detect) && connectOk ==>
        && state == Listening && gui.state == Gui.StateListening && client.ws == RealtimeClient.Open
        && client.sent == old(client.sent) + (if sendOk then [RealtimeClient.SessionUpdate(RealtimeClient.DefaultSession)] else [])
        && pcmBuffer == TakeFrame(old(pcmBuffer), frameLength).1
        && audioQueue == old(audioQueue) && lastInteractionTime == now
      ensures frame.Some? && Detected(detect) && !connectOk ==>
        && state == Idle && gui.state == Gui.StateIdle && pcmBuffer == [] && audioQueue == []
        && lastInteractionTime == old(lastInteractionTime)
        && client.ws == (if old(client.ws) == RealtimeClient.NoSocket then RealtimeClient.NoSocket else RealtimeClient.Closed)
        && client.sent == old(client.sent)
    {
      frame := None;
      if state == Idle {
        if |pcmBuffer| >= frameLength {
          frame := Some(pcmBuffer[..frameLength]);
          pcmBuffer := pcmBuffer[frameLength..];
          if detect >= 0 {
            StartConversation(now, connectOk, sendOk);
          }
        }
      }
    }

    /** Step 3 of the loop: play the chunk at the head of the queue and
        show SPEAKING; with an empty queue, a finished response goes back
        to LISTENING (unless the application is idle). */
    method PlaybackStep(now: int, writeOk: bool)
      modifies this`audioQueue, this`isPlayingResponse, this`lastInteractionTime, gui`state
      modifies audio`outputResampleState, audio`written
      ensures old(audioQueue) != [] ==>
        && audioQueue == old(audioQueue)[1..] && isPlayingResponse
        && gui.state == Gui.StateSpeaking && lastInteractionTime == now
        && audio.written == old(audio.written) + old(audio.Played(audioQueue[0], writeOk))
        && audio.outputResampleState == old(audio.ConverterAfterPlay(audioQueue[0]))
      ensures old(audioQueue) == [] ==>
        && audioQueue == [] && !isPlayingResponse && lastInteractionTime == old(lastInteractionTime)
        && gui.state == (if old(isPlayingResponse) && state != Idle then Gui.StateListening else old(gui.state))
        && audio.written == old(audio.written) && audio.outputResampleState == old(audio.outputResampleState)
    {
      if audioQueue != [] {
        isPlayingResponse := true;
        gui.SetState(Gui.StateSpeaking);
        lastInteractionTime := now;
        var chunk := audioQueue[0];
        audioQueue := audioQueue[1..];
        audio.PlayAudio(chunk, writeOk);
      } else {
        if isPlayingResponse {
          isPlayingResponse := false;
          if state != Idle {
            gui.SetState(Gui.StateListening);
          }
        }
      }
    }

    /** One iteration of `run`'s loop at time `now` (`ticks` is the GUI's
        clock; `quitRequested` whether a quit event is pending). */
    method Step(now: int, ticks: int, quitRequested: bool, detect: KeywordIndex,
                connectOk: bool, sendOk: bool, writeOk: bool)
      returns (frame: Option<seq<int16>>)
      requires Valid()
      modifies this`state, this`audioQueue, this`isPlayingResponse, this`pcmBuffer, this`lastInteractionTime
      modifies gui, audio`outputResampleState, audio`written, client`ws, client`sent
      ensures Valid()
      ensures gui.running == (old(gui.running) && !quitRequested
                              && !(old(state) != Idle && now - old(lastInteractionTime) > ConversationTimeout))
      // the GUI's update comes first, at `ticks`
      ensures gui.UpdatedTexts(ticks)
      ensures frame == if old(state) == Idle && |old(pcmBuffer)| >= frameLength
                       then Some(TakeFrame(old(pcmBuffer), frameLength).0) else None
      // the wake-word step: a detection connects, or resets on failure
      ensures var started := frame.Some? && Detected(detect);
        && state == (if started then (if connectOk then Listening else Idle) else old(state))
        && pcmBuffer == (if frame == None then old(pcmBuffer)
                         else if started && !connectOk then []
                         else TakeFrame(old(pcmBuffer), frameLength).1)
        && client.ws == (if !started then old(client.ws)
                         else if connectOk then RealtimeClient.Open
                         else if old(client.ws) == RealtimeClient.NoSocket then RealtimeClient.NoSocket
                         else RealtimeClient.Closed)
        && client.sent == old(client.sent) +
             (if started && connectOk && sendOk then [RealtimeClient.SessionUpdate(RealtimeClient.DefaultSession)] else [])
      // the playback step, on the queue the wake-word step left
      ensures var started := frame.Some? && Detected(detect);
        var queued := if started && !connectOk then [] else old(audioQueue);
        && audioQueue == (if queued != [] then queued[1..] else [])
        && isPlayingResponse == (queued != [])
        && (queued != [] ==>
              && gui.state == Gui.StateSpeaking && lastInteractionTime == now
              && audio.written == old(audio.written) + old(audio.Played(queued[0], writeOk))
              && audio.outputResampleState == old(audio.ConverterAfterPlay(queued[0])))
        && (queued == [] ==>
              && lastInteractionTime == (if started && connectOk then now else old(lastInteractionTime))
              && audio.written == old(audio.written) && audio.outputResampleState == old(audio.outputResampleState)
              && gui.state == (if old(isPlayingResponse) && state != Idle then Gui.StateListening
                               else if started then (if connectOk then Gui.StateListening else Gui.StateIdle)
                               else old(gui.state)))
    {
      gui.Update(ticks, quitRequested);
      CheckTimeout(now);
      frame := WakeWordStep(now, detect, connectOk, sendOk);
      PlaybackStep(now, writeOk);
    }

    /** `cleanup`: close the connection and release the audio device. */
    method Cleanup()
      modifies client`ws, audio`running, audio`inputStream, audio`outputStream, audio`terminated
      ensures client.ws == if old(client.ws) == RealtimeClient.NoSocket then RealtimeClient.NoSocket else RealtimeClient.Closed
      ensures audio.terminated && !audio.running
      ensures audio.inputStream == if old(audio.inputStream).Some? then Some(Audio.Closed) else None
      ensures audio.outputStream == if old(audio.outputStream).Some? then Some(Audio.Closed) else None
    {
      client.Close();
      audio.Terminate();
    }
  }
}

/** `ConversationApp` (conversation_app.py): the conversation process the
    wake-word daemon launches. It connects at once, sends all microphone
    audio to the Realtime API, plays received audio one chunk per loop
    iteration, shows transcripts, and exits after a period without
    activity. Clock readings (milliseconds) and device and network outcomes
    are inputs. */
module ConversationApp {
  import opened Wrappers
  import opened Pcm16
  import Gui
  import Pagination
  import Audio
  import Base64
  import RealtimeClient

  const ApiRate := 24000
  const DefaultChunk := 1024
  /** `inactivity_timeout`, in milliseconds. */
  const InactivityTimeout := 15000

  /** The callbacks `conversation_app.py` registers with the client. */
  const ConversationHandlers := RealtimeClient.Handlers(true, true, true, true, true, false)

  class ConversationApp {
    var audioQueue: seq<seq<byte>>
    var isPlayingResponse: bool
    var lastInteractionTime: int
    var responseInProgress: bool
    const gui: Gui.GuiHandler
    const audio: Audio.AudioHandler
    const client: RealtimeClient.Client

    ghost predicate Valid()
      reads this, gui
    {
      gui.Valid()
    }

    constructor (screenW: int, width: Pagination.Width, ratecv: RateCv, configHwRate: int, configOutputChannels: int)
      ensures Valid()
      ensures audioQueue == [] && !isPlayingResponse && lastInteractionTime == 0 && !responseInProgress
      ensures fresh(gui) && fresh(audio) && fresh(client)
      ensures gui.running && gui.state == Gui.StateIdle
      ensures audio.inputStream == None && audio.outputStream == None
      ensures client.ws == RealtimeClient.NoSocket && client.sent == [] && client.handlers == ConversationHandlers
    {
      gui := new Gui.GuiHandler(screenW, width);
      audio := new Audio.AudioHandler(ratecv, configHwRate, configOutputChannels);
      client := new RealtimeClient.Client(ConversationHandlers);
      audioQueue := [];
      isPlayingResponse := false;
      lastInteractionTime := 0;
      responseInProgress := false;
    }

    /** The start of `run` up to its main loop: open the streams, then
        connect. `enterLoop` says whether the main loop is reached: a
        stream failure raises out of `run`, and a connect failure stops
        the GUI and returns. */
    method Start(now: int, outputOk: bool, inputOk: bool, connectOk: bool, sendOk: bool)
      returns (enterLoop: bool)
      requires Valid()
      modifies audio, client`ws, client`sent, gui`running, gui`state, this`lastInteractionTime
      ensures Valid()
      ensures enterLoop <==> outputOk && inputOk && connectOk
      // a stream failure raises before the connection is tried
      ensures !(outputOk && inputOk) ==>
        && client.ws == old(client.ws) && client.sent == old(client.sent)
        && gui.running == old(gui.running) && gui.state == old(gui.state)
        && lastInteractionTime == old(lastInteractionTime)
      ensures outputOk && inputOk && !connectOk ==>
        && !gui.running && gui.state == old(gui.state)
        && client.ws == old(client.ws) && client.sent == old(client.sent)
        && lastInteractionTime == old(lastInteractionTime)
      // a successful connect sends the session configuration first
      ensures enterLoop ==>
        && gui.running == old(gui.running) && gui.state == Gui.StateListening
        && lastInteractionTime == now && client.ws == RealtimeClient.Open
        && client.sent == old(client.sent) + (if sendOk then [RealtimeClient.SessionUpdate(RealtimeClient.DefaultSession)] else [])
      // once both streams open they stay open, whether or not the connect succeeds
      ensures outputOk && inputOk ==>
        && audio.Recording() && audio.hasInputCallback && audio.chunkSize == Some(DefaultChunk)
        && audio.inputStream == Some(Audio.Opened) && audio.outputStream == Some(Audio.Opened)
      // a stream that fails to open leaves the streams as `start_stream` does
      ensures !outputOk ==> audio.inputStream == old(audio.inputStream) && audio.outputStream == old(audio.outputStream)
      ensures outputOk && !inputOk ==>
        audio.inputStream == old(audio.inputStream) && audio.outputStream == Some(Audio.Closed)
      ensures !(outputOk && inputOk) ==>
        audio.chunkSize == old(audio.chunkSize) && audio.hasInputCallback == old(audio.hasInputCallback)
      // the streams are opened for the API's rate; nothing is played yet
      ensures audio.running && audio.targetRate == ApiRate
      ensures audio.hwRate == audio.configHwRate && audio.outputChannels == audio.configOutputChannels
      ensures audio.terminated == old(audio.terminated)
      ensures audio.written == old(audio.written)
      ensures audio.inputResampleState == old(audio.inputResampleState)
      ensures audio.outputResampleState == old(audio.outputResampleState)
    {
      var err := audio.StartStream(ApiRate, DefaultChunk, true, outputOk, inputOk);
      if err != None {
        return false;
      }
      var ok := client.Connect(connectOk, sendOk);
      if ok {
        lastInteractionTime := now;
        gui.SetState(Gui.StateListening);
        enterLoop := true;
      } else {
        gui.running := false;
        enterLoop := false;
      }
    }

    /** `audio_input_callback`: every chunk goes to the API. */
    method AudioInputCallback(inData: seq<byte>, sendOk: bool)
      modifies client`sent
      ensures client.sent == old(client.sent) +
        (if client.ws == RealtimeClient.Open && sendOk
         then [RealtimeClient.InputAudioBufferAppend(Base64.Encode(inData))] else [])
    {
      client.SendAudio(inData, sendOk);
    }

    /** `on_user_speech_start`: the user is talking, so no response is in
        progress; show PROCESSING. The playback queue is left alone. */
    method OnUserSpeechStart(now: int)
      modifies this`lastInteractionTime, this`responseInProgress, gui`state
      ensures lastInteractionTime == now && !responseInProgress
      ensures gui.state == Gui.StateProcessing
    {
      lastInteractionTime := now;
      responseInProgress := false;
      gui.SetState(Gui.StateProcessing);
    }

    /** `on_response_done`. */
    method OnResponseDone(now: int)
      modifies this`responseInProgress, this`lastInteractionTime
      ensures !responseInProgress && lastInteractionTime == now
    {
      responseInProgress := false;
      lastInteractionTime := now;
    }

    /** `handle_audio_delta`: queue the chunk for playback at the tail. */
    method HandleAudioDelta(audioBytes: seq<byte>, now: int)
      modifies this`lastInteractionTime, this`responseInProgress, this`audioQueue
      ensures lastInteractionTime == now && responseInProgress
      ensures audioQueue == old(audioQueue) + [audioBytes]
    {
      lastInteractionTime := now;
      responseInProgress := true;
      audioQueue := audioQueue + [audioBytes];
    }

    /** `handle_user_transcript`: show what the user said. */
    method HandleUserTranscript(text: string, ticks: int)
      requires Valid()
      modifies gui`agentFullText, gui`agentDisplayCount, gui`agentTextPages
      modifies gui`userText, gui`userTextPages, gui`userPageIndex, gui`lastPageSwitchTime
      ensures Valid()
      ensures gui.ShowsUserText(text, ticks)
      ensures gui.userText == text && gui.userPageIndex == 0
      ensures gui.userTextPages == Pagination.Pages(Gui.UserPrefix + text, gui.screenW - 40, Gui.UserTextMaxLines, gui.width)
    {
      gui.SetUserText(text, ticks);
    }

    /** `handle_agent_transcript`: show the agent's answer (ignored by the
        GUI while it shows LISTENING). */
    method HandleAgentTranscript(text: string)
      requires Valid()
      modifies gui`agentFullText, gui`agentDisplayCount, gui`agentTextPages, gui`agentPageIndex
      ensures Valid()
      ensures gui.ShowsAgentText(text)
      ensures old(gui.state) != Gui.StateListening ==> gui.agentFullText == text
      ensures old(gui.state) == Gui.StateListening ==> gui.agentFullText == old(gui.agentFullText)
    {
      gui.SetAgentText(text);
    }

    /** One iteration of `run`'s main loop at time `now` (`ticks` is the
        GUI's clock). After more than `InactivityTimeout` ms without
        activity the GUI stops and the loop breaks (`exit`) before any
        playback; otherwise the chunk at the head of the queue is played
        and SPEAKING shown, or a finished response returns to LISTENING. */
    method Step(now: int, ticks: int, quitRequested: bool, writeOk: bool) returns (exit: bool)
      requires Valid()
      modifies this, gui, audio`outputResampleState, audio`written
      ensures Valid()
      ensures exit == (now - old(lastInteractionTime) > InactivityTimeout)
      ensures gui.running == (old(gui.running) && !quitRequested && !exit)
      // the GUI's update comes first, at `ticks`
      ensures gui.UpdatedTexts(ticks)
      ensures exit ==>
        && audioQueue == old(audioQueue) && isPlayingResponse == old(isPlayingResponse)
        && lastInteractionTime == old(lastInteractionTime) && gui.state == old(gui.state)
        && audio.written == old(audio.written) && audio.outputResampleState == old(audio.outputResampleState)
      // the head of the queue is played, in order
      ensures !exit && old(audioQueue) != [] ==>
        && audioQueue == old(audioQueue)[1..] && isPlayingResponse
        && gui.state == Gui.StateSpeaking && lastInteractionTime == now
        && audio.written == old(audio.written) + old(audio.Played(audioQueue[0], writeOk))
        && audio.outputResampleState == old(audio.ConverterAfterPlay(audioQueue[0]))
      ensures !exit && old(audioQueue) == [] ==>
        && audioQueue == [] && !isPlayingResponse && lastInteractionTime == old(lastInteractionTime)
        && gui.state == (if old(isPlayingResponse) then Gui.StateListening else old(gui.state))
        && audio.written == old(audio.written) && audio.outputResampleState == old(audio.outputResampleState)
      ensures responseInProgress == old(responseInProgress)
    {
      gui.Update(ticks, quitRequested);
      if now - lastInteractionTime > InactivityTimeout {
        gui.running := false;
        return true;
      }
      exit := false;
      if audioQueue != [] {
        isPlayingResponse := true;
        gui.SetState(Gui.StateSpeaking);
        lastInteractionTime := now;
        var chunk := audioQueue[0];
        audioQueue := audioQueue[1..];
        PlayHead(chunk, writeOk);
      } else {
        if isPlayingResponse {
          isPlayingResponse := false;
          gui.SetState(Gui.StateListening);
        }
      }
    }

    /** `play_audio` on the dequeued chunk. */
    method PlayHead(chunk: seq<byte>, writeOk: bool)
      modifies audio`outputResampleState, audio`written
      ensures audio.written == old(audio.written) + old(audio.Played(chunk, writeOk))
      ensures audio.outputResampleState == old(audio.ConverterAfterPlay(chunk))
    {
      audio.PlayAudio(chunk, writeOk);
    }

    /** `cleanup`: close the connection and release the audio device. */
    method Cleanup()
      modifies client`ws, audio`running, audio`inputStream, audio`outputStream, audio`terminated
      ensures client.ws == if old(client.ws) == RealtimeClient.NoSocket then RealtimeClient.NoSocket else RealtimeClient.Closed
      ensures audio.terminated && !audio.running
      ensures audio.inputStream == if old(audio.inputStream).Some? then Some(Audio.Closed) else None
      ensures audio.outputStream == if old(audio.outputStream).Some? then Some(Audio.Closed) else None
    {
      client.Close();
      audio.Terminate();
    }
  }
}

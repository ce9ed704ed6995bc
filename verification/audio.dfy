/** The stream bookkeeping of `AudioHandler` (src/audio.py) over an
    abstract PyAudio device. Whether the device accepts an open, a write or
    a restart is an input to the operation concerned; the bytes the output
    device has accepted are kept as `written`. */
module Audio {
  import opened Wrappers
  import opened Pcm16

  /** A PyAudio stream: opened streams start running. */
  datatype Stream = Stream(open: bool, active: bool)

  const Opened := Stream(true, true)
  /** After `stop_stream()` and `close()`. */
  const Closed := Stream(false, false)

  /** `stream and stream.is_active()`: a closed stream reports inactive. */
  predicate IsActive(s: Option<Stream>)
  {
    s.Some? && s.value.open && s.value.active
  }

  /** Why `start_stream` raised. */
  datatype StartError = OutputUnavailable | InputUnavailable

  /** The rate-conversion step of `record_loop` and `play_audio`: convert
      from `fromRate` to `toRate`, threading the converter state, but only
      when the rates differ. */
  function Resample(ratecv: RateCv, data: seq<byte>, fromRate: int, toRate: int, state: Option<RateCvState>)
    : (r: (seq<byte>, Option<RateCvState>))
    ensures fromRate == toRate ==> r == (data, state)
    ensures fromRate != toRate ==> r.0 == ratecv(data, fromRate, toRate, state).0 && r.1.Some?
  {
    if fromRate != toRate then
      var (converted, next) := ratecv(data, fromRate, toRate, state);
      (converted, Some(next))
    else (data, state)
  }

  /** The channel step of `play_audio`: with two output channels each mono
      sample is written to both; a fragment `tostereo` rejects (odd length)
      is written as it is. */
  function Upmix(data: seq<byte>, channels: int): (r: seq<byte>)
    ensures channels == 2 && |data| % 2 == 0 ==>
      |r| == 2 * |data| && LeftChannel(r) == data && RightChannel(r) == data
    ensures channels != 2 || |data| % 2 != 0 ==> r == data
  {
    if channels == 2 then
      match ToStereo(data)
      case Some(stereo) =>
        DuplicateChannels(data);
        stereo
      case None => data
    else data
  }

  class AudioHandler {
    var inputStream: Option<Stream>
    var outputStream: Option<Stream>
    var running: bool
    var inputResampleState: Option<RateCvState>
    var outputResampleState: Option<RateCvState>
    /** Set by the first successful `start_stream`; unset before. */
    var chunkSize: Option<nat>
    /** Whether an input callback was registered. */
    var hasInputCallback: bool
    var outputChannels: int
    var targetRate: int
    var hwRate: int
    /** Bytes the output device has accepted. */
    var written: seq<byte>
    /** The PyAudio instance has been terminated. */
    var terminated: bool
    /** `audioop.ratecv`. */
    const ratecv: RateCv
    /** The configured hardware rate and output channel count. */
    const configHwRate: int
    const configOutputChannels: int

    constructor (ratecv: RateCv, configHwRate: int, configOutputChannels: int)
      ensures this.ratecv == ratecv && this.configHwRate == configHwRate
      ensures this.configOutputChannels == configOutputChannels
      ensures inputStream == None && outputStream == None && !running
      ensures inputResampleState == None && outputResampleState == None
      ensures chunkSize == None && !hasInputCallback && written == [] && !terminated
    {
      this.ratecv := ratecv;
      this.configHwRate := configHwRate;
      this.configOutputChannels := configOutputChannels;
      inputStream, outputStream := None, None;
      running := false;
      inputResampleState, outputResampleState := None, None;
      chunkSize := None;
      hasInputCallback := false;
      outputChannels, targetRate, hwRate := configOutputChannels, 0, configHwRate;
      written := [];
      terminated := false;
    }

    /** `start_stream(rate, chunk, input_callback)`. `outputOk`/`inputOk`
        say whether the device opens each stream; a failed open raises
        (`err` is the exception). The running flag and the rates are set
        before either open is tried. */
    method StartStream(rate: int, chunk: nat, callback: bool, outputOk: bool, inputOk: bool)
      returns (err: Option<StartError>)
      modifies this
      ensures running && targetRate == rate && hwRate == configHwRate && outputChannels == configOutputChannels
      ensures err == None <==> outputOk && inputOk
      // output fails: nothing else is touched
      ensures !outputOk ==>
        && err == Some(OutputUnavailable)
        && outputStream == old(outputStream) && inputStream == old(inputStream)
      // input fails after the output opened: the output is stopped and closed
      ensures outputOk && !inputOk ==>
        && err == Some(InputUnavailable)
        && outputStream == Some(Closed) && inputStream == old(inputStream)
      // both open: the chunk size and callback are recorded only now
      ensures err == None ==>
        && outputStream == Some(Opened) && inputStream == Some(Opened)
        && chunkSize == Some(chunk) && hasInputCallback == callback
      ensures err != None ==> chunkSize == old(chunkSize) && hasInputCallback == old(hasInputCallback)
      ensures inputResampleState == old(inputResampleState) && outputResampleState == old(outputResampleState)
      ensures written == old(written) && terminated == old(terminated)
    {
      running := true;
      outputChannels := configOutputChannels;
      targetRate := rate;
      hwRate := configHwRate;
      if !outputOk {
        return Some(OutputUnavailable);
      }
      outputStream := Some(Opened);
      if !inputOk {
        outputStream := Some(Closed);
        return Some(InputUnavailable);
      }
      inputStream := Some(Opened);
      chunkSize := Some(chunk);
      hasInputCallback := callback;
      err := None;
    }

    /** `stop_stream`: clears the running flag and stops and closes
        whichever streams exist. The stream objects are kept, closed.
        (`record_loop` tests the flag before each read; `RecordLoop` below
        is given its reads as a sequence and does not look at it.) */
    method StopStream()
      modifies this`running, this`inputStream, this`outputStream
      ensures !running
      ensures inputStream == if old(inputStream).Some? then Some(Closed) else None
      ensures outputStream == if old(outputStream).Some? then Some(Closed) else None
    {
      running := false;
      if inputStream.Some? {
        inputStream := Some(Closed);
      }
      if outputStream.Some? {
        outputStream := Some(Closed);
      }
    }

    /** Recording is under way: a start has succeeded and the input stream
        exists. */
    ghost predicate Recording()
      reads this
    {
      running && chunkSize.Some? && inputStream.Some?
    }

    /** One iteration of `record_loop`. `available` is the input stream's
        `get_read_available()` and `data` what `read(chunk_size)` returns.
        A chunk is read only when a whole one is available; it is then
        converted to the target rate, and handed to the input callback if
        there is one (`delivered`). */
    method RecordStep(available: nat, data: seq<byte>) returns (framesRead: nat, delivered: Option<seq<byte>>)
      requires Recording()
      modifies this`inputResampleState
      ensures framesRead == if available >= chunkSize.value then chunkSize.value else 0
      ensures available < chunkSize.value ==> delivered == None && inputResampleState == old(inputResampleState)
      ensures available >= chunkSize.value ==>
        var (converted, next) := Resample(ratecv, data, hwRate, targetRate, old(inputResampleState));
        && inputResampleState == next
        && delivered == if hasInputCallback then Some(converted) else None
    {
      if available >= chunkSize.value {
        framesRead := chunkSize.value;
        var converted := data;
        if hwRate != targetRate {
          var result := ratecv(data, hwRate, targetRate, inputResampleState);
          converted := result.0;
          inputResampleState := Some(result.1);
        }
        if hasInputCallback {
          delivered := Some(converted);
        } else {
          delivered := None;
        }
      } else {
        framesRead := 0;
        delivered := None;
      }
    }

    /** What `record_loop` hands to the input callback over iterations that
        observe `avail[k]` frames available and would read `chunks[k]`,
        starting from converter state `state`, together with the final
        converter state. */
    ghost function Recorded(avail: seq<nat>, chunks: seq<seq<byte>>, state: Option<RateCvState>)
      : (r: (seq<seq<byte>>, Option<RateCvState>))
      requires chunkSize.Some? && |avail| == |chunks|
      reads this`chunkSize, this`hwRate, this`targetRate, this`hasInputCallback
      decreases |avail|
    {
      if avail == [] then ([], state)
      else
        var n := |avail| - 1;
        var prev := Recorded(avail[..n], chunks[..n], state);
        if avail[n] >= chunkSize.value then
          var (converted, next) := Resample(ratecv, chunks[n], hwRate, targetRate, prev.1);
          (prev.0 + (if hasInputCallback then [converted] else []), next)
        else prev
    }

    /** The chunks a loop over the same observations reads. */
    ghost function ReadChunks(avail: seq<nat>, chunks: seq<seq<byte>>): (r: seq<seq<byte>>)
      requires chunkSize.Some? && |avail| == |chunks|
      reads this`chunkSize, this`hwRate, this`targetRate, this`hasInputCallback
      decreases |avail|
    {
      if avail == [] then []
      else
        var n := |avail| - 1;
        ReadChunks(avail[..n], chunks[..n]) + (if avail[n] >= chunkSize.value then [chunks[n]] else [])
    }

    /** With a callback and no rate conversion, the callback receives
        exactly the chunks read, in order; without a callback it receives
        nothing. */
    lemma {:induction false} RecordedChunks(avail: seq<nat>, chunks: seq<seq<byte>>, state: Option<RateCvState>)
      requires chunkSize.Some? && |avail| == |chunks|
      ensures hasInputCallback && hwRate == targetRate ==> Recorded(avail, chunks, state).0 == ReadChunks(avail, chunks)
      ensures hasInputCallback ==> |Recorded(avail, chunks, state).0| == |ReadChunks(avail, chunks)|
      ensures !hasInputCallback ==> Recorded(avail, chunks, state).0 == []
      decreases |avail|
    {
      if avail != [] {
        var n := |avail| - 1;
        RecordedChunks(avail[..n], chunks[..n], state);
      }
    }

    /** `record_loop` while the handler keeps running, over a finite trace
        of device observations (one per iteration). The converter state is
        threaded from each iteration to the next. */
    method RecordLoop(avail: seq<nat>, chunks: seq<seq<byte>>) returns (delivered: seq<seq<byte>>)
      requires Recording() && |avail| == |chunks|
      modifies this`inputResampleState
      ensures (delivered, inputResampleState) == Recorded(avail, chunks, old(inputResampleState))
    {
      delivered := [];
      ghost var state0 := inputResampleState;
      var k := 0;
      while k < |avail|
        invariant 0 <= k <= |avail|
        invariant (delivered, inputResampleState) == Recorded(avail[..k], chunks[..k], state0)
      {
        assert avail[..k + 1][..k] == avail[..k] && chunks[..k + 1][..k] == chunks[..k];
        assert avail[..k + 1][k] == avail[k] && chunks[..k + 1][k] == chunks[k];
        ghost var prevState := inputResampleState;
        var framesRead, chunk := RecordStep(avail[k], chunks[k]);
        if chunk.Some? {
          delivered := delivered + [chunk.value];
        }
        if avail[k] >= chunkSize.value {
          var r := Resample(ratecv, chunks[k], hwRate, targetRate, prevState);
          assert inputResampleState == r.1;
          assert delivered == Recorded(avail[..k], chunks[..k], state0).0 + (if hasInputCallback then [r.0] else []);
        }
        k := k + 1;
      }
      assert avail[..k] == avail && chunks[..k] == chunks;
    }

    /** The bytes `play_audio(chunk)` gets the device to accept in the
        current state. */
    ghost function Played(chunk: seq<byte>, writeOk: bool): (r: seq<byte>)
      reads this
    {
      if IsActive(outputStream) && writeOk
      then Upmix(Resample(ratecv, chunk, targetRate, hwRate, outputResampleState).0, outputChannels)
      else []
    }

    /** The output converter state after `play_audio(chunk)` in the current
        state: advanced only while the output stream is active. */
    ghost function ConverterAfterPlay(chunk: seq<byte>): Option<RateCvState>
      reads this
    {
      if IsActive(outputStream)
      then Resample(ratecv, chunk, targetRate, hwRate, outputResampleState).1
      else outputResampleState
    }

    /** `play_audio(chunk)`; `writeOk` says whether the device accepts the
        write. Nothing happens unless the output stream is active; a failed
        write is swallowed (the converter state has advanced all the
        same). */
    method PlayAudio(chunk: seq<byte>, writeOk: bool)
      modifies this`outputResampleState, this`written
      ensures !IsActive(outputStream) ==> written == old(written) && outputResampleState == old(outputResampleState)
      ensures IsActive(outputStream) ==>
        var (converted, next) := Resample(ratecv, chunk, targetRate, hwRate, old(outputResampleState));
        && outputResampleState == next
        && written == old(written) + (if writeOk then Upmix(converted, outputChannels) else [])
      ensures written == old(written) + old(Played(chunk, writeOk))
      ensures outputResampleState == old(ConverterAfterPlay(chunk))
    {
      if outputStream.Some? && outputStream.value.open && outputStream.value.active {
        var data := chunk;
        if hwRate != targetRate {
          var result := ratecv(chunk, targetRate, hwRate, outputResampleState);
          data := result.0;
          outputResampleState := Some(result.1);
        }
        if outputChannels == 2 {
          var stereo := ToStereo(data);
          if stereo.Some? {
            data := stereo.value;
          }
        }
        if writeOk {
          written := written + data;
        }
      }
    }

    /** `stop_playback`: flush the output by stopping and restarting it,
        then forget the converter state. `startOk` says whether the device
        restarts the stream; a closed stream cannot be restarted. Errors
        are swallowed. */
    method StopPlayback(startOk: bool)
      modifies this`outputStream, this`outputResampleState
      ensures old(outputStream) == None ==> outputStream == None && outputResampleState == old(outputResampleState)
      ensures old(outputStream).Some? && old(outputStream).value.open && startOk ==>
        outputStream == Some(Opened) && outputResampleState == None
      ensures old(outputStream).Some? && old(outputStream).value.open && !startOk ==>
        outputStream == Some(Stream(true, false)) && outputResampleState == old(outputResampleState)
      ensures old(outputStream).Some? && !old(outputStream).value.open ==>
        outputStream == old(outputStream) && outputResampleState == old(outputResampleState)
    {
      if outputStream.Some? && outputStream.value.open {
        outputStream := Some(Stream(true, false));
        if startOk {
          outputStream := Some(Opened);
          outputResampleState := None;
        }
      }
    }

    /** `terminate`: stop the streams and release the PyAudio instance. */
    method Terminate()
      modifies this`running, this`inputStream, this`outputStream, this`terminated
      ensures !running && terminated
      ensures inputStream == if old(inputStream).Some? then Some(Closed) else None
      ensures outputStream == if old(outputStream).Some? then Some(Closed) else None
    {
      StopStream();
      terminated := true;
    }
  }
}

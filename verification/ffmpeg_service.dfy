/**
 * The FFmpeg process table: one transcoding process per stream id.
 *
 * Launching and killing a process are fallible operations of the system;
 * whether they fail is a parameter (the error text, or None). The mutex only
 * serialises calls and is not modelled.
 */
module FfmpegService {
  import opened Common

  const HlsRoot := "/path/to/hls/"

  /** An exec.Cmd running "ffmpeg" with these arguments. */
  datatype Command = Command(args: seq<string>)

  datatype FfmpegError =
    | AlreadyRunning(streamId: string)
    | LaunchFailed(streamId: string, cause: string)
    | NotRunning(streamId: string)
    | KillFailed(streamId: string, cause: string)

  type Processes = map<string, Command>

  /** Where the HLS playlist of a stream is written. */
  function OutputPath(streamId: string): string
  {
    HlsRoot + streamId + "/index.m3u8"
  }

  /** The command StartStream builds: real-time input from inputURL, HLS output under the stream's directory. */
  function TranscodeCommand(streamId: string, inputURL: string): (c: Command)
    ensures |c.args| == 20 && c.args[1] == "-i" && c.args[2] == inputURL && c.args[19] == OutputPath(streamId)
  {
    Command(["-re", "-i", inputURL,
             "-c:v", "libx264", "-preset", "veryfast", "-b:v", "1500k",
             "-c:a", "aac", "-b:a", "128k",
             "-f", "hls", "-hls_time", "4", "-hls_playlist_type", "event",
             OutputPath(streamId)])
  }

  datatype Outcome = Outcome(err: Option<FfmpegError>, processes: Processes)

  /** StartStream: refuse a running id; record the process only if it launched. */
  function Start(processes: Processes, streamId: string, inputURL: string, launchFault: Option<string>): (o: Outcome)
    ensures streamId in processes ==> o == Outcome(Some(AlreadyRunning(streamId)), processes)
    ensures streamId !in processes && launchFault.Some? ==>
      o == Outcome(Some(LaunchFailed(streamId, launchFault.value)), processes)
    ensures o.err.None? <==> streamId !in processes && launchFault.None?
    ensures o.err.None? ==>
      o.processes.Keys == processes.Keys + {streamId}
      && o.processes[streamId] == TranscodeCommand(streamId, inputURL)
      && forall id :: id in processes ==> o.processes[id] == processes[id]
  {
    if streamId in processes then Outcome(Some(AlreadyRunning(streamId)), processes)
    else if launchFault.Some? then Outcome(Some(LaunchFailed(streamId, launchFault.value)), processes)
    else Outcome(None, processes[streamId := TranscodeCommand(streamId, inputURL)])
  }

  /** StopStream: refuse an unknown id; forget the process only if it was killed. */
  function Stop(processes: Processes, streamId: string, killFault: Option<string>): (o: Outcome)
    ensures streamId !in processes ==> o == Outcome(Some(NotRunning(streamId)), processes)
    ensures streamId in processes && killFault.Some? ==>
      o == Outcome(Some(KillFailed(streamId, killFault.value)), processes)
    ensures o.err.None? <==> streamId in processes && killFault.None?
    ensures o.err.None? ==>
      o.processes.Keys == processes.Keys - {streamId}
      && forall id :: id in o.processes ==> o.processes[id] == processes[id]
  {
    if streamId !in processes then Outcome(Some(NotRunning(streamId)), processes)
    else if killFault.Some? then Outcome(Some(KillFailed(streamId, killFault.value)), processes)
    else Outcome(None, processes - {streamId})
  }

  /** A successful start followed by a successful stop of the same id restores the table. */
  lemma StartThenStopRestores(processes: Processes, streamId: string, inputURL: string)
    requires Start(processes, streamId, inputURL, None).err.None?
    ensures Stop(Start(processes, streamId, inputURL, None).processes, streamId, None) == Outcome(None, processes)
  {
    var started := Start(processes, streamId, inputURL, None).processes;
    assert started - {streamId} == processes;
  }

  /** Starting twice without a stop fails the second time, whatever the launcher would do. */
  lemma SecondStartFails(processes: Processes, streamId: string, inputURL: string, inputURL': string, launchFault: Option<string>)
    requires Start(processes, streamId, inputURL, None).err.None?
    ensures Start(Start(processes, streamId, inputURL, None).processes, streamId, inputURL', launchFault).err
            == Some(AlreadyRunning(streamId))
  {
  }

  class FFmpegService {
    var processes: Processes

    constructor ()
      ensures processes == map[]
    {
      processes := map[];
    }

    method StartStream(streamId: string, inputURL: string, launchFault: Option<string>) returns (err: Option<FfmpegError>)
      modifies this
      ensures Outcome(err, processes) == Start(old(processes), streamId, inputURL, launchFault)
    {
      if streamId in processes {
        return Some(AlreadyRunning(streamId));
      }
      var cmd := TranscodeCommand(streamId, inputURL);
      if launchFault.Some? {
        return Some(LaunchFailed(streamId, launchFault.value));
      }
      processes := processes[streamId := cmd];
      err := None;
    }

    method StopStream(streamId: string, killFault: Option<string>) returns (err: Option<FfmpegError>)
      modifies this
      ensures Outcome(err, processes) == Stop(old(processes), streamId, killFault)
    {
      if streamId !in processes {
        return Some(NotRunning(streamId));
      }
      if killFault.Some? {
        return Some(KillFailed(streamId, killFault.value));
      }
      processes := processes - {streamId};
      err := None;
    }
  }
}

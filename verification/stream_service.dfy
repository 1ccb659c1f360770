/**
 * StreamService: the stream record, the profile lookup and the FFmpeg process
 * table, in the order StartStream and StopStream touch them.
 *
 * The streams table is a map from id to the record as the repository stores
 * it. The repository writes and reads only id, title, user_id, status,
 * created_at and updated_at; the other columns of a record read back are Go's
 * zero values. uuid.Parse and UUID.String, the profile repository, the fresh
 * id, the clock and every driver fault are parameters.
 */
module StreamService {
  import opened Common
  import FfmpegService

  const Live := "LIVE"
  const Offline := "OFFLINE"

  /** The text GetStreamByID returns when no row has the id. */
  const StreamNotFound := "stream not found"

  /** models.Stream */
  datatype StreamModel = StreamModel(
    id: Uuid, userId: string, title: string, description: string, thumbnail: string,
    status: string, startTime: Instant, endTime: Instant, createdAt: Instant, updatedAt: Instant)

  /** models.UserProfile, reduced to what StartStream reads. */
  datatype Profile = Profile(streamKey: string)

  datatype ServiceError =
    | CreateFailed
    | InvalidUserId
    | ProfileNotFound
    | LaunchFailed
    | InvalidStreamId
    | UpdateFailed
    | Repo(text: string)

  /** The collaborators whose answers do not depend on the service's state. */
  datatype Oracles = Oracles(
    parse: string -> Option<Uuid>,
    format: Uuid -> string,
    lookupProfile: Uuid -> Result<Profile, string>)

  type Streams = map<Uuid, StreamModel>

  datatype World = World(streams: Streams, processes: FfmpegService.Processes)

  /** The record as it reads back from the table: only the stored columns survive. */
  function Stored(s: StreamModel): (r: StreamModel)
    ensures r.id == s.id && r.userId == s.userId && r.title == s.title && r.status == s.status
    ensures r.createdAt == s.createdAt && r.updatedAt == s.updatedAt
    ensures r.description == "" && r.thumbnail == "" && r.startTime == ZeroTime && r.endTime == ZeroTime
  {
    StreamModel(s.id, s.userId, s.title, "", "", s.status, ZeroTime, ZeroTime, s.createdAt, s.updatedAt)
  }

  /** The stream StartStream builds before saving it. */
  function NewLiveStream(userID: string, title: string, description: string, newId: Uuid, now: Instant): StreamModel
  {
    StreamModel(newId, userID, title, description, "", Live, now, ZeroTime, now, now)
  }

  function InputURL(rtmpServerURL: string, profile: Profile): string
  {
    rtmpServerURL + "/" + profile.streamKey
  }

  datatype StartOutcome = StartOutcome(result: Result<StreamModel, ServiceError>, world: World)

  /**
   * StartStream: save the record, then parse userID, look up the profile and
   * launch FFmpeg for the stream's canonical id text. An insert fails on a
   * driver fault or an id already in the table.
   */
  function Start(w: World, rtmpServerURL: string, userID: string, title: string, description: string,
                 newId: Uuid, now: Instant, createFault: Option<string>, oracles: Oracles,
                 launchFault: Option<string>): (o: StartOutcome)
    // a failed insert is the end: nothing stored, nothing launched
    ensures createFault.Some? || newId in w.streams ==> o == StartOutcome(Failure(CreateFailed), w)
    // after a successful insert the record stays, whatever happens next
    ensures createFault.None? && newId !in w.streams ==>
      o.world.streams == w.streams[newId := Stored(NewLiveStream(userID, title, description, newId, now))]
    ensures o.result == Failure(InvalidUserId) ==> o.world.processes == w.processes
    ensures createFault.None? && newId !in w.streams && oracles.parse(userID).None? ==>
      o.result == Failure(InvalidUserId)
    ensures createFault.None? && newId !in w.streams && oracles.parse(userID).Some?
            && oracles.lookupProfile(oracles.parse(userID).value).Failure? ==>
      o.result == Failure(ProfileNotFound)
    ensures createFault.None? && newId !in w.streams && oracles.parse(userID).Some?
            && oracles.lookupProfile(oracles.parse(userID).value).Success?
            && FfmpegService.Start(w.processes, oracles.format(newId),
                 InputURL(rtmpServerURL, oracles.lookupProfile(oracles.parse(userID).value).value), launchFault).err.Some? ==>
      o.result == Failure(LaunchFailed)
    ensures o.result == Failure(ProfileNotFound) ==> o.world.processes == w.processes
    // the launch is the last step, and the stream is returned only if it succeeded
    ensures o.result.Success? <==>
      && createFault.None? && newId !in w.streams
      && oracles.parse(userID).Some? && oracles.lookupProfile(oracles.parse(userID).value).Success?
      && FfmpegService.Start(w.processes, oracles.format(newId),
           InputURL(rtmpServerURL, oracles.lookupProfile(oracles.parse(userID).value).value), launchFault).err.None?
    ensures o.result.Success? ==>
      && o.result.value == NewLiveStream(userID, title, description, newId, now)
      && o.world.processes == FfmpegService.Start(w.processes, oracles.format(newId),
           InputURL(rtmpServerURL, oracles.lookupProfile(oracles.parse(userID).value).value), launchFault).processes
    ensures o.result.Failure? ==> o.world.processes == w.processes
  {
    var stream := NewLiveStream(userID, title, description, newId, now);
    if createFault.Some? || newId in w.streams then StartOutcome(Failure(CreateFailed), w)
    else
      var streams := w.streams[newId := Stored(stream)];
      var uid := oracles.parse(userID);
      if uid.None? then StartOutcome(Failure(InvalidUserId), World(streams, w.processes))
      else
        var profile := oracles.lookupProfile(uid.value);
        if profile.Failure? then StartOutcome(Failure(ProfileNotFound), World(streams, w.processes))
        else
          var launched := FfmpegService.Start(w.processes, oracles.format(newId), InputURL(rtmpServerURL, profile.value), launchFault);
          if launched.err.Some? then StartOutcome(Failure(LaunchFailed), World(streams, launched.processes))
          else StartOutcome(Success(stream), World(streams, launched.processes))
  }

  /** GetStreamByID: a driver fault, then a missing row, then the stored record. */
  function Lookup(streams: Streams, id: Uuid, getFault: Option<string>): (r: Result<StreamModel, ServiceError>)
    ensures r.Success? <==> getFault.None? && id in streams
    ensures r.Success? ==> r.value == streams[id]
    ensures getFault.None? && id !in streams ==> r == Failure(Repo(StreamNotFound))
  {
    if getFault.Some? then Failure(Repo(getFault.value))
    else if id !in streams then Failure(Repo(StreamNotFound))
    else Success(streams[id])
  }

  /** UpdateStream: only title, status and updated_at are written. */
  function Updated(row: StreamModel, s: StreamModel): StreamModel
  {
    row.(title := s.title, status := s.status, updatedAt := s.updatedAt)
  }

  datatype StopOutcome = StopOutcome(err: Option<ServiceError>, world: World)

  /**
   * StopStream: parse, read the record, mark it OFFLINE and write it back,
   * then stop FFmpeg for the id text exactly as given; a stop failure is not
   * reported.
   */
  function Stop(w: World, streamID: string, now: Instant, oracles: Oracles, getFault: Option<string>,
                updateFault: Option<string>, killFault: Option<string>): (o: StopOutcome)
    // an unparsable id touches nothing
    ensures oracles.parse(streamID).None? ==> o == StopOutcome(Some(InvalidStreamId), w)
    ensures oracles.parse(streamID).Some? && Lookup(w.streams, oracles.parse(streamID).value, getFault).Failure? ==>
      o == StopOutcome(Some(Lookup(w.streams, oracles.parse(streamID).value, getFault).error), w)
    // a found record is stopped exactly when its write succeeds; a failed write is UpdateFailed
    ensures o.err.None? <==>
      oracles.parse(streamID).Some? && oracles.parse(streamID).value in w.streams && getFault.None? && updateFault.None?
    ensures oracles.parse(streamID).Some? && oracles.parse(streamID).value in w.streams && getFault.None?
            && updateFault.Some? ==>
      o == StopOutcome(Some(UpdateFailed), w)
    ensures o.err.None? || o.err == Some(UpdateFailed) ==> o.world.streams.Keys == w.streams.Keys
    ensures o.err == Some(UpdateFailed) ==> o.world == w
    // success: the stored record is OFFLINE as of now, everything else in it and in the table unchanged
    ensures o.err.None? ==>
      var id := oracles.parse(streamID).value;
      && id in w.streams && getFault.None? && updateFault.None?
      && o.world.streams == w.streams[id := w.streams[id].(status := Offline, updatedAt := now)]
      && o.world.processes == FfmpegService.Stop(w.processes, streamID, killFault).processes
  {
    var id := oracles.parse(streamID);
    if id.None? then StopOutcome(Some(InvalidStreamId), w)
    else
      var found := Lookup(w.streams, id.value, getFault);
      if found.Failure? then StopOutcome(Some(found.error), w)
      else
        var stream := found.value.(status := Offline, endTime := now, updatedAt := now);
        if updateFault.Some? then StopOutcome(Some(UpdateFailed), w)
        else
          var streams := w.streams[id.value := Updated(w.streams[id.value], stream)];
          var stopped := FfmpegService.Stop(w.processes, streamID, killFault);
          StopOutcome(None, World(streams, stopped.processes))
  }

  /** GetStream: parse, then whatever the repository answers. */
  function Get(streams: Streams, streamID: string, oracles: Oracles, getFault: Option<string>)
    : (r: Result<StreamModel, ServiceError>)
    ensures oracles.parse(streamID).None? ==> r == Failure(InvalidStreamId)
    ensures oracles.parse(streamID).Some? ==> r == Lookup(streams, oracles.parse(streamID).value, getFault)
  {
    var id := oracles.parse(streamID);
    if id.None? then Failure(InvalidStreamId) else Lookup(streams, id.value, getFault)
  }

  /** A bad userID fails after the LIVE record is already in the table, and launches nothing. */
  lemma InvalidUserIdLeavesRecord(w: World, rtmpServerURL: string, userID: string, title: string, description: string,
                                  newId: Uuid, now: Instant, oracles: Oracles, launchFault: Option<string>)
    requires newId !in w.streams && oracles.parse(userID).None?
    ensures var o := Start(w, rtmpServerURL, userID, title, description, newId, now, None, oracles, launchFault);
      && o.result == Failure(InvalidUserId)
      && newId in o.world.streams && o.world.streams[newId].status == Live
      && o.world.processes == w.processes
  {
  }

  /** A failed insert makes no profile lookup: the outcome is the same whatever the profile repository answers. */
  lemma CreateFailureIgnoresProfiles(w: World, rtmpServerURL: string, userID: string, title: string, description: string,
                                     newId: Uuid, now: Instant, createFault: Option<string>, oracles: Oracles,
                                     lookupProfile: Uuid -> Result<Profile, string>, launchFault: Option<string>,
                                     launchFault': Option<string>)
    requires createFault.Some? || newId in w.streams
    ensures Start(w, rtmpServerURL, userID, title, description, newId, now, createFault, oracles, launchFault)
         == Start(w, rtmpServerURL, userID, title, description, newId, now, createFault,
                  oracles.(lookupProfile := lookupProfile), launchFault')
  {
  }

  /** The launched command reads from rtmpServerURL/streamKey and writes under the stream's id text. */
  lemma LaunchedCommand(w: World, rtmpServerURL: string, userID: string, title: string, description: string,
                        newId: Uuid, now: Instant, oracles: Oracles, profile: Profile)
    requires newId !in w.streams && oracles.format(newId) !in w.processes
    requires oracles.parse(userID).Some? && oracles.lookupProfile(oracles.parse(userID).value) == Success(profile)
    ensures var o := Start(w, rtmpServerURL, userID, title, description, newId, now, None, oracles, None);
      && o.result.Success?
      && o.world.processes.Keys == w.processes.Keys + {oracles.format(newId)}
      && o.world.processes[oracles.format(newId)].args[2] == rtmpServerURL + "/" + profile.streamKey
      && o.world.processes[oracles.format(newId)].args[19] == FfmpegService.OutputPath(oracles.format(newId))
  {
  }

  /** A failure to stop FFmpeg is not reported: the stream is stopped in the table all the same. */
  lemma KillFailureIsIgnored(w: World, streamID: string, now: Instant, oracles: Oracles, killFault: string)
    requires oracles.parse(streamID).Some? && oracles.parse(streamID).value in w.streams
    ensures var o := Stop(w, streamID, now, oracles, None, None, Some(killFault));
      o.err.None? && o.world.streams[oracles.parse(streamID).value].status == Offline
      && o.world.processes == w.processes
  {
  }

  /**
   * The end time is set on the in-memory stream but UpdateStream does not write
   * it: the record read back after a stop still has the zero end time.
   */
  lemma EndTimeIsNotPersisted(w: World, rtmpServerURL: string, userID: string, title: string, description: string,
                              newId: Uuid, now: Instant, later: Instant, oracles: Oracles, streamID: string)
    requires newId !in w.streams && oracles.parse(streamID) == Some(newId)
    ensures var started := Start(w, rtmpServerURL, userID, title, description, newId, now, None, oracles, None).world;
      var stopped := Stop(started, streamID, later, oracles, None, None, None);
      && stopped.err.None?
      && Get(stopped.world.streams, streamID, oracles, None)
         == Success(Stored(NewLiveStream(userID, title, description, newId, now)).(status := Offline, updatedAt := later))
      && Get(stopped.world.streams, streamID, oracles, None).value.endTime == ZeroTime
  {
  }

  /** Start and stop with the canonical id text: the record ends OFFLINE and the process table is as before. */
  lemma StartThenStopRestoresProcesses(w: World, rtmpServerURL: string, userID: string, title: string, description: string,
                                       newId: Uuid, now: Instant, later: Instant, oracles: Oracles)
    requires Start(w, rtmpServerURL, userID, title, description, newId, now, None, oracles, None).result.Success?
    requires oracles.parse(oracles.format(newId)) == Some(newId)
    ensures var started := Start(w, rtmpServerURL, userID, title, description, newId, now, None, oracles, None).world;
      var stopped := Stop(started, oracles.format(newId), later, oracles, None, None, None);
      && stopped.err.None?
      && stopped.world.processes == w.processes
      && stopped.world.streams[newId].status == Offline
  {
    var profile := oracles.lookupProfile(oracles.parse(userID).value).value;
    FfmpegService.StartThenStopRestores(w.processes, oracles.format(newId), InputURL(rtmpServerURL, profile));
  }

  /**
   * StopStream stops FFmpeg under the id text it was given, while StartStream
   * launched it under the canonical text: another spelling of the same id
   * that uuid.Parse accepts stops the record but leaves the process running.
   */
  lemma NonCanonicalStopLeavesProcess(w: World, rtmpServerURL: string, userID: string, title: string, description: string,
                                      newId: Uuid, now: Instant, later: Instant, oracles: Oracles, streamID: string)
    requires Start(w, rtmpServerURL, userID, title, description, newId, now, None, oracles, None).result.Success?
    requires oracles.parse(streamID) == Some(newId) && streamID != oracles.format(newId)
    ensures var started := Start(w, rtmpServerURL, userID, title, description, newId, now, None, oracles, None).world;
      var stopped := Stop(started, streamID, later, oracles, None, None, None);
      && stopped.err.None?
      && stopped.world.streams[newId].status == Offline
      && oracles.format(newId) in stopped.world.processes
  {
  }

  class StreamService {
    /** The streams table. */
    var streams: Streams
    const ffmpeg: FfmpegService.FFmpegService
    const rtmpServerURL: string

    constructor (ffmpeg: FfmpegService.FFmpegService, rtmpServerURL: string)
      ensures this.ffmpeg == ffmpeg && this.rtmpServerURL == rtmpServerURL && streams == map[]
    {
      this.ffmpeg := ffmpeg;
      this.rtmpServerURL := rtmpServerURL;
      streams := map[];
    }

    function Snapshot(): World
      reads this, ffmpeg
    {
      World(streams, ffmpeg.processes)
    }

    method StartStream(userID: string, title: string, description: string, newId: Uuid, now: Instant,
                       createFault: Option<string>, oracles: Oracles, launchFault: Option<string>)
      returns (r: Result<StreamModel, ServiceError>)
      modifies this, ffmpeg
      ensures StartOutcome(r, Snapshot())
           == Start(old(Snapshot()), rtmpServerURL, userID, title, description, newId, now, createFault, oracles, launchFault)
    {
      var stream := StreamModel(newId, userID, title, description, "", Live, now, ZeroTime, now, now);
      if createFault.Some? || newId in streams {
        return Failure(CreateFailed);
      }
      streams := streams[newId := Stored(stream)];
      var uid := oracles.parse(userID);
      if uid.None? {
        return Failure(InvalidUserId);
      }
      var profile := oracles.lookupProfile(uid.value);
      if profile.Failure? {
        return Failure(ProfileNotFound);
      }
      var inputURL := rtmpServerURL + "/" + profile.value.streamKey;
      var err := ffmpeg.StartStream(oracles.format(stream.id), inputURL, launchFault);
      if err.Some? {
        return Failure(LaunchFailed);
      }
      r := Success(stream);
    }

    method StopStream(streamID: string, now: Instant, oracles: Oracles, getFault: Option<string>,
                      updateFault: Option<string>, killFault: Option<string>) returns (err: Option<ServiceError>)
      modifies this, ffmpeg
      ensures StopOutcome(err, Snapshot()) == Stop(old(Snapshot()), streamID, now, oracles, getFault, updateFault, killFault)
    {
      var id := oracles.parse(streamID);
      if id.None? {
        return Some(InvalidStreamId);
      }
      var found := Lookup(streams, id.value, getFault);
      if found.Failure? {
        return Some(found.error);
      }
      var stream := found.value;
      stream := stream.(status := Offline, endTime := now, updatedAt := now);
      if updateFault.Some? {
        return Some(UpdateFailed);
      }
      // the row read back under id carries that id, so WHERE id = stream.ID is that row
      streams := streams[id.value := Updated(streams[id.value], stream)];
      var stopErr := ffmpeg.StopStream(streamID, killFault);
      err := None;
    }

    method GetStream(streamID: string, oracles: Oracles, getFault: Option<string>)
      returns (r: Result<StreamModel, ServiceError>)
      ensures r == Get(streams, streamID, oracles, getFault)
    {
      var id := oracles.parse(streamID);
      if id.None? {
        return Failure(InvalidStreamId);
      }
      r := Lookup(streams, id.value, getFault);
    }
  }
}

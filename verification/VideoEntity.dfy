/** The video row and its lifecycle (backend/entity/video.go). */
module VideoEntity {
  import opened Common

  datatype ProcessingStatus = Uploading | Expired | Uploaded | Processing | Ready | ProcessingFailed

  datatype PublishStatus = Private | Published | Hidden

  // `valid` is the outcome of the metadata's own Validate method.
  datatype SourceMeta = SourceMeta(valid: bool, createdAt: Time)

  datatype OutputMeta = OutputMeta(videoKey: Key, thumbnailKey: Key, valid: bool, createdAt: Time) {
    predicate Validate() {
      valid && videoKey != 0 && thumbnailKey != 0 && videoKey != thumbnailKey
    }

    predicate Uses(key: Key) {
      key == videoKey || key == thumbnailKey
    }
  }

  /** A row of `videos`; the member functions say what each lifecycle method makes of it. */
  datatype Video = Video(
    userId: Id,
    originalKey: Key,
    uploadExpiresAt: Time,
    createdAt: Time,
    processing: ProcessingStatus,
    publish: PublishStatus,
    updatedAt: Time,
    deletedAt: Option<Time>)
  {
    predicate IsOwnedBy(user: Id) {
      user != 0 && userId == user
    }

    predicate IsDeleted() {
      deletedAt.Some?
    }

    predicate CanBeViewedPublicly() {
      !IsDeleted() && processing == Ready && publish == Published
    }

    // Alive in a given state and not yet shown to anybody.
    predicate Unpublished(status: ProcessingStatus) {
      !IsDeleted() && processing == status && publish == Private
    }

    function CompleteUpload(now: Time): Result<Video> {
      if now == 0 then Failure(InvalidInput)
      else if !Unpublished(Uploading) then Failure(VideoStateConflict)
      else if now >= uploadExpiresAt then Failure(UploadExpired)
      else Success(this.(processing := Uploaded, updatedAt := now))
    }

    function ExpireUpload(now: Time): Result<Video> {
      if now == 0 then Failure(InvalidInput)
      else if !Unpublished(Uploading) || now < uploadExpiresAt then Failure(VideoStateConflict)
      else Success(this.(processing := Expired, updatedAt := now))
    }

    function StartProcessing(now: Time): Result<Video> {
      if now == 0 then Failure(InvalidInput)
      else if !Unpublished(Uploaded) then Failure(VideoStateConflict)
      else Success(this.(processing := Processing, updatedAt := now))
    }

    function RecordSourceValidation(meta: SourceMeta, known: Option<SourceMeta>, now: Time): Result<Video> {
      if now == 0 then Failure(InvalidInput)
      else if !Unpublished(Processing) || known.Some? then Failure(VideoStateConflict)
      else if !meta.valid then Failure(VideoSourceInvalid)
      else Success(this.(updatedAt := now))
    }

    function CompleteProcessing(meta: OutputMeta, source: Option<SourceMeta>, output: Option<OutputMeta>,
                                ownerActive: bool, now: Time): Result<Video>
    {
      if now == 0 then Failure(InvalidInput)
      else if !Unpublished(Processing) || source.None? || output.Some? then Failure(VideoStateConflict)
      else if !meta.Validate() then Failure(VideoOutputInvalid)
      else Success(this.(processing := Ready, publish := if ownerActive then Published else Private, updatedAt := now))
    }

    function FailProcessing(now: Time): Result<Video> {
      if now == 0 then Failure(InvalidInput)
      else if !Unpublished(Processing) then Failure(VideoStateConflict)
      else Success(this.(processing := ProcessingFailed, publish := Private, updatedAt := now))
    }

    function SetPrivateByOwner(user: Id, now: Time): Result<Video> {
      if now == 0 then Failure(InvalidInput)
      else if !IsOwnedBy(user) then Failure(VideoForbidden)
      else if !CanBeViewedPublicly() then Failure(VideoStateConflict)
      else Success(this.(publish := Private, updatedAt := now))
    }

    function RepublishByOwner(user: Id, ownerActive: bool, now: Time): Result<Video> {
      if now == 0 then Failure(InvalidInput)
      else if !IsOwnedBy(user) then Failure(VideoForbidden)
      else if !Unpublished(Ready) then Failure(VideoStateConflict)
      else if !ownerActive then Failure(UserSuspended)
      else Success(this.(publish := Published, updatedAt := now))
    }

    function HideByAdmin(now: Time): Result<Video> {
      if now == 0 then Failure(InvalidInput)
      else if !CanBeViewedPublicly() then Failure(VideoStateConflict)
      else Success(this.(publish := Hidden, updatedAt := now))
    }

    function RestoreByAdmin(ownerActive: bool, now: Time): Result<Video> {
      if now == 0 then Failure(InvalidInput)
      else if IsDeleted() || processing != Ready || publish != Hidden then Failure(VideoStateConflict)
      else if !ownerActive then Failure(UserSuspended)
      else Success(this.(publish := Published, updatedAt := now))
    }

    function DeleteByOwner(user: Id, now: Time): Result<Video> {
      if now == 0 then Failure(InvalidInput)
      else if !IsOwnedBy(user) then Failure(VideoForbidden)
      else if IsDeleted() then Failure(VideoStateConflict)
      else Success(this.(deletedAt := Some(now), publish := Private, updatedAt := now))
    }
  }

  // How an in-place method relates to the function that specifies it: an error leaves the row alone.
  ghost predicate Follows(spec: Result<Video>, before: Video, after: Video, err: Option<Error>) {
    match spec
    case Success(v) => after == v && err == None
    case Failure(e) => after == before && err == Some(e)
  }

  /** The struct a transaction loads a row into, changes in place and saves. */
  class VideoRecord {
    const userId: Id
    const originalKey: Key
    const uploadExpiresAt: Time
    const createdAt: Time
    var processing: ProcessingStatus
    var publish: PublishStatus
    var updatedAt: Time
    var deletedAt: Option<Time>
    var sourceMeta: Option<SourceMeta>
    var outputMeta: Option<OutputMeta>

    constructor (row: Video)
      ensures Row() == row && sourceMeta == None && outputMeta == None
    {
      userId, originalKey := row.userId, row.originalKey;
      uploadExpiresAt, createdAt := row.uploadExpiresAt, row.createdAt;
      processing, publish := row.processing, row.publish;
      updatedAt, deletedAt := row.updatedAt, row.deletedAt;
      sourceMeta, outputMeta := None, None;
    }

    function Row(): Video
      reads this
    {
      Video(userId, originalKey, uploadExpiresAt, createdAt, processing, publish, updatedAt, deletedAt)
    }

    method CompleteUpload(now: Time) returns (err: Option<Error>)
      modifies this
      ensures Follows(old(Row()).CompleteUpload(now), old(Row()), Row(), err)
    {
      if now == 0 { return Some(InvalidInput); }
      if deletedAt.Some? { return Some(VideoStateConflict); }
      if processing != Uploading || publish != Private { return Some(VideoStateConflict); }
      if uploadExpiresAt <= now { return Some(Error.UploadExpired); }
      processing := Uploaded;
      updatedAt := now;
      err := None;
    }

    method ExpireUpload(now: Time) returns (err: Option<Error>)
      modifies this
      ensures Follows(old(Row()).ExpireUpload(now), old(Row()), Row(), err)
    {
      if now == 0 { return Some(InvalidInput); }
      if deletedAt.Some? || processing != Uploading || publish != Private { return Some(VideoStateConflict); }
      if now < uploadExpiresAt { return Some(VideoStateConflict); }
      processing := Expired;
      updatedAt := now;
      err := None;
    }

    method StartProcessing(now: Time) returns (err: Option<Error>)
      modifies this
      ensures Follows(old(Row()).StartProcessing(now), old(Row()), Row(), err)
    {
      if now == 0 { return Some(InvalidInput); }
      if deletedAt.Some? || processing != Uploaded || publish != Private { return Some(VideoStateConflict); }
      processing := Processing;
      updatedAt := now;
      err := None;
    }

    method RecordSourceValidation(meta: SourceMeta, now: Time) returns (err: Option<Error>)
      modifies this
      ensures Follows(old(Row()).RecordSourceValidation(meta, old(sourceMeta), now), old(Row()), Row(), err)
      ensures err == None ==> sourceMeta == Some(meta.(createdAt := now))
    {
      if now == 0 { return Some(InvalidInput); }
      if deletedAt.Some? || processing != Processing || publish != Private || sourceMeta.Some? {
        return Some(VideoStateConflict);
      }
      if !meta.valid { return Some(VideoSourceInvalid); }
      sourceMeta := Some(meta.(createdAt := now));
      updatedAt := now;
      err := None;
    }

    method CompleteProcessing(meta: OutputMeta, ownerActive: bool, now: Time) returns (err: Option<Error>)
      modifies this
      ensures Follows(old(Row()).CompleteProcessing(meta, old(sourceMeta), old(outputMeta), ownerActive, now),
                      old(Row()), Row(), err)
      ensures err == None ==> outputMeta == Some(meta.(createdAt := now))
    {
      if now == 0 { return Some(InvalidInput); }
      if deletedAt.Some? || processing != Processing || publish != Private || sourceMeta.None? || outputMeta.Some? {
        return Some(VideoStateConflict);
      }
      if !meta.Validate() { return Some(VideoOutputInvalid); }
      outputMeta := Some(meta.(createdAt := now));
      processing := Ready;
      if ownerActive {
        publish := Published;
      } else {
        publish := Private;
      }
      updatedAt := now;
      err := None;
    }

    method FailProcessing(now: Time) returns (err: Option<Error>)
      modifies this
      ensures Follows(old(Row()).FailProcessing(now), old(Row()), Row(), err)
    {
      if now == 0 { return Some(InvalidInput); }
      if deletedAt.Some? || processing != Processing || publish != Private { return Some(VideoStateConflict); }
      processing := ProcessingFailed;
      publish := Private;
      updatedAt := now;
      err := None;
    }

    method SetPrivateByOwner(user: Id, now: Time) returns (err: Option<Error>)
      modifies this
      ensures Follows(old(Row()).SetPrivateByOwner(user, now), old(Row()), Row(), err)
    {
      if now == 0 { return Some(InvalidInput); }
      if user == 0 || userId != user { return Some(VideoForbidden); }
      if deletedAt.Some? || processing != Ready || publish != Published { return Some(VideoStateConflict); }
      publish := Private;
      updatedAt := now;
      err := None;
    }

    method RepublishByOwner(user: Id, ownerActive: bool, now: Time) returns (err: Option<Error>)
      modifies this
      ensures Follows(old(Row()).RepublishByOwner(user, ownerActive, now), old(Row()), Row(), err)
    {
      if now == 0 { return Some(InvalidInput); }
      if user == 0 || userId != user { return Some(VideoForbidden); }
      if deletedAt.Some? || processing != Ready || publish != Private { return Some(VideoStateConflict); }
      if !ownerActive { return Some(Error.UserSuspended); }
      publish := Published;
      updatedAt := now;
      err := None;
    }

    method HideByAdmin(now: Time) returns (err: Option<Error>)
      modifies this
      ensures Follows(old(Row()).HideByAdmin(now), old(Row()), Row(), err)
    {
      if now == 0 { return Some(InvalidInput); }
      if deletedAt.Some? || processing != Ready || publish != Published { return Some(VideoStateConflict); }
      publish := Hidden;
      updatedAt := now;
      err := None;
    }

    method RestoreByAdmin(ownerActive: bool, now: Time) returns (err: Option<Error>)
      modifies this
      ensures Follows(old(Row()).RestoreByAdmin(ownerActive, now), old(Row()), Row(), err)
    {
      if now == 0 { return Some(InvalidInput); }
      if deletedAt.Some? || processing != Ready || publish != Hidden { return Some(VideoStateConflict); }
      if !ownerActive { return Some(Error.UserSuspended); }
      publish := Published;
      updatedAt := now;
      err := None;
    }

    method DeleteByOwner(user: Id, now: Time) returns (err: Option<Error>)
      modifies this
      ensures Follows(old(Row()).DeleteByOwner(user, now), old(Row()), Row(), err)
    {
      if now == 0 { return Some(InvalidInput); }
      if user == 0 || userId != user { return Some(VideoForbidden); }
      if deletedAt.Some? { return Some(VideoStateConflict); }
      deletedAt := Some(now);
      publish := Private;
      updatedAt := now;
      err := None;
    }
  }
}

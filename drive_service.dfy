/**
 * `DriveService`: the memoised Meet client, the four listings and `moveFile`.
 * The remote services are inputs: every remote call is scripted, attempt by attempt,
 * for the retry executor, and the parents Drive stores for each file are a field.
 */
module Drive {
  import opened Wrappers
  import opened Retry
  import opened Pagination
  import opened Parents

  /** A `files(id, name)` entry of `drive.files.list`. */
  datatype DriveFile = DriveFile(id: string, name: string)

  /** Items of the Meet listings; only their resource names matter here. */
  datatype ConferenceRecord = ConferenceRecord(name: string, startTime: Option<string>)
  datatype Recording = Recording(name: string)
  datatype Transcript = Transcript(name: string)

  /** The client `google.discoverAPI` produces for the Meet API. */
  datatype MeetClient = MeetClient(handle: nat)

  /** The fields of the `drive.files.update` request that `moveFile` issues. */
  datatype UpdateRequest = UpdateRequest(fileId: string, addParents: string, removeParents: Option<string>)

  /** What `files.get` throws for an id Drive does not know: a 404, which is not retried. */
  const FileNotFound := Failure(Some(404), None, "File not found")

  /** One attempt of `files.get({fileId, fields: 'parents'})`, given how its transport went. */
  function GetParentsAttempt(files: map<string, seq<string>>, fileId: string, transport: Outcome<()>)
    : (response: Outcome<Option<seq<string>>>)
    ensures response.Ok? <==> transport.Ok? && fileId in files
    ensures response.Ok? ==> response.value == Some(files[fileId])
  {
    if transport.Err? then Err(transport.failure)
    else if fileId in files then Ok(Some(files[fileId]))
    else Err(FileNotFound)
  }

  /** The script of `files.get` attempts, given the transport outcome of each. */
  function GetParentsScript(files: map<string, seq<string>>, fileId: string, transports: seq<Outcome<()>>)
    : (script: seq<Outcome<Option<seq<string>>>>)
    ensures |script| == |transports|
    ensures forall k :: 0 <= k < |script| ==> script[k] == GetParentsAttempt(files, fileId, transports[k])
  {
    seq(|transports|, k requires 0 <= k < |transports| => GetParentsAttempt(files, fileId, transports[k]))
  }

  class DriveService {
    /** The parents Drive stores for each file id, as reached through `this.drive`. */
    var files: map<string, seq<string>>
    /** The lazily discovered Meet client (`this.meet`); None while undefined. */
    var meet: Option<MeetClient>
    /** How many times `google.discoverAPI` has been called. */
    ghost var discoveries: nat

    ghost predicate Valid()
      reads this
    {
      forall f :: f in files ==> AllDriveIds(files[f])
    }

    constructor (stored: map<string, seq<string>>)
      requires forall f :: f in stored ==> AllDriveIds(stored[f])
      ensures Valid()
      ensures files == stored && meet == None && discoveries == 0
    {
      files := stored;
      meet := None;
      discoveries := 0;
    }

    /**
     * `getMeetClient`: discovery runs only while no client is stored; once one is
     * stored, every call returns it and nothing else happens. A failed discovery is
     * rethrown and leaves the field undefined.
     */
    method GetMeetClient(discovery: Outcome<MeetClient>) returns (r: Outcome<MeetClient>)
      requires Valid()
      modifies this`meet, this`discoveries
      ensures Valid()
      ensures old(meet).Some? ==> r == Ok(old(meet).value) && meet == old(meet) && discoveries == old(discoveries)
      ensures old(meet).None? ==> r == discovery && discoveries == old(discoveries) + 1
      ensures old(meet).None? ==> meet == (if discovery.Ok? then Some(discovery.value) else None)
    {
      if meet.None? {
        discoveries := discoveries + 1;
        if discovery.Err? {
          return Err(discovery.failure);
        }
        meet := Some(discovery.value);
      }
      r := Ok(meet.value);
    }

    /** `listFiles`: the Drive listing, page by page; `query` is passed through unread. */
    method ListFiles(query: string, scripts: seq<seq<Outcome<Page<DriveFile>>>>, jitters: seq<seq<nat>>)
      returns (r: Outcome<seq<DriveFile>>, requests: seq<Option<string>>)
      requires Scripted(scripts, jitters)
      requires Finishes(Settled(scripts))
      ensures r == Listing(Settled(scripts))
      ensures |requests| == LastRequest(Settled(scripts)) + 1
      ensures TokensLogged(requests, Settled(scripts))
    {
      r, requests := CollectPages(scripts, jitters);
    }

    /**
     * The shape of the three Meet listings: obtain the Meet client (rethrowing a
     * failed discovery before any page is requested), then list page by page.
     */
    method ListMeetResources<T>(discovery: Outcome<MeetClient>, scripts: seq<seq<Outcome<Page<T>>>>, jitters: seq<seq<nat>>)
      returns (r: Outcome<seq<T>>, requests: seq<Option<string>>)
      requires Valid()
      requires Scripted(scripts, jitters)
      requires Finishes(Settled(scripts))
      modifies this`meet, this`discoveries
      ensures Valid()
      ensures meet == (if old(meet).None? && discovery.Ok? then Some(discovery.value) else old(meet))
      ensures discoveries == old(discoveries) + (if old(meet).None? then 1 else 0)
      ensures if old(meet).None? && discovery.Err? then r == Err(discovery.failure) && requests == []
              else ListingReturned(scripts, r, requests)
    {
      var client := GetMeetClient(discovery);
      if client.Err? {
        return Err(client.failure), [];
      }
      r, requests := CollectPages(scripts, jitters);
    }

    /** `listConferenceRecords`: the conference records of one meeting code. */
    method ListConferenceRecords(meetingId: string, discovery: Outcome<MeetClient>,
                                 scripts: seq<seq<Outcome<Page<ConferenceRecord>>>>, jitters: seq<seq<nat>>)
      returns (r: Outcome<seq<ConferenceRecord>>, requests: seq<Option<string>>)
      requires Valid()
      requires Scripted(scripts, jitters)
      requires Finishes(Settled(scripts))
      modifies this`meet, this`discoveries
      ensures Valid()
      ensures meet == (if old(meet).None? && discovery.Ok? then Some(discovery.value) else old(meet))
      ensures discoveries == old(discoveries) + (if old(meet).None? then 1 else 0)
      ensures if old(meet).None? && discovery.Err? then r == Err(discovery.failure) && requests == []
              else ListingReturned(scripts, r, requests)
    {
      r, requests := ListMeetResources(discovery, scripts, jitters);
    }

    /** `listRecordings`: the recordings under one conference record. */
    method ListRecordings(conferenceRecordName: string, discovery: Outcome<MeetClient>,
                          scripts: seq<seq<Outcome<Page<Recording>>>>, jitters: seq<seq<nat>>)
      returns (r: Outcome<seq<Recording>>, requests: seq<Option<string>>)
      requires Valid()
      requires Scripted(scripts, jitters)
      requires Finishes(Settled(scripts))
      modifies this`meet, this`discoveries
      ensures Valid()
      ensures meet == (if old(meet).None? && discovery.Ok? then Some(discovery.value) else old(meet))
      ensures discoveries == old(discoveries) + (if old(meet).None? then 1 else 0)
      ensures if old(meet).None? && discovery.Err? then r == Err(discovery.failure) && requests == []
              else ListingReturned(scripts, r, requests)
    {
      r, requests := ListMeetResources(discovery, scripts, jitters);
    }

    /** `listTranscripts`: the transcripts under one conference record. */
    method ListTranscripts(conferenceRecordName: string, discovery: Outcome<MeetClient>,
                           scripts: seq<seq<Outcome<Page<Transcript>>>>, jitters: seq<seq<nat>>)
      returns (r: Outcome<seq<Transcript>>, requests: seq<Option<string>>)
      requires Valid()
      requires Scripted(scripts, jitters)
      requires Finishes(Settled(scripts))
      modifies this`meet, this`discoveries
      ensures Valid()
      ensures meet == (if old(meet).None? && discovery.Ok? then Some(discovery.value) else old(meet))
      ensures discoveries == old(discoveries) + (if old(meet).None? then 1 else 0)
      ensures if old(meet).None? && discovery.Err? then r == Err(discovery.failure) && requests == []
              else ListingReturned(scripts, r, requests)
    {
      r, requests := ListMeetResources(discovery, scripts, jitters);
    }

    /**
     * `moveFile`: read the file's parents, then send one update that adds the folder
     * and removes every previous parent. Either call may fail after its retries; the
     * failure is rethrown and Drive keeps the old parents. On success the file's only
     * parent is the folder and no other file changes.
     */
    method MoveFile(fileId: string, folderId: string,
                    getTransports: seq<Outcome<()>>, getJitters: seq<nat>,
                    updateTransports: seq<Outcome<()>>, updateJitters: seq<nat>)
      returns (r: Outcome<()>, sent: Option<UpdateRequest>)
      requires Valid() && IsDriveId(folderId)
      requires |getTransports| >= MaxAttempts && ValidJitters(getJitters)
      requires |updateTransports| >= MaxAttempts && ValidJitters(updateJitters)
      modifies this`files
      ensures Valid()
      ensures var got := RetryOutcome(GetParentsScript(old(files), fileId, getTransports));
              got.Err? ==> r == Err(got.failure) && sent == None && files == old(files)
      ensures var got := RetryOutcome(GetParentsScript(old(files), fileId, getTransports));
              var put := RetryOutcome(updateTransports);
              got.Ok? ==>
                fileId in old(files) &&
                sent == Some(UpdateRequest(fileId, folderId, PreviousParents(Some(old(files)[fileId])))) &&
                (put.Err? ==> r == Err(put.failure) && files == old(files)) &&
                (put.Ok? ==> r == Ok(()) && files == old(files)[fileId := [folderId]])
    {
      var script := GetParentsScript(files, fileId, getTransports);
      var got, _, _ := ExecuteWithRetry(script, getJitters);
      if got.Err? {
        return Err(got.failure), None;
      }
      var previousParents := PreviousParents(got.value);
      sent := Some(UpdateRequest(fileId, folderId, previousParents));
      var put, _, _ := ExecuteWithRetry(updateTransports, updateJitters);
      if put.Err? {
        return Err(put.failure), sent;
      }
      MoveLeavesOnlyDestination(files[fileId], folderId);
      files := files[fileId := Updated(files[fileId], folderId, previousParents)];
      r := Ok(());
    }
  }
}

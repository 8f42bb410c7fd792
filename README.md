# Drive/Meet service core: retry, pagination, reparenting, memoised client

This project models the core of `DriveService` (`src/drive.ts`) of a tool that lists
a recurring meeting's files and moves them into a Google Drive folder. It covers
four parts:

- **Retry executor** (`Retry`, `retry.dfy`). `executeWithRetry` invokes a remote
  operation up to 5 times. It retries a failure only when the HTTP status is one of
  429, 500, 502, 503, 504 or the network code is one of ETIMEDOUT, ECONNRESET,
  ENOTFOUND, EAI_AGAIN. Between attempts it sleeps 500 ms (doubling, capped at
  8000 ms) plus a jitter of 0 to 99 ms, and it rethrows the last error unchanged.
  The operation is a script of outcomes, one per possible invocation. The jitters
  are inputs. The sleeps are recorded, not performed.
- **Pagination** (`Pagination`, `pagination.dfy`). This is the `do … while (pageToken)`
  loop that `listFiles`, `listConferenceRecords`, `listRecordings` and
  `listTranscripts` each contain a copy of. Here it is one generic loop,
  `CollectPages`. Every page request goes through the retry executor. The result is
  proved equal to `Listing`: the items of every page, in page order and then in
  order within each page. The loop stops after the first response whose
  `nextPageToken` is falsy. If a page fails, the listing rethrows that failure.
  The request log is proved to start with no token, followed by each page's token.
- **Reparenting** (`Parents`, `parents.dfy`). `moveFile` joins the current parents
  with `,` into `removeParents`, or leaves it undefined when there are none. It
  then sends an update that adds the destination folder. With Drive's reading of
  the comma-separated list, the file is left with exactly the destination as its
  parent, and a second move changes nothing.
- **The service object** (`Drive.DriveService`, `drive_service.dfy`). A class holds
  the memoised Meet client (`meet`) and the parents Drive stores for each file
  (`files`). `GetMeetClient` runs discovery only while no client is stored. The
  three Meet listings obtain the client first. `MoveFile` reads the parents and
  then updates them, with a retry script for each of the two calls.

## Model

| member | source | states |
|---|---|---|
| Retry.IsRetryable | src/drive.ts:87-89 | a failure is retried exactly when its status is one of 429, 500, 502, 503, 504 or its code is a non-empty string among ETIMEDOUT, ECONNRESET, ENOTFOUND, EAI_AGAIN; a failure with neither a status nor a code is never retried |
| Retry.Attempts | src/drive.ts:77-92 | the operation is invoked 1 to 5 times: up to and including the first attempt that succeeds or fails with a non-retryable error, and never more than 5 |
| Retry.ExecuteWithRetry | src/drive.ts:76-98 | the loop makes exactly `Attempts` invocations and returns or rethrows the last outcome unchanged; the k-th recorded sleep is the closed-form base delay of sleep k plus the k-th jitter |
| Retry.BaseDelayDoubles | src/drive.ts:93-95 | doubling the delay and capping it at 8000, as the loop does, gives the closed form min(500·2^k, 8000) for the next sleep |
| Retry.PermanentFailureNotRetried | src/drive.ts:87-91 | a first failure that is not retryable causes exactly one invocation and is rethrown as the identical error value |
| Retry.SuccessReturnedAfterRetries | src/drive.ts:82-85 | a value that follows n < 5 retryable failures is returned unchanged after exactly n + 1 invocations |
| Retry.ExhaustedAttemptsRethrowLast | src/drive.ts:77-92 | five retryable failures give five invocations, and the fifth error is the one thrown |
| Retry.SleepSchedule | src/drive.ts:79-95 | at most 4 sleeps; each lies between its base delay and its base delay plus 99; the base delays are 500, 1000, 2000 and 4000 ms, so no sleep exceeds 4099 ms |
| Retry.DelayCapped | src/drive.ts:95 | `delayMs` never exceeds 8000, and it equals 8000 from the fourth doubling on |
| Retry.UnavailableTwiceThenSuccess | src/drive.ts:16-95 | two status-503 failures followed by a value: the value is returned after exactly three invocations |
| Pagination.LastRequest | src/drive.ts:104-117 | the last page requested is the first response that fails or has a falsy `nextPageToken`; every earlier response has a truthy one |
| Pagination.CollectPages | src/drive.ts:100-120 | the loop returns `Listing` of the retried responses: the first failure rethrown, or the concatenation of the item lists of every requested page; it makes exactly last + 1 requests, the first without a token and each later one with the previous response's truthy `nextPageToken` |
| Pagination.FlattenAppend | src/drive.ts:115 | appending page by page is the concatenation of the items of consecutive runs of pages |
| Pagination.FlattenLength | src/drive.ts:115 | the result is exactly as long as the sum of the page sizes, so nothing is dropped or deduplicated |
| Pagination.FlattenMembership | src/drive.ts:115 | an item is in the result exactly when some page carries it |
| Pagination.ItemlessPageContributesNothing | src/drive.ts:115 | a page without an items field contributes nothing, wherever it stands |
| Pagination.ThreePagesListing | src/drive.ts:104-117 | pages of 1000, 1000 and 42 items, the last without a token, list the 2042 items in order |
| Parents.PreviousParents | src/drive.ts:132 | `removeParents` is undefined exactly when the `parents` field is missing or empty |
| Parents.JoinSplitRoundTrip | src/drive.ts:132 | reading the comma-joined Drive ids back as a comma-separated list yields the same ids |
| Parents.PreviousParentsReadBack | src/drive.ts:132-139 | for a file with parents, `removeParents` names exactly the parents that were read |
| Parents.MoveLeavesOnlyDestination | src/drive.ts:132-141 | after the update the file's parents are exactly `[folderId]`, whatever they were before, including none |
| Parents.MoveIdempotent | src/drive.ts:122-144 | moving an already moved file to the same folder leaves its parents as they are |
| Drive.GetParentsAttempt | src/drive.ts:123-130 | a `files.get` attempt succeeds exactly when its transport does and Drive knows the file, and then it reads the stored parents |
| Drive.DriveService.constructor | src/drive.ts:24-28 | a new service holds no Meet client and has run no discovery |
| Drive.DriveService.GetMeetClient | src/drive.ts:68-73 | once a client is stored, every call returns it without discovering again; before that, a call runs discovery once and stores its result, or rethrows its failure and stores nothing |
| Drive.DriveService.ListFiles | src/drive.ts:100-120 | `listFiles` returns the listing of its retried page responses, with the request log of `CollectPages` |
| Drive.DriveService.ListConferenceRecords | src/drive.ts:146-166 | a failed first discovery is rethrown before any page is requested; otherwise the stored or discovered client is kept and the conference records are the listing of the pages |
| Drive.DriveService.ListRecordings | src/drive.ts:169-189 | as for conference records, for the recordings of one conference record |
| Drive.DriveService.ListTranscripts | src/drive.ts:192-212 | as for conference records, for the transcripts of one conference record |
| Drive.DriveService.MoveFile | src/drive.ts:122-144 | a failed `files.get` is rethrown and no update is sent; otherwise the update adds `folderId` and removes the joined previous parents; a failed update is rethrown with Drive unchanged; a successful one leaves the file with `[folderId]` as its only parent and no other file changed |

## Left out

- `getAuthenticatedClient` and `getAccessToken` (src/drive.ts:30-65) are not modelled. They read and write credential files, run the OAuth exchange and log to the console.
- src/auth-server.ts (an HTTP callback listener) and src/index.ts (argument parsing, console output, a loop over `listFiles`/`moveFile`) are not part of this model.
- The googleapis calls are not modelled. Each `files.list`, `files.get`, `files.update`, Meet listing and `discoverAPI` call becomes a scripted input, one outcome per attempt.
- `setTimeout` is not performed. Each sleep is recorded in a log instead.
- `Math.random()` is not modelled. The jitter is an arbitrary input in [0, 99].
- The request fields `fields`, `pageSize`, `q`, `parent`, and the `meeting_code` filter string are not modelled. The scripted responses do not depend on them, so `query`, `meetingId` and `conferenceRecordName` are not read.
- Pagination.CollectPages requires that the remote ends the listing or fails within the scripted pages. A remote that returns a truthy token forever makes the source loop forever; that case is not modelled.
- Drive.DriveService.MoveFile assumes that a failed update leaves Drive's parents unchanged. An update that the remote applies but then reports as failed (a 503 after the write, say) is not modelled.
- Drive.DriveService.MoveFile models Drive's update as: remove the `removeParents` ids, then add `addParents`. The idempotence of a repeated move relies on this order. `addParents` is taken as one id: `folderId` is required to be a Drive id (non-empty, no comma), and stored parents are Drive ids.
- Drive.DriveService.GetMeetClient is proved for calls that follow one another. Two overlapping calls could both see `this.meet` undefined and both run discovery. No caller in src/index.ts issues overlapping calls (it awaits each `moveFile` in turn and never calls the Meet listings).
- Status and code are modelled as an optional integer and an optional string. A non-numeric `status` or a non-string `code` is not represented.
- Listed items are untyped (`any`) in the source. The model gives them small records holding only the fields the listings name.
- A `nextPageToken` of `""` ends the listing just as an absent one does, because the `do … while (pageToken)` loop (src/drive.ts:117) tests the token's truthiness.
- Date-range filtering, recording/transcript file-id resolution and copying files do not appear in `src/drive.ts`. They are not modelled.

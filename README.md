# s3rpc in Dafny

A model of the request–response protocol of the Go package `s3rpc`. A **client** call uploads a
request file to an object store under the key `to_server/<op>/<id>_<base(filename)>`, where `id`
is a fresh call id. A **server** listens on a queue of object-store notifications. For each
notification it takes the operation from the key's second `/`-segment. When it has a handler for
that operation it deletes the message, downloads the object into a scratch file and runs the
handler. It then uploads the handler's output under `to_client/<op>/<base(request key)>`. The
client listens on its own queue. It releases every notification whose key does not contain its
id, and deletes and downloads the first one that does. That object's file and metadata become the
call's `Output`.

The services are abstract state, held in `Aws.World`:

- the queues (messages with a lease);
- the object store (bytes and metadata by bucket and key);
- the local directories and files;
- a counter for fresh temporary names;
- the set of calls that fail.

Every service call is a function from a world to a result and the world after it. The library's
objects are classes whose methods change that world in place (`Aws.Cloud.world`) and record the
steps they take in a ghost `trace`. Each method is proved equal to a specification function over
the world: the error it returns, the world it leaves and the steps it appends. The lemmas are
about those functions:

- what the decoding of a batch keeps and rejects;
- how the keys fit together;
- which messages are released and which are deleted;
- the order of delete, download, handler call and upload;
- what ends each loop;
- what a call hands back.

Files:

- `types.dfy`: the shared values and the error texts.
- `paths.dfy`: Go's `path.Base`, `strings.Split` on "/" and `strings.Contains`.
- `aws.dfy`: the services.
- `common.dfy`:
  - the constants (`toServer`, `toClient`, `defaultRegion`, the 7-second lease, the batch cap of
    5, and the 20-second wait, which is kept only as the source's constant because time is not
    modelled);
  - option validation;
  - `Receive` and its decoding loop;
  - the step trace;
  - the `common` helpers.
- `keys.dfy`: the key scheme.
- `server.dfy`: `NewServer`, `Close`, `ListenAndServe` and its batch loop.
- `client.dfy`: `NewClient`, `Close`, `ExecuteFilename` and its wait loop.
- `roundtrip.dfy`: a server's answer reaching the calling client.

In these places the code's behaviour is easy to misread, and the model follows the code:

- At a deadline that arrives at the top of the client's loop, `ExecuteFilename` returns the zero
  `Output` with a nil error, not a timeout error (client.go:89-91, 144-148).
- The client matches its id against the whole key, not only its base name (client.go:103).
- Filenames with a `/` are not rejected. The request key uses the base name of the file
  (client.go:73).
- The bucket is not checked when options are validated (server.go:201-219, client.go:171-189).
- The client's scratch file is not removed when its download fails. It stays in the scratch
  directory until `Close` (client.go:116-127).

## Model

| member | source | states |
|---|---|---|
| Paths.Base | server.go:135 | path.Base is never empty, is "/" or free of '/', and is "." for the empty path |
| Paths.BaseOfJoin | server.go:135 | the base of "p/b" with b non-empty and slash-free is b |
| Paths.BaseIdempotent | server.go:158 | taking the base of a base changes nothing |
| Paths.Split | server.go:120 | strings.Split on "/" gives at least one piece, no piece holds '/', and there are at least two pieces exactly when the string holds '/' |
| Paths.JoinSplit | server.go:120 | joining the pieces of a split with "/" gives back the string |
| Paths.SplitAfterHead | server.go:120 | splitting "a/b" with a slash-free a gives a followed by the split of b |
| Paths.ContainsIffOccurs | client.go:103 | strings.Contains holds exactly when the substring occurs at some index |
| Paths.ContainsMiddle | client.go:103 | a string contains every piece it is built around |
| Aws.LeaseExact | common.go:52-60 | in the model a receive hands out exactly the first `max` visible messages, in queue order, and hides exactly those for the lease; every other message keeps its place, body, handle and lease (see Left out) |
| Aws.LeaseHidesWhatItHandsOut | common.go:52-60 | a receive hands out at most `max` messages, each a visible one now hidden for the lease; a visible message after the first `max` keeps its lease, and the others are unchanged; a visible message is left out only when `max` were handed out (see Left out) |
| Aws.ReceiveMessageLeases | common.go:52-64 | ReceiveMessage fails only by fault; otherwise it returns the first `max` visible messages of the queue in order, hides exactly those for the lease, leaves every other message of the queue as it was, and changes nothing but that queue |
| Aws.WithoutDropsHandle | common.go:87-98 | the queue after a delete keeps exactly the messages with another receipt handle |
| Aws.DeleteMessageRemoves | common.go:87-98 | deleteMessage fails only by fault; otherwise the message with that receipt handle, and only it, is gone and nothing but the queue changes |
| Aws.ChangeMessageVisibilityResets | common.go:130-141 | releaseMessage keeps every message in its place and body, sets the lease of the handle's message to the given value, and changes nothing but the queue |
| Aws.GetObject | common.go:109-128 | a download succeeds exactly when the object exists and the call does not fail; the file then holds the object's bytes and the result is its metadata unchanged |
| Aws.PutObject | common.go:157-162 | a stored object holds exactly the given bytes and metadata under the given key |
| Aws.DeleteObject | common.go:100-107 | deleteObject leaves no object under the key |
| Aws.Open | common.go:144-147 | opening a file gives its bytes, or an error when it is missing |
| Aws.CreateTemp | server.go:138-141 | os.CreateTemp gives a new, empty file in the directory, not one already there, named by putting the nonce's digits in place of the pattern's last '*'; it fails when the pattern holds '/' or the directory is gone (and on a name clash, see Left out) |
| Aws.TempBaseAtLastStar | client.go:117 | the random part of a temporary name replaces the pattern's last '*', so "*_a*b.txt" gives "*_a", the digits, then "b.txt" |
| Aws.TempNameWithin | client.go:117 | a scratch file lies inside its scratch directory, whatever the pattern |
| Aws.Remove | server.go:143 | the removed file is gone and nothing else changes |
| Aws.RemoveAll | server.go:89 | os.RemoveAll removes the directory and everything under it; the queues, objects, surviving files, nonce and faults are unchanged |
| Aws.MkdirTemp | server.go:40-43 | os.MkdirTemp gives a new directory, not one already there, named under the temporary root by the pattern followed by the nonce's digits, or an error (a name clash fails, see Left out) |
| Common.WithDefaultRegion | server.go:202-204 | an empty region becomes "eu-north-1" and a non-empty one is kept; nothing else changes |
| Common.Missing | server.go:206-216 | validation rejects a missing access key id, then a missing secret, then a missing queue, in that order, and accepts exactly when all three are present |
| Common.SelectedFromSingleRecords | common.go:66-84 | the decoded batch has no more messages than bodies, and each message is the bucket, key and receipt handle of a single-record body |
| Common.FirstUnusable | common.go:67-78 | the first body that fails to decode or has several records, with every body before it accepted |
| Common.DecodeBatch | common.go:66-84 | the decoding loop succeeds exactly when every body decodes with at most one record, returns the selected messages in batch order, and otherwise fails with the first rejected body's error |
| Common.SelectedConcat | common.go:66-84 | decoding keeps batch order: the messages of a + b are those of a followed by those of b |
| Common.SelectedSkipsEmpty | common.go:73-75 | a body with no records yields no message |
| Common.WellFormedSkipsEmpty | common.go:73-75 | a body with no records does not decide whether the batch fails |
| Common.EmptyBodySkipped | common.go:73-75 | the batch decodes as if a body with no records were absent |
| Common.RejectedBodyFailsBatch | common.go:69-78 | a body that does not decode, or has several records, fails the whole batch with no messages, whatever came before it; after accepted bodies the error is that body's ("expected only one record, got n") |
| Common.ReceivingBounded | common.go:51-85 | Receive returns at most 5 messages and changes nothing but its queue |
| Common.Uploading | common.go:143-168 | upload succeeds exactly when the file opens and the store accepts it; it then stores the file's bytes with the given metadata under the key; a missing file is reported as is and a store failure as "upload: ..."; a failure changes nothing |
| Common.Common.Receive | common.go:51-85 | the receive and decoding loop, with result and world as Receiving gives them |
| Common.Common.DeleteMessage | common.go:87-98 | deleteMessage's error and world are those of the queue's delete |
| Common.Common.DeleteObject | common.go:100-107 | deleteObject's error and world are those of the store's delete |
| Common.Common.GetObject | common.go:109-128 | getObject's metadata and world are those of the download into the file |
| Common.Common.ReleaseMessage | common.go:130-141 | releaseMessage sets the message's lease to 0 |
| Common.Common.Upload | common.go:143-168 | upload's error and world are those of Uploading |
| Keys.OperationOf | server.go:120 | the operation is the key's second '/'-segment; it exists exactly when the key holds '/' and is itself free of '/' |
| Keys.DirectionsHaveNoSlash | common.go:20-21 | "to_server" and "to_client" hold no '/' |
| Keys.OperationOfKey | server.go:120 | the server reads op back from "dir/op/base" whenever dir and op are free of '/' |
| Keys.OperationOfRequestKey | client.go:73 | the server finds in a client's request key the operation the client put there |
| Keys.BaseOfIdKey | client.go:73 | the base of a key ending in "<id>_<b>" is "<id>_<b>", or "<id>_" when b is "/" |
| Keys.RequestKeyBase | client.go:73 | the base of a request key is the call id, "_" and the file's base |
| Keys.KeyBase | server.go:158 | a key keeps the slash-free base it was built with |
| Keys.ResponseKeyBase | server.go:158 | the response key's base is the base it was given |
| Keys.KeyContains | client.go:103 | a key contains the start of its last segment |
| Keys.IdKeyMatches | client.go:103 | a request key contains its call id |
| Keys.ReplyToIdKey | server.go:135-158 | a reply to a key built around an id keeps that key's base and contains the id |
| Keys.ResponseFindsCaller | server.go:158 | for slash-free op and id: the server reads op from the request key, the response key has the request key's base, and both keys contain the id, so the caller accepts the response |
| Keys.SlashlessKeyPanics | server.go:120 | a key without '/' has a one-piece split, so element 1 does not exist; OperationOf reports none there and agrees with element 1 wherever it exists |
| Server.Handling | server.go:114-116 | a message from another bucket ends the loop with an error naming both buckets, and changes nothing |
| Server.InitOptions | server.go:201-219 | ServerOptions.init fills in the default region and returns the validation error |
| Server.Server.Process | server.go:137-166 | the closure for a message with a handler, with result, world and steps as Processing gives them |
| Server.Server.Work | server.go:145-165 | the download, handler and upload, as Working gives them |
| Server.Server.Invoke | server.go:150-164 | the handler call and the upload of its output, as Invoking gives them |
| Server.Server.ServeMessage | server.go:114-170 | one message of the batch, as Handling gives it |
| Server.Server.Take | server.go:129-170 | a message with a handler is deleted and then processed, as Taking gives it |
| Server.Server.ServeBatch | server.go:113-171 | the batch loop, as Dispatching gives it |
| Server.Server.Poll | server.go:107-171 | one round: one receive, then its batch, as Polling gives it |
| Server.Server.ListenAndServe | server.go:96-180 | the serve loop, as Serving gives it: the quit flag and the deadline are checked at the top of each round, and the first error ends it |
| Server.Server.Close | server.go:85-92 | the first Close sets quit and removes the scratch directory; later calls return nil and change nothing |
| Server.NewServer | server.go:20-59 | validation errors come first; a zero poll interval becomes 10 seconds; the server starts unclosed, with the handlers, bucket, queue and a new scratch directory |
| Server.ProcessingOrder | server.go:137-166 | the work for a message is a download, then the handler of its operation, then the upload under the response key, cut short by a failure |
| Server.WorkingOrder | server.go:145-165 | once the scratch file exists: download, then handler, then upload |
| Server.DeletedThenProcessed | server.go:131-150 | a taken message is deleted before its object is downloaded and before its handler runs |
| Server.HandlingSteps | server.go:114-170 | one message is either released (only when no handler exists) or deleted (only when one does), and every handler call follows its delete and download |
| Server.DispatchingSteps | server.go:113-171 | over a batch: releases only of messages without a handler, deletes only of messages with one, no receive, and every handler call right after its message's delete and download |
| Server.ErrorEndsBatch | server.go:160-170 | a batch that fails did so at one message: all before it ran without error, and none after it is touched |
| Server.ServingReceives | server.go:99-111 | the serve loop receives at most once per round; a closed server receives nothing; without error it receives exactly once per round |
| Server.PollingReceivesOnce | server.go:107-111 | a round receives exactly once |
| Server.InvokingResult | server.go:150-164 | the scratch file is removed however the handler ends; a handler error comes back as "handle: ..." with nothing uploaded; otherwise the output file and metadata are stored under the response key |
| Server.WorkingResult | server.go:137-166 | without error the handler answered the downloaded request; with an error the store is unchanged; the scratch file is gone either way |
| Server.ProcessingCleansUp | server.go:142-143 | the new scratch file is gone after processing, the queues are untouched, and a failure leaves the store unchanged |
| Server.ProcessingUploads | server.go:145-164 | processing without error means the request object existed, the handler accepted its bytes and metadata, and its output file and metadata now sit under the response key |
| Server.TakenMessageGone | server.go:131-133 | unless the delete fails (which ends the loop and changes nothing), a taken message is gone from the queue for good, whatever its processing does |
| Server.PassedMessageReleased | server.go:120-127 | a message without a handler is released: it stays in the queue with its body, visible again at once, and the store and the files are unchanged |
| Client.FetchingDelivers | client.go:116-137 | a fetch ends the wait; it fails exactly when the scratch file cannot be created or the download fails, with that error, so the errors of the two object deletes are ignored; without error the Output names a new scratch file holding the object's bytes and carries its metadata, and both objects are deleted unless those deletes fail; with an error the store is unchanged |
| Client.FetchingSteps | client.go:116-137 | a fetch only downloads and deletes objects |
| Client.ClaimingSteps | client.go:110-138 | the response's message is deleted first, exactly once, then only objects are downloaded and deleted |
| Client.ExaminingSteps | client.go:98-138 | a message is released only when its key lacks the id, deleted only when it has it; the wait goes on only after a release without error |
| Client.ExaminingDecides | client.go:98-115 | a message of another bucket fails the call with BucketMismatch and changes nothing; one of this bucket without the id is released, staying at its place with its body and visible at once, and the wait goes on exactly when the release succeeds; one with the id ends the wait and is deleted first, and unless the delete fails no message with its handle is left while every other one stays |
| Client.ScanningSteps | client.go:98-139 | over a batch: releases only of keys without the id, deletes only of keys with it, at most one delete, none when the wait goes on |
| Client.ScanningStopsAtMatch | client.go:110-138 | after the first message with the id is deleted, no later message of the batch is released or deleted |
| Client.ScanningFirstMatch | client.go:98-115 | the message a batch deletes holds the id and is the first that does: it is deleted at its own position, and every message before it was of this bucket, lacked the id and was released, in order |
| Client.ScanningPasses | client.go:98-108 | the wait goes on after a batch only when every message of it was of this bucket, lacked the id and was released, in order, and the store is unchanged |
| Client.ScanningDelivers | client.go:98-139 | a batch that ends the wait without error has fetched an object whose key contains the id |
| Client.ScanningClaims | client.go:98-139 | a batch that ends the wait without error deleted exactly one message and hands out a named file, not the zero Output |
| Client.ListeningSteps | client.go:93-139 | a round receives once, deletes at most one message, and none when the wait goes on |
| Client.ListeningDelivers | client.go:93-139 | a round that ends the wait without error has fetched an object whose key contains the id |
| Client.ListeningClaims | client.go:93-139 | a round that ends the wait without error deleted exactly one message and hands out a named file |
| Client.ListeningDecides | client.go:93-139 | a round receives, releases only messages of this bucket without the id, deletes only one with it, and after that delete only fetches |
| Client.WaitingSteps | client.go:87-142 | the wait receives at most once per round and deletes at most one message; without error, the zero Output comes only at the deadline, after a receive in every round and no delete, and any other Output follows exactly one delete and is a copy of an object whose key contains the id |
| Client.WaitingDecides | client.go:87-142 | over every round of the wait, releases are only of messages of this bucket without the id, deletes only of one with it, and after the delete the wait only fetches |
| Client.ExecutionUploadsFirst | client.go:72-78 | a call starts with the upload of its request; a failed upload ends it with "apply: ..." before any receive; every error is "apply: ..." with the zero Output; a passed deadline gives the zero Output and no error |
| Client.ExecutionDelivers | client.go:71-150 | a call deletes at most one message and receives at most once per round; without error, the zero Output means the deadline (a receive in every round, no delete), and any other Output follows exactly one delete and is a copy of an object whose key contains the call's id |
| Client.ExecutionDecides | client.go:71-142 | a call uploads its request first; after that it releases only messages of this bucket without its id, deletes only one with it, and after the delete only fetches |
| Client.CloseRemovesOutput | client.go:152-155 | the Output's file lies in the scratch directory, so a Close without error removes it |
| Client.InitOptions | client.go:171-189 | ClientOptions.init fills in the default region and returns the validation error |
| Client.Client.ExecuteFilename | client.go:71-150 | the call, as Execution gives it |
| Client.Client.Await | client.go:87-142 | the wait loop, as Waiting gives it |
| Client.Client.Listen | client.go:93-139 | one round of the wait, as Listening gives it |
| Client.Client.ScanBatch | client.go:98-139 | the batch loop, as Scanning gives it |
| Client.Client.Examine | client.go:98-138 | one message, as Examining gives it |
| Client.Client.Claim | client.go:110-138 | the response's delete and fetch, as Claiming gives it |
| Client.Client.Fetch | client.go:116-120 | the scratch file, as Fetching gives it |
| Client.Client.Download | client.go:121-137 | the download and the clean-up, as Downloading gives it |
| Client.Client.Close | client.go:152-155 | every Close removes the scratch directory |
| Client.NewClient | client.go:23-60 | validation errors come first; a zero timeout becomes five minutes; the client has the bucket, queue and a new scratch directory |
| RoundTrip.ServedCallAnswered | roundtrip_test.go:97-113 | once a server processes a client's request key without error and the client fetches the response, the client finds op and accepts the response key, and its Output carries the handler's metadata and the bytes of the handler's output file |

## Findings

| source | as written | input that shows it | evidently intended | confidence | as-written member | corrected member |
|---|---|---|---|---|---|---|
| server.go:120 | `strings.Split(m.Key, "/")[1]` indexes the second piece of every key | a notification for the key `photo.jpg`: its split has one piece, so the index is out of range and the server panics | a key without an operation is reported as an error, not a crash | medium, not executed | Keys.SlashlessKeyPanics | Keys.OperationOf |

The rest of the model uses `Keys.OperationOf`. `Server.Handling` ends the loop with `NoOperation`
for such a key.

## Left out

- Concurrency is not modelled: the errgroup goroutines, the `select` on the quit channel and on
  the context, and concurrent `Close` calls. Each loop runs sequentially, and the quit flag and the
  deadline are checked at the top of each round.
- Deadlines are not modelled as time. A deadline is the number of rounds it leaves (`rounds`,
  `polls`). A cancellation that interrupts a long-polling receive in a later round, and the
  "context deadline exceeded" error it gives, are not modelled: the client's wait ends at the
  deadline with the zero Output and no error, the server's after its rounds.
- Server.Server.ListenAndServe: does not model `time.Sleep(pollInterval)` between rounds; the
  interval is only stored.
- Client.Client.ExecuteFilename: the call id (a UUID in the source) is a parameter.
  `ServedCallAnswered` assumes that the id has no '/'.
- The client's `timeout` is stored but only bounds the number of rounds, through the parameter.
- Lease expiry is not modelled. There is no clock, so a lease set by a receive never runs out by
  itself, and a message is visible again only after a release.
- JSON decoding is abstract. A body is either malformed or a sequence of (bucket, key) records.
  The unused notification fields are left out.
- Service and file-system failures come from a fixed set of failing calls in the world, which no
  call changes. So a repeated identical call (each round's receive on the same queue, a second
  release of the same handle) fails always or never: a receive that fails only in a later round,
  and any transient failure, are not modelled. A download whose copy fails half-way is the same
  as a failed download.
- Aws.Lease and Aws.ReceiveMessage: a receive hands out exactly the first `max` visible messages,
  in queue order, each once, and fewer only when fewer are visible. SQS may return fewer than are
  visible, in any order, and a standard queue may deliver a message more than once; those batches
  are not modelled.
- Handlers are functions of the `Input` and the bytes of its file. A handler returns its `Output`
  and the files it wrote, or an error. The handler's context and a handler entry present with a
  nil value are not modelled.
- Logging (`Infof`), the AWS client and credentials construction, the upload manager's multipart
  transfer, and the unused `metaDatap` map are left out.
- File handles (`f.Close`) are not modelled. `os.RemoveAll` removes by path prefix.
- Aws.CreateTemp: the random part is the decimal digits of the nonce rather than a random number,
  and a clash with the nonce-derived name fails instead of retrying. os.CreateTemp
  draws another random name, up to 10000 times, before it gives up.
- Aws.MkdirTemp: a clash with the nonce-derived name fails instead of retrying, as for CreateTemp.
- provisioner.go is not part of this model. roundtrip_test.go is only the source of the
  round-trip property.

/** Values shared by every part of the library: file contents, object metadata,
    the notification payload read from the queue, and the library's errors. */
module Types {

  newtype byte = b: int | 0 <= b < 256

  /** The contents of a local file or of a stored object. */
  type Blob = seq<byte>

  /** User metadata attached to a stored object (a nil map in Go is the empty map here). */
  type Metadata = map<string, string>

  datatype Option<+T> = None | Some(value: T)

  datatype Result<+T> = Ok(value: T) | Err(error: Error)

  /** The Input a handler receives: the scratch file holding the request and the request's metadata. */
  datatype Input = Input(filename: string, metadata: Metadata)

  /** The Output a handler returns and a client call delivers. */
  datatype Output = Output(filename: string, metadata: Metadata)

  /** The Output{} that Go's zero value gives. */
  const ZeroOutput := Output("", map[])

  /** One record of an object-store event notification: only the two fields the library reads. */
  datatype Record = Record(bucketName: string, objectKey: string)

  /** The body of a queue message: either not decodable as a notification, or its Records array. */
  datatype Body = Malformed | Notification(records: seq<Record>)

  /** A message as the queue service hands it over, before decoding. */
  datatype RawMessage = RawMessage(body: Body, receiptHandle: string)

  /** A call to a remote service or to the local file system; a call that is in the
      world's fault set fails with CallFailed. */
  datatype Call =
    | ReceiveMessage(queue: string)
    | DeleteMessage(queue: string, handle: string)
    | ChangeMessageVisibility(queue: string, handle: string)
    | GetObject(bucket: string, key: string)
    | PutObject(bucket: string, key: string)
    | DeleteObject(bucket: string, key: string)
    | Open(name: string)
    | CreateTemp(dir: string)
    | MkdirTemp(pattern: string)
    | RemoveAll(dir: string)

  /** The errors the library returns, one constructor per distinct error text of the source. */
  datatype Error =
    | CallFailed(call: Call)                          // a service or file-system error, passed on as is
    | BadJson                                         // the message body does not decode
    | TooManyRecords(count: nat)                      // "expected only one record, got %d"
    | BucketMismatch(expected: string, got: string)   // "expected bucket %q, got %q"
    | NoOperation(key: string)                        // a key without a '/': the Go code panics here
    | TempFile(cause: Error)                          // "tempfile: %w"
    | Handle(reason: string)                          // "handle: %w"
    | Upload(cause: Error)                            // "upload: %v"
    | Apply(cause: Error)                             // "apply: %v"
    | AccessKeyIdRequired                             // "access key id is required"
    | SecretAccessKeyRequired                         // "secret access key is required"
    | QueueRequired                                   // "queue is required"

  /** The error of a unit result, as Go's `error` return value. */
  function ErrorOf(r: Result<()>): (e: Option<Error>)
    ensures e.None? <==> r.Ok?
    ensures r.Err? ==> e == Some(r.error)
  {
    if r.Ok? then None else Some(r.error)
  }
}

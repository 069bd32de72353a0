/** What the server and the client share: the constants of the protocol, the decoding of a
    batch of queue messages into object-store notifications, and thin wrappers that point
    the service calls at the configured bucket and queue. */
module Common {
  import opened Types
  import Aws

  const ToServer := "to_server"
  const ToClient := "to_client"
  const DefaultRegion := "eu-north-1"

  /** How long a received message stays hidden while its receiver decides whether it is its own. */
  const VisibilitySeconds: nat := 7
  /** The most messages one receive asks for. */
  const MaxMessages: nat := 5
  /** How long one receive waits for a message to arrive (WaitTimeSeconds, long polling). Time is
      not modelled, so no member uses it; it is kept as the source's constant. */
  const WaitSeconds: nat := 20

  /** One nanosecond-based time.Duration unit: a second. */
  const Second: int := 1_000_000_000

  /** The credentials part of the options, shared by server and client. */
  datatype AwsConfig = AwsConfig(region: string, bucket: string, accessKeyId: string, secretAccessKey: string)

  /** The configuration after `init` filled in a missing region. */
  function WithDefaultRegion(cfg: AwsConfig): (r: AwsConfig)
    ensures r.region != []
    ensures cfg.region == [] ==> r.region == "eu-north-1"
    ensures cfg.region != [] ==> r == cfg
    ensures r == cfg.(region := r.region)
  {
    if cfg.region == "" then cfg.(region := DefaultRegion) else cfg
  }

  /** The error `init` reports: the first of access key id, secret access key and queue that is
      empty, checked in that order; the bucket and the region are not checked. */
  function Missing(cfg: AwsConfig, queue: string): (e: Option<Error>)
    ensures e.None? <==> cfg.accessKeyId != "" && cfg.secretAccessKey != "" && queue != ""
    ensures e == Some(AccessKeyIdRequired) <==> cfg.accessKeyId == ""
    ensures e == Some(SecretAccessKeyRequired) <==> cfg.accessKeyId != "" && cfg.secretAccessKey == ""
    ensures e == Some(QueueRequired) <==> cfg.accessKeyId != "" && cfg.secretAccessKey != "" && queue == ""
  {
    if cfg.accessKeyId == "" then Some(AccessKeyIdRequired)
    else if cfg.secretAccessKey == "" then Some(SecretAccessKeyRequired)
    else if queue == "" then Some(QueueRequired)
    else None
  }

  /** A decoded notification: the object's bucket and key, and the lease token of its message. */
  datatype Message = Message(bucket: string, key: string, receiptHandle: string)

  function MessageOf(rec: Record, handle: string): Message
  {
    Message(rec.bucketName, rec.objectKey, handle)
  }

  /** A body the decoder accepts: it decodes and has at most one record. */
  predicate Usable(b: Body)
  {
    b.Notification? && |b.records| <= 1
  }

  /** The error a body the decoder rejects produces. */
  function BodyError(b: Body): Error
    requires !Usable(b)
  {
    if b.Malformed? then BadJson else TooManyRecords(|b.records|)
  }

  predicate WellFormed(raws: seq<RawMessage>)
  {
    forall i | 0 <= i < |raws| :: Usable(raws[i].body)
  }

  /** The message a single-record body yields; nothing for any other body. */
  function Picked(raw: RawMessage): seq<Message>
  {
    if raw.body.Notification? && |raw.body.records| == 1
    then [MessageOf(raw.body.records[0], raw.receiptHandle)]
    else []
  }

  /** The messages of the single-record bodies of a batch, in batch order. */
  function Selected(raws: seq<RawMessage>): seq<Message>
  {
    if raws == [] then [] else Selected(raws[..|raws| - 1]) + Picked(raws[|raws| - 1])
  }

  /** Every selected message is the one record of some body of the batch, and there are no
      more messages than bodies. */
  lemma {:induction false} SelectedFromSingleRecords(raws: seq<RawMessage>)
    ensures |Selected(raws)| <= |raws|
    ensures forall m | m in Selected(raws) :: exists i | 0 <= i < |raws| ::
      && raws[i].body.Notification? && |raws[i].body.records| == 1
      && m == MessageOf(raws[i].body.records[0], raws[i].receiptHandle)
  {
    if raws != [] {
      var init := raws[..|raws| - 1];
      SelectedFromSingleRecords(init);
      forall m | m in Selected(raws) ensures exists i | 0 <= i < |raws| ::
        && raws[i].body.Notification? && |raws[i].body.records| == 1
        && m == MessageOf(raws[i].body.records[0], raws[i].receiptHandle)
      {
        if m in Selected(init) {
          var i :| 0 <= i < |init| && init[i].body.Notification? && |init[i].body.records| == 1
            && m == MessageOf(init[i].body.records[0], init[i].receiptHandle);
          assert init[i] == raws[i];
        } else {
          assert m in Picked(raws[|raws| - 1]);
        }
      }
    }
  }

  /** The position of the first body the decoder rejects. */
  function FirstUnusable(raws: seq<RawMessage>): (k: nat)
    requires !WellFormed(raws)
    ensures k < |raws| && !Usable(raws[k].body)
    ensures forall j | 0 <= j < k :: Usable(raws[j].body)
  {
    if !Usable(raws[0].body) then 0
    else
      assert !WellFormed(raws[1..]) by {
        var i :| 0 <= i < |raws| && !Usable(raws[i].body);
        assert raws[1..][i - 1] == raws[i];
      }
      var k := FirstUnusable(raws[1..]);
      assert forall j | 1 <= j < k + 1 :: raws[j] == raws[1..][j - 1];
      k + 1
  }

  /** What decoding a batch gives: the selected messages, or the error of the first rejected body. */
  function Decoded(raws: seq<RawMessage>): Result<seq<Message>>
  {
    if WellFormed(raws) then Ok(Selected(raws)) else Err(BodyError(raws[FirstUnusable(raws)].body))
  }

  /** The loop of Receive over the received messages: a body without records is skipped, a body
      that does not decode or has several records fails the whole batch, and every other body
      yields the message of its one record. */
  method DecodeBatch(raws: seq<RawMessage>) returns (r: Result<seq<Message>>)
    ensures r.Ok? <==> WellFormed(raws)
    ensures r.Ok? ==> r.value == Selected(raws)
    ensures r.Err? ==> r.error == BodyError(raws[FirstUnusable(raws)].body)
  {
    var messages: seq<Message> := [];
    var i := 0;
    while i < |raws|
      invariant 0 <= i <= |raws|
      invariant forall j | 0 <= j < i :: Usable(raws[j].body)
      invariant messages == Selected(raws[..i])
    {
      var body := raws[i].body;
      if body.Malformed? {
        return Err(BadJson);
      }
      if |body.records| > 1 {
        return Err(TooManyRecords(|body.records|));
      }
      if |body.records| == 1 {
        messages := messages + [MessageOf(body.records[0], raws[i].receiptHandle)];
      }
      assert raws[..i + 1][..i] == raws[..i];
      i := i + 1;
    }
    assert raws[..i] == raws;
    return Ok(messages);
  }

  /** Selecting distributes over concatenation: the order of the batch is kept. */
  lemma {:induction false} SelectedConcat(a: seq<RawMessage>, b: seq<RawMessage>)
    ensures Selected(a + b) == Selected(a) + Selected(b)
    decreases |b|
  {
    if b == [] {
      assert a + b == a;
    } else {
      var b' := b[..|b| - 1];
      assert (a + b)[..|a + b| - 1] == a + b';
      assert (a + b)[|a + b| - 1] == b[|b| - 1];
      SelectedConcat(a, b');
    }
  }

  /** A body without records yields no message: selection is as if it were absent. */
  lemma {:induction false} SelectedSkipsEmpty(a: seq<RawMessage>, raw: RawMessage, b: seq<RawMessage>)
    requires raw.body == Notification([])
    ensures Selected(a + [raw] + b) == Selected(a + b)
  {
    SelectedConcat(a + [raw], b);
    assert (a + [raw])[..|a + [raw]| - 1] == a;
    assert Picked(raw) == [];
    assert Selected(a + [raw]) == Selected(a);
    SelectedConcat(a, b);
  }

  /** A body without records is accepted, so it does not decide whether the batch fails. */
  lemma WellFormedSkipsEmpty(a: seq<RawMessage>, raw: RawMessage, b: seq<RawMessage>)
    requires raw.body == Notification([])
    ensures WellFormed(a + [raw] + b) <==> WellFormed(a + b)
  {
    var s, t := a + [raw] + b, a + b;
    if WellFormed(t) {
      forall i | 0 <= i < |s| ensures Usable(s[i].body) {
        if i < |a| { assert s[i] == t[i]; }
        else if i > |a| { assert s[i] == t[i - 1]; }
      }
    }
    if WellFormed(s) {
      forall i | 0 <= i < |t| ensures Usable(t[i].body) {
        if i < |a| { assert s[i] == t[i]; }
        else { assert s[i + 1] == t[i]; }
      }
    }
  }

  /** A body without records yields no message and no error: the batch decodes as if it were absent. */
  lemma EmptyBodySkipped(a: seq<RawMessage>, raw: RawMessage, b: seq<RawMessage>)
    requires raw.body == Notification([])
    ensures WellFormed(a + [raw] + b) <==> WellFormed(a + b)
    ensures WellFormed(a + b) ==> Decoded(a + [raw] + b) == Decoded(a + b)
  {
    WellFormedSkipsEmpty(a, raw, b);
    SelectedSkipsEmpty(a, raw, b);
  }

  /** A rejected body fails the whole batch, whatever came before it: no message is returned, and
      when everything before it was accepted, the error is the one for that body. */
  lemma RejectedBodyFailsBatch(a: seq<RawMessage>, raw: RawMessage, b: seq<RawMessage>)
    requires !Usable(raw.body)
    ensures Decoded(a + [raw] + b).Err?
    ensures WellFormed(a) ==> Decoded(a + [raw] + b) == Err(BodyError(raw.body))
  {
    var s := a + [raw] + b;
    assert s[|a|] == raw;
    if WellFormed(a) {
      var k := FirstUnusable(s);
      assert forall j | 0 <= j < |a| :: s[j] == a[j];
      assert k == |a|;
    }
  }

  /** What the server and the client do, in the order they do it. A step is recorded when the
      call is made, whether or not it succeeds. */
  datatype Step =
    | Received                          // one ReceiveMessage on the configured queue
    | Released(m: Message)              // releaseMessage of m's receipt handle
    | Deleted(m: Message)               // deleteMessage of m's receipt handle
    | Downloaded(key: string)           // getObject of key
    | Invoked(op: string, input: Input) // the handler of op called on input
    | Uploaded(key: string)             // upload under key
    | ObjectDeleted(key: string)        // deleteObject of key

  /** The outcome of a run of the library: the error it returns, the world it leaves, its steps. */
  datatype Run = Run(err: Option<Error>, world: Aws.World, steps: seq<Step>)

  /** r, preceded by the steps done before it. */
  function Then(before: seq<Step>, r: Run): (r': Run)
    ensures r'.err == r.err && r'.world == r.world && r'.steps == before + r.steps
  {
    Run(r.err, r.world, before + r.steps)
  }

  lemma AppendAssoc(a: seq<Step>, b: seq<Step>, c: seq<Step>)
    ensures a + b + c == a + (b + c)
  {
  }

  /** Steps prepended in two goes are the same as prepended at once. */
  lemma ThenThen(a: seq<Step>, b: seq<Step>, r: Run)
    ensures Then(a, Then(b, r)) == Then(a + b, r)
  {
    assert a + (b + r.steps) == a + b + r.steps;
  }

  /** How many of the steps satisfy p. */
  function Occurrences(steps: seq<Step>, p: Step -> bool): nat
  {
    if steps == [] then 0 else (if p(steps[0]) then 1 else 0) + Occurrences(steps[1..], p)
  }

  /** Counting distributes over concatenation. */
  lemma {:induction false} OccurrencesConcat(a: seq<Step>, b: seq<Step>, p: Step -> bool)
    ensures Occurrences(a + b, p) == Occurrences(a, p) + Occurrences(b, p)
  {
    if a == [] {
      assert a + b == b;
    } else {
      assert (a + b)[1..] == a[1..] + b;
      OccurrencesConcat(a[1..], b, p);
    }
  }

  /** Steps none of which satisfies p count zero. */
  lemma {:induction false} NoneCounted(steps: seq<Step>, p: Step -> bool)
    requires forall i | 0 <= i < |steps| :: !p(steps[i])
    ensures Occurrences(steps, p) == 0
  {
    if steps != [] {
      assert !p(steps[0]);
      NoneCounted(steps[1..], p);
    }
  }

  /** Steps that count zero have none satisfying p. */
  lemma {:induction false} CountedNone(steps: seq<Step>, p: Step -> bool)
    requires Occurrences(steps, p) == 0
    ensures forall i | 0 <= i < |steps| :: !p(steps[i])
  {
    if steps != [] {
      CountedNone(steps[1..], p);
      forall i | 1 <= i < |steps| ensures !p(steps[i]) {
        assert steps[i] == steps[1..][i - 1];
      }
    }
  }

  predicate IsReceived(st: Step) { st.Received? }
  predicate IsDeleted(st: Step) { st.Deleted? }

  /** Receive: one receive on the queue (at most MaxMessages messages, each hidden for
      VisibilitySeconds), then the batch decoded. */
  function Receiving(w: Aws.World, queue: string): Aws.Effect<seq<Message>>
  {
    var e := Aws.ReceiveMessage(w, queue, MaxMessages, VisibilitySeconds);
    if e.result.Err? then Aws.Effect(Err(e.result.error), e.world)
    else Aws.Effect(Decoded(e.result.value), e.world)
  }

  /** A receive returns at most MaxMessages messages and changes nothing but the queue. */
  lemma ReceivingBounded(w: Aws.World, queue: string)
    ensures var r := Receiving(w, queue);
      && (r.result.Ok? ==> |r.result.value| <= MaxMessages)
      && Aws.OnlyQueueChanged(w, r.world, queue)
  {
    var e := Aws.ReceiveMessage(w, queue, MaxMessages, VisibilitySeconds);
    Aws.ReceiveMessageLeases(w, queue, MaxMessages, VisibilitySeconds);
    if e.result.Ok? {
      SelectedFromSingleRecords(e.result.value);
    }
  }

  /** upload: the local file's bytes stored under key with the given metadata. A missing file is
      reported as is; a store failure is wrapped as "upload: ...". */
  function Uploading(w: Aws.World, bucket: string, filename: string, key: string, md: Metadata): (r: Aws.Effect<()>)
    ensures r.result.Ok? <==> Aws.Open(w, filename).Ok? && PutObject(bucket, key) !in w.faults
    ensures r.result.Ok? ==> r.world == w.(objects := w.objects[(bucket, key) := Aws.Object(w.files[filename], md)])
    ensures r.result.Err? ==> r.world == w
    ensures r.result.Err? ==>
      r.result.error == (if Aws.Open(w, filename).Err? then CallFailed(Open(filename))
                         else Upload(CallFailed(PutObject(bucket, key))))
  {
    match Aws.Open(w, filename)
    case Err(e) => Aws.Effect(Err(e), w)
    case Ok(content) =>
      var p := Aws.PutObject(w, bucket, key, content, md);
      if p.result.Err? then Aws.Effect(Err(Upload(p.result.error)), p.world) else p
  }

  /** The state every client and server embeds: scratch directory, bucket, queue and the
      service handle. */
  class Common {
    const tempDir: string
    const bucket: string
    const queue: string
    const cloud: Aws.Cloud

    constructor (tempDir: string, bucket: string, queue: string, cloud: Aws.Cloud)
      ensures this.tempDir == tempDir && this.bucket == bucket && this.queue == queue && this.cloud == cloud
    {
      this.tempDir := tempDir;
      this.bucket := bucket;
      this.queue := queue;
      this.cloud := cloud;
    }

    method Receive() returns (r: Result<seq<Message>>)
      modifies cloud
      ensures r == Receiving(old(cloud.world), queue).result && cloud.world == Receiving(old(cloud.world), queue).world
    {
      var e := Aws.ReceiveMessage(cloud.world, queue, MaxMessages, VisibilitySeconds);
      cloud.world := e.world;
      if e.result.Err? {
        return Err(e.result.error);
      }
      r := DecodeBatch(e.result.value);
    }

    method DeleteMessage(receiptHandle: string) returns (err: Option<Error>)
      modifies cloud
      ensures var e := Aws.DeleteMessage(old(cloud.world), queue, receiptHandle);
        err == ErrorOf(e.result) && cloud.world == e.world
    {
      var e := Aws.DeleteMessage(cloud.world, queue, receiptHandle);
      cloud.world := e.world;
      err := ErrorOf(e.result);
    }

    method DeleteObject(key: string) returns (err: Option<Error>)
      modifies cloud
      ensures var e := Aws.DeleteObject(old(cloud.world), bucket, key);
        err == ErrorOf(e.result) && cloud.world == e.world
    {
      var e := Aws.DeleteObject(cloud.world, bucket, key);
      cloud.world := e.world;
      err := ErrorOf(e.result);
    }

    method GetObject(f: string, key: string) returns (r: Result<Metadata>)
      modifies cloud
      ensures r == Aws.GetObject(old(cloud.world), bucket, key, f).result
      ensures cloud.world == Aws.GetObject(old(cloud.world), bucket, key, f).world
    {
      var e := Aws.GetObject(cloud.world, bucket, key, f);
      cloud.world := e.world;
      r := e.result;
    }

    /** releaseMessage: the message's visibility timeout is set to 0, so it can be received again at once. */
    method ReleaseMessage(receiptHandle: string) returns (err: Option<Error>)
      modifies cloud
      ensures var e := Aws.ChangeMessageVisibility(old(cloud.world), queue, receiptHandle, 0);
        err == ErrorOf(e.result) && cloud.world == e.world
    {
      var e := Aws.ChangeMessageVisibility(cloud.world, queue, receiptHandle, 0);
      cloud.world := e.world;
      err := ErrorOf(e.result);
    }

    method Upload(filename: string, key: string, md: Metadata) returns (err: Option<Error>)
      modifies cloud
      ensures var e := Uploading(old(cloud.world), bucket, filename, key, md);
        err == ErrorOf(e.result) && cloud.world == e.world
    {
      var content := Aws.Open(cloud.world, filename);
      if content.Err? {
        return Some(content.error);
      }
      var p := Aws.PutObject(cloud.world, bucket, key, content.value, md);
      cloud.world := p.world;
      if p.result.Err? {
        return Some(Error.Upload(p.result.error));
      }
      return None;
    }
  }
}

/** The server: it polls the request queue, takes the operation from the notified key, hands
    the downloaded object to that operation's handler, and uploads the handler's output under
    the response key. */
module Server {
  import opened Types
  import opened Paths
  import Aws
  import Common
  import Keys

  /** The poll interval NewServer puts in place of a zero one. */
  const DefaultPollInterval: int := 10 * Common.Second

  /** What a handler gives back: its Output together with the files it wrote, or an error. */
  datatype Reply = Done(output: Output, files: map<string, Blob>) | Fails(reason: string)

  /** A handler sees the Input and the bytes of the file it names. */
  type Handler = (Input, Blob) -> Reply

  /** Operation names to handlers. */
  type Handlers = map<string, Handler>

  datatype ServerOptions = ServerOptions(handlers: Handlers, queue: string, pollInterval: int, config: Common.AwsConfig)

  /** What a running server works with: its bucket, queue, scratch directory and handlers. */
  datatype Setup = Setup(bucket: string, queue: string, tempDir: string, handlers: Handlers)

  /** The work done for a message whose operation has a handler, after the message was deleted:
      download the object into a fresh scratch file, run the handler on it, upload the handler's
      output under the response key. The scratch file is removed however this ends. */
  function Processing(s: Setup, op: string, handler: Handler, key: string, w: Aws.World): Common.Run
  {
    var t := Aws.CreateTemp(w, s.tempDir, "*_" + Base(key));
    if t.result.Err? then Common.Run(Some(TempFile(t.result.error)), t.world, [])
    else Working(s, op, handler, key, t.result.value, t.world)
  }

  /** Processing once the scratch file f exists: the download into f, then the handler. */
  function Working(s: Setup, op: string, handler: Handler, key: string, f: string, w: Aws.World): Common.Run
  {
    var g := Aws.GetObject(w, s.bucket, key, f);
    if g.result.Err? then Common.Run(Some(g.result.error), Aws.Remove(g.world, f), [Common.Downloaded(key)])
    else Common.Then([Common.Downloaded(key)],
      Invoking(s, op, handler, Input(f, g.result.value), Keys.ResponseKey(op, Base(key)), g.world))
  }

  /** Processing once the request is in the scratch file: the handler sees its Input and the
      file's bytes; its output is uploaded under responseKey, its error wrapped as "handle: ...". */
  function Invoking(s: Setup, op: string, handler: Handler, input: Input, responseKey: string, w: Aws.World): Common.Run
    requires input.filename in w.files
  {
    var f := input.filename;
    match handler(input, w.files[f])
    case Fails(reason) =>
      Common.Run(Some(Handle(reason)), Aws.Remove(w, f), [Common.Invoked(op, input)])
    case Done(out, files) =>
      var u := Common.Uploading(w.(files := w.files + files), s.bucket, out.filename, responseKey, out.metadata);
      Common.Run(ErrorOf(u.result), Aws.Remove(u.world, f), [Common.Invoked(op, input), Common.Uploaded(responseKey)])
  }

  /** The handling of one received message: a foreign bucket stops the server; a message whose
      operation has no handler is released for another server; any other is deleted and then
      processed. */
  function Handling(s: Setup, m: Common.Message, w: Aws.World): (r: Common.Run)
    ensures m.bucket != s.bucket ==> r == Common.Run(Some(BucketMismatch(s.bucket, m.bucket)), w, [])
  {
    if m.bucket != s.bucket then Common.Run(Some(BucketMismatch(s.bucket, m.bucket)), w, [])
    else match Keys.OperationOf(m.key)
      case None => Common.Run(Some(NoOperation(m.key)), w, [])
      case Some(op) =>
        if op !in s.handlers then
          var c := Aws.ChangeMessageVisibility(w, s.queue, m.receiptHandle, 0);
          Common.Run(ErrorOf(c.result), c.world, [Common.Released(m)])
        else Taking(s, m, op, w)
  }

  /** A message whose operation op has a handler: deleted from the queue first, so that no other
      server takes it once its lease ends, then processed. */
  function Taking(s: Setup, m: Common.Message, op: string, w: Aws.World): (r: Common.Run)
    requires op in s.handlers
  {
    var d := Aws.DeleteMessage(w, s.queue, m.receiptHandle);
    if d.result.Err? then Common.Run(Some(d.result.error), d.world, [Common.Deleted(m)])
    else Common.Then([Common.Deleted(m)], Processing(s, op, s.handlers[op], m.key, d.world))
  }

  /** The messages of one batch handled in order; the first error ends the batch. */
  function Dispatching(s: Setup, ms: seq<Common.Message>, w: Aws.World): (r: Common.Run)
    decreases |ms|
  {
    if ms == [] then Common.Run(None, w, [])
    else
      var h := Handling(s, ms[0], w);
      if h.err.Some? then h else Common.Then(h.steps, Dispatching(s, ms[1..], h.world))
  }

  /** Dispatching from position i: message i is handled, and the rest follows unless it failed. */
  lemma DispatchingFrom(s: Setup, ms: seq<Common.Message>, i: nat, w: Aws.World)
    requires i < |ms|
    ensures var h := Handling(s, ms[i], w);
      Dispatching(s, ms[i..], w) == if h.err.Some? then h else Common.Then(h.steps, Dispatching(s, ms[i + 1..], h.world))
  {
    assert ms[i..][1..] == ms[i + 1..];
  }

  /** One round of the serve loop: one receive, then its batch. */
  function Polling(s: Setup, w: Aws.World): (r: Common.Run)
  {
    var e := Common.Receiving(w, s.queue);
    if e.result.Err? then Common.Run(Some(e.result.error), e.world, [Common.Received])
    else Common.Then([Common.Received], Dispatching(s, e.result.value, e.world))
  }

  /** The serve loop, which checks at the top of every round whether the server was closed or
      the context is done (it lasts `rounds` more rounds): either ends it without error; otherwise
      the round runs, and its error, if any, ends the loop. */
  function Serving(s: Setup, closed: bool, rounds: nat, w: Aws.World): (r: Common.Run)
    decreases rounds
  {
    if closed || rounds == 0 then Common.Run(None, w, [])
    else
      var p := Polling(s, w);
      if p.err.Some? then p else Common.Then(p.steps, Serving(s, closed, rounds - 1, p.world))
  }

  /** ServerOptions.init: fills in the default region, then checks the credentials and the queue. */
  method InitOptions(opts: ServerOptions) returns (opts': ServerOptions, err: Option<Error>)
    ensures opts' == opts.(config := Common.WithDefaultRegion(opts.config))
    ensures err == Common.Missing(opts.config, opts.queue)
  {
    opts' := opts;
    if opts'.config.region == "" {
      opts' := opts'.(config := opts'.config.(region := Common.DefaultRegion));
    }
    if opts'.config.accessKeyId == "" {
      return opts', Some(AccessKeyIdRequired);
    }
    if opts'.config.secretAccessKey == "" {
      return opts', Some(SecretAccessKeyRequired);
    }
    if opts'.queue == "" {
      return opts', Some(QueueRequired);
    }
    return opts', None;
  }

  class Server {
    const handlers: Handlers
    const pollInterval: int
    /** The quit channel has been closed. */
    var quit: bool
    /** Close has run its body (the sync.Once has fired). */
    var closed: bool
    const common: Common.Common
    /** The steps taken so far. */
    ghost var trace: seq<Common.Step>

    ghost predicate Valid()
      reads this
    {
      closed ==> quit
    }

    constructor (handlers: Handlers, pollInterval: int, common: Common.Common)
      ensures this.handlers == handlers && this.pollInterval == pollInterval && this.common == common
      ensures !quit && !closed && trace == [] && Valid()
    {
      this.handlers := handlers;
      this.pollInterval := pollInterval;
      this.common := common;
      quit := false;
      closed := false;
      trace := [];
    }

    function Settings(): Setup
    {
      Setup(common.bucket, common.queue, common.tempDir, handlers)
    }

    /** The closure run for a message with a handler (server.go, lines 137-166): the scratch file. */
    method Process(op: string, handler: Handler, key: string) returns (err: Option<Error>)
      modifies this, common.cloud
      ensures var p := Processing(Settings(), op, handler, key, old(common.cloud.world));
        err == p.err && common.cloud.world == p.world && trace == old(trace) + p.steps
      ensures quit == old(quit) && closed == old(closed)
    {
      var t := Aws.CreateTemp(common.cloud.world, common.tempDir, "*_" + Base(key));
      common.cloud.world := t.world;
      if t.result.Err? {
        return Some(TempFile(t.result.error));
      }
      err := Work(op, handler, key, t.result.value);
    }

    /** The closure once its scratch file f exists: the download into f, then the handler. */
    method Work(op: string, handler: Handler, key: string, f: string) returns (err: Option<Error>)
      modifies this, common.cloud
      ensures var p := Working(Settings(), op, handler, key, f, old(common.cloud.world));
        err == p.err && common.cloud.world == p.world && trace == old(trace) + p.steps
      ensures quit == old(quit) && closed == old(closed)
    {
      trace := trace + [Common.Downloaded(key)];
      var md := common.GetObject(f, key);
      if md.Err? {
        common.cloud.world := Aws.Remove(common.cloud.world, f);
        return Some(md.error);
      }
      ghost var w := common.cloud.world;
      var rk := Keys.ResponseKey(op, Base(key));
      err := Invoke(op, handler, Input(f, md.value), rk);
      Common.AppendAssoc(old(trace), [Common.Downloaded(key)],
        Invoking(Settings(), op, handler, Input(f, md.value), rk, w).steps);
    }

    /** The handler call and the upload of its output; f is removed afterwards. */
    method Invoke(op: string, handler: Handler, input: Input, responseKey: string) returns (err: Option<Error>)
      requires input.filename in common.cloud.world.files
      modifies this, common.cloud
      ensures var p := Invoking(Settings(), op, handler, input, responseKey, old(common.cloud.world));
        err == p.err && common.cloud.world == p.world && trace == old(trace) + p.steps
      ensures quit == old(quit) && closed == old(closed)
    {
      trace := trace + [Common.Invoked(op, input)];
      var reply := handler(input, common.cloud.world.files[input.filename]);
      if reply.Fails? {
        common.cloud.world := Aws.Remove(common.cloud.world, input.filename);
        return Some(Handle(reply.reason));
      }
      common.cloud.world := common.cloud.world.(files := common.cloud.world.files + reply.files);
      trace := trace + [Common.Uploaded(responseKey)];
      err := common.Upload(reply.output.filename, responseKey, reply.output.metadata);
      common.cloud.world := Aws.Remove(common.cloud.world, input.filename);
    }

    /** The body of the batch loop for one message (server.go, lines 114-170). */
    method ServeMessage(m: Common.Message) returns (err: Option<Error>)
      modifies this, common.cloud
      ensures var h := Handling(Settings(), m, old(common.cloud.world));
        err == h.err && common.cloud.world == h.world && trace == old(trace) + h.steps
      ensures quit == old(quit) && closed == old(closed)
    {
      if m.bucket != common.bucket {
        return Some(BucketMismatch(common.bucket, m.bucket));
      }
      var op := Keys.OperationOf(m.key);
      if op.None? {
        return Some(NoOperation(m.key));
      }
      if op.value !in handlers {
        trace := trace + [Common.Released(m)];
        err := common.ReleaseMessage(m.receiptHandle);
        return;
      }
      err := Take(m, op.value);
    }

    /** The known-operation branch of the batch loop (server.go, lines 129-170). */
    method Take(m: Common.Message, op: string) returns (err: Option<Error>)
      requires op in handlers
      modifies this, common.cloud
      ensures var h := Taking(Settings(), m, op, old(common.cloud.world));
        err == h.err && common.cloud.world == h.world && trace == old(trace) + h.steps
      ensures quit == old(quit) && closed == old(closed)
    {
      trace := trace + [Common.Deleted(m)];
      err := common.DeleteMessage(m.receiptHandle);
      if err.Some? {
        return;
      }
      ghost var w := common.cloud.world;
      err := Process(op, handlers[op], m.key);
      ghost var p := Processing(Settings(), op, handlers[op], m.key, w);
      Common.AppendAssoc(old(trace), [Common.Deleted(m)], p.steps);
    }

    /** The loop over one received batch. */
    method ServeBatch(ms: seq<Common.Message>) returns (err: Option<Error>)
      modifies this, common.cloud
      ensures var d := Dispatching(Settings(), ms, old(common.cloud.world));
        err == d.err && common.cloud.world == d.world && trace == old(trace) + d.steps
      ensures quit == old(quit) && closed == old(closed)
    {
      ghost var done: seq<Common.Step> := [];
      var i := 0;
      while i < |ms|
        invariant 0 <= i <= |ms|
        invariant quit == old(quit) && closed == old(closed)
        invariant trace == old(trace) + done
        invariant Dispatching(Settings(), ms, old(common.cloud.world)) ==
          Common.Then(done, Dispatching(Settings(), ms[i..], common.cloud.world))
      {
        ghost var h := Handling(Settings(), ms[i], common.cloud.world);
        DispatchingFrom(Settings(), ms, i, common.cloud.world);
        ghost var rest := Dispatching(Settings(), ms[i + 1..], h.world);
        err := ServeMessage(ms[i]);
        Common.AppendAssoc(old(trace), done, h.steps);
        if err.Some? {
          return;
        }
        Common.ThenThen(done, h.steps, rest);
        done := done + h.steps;
        i := i + 1;
      }
      return None;
    }

    /** One round of the serve loop (server.go, lines 107-171): receive a batch and serve it. */
    method Poll() returns (err: Option<Error>)
      modifies this, common.cloud
      ensures var p := Polling(Settings(), old(common.cloud.world));
        err == p.err && common.cloud.world == p.world && trace == old(trace) + p.steps
      ensures quit == old(quit) && closed == old(closed)
    {
      trace := trace + [Common.Received];
      var ms := common.Receive();
      if ms.Err? {
        return Some(ms.error);
      }
      ghost var d := Dispatching(Settings(), ms.value, common.cloud.world);
      err := ServeBatch(ms.value);
      Common.AppendAssoc(old(trace), [Common.Received], d.steps);
    }

    /** ListenAndServe while the context lasts `rounds` more rounds: a closed server returns at
        once; otherwise each round receives a batch and serves it, until an error or the end of
        the context. Sleeping between rounds is not modelled. */
    method ListenAndServe(rounds: nat) returns (err: Option<Error>)
      modifies this, common.cloud
      ensures var r := Serving(Settings(), quit, rounds, old(common.cloud.world));
        err == r.err && common.cloud.world == r.world && trace == old(trace) + r.steps
      ensures quit == old(quit) && closed == old(closed)
    {
      ghost var s := Settings();
      ghost var total := Serving(s, quit, rounds, common.cloud.world);
      ghost var done: seq<Common.Step> := [];
      var n: nat := rounds;
      while !quit && n > 0
        invariant quit == old(quit) && closed == old(closed)
        invariant trace == old(trace) + done
        invariant total == Common.Then(done, Serving(s, quit, n, common.cloud.world))
      {
        ghost var p := Polling(s, common.cloud.world);
        ghost var rest := Serving(s, quit, n - 1, p.world);
        err := Poll();
        Common.AppendAssoc(old(trace), done, p.steps);
        if err.Some? {
          return;
        }
        Common.ThenThen(done, p.steps, rest);
        done := done + p.steps;
        n := n - 1;
      }
      assert done + [] == done;
      return None;
    }

    /** Close: the first call closes quit and removes the scratch directory; later calls do
        nothing and return no error. */
    method Close() returns (err: Option<Error>)
      requires Valid()
      modifies this, common.cloud
      ensures Valid() && closed && quit && trace == old(trace)
      ensures old(closed) ==> err.None? && common.cloud.world == old(common.cloud.world)
      ensures !old(closed) ==> var r := Aws.RemoveAll(old(common.cloud.world), common.tempDir);
        err == ErrorOf(r.result) && common.cloud.world == r.world
    {
      if closed {
        return None;
      }
      closed := true;
      quit := true;
      var r := Aws.RemoveAll(common.cloud.world, common.tempDir);
      common.cloud.world := r.world;
      err := ErrorOf(r.result);
    }
  }

  /** NewServer: validates the options, puts 10 seconds in place of a zero poll interval and
      creates the scratch directory. */
  method NewServer(opts: ServerOptions, cloud: Aws.Cloud) returns (r: Result<Server>)
    modifies cloud
    ensures var e := Common.Missing(opts.config, opts.queue);
      e.Some? ==> r == Err(e.value) && cloud.world == old(cloud.world)
    ensures Common.Missing(opts.config, opts.queue).None? ==>
      var m := Aws.MkdirTemp(old(cloud.world), "s3rpc_server");
      && cloud.world == m.world
      && (m.result.Err? ==> r == Err(m.result.error))
      && (m.result.Ok? ==>
            && r.Ok? && fresh(r.value) && fresh(r.value.common) && r.value.Valid()
            && !r.value.quit && r.value.trace == []
            && r.value.handlers == opts.handlers
            && r.value.pollInterval == (if opts.pollInterval == 0 then DefaultPollInterval else opts.pollInterval)
            && r.value.Settings() == Setup(opts.config.bucket, opts.queue, m.result.value, opts.handlers)
            && r.value.common.cloud == cloud)
  {
    var o, err := InitOptions(opts);
    if err.Some? {
      return Err(err.value);
    }
    if o.pollInterval == 0 {
      o := o.(pollInterval := DefaultPollInterval);
    }
    var m := Aws.MkdirTemp(cloud.world, "s3rpc_server");
    cloud.world := m.world;
    if m.result.Err? {
      return Err(m.result.error);
    }
    var c := new Common.Common(m.result.value, o.config.bucket, o.queue, cloud);
    var s := new Server(o.handlers, o.pollInterval, c);
    return Ok(s);
  }

  /** m names this server's bucket and an operation it has a handler for. */
  predicate Takes(s: Setup, m: Common.Message)
  {
    m.bucket == s.bucket && Keys.OperationOf(m.key).Some? && Keys.OperationOf(m.key).value in s.handlers
  }

  /** m names this server's bucket and an operation it has no handler for. */
  predicate Passes(s: Setup, m: Common.Message)
  {
    m.bucket == s.bucket && Keys.OperationOf(m.key).Some? && Keys.OperationOf(m.key).value !in s.handlers
  }

  /** A step a batch of ms may take: a release only of a message the server passes on, a delete
      only of a message it takes, no receive and no object deletion. */
  ghost predicate BatchStep(s: Setup, ms: seq<Common.Message>, st: Common.Step)
  {
    match st
    case Released(m) => m in ms && Passes(s, m)
    case Deleted(m) => m in ms && Takes(s, m)
    case Received => false
    case ObjectDeleted(_) => false
    case _ => true
  }

  /** Every handler call comes right after the download of the key of a message just deleted,
      and is the handler of that key's operation. */
  ghost predicate InvokedAfterTaking(steps: seq<Common.Step>)
  {
    forall i | 0 <= i < |steps| && steps[i].Invoked? ::
      && 2 <= i && steps[i - 2].Deleted?
      && steps[i - 1] == Common.Downloaded(steps[i - 2].m.key)
      && Keys.OperationOf(steps[i - 2].m.key) == Some(steps[i].op)
  }

  lemma {:induction false} InvokedAfterTakingConcat(a: seq<Common.Step>, b: seq<Common.Step>)
    requires InvokedAfterTaking(a) && InvokedAfterTaking(b)
    ensures InvokedAfterTaking(a + b)
  {
    var c := a + b;
    forall i | 0 <= i < |c| && c[i].Invoked?
      ensures && 2 <= i && c[i - 2].Deleted?
              && c[i - 1] == Common.Downloaded(c[i - 2].m.key)
              && Keys.OperationOf(c[i - 2].m.key) == Some(c[i].op)
    {
      if i < |a| {
        assert c[i] == a[i];
        assert c[i - 1] == a[i - 1] && c[i - 2] == a[i - 2];
      } else {
        var j := i - |a|;
        assert c[i] == b[j];
        assert 2 <= j;
        assert c[i - 1] == b[j - 1] && c[i - 2] == b[j - 2];
      }
    }
  }

  /** The order of the work for one message: download, then the handler of op, then the upload
      under the response key; a failure cuts the sequence short. */
  lemma ProcessingOrder(s: Setup, op: string, handler: Handler, key: string, w: Aws.World)
    ensures ProcessingShape(op, key, Keys.ResponseKey(op, Base(key)), Processing(s, op, handler, key, w).steps)
  {
    var t := Aws.CreateTemp(w, s.tempDir, "*_" + Base(key));
    if t.result.Ok? {
      WorkingOrder(s, op, handler, key, t.result.value, t.world);
    }
  }

  lemma WorkingOrder(s: Setup, op: string, handler: Handler, key: string, f: string, w: Aws.World)
    ensures ProcessingShape(op, key, Keys.ResponseKey(op, Base(key)), Working(s, op, handler, key, f, w).steps)
  {
    var g := Aws.GetObject(w, s.bucket, key, f);
    if g.result.Ok? {
      var rk := Keys.ResponseKey(op, Base(key));
      var input := Input(f, g.result.value);
      WorkingSteps(s, op, handler, key, f, w);
      InvokingOrder(s, op, handler, input, rk, g.world);
      ShapeAfterDownload(op, key, rk, input, Invoking(s, op, handler, input, rk, g.world).steps);
    }
  }

  lemma WorkingSteps(s: Setup, op: string, handler: Handler, key: string, f: string, w: Aws.World)
    ensures var g := Aws.GetObject(w, s.bucket, key, f);
      g.result.Ok? ==>
        Working(s, op, handler, key, f, w).steps ==
        [Common.Downloaded(key)] + Invoking(s, op, handler, Input(f, g.result.value), Keys.ResponseKey(op, Base(key)), g.world).steps
  {
  }

  lemma ShapeAfterDownload(op: string, key: string, rk: string, input: Input, st: seq<Common.Step>)
    requires 1 <= |st| <= 2 && st[0] == Common.Invoked(op, input)
    requires |st| == 2 ==> st[1] == Common.Uploaded(rk)
    ensures ProcessingShape(op, key, rk, [Common.Downloaded(key)] + st)
  {
  }

  lemma InvokingOrder(s: Setup, op: string, handler: Handler, input: Input, rk: string, w: Aws.World)
    requires input.filename in w.files
    ensures var st := Invoking(s, op, handler, input, rk, w).steps;
      && 1 <= |st| <= 2 && st[0] == Common.Invoked(op, input)
      && (|st| == 2 ==> st[1] == Common.Uploaded(rk))
  {
  }

  /** The work done for a message taken, after its delete, in the order ProcessingOrder gives. */
  ghost predicate ProcessingShape(op: string, key: string, responseKey: string, st: seq<Common.Step>)
  {
    && |st| <= 3
    && (|st| >= 1 ==> st[0] == Common.Downloaded(key))
    && (|st| >= 2 ==> st[1].Invoked? && st[1].op == op)
    && (|st| == 3 ==> st[2] == Common.Uploaded(responseKey))
  }

  lemma {:induction false} DeletedThenProcessed(s: Setup, m: Common.Message, rk: string, st: seq<Common.Step>)
    requires Takes(s, m) && ProcessingShape(Keys.OperationOf(m.key).value, m.key, rk, st)
    ensures var all := [Common.Deleted(m)] + st;
      && (forall i | 0 <= i < |all| :: BatchStep(s, [m], all[i]))
      && InvokedAfterTaking(all)
  {
    var all := [Common.Deleted(m)] + st;
    forall i | 0 <= i < |all| ensures BatchStep(s, [m], all[i]) {
      if i == 0 {
        assert all[i] == Common.Deleted(m) && m in [m];
      } else {
        assert all[i] == st[i - 1];
        assert !all[i].Deleted? && !all[i].Released? && !all[i].Received? && !all[i].ObjectDeleted?;
      }
    }
    ProcessedAfterDelete(m, Keys.OperationOf(m.key).value, rk, st);
  }

  lemma {:induction false} ProcessedAfterDelete(m: Common.Message, op: string, rk: string, st: seq<Common.Step>)
    requires Keys.OperationOf(m.key) == Some(op) && ProcessingShape(op, m.key, rk, st)
    ensures InvokedAfterTaking([Common.Deleted(m)] + st)
  {
    var all := [Common.Deleted(m)] + st;
    assert |all| >= 2 ==> all[1] == st[0];
    assert |all| >= 3 ==> all[2] == st[1];
    assert |all| >= 4 ==> all[3] == st[2];
    forall i | 0 <= i < |all| && all[i].Invoked?
      ensures && 2 <= i && all[i - 2].Deleted?
              && all[i - 1] == Common.Downloaded(all[i - 2].m.key)
              && Keys.OperationOf(all[i - 2].m.key) == Some(all[i].op)
    {
      assert all[0].Deleted?;
      assert i == 2;
    }
  }

  /** The steps of handling one message: a release of a message passed on, or a delete of a
      message taken followed by its processing in order. */
  lemma HandlingSteps(s: Setup, m: Common.Message, w: Aws.World)
    ensures var st := Handling(s, m, w).steps;
      && (forall i | 0 <= i < |st| :: BatchStep(s, [m], st[i]))
      && InvokedAfterTaking(st)
  {
    if m.bucket == s.bucket && Keys.OperationOf(m.key).Some? {
      var op := Keys.OperationOf(m.key).value;
      if op in s.handlers {
        var d := Aws.DeleteMessage(w, s.queue, m.receiptHandle);
        if d.result.Ok? {
          var p := Processing(s, op, s.handlers[op], m.key, d.world);
          ProcessingOrder(s, op, s.handlers[op], m.key, d.world);
          DeletedThenProcessed(s, m, Keys.ResponseKey(op, Base(m.key)), p.steps);
        }
      }
    }
  }

  /** The steps of a batch: each is accounted for by a message of the batch, none is a receive,
      and every handler call follows the delete and the download of its message. */
  lemma {:induction false} DispatchingSteps(s: Setup, ms: seq<Common.Message>, w: Aws.World)
    ensures var st := Dispatching(s, ms, w).steps;
      && (forall i | 0 <= i < |st| :: BatchStep(s, ms, st[i]))
      && InvokedAfterTaking(st)
    decreases |ms|
  {
    if ms != [] {
      var h := Handling(s, ms[0], w);
      HandlingSteps(s, ms[0], w);
      assert forall i | 0 <= i < |h.steps| :: BatchStep(s, ms, h.steps[i]) by {
        forall i | 0 <= i < |h.steps| ensures BatchStep(s, ms, h.steps[i]) {
          assert BatchStep(s, [ms[0]], h.steps[i]);
        }
      }
      if h.err.None? {
        var rest := Dispatching(s, ms[1..], h.world);
        DispatchingSteps(s, ms[1..], h.world);
        InvokedAfterTakingConcat(h.steps, rest.steps);
        var st := h.steps + rest.steps;
        forall i | 0 <= i < |st| ensures BatchStep(s, ms, st[i]) {
          if i >= |h.steps| {
            assert st[i] == rest.steps[i - |h.steps|];
            assert BatchStep(s, ms[1..], st[i]);
          }
        }
      }
    }
  }

  /** The first error ends the batch: the messages before position k were all handled without
      error, and the batch's outcome is theirs followed by the failed handling of message k. */
  lemma {:induction false} ErrorEndsBatch(s: Setup, ms: seq<Common.Message>, w: Aws.World) returns (k: nat)
    requires Dispatching(s, ms, w).err.Some?
    ensures k < |ms|
    ensures var p := Dispatching(s, ms[..k], w);
      && p.err.None?
      && Dispatching(s, ms, w) == Common.Then(p.steps, Handling(s, ms[k], p.world))
    decreases |ms|
  {
    var h := Handling(s, ms[0], w);
    if h.err.Some? {
      k := 0;
      assert ms[..0] == [];
      assert [] + h.steps == h.steps;
    } else {
      var k' := ErrorEndsBatch(s, ms[1..], h.world);
      k := k' + 1;
      var p' := Dispatching(s, ms[1..][..k'], h.world);
      assert ms[..k][1..] == ms[1..][..k'];
      assert ms[1..][k'] == ms[k];
      assert Dispatching(s, ms[..k], w) == Common.Then(h.steps, p');
      Common.ThenThen(h.steps, p'.steps, Handling(s, ms[k], p'.world));
    }
  }

  /** Each round receives once: a run of `rounds` rounds receives at most that often, and exactly
      that often when it ends without error. */
  lemma {:induction false} ServingReceives(s: Setup, closed: bool, rounds: nat, w: Aws.World)
    ensures var r := Serving(s, closed, rounds, w);
      && Common.Occurrences(r.steps, Common.IsReceived) <= rounds
      && (closed ==> r.steps == [])
      && (!closed && r.err.None? ==> Common.Occurrences(r.steps, Common.IsReceived) == rounds)
    decreases rounds
  {
    if !closed && rounds > 0 {
      var p := Polling(s, w);
      PollingReceivesOnce(s, w);
      if p.err.None? {
        var rest := Serving(s, closed, rounds - 1, p.world);
        ServingReceives(s, closed, rounds - 1, p.world);
        Common.OccurrencesConcat(p.steps, rest.steps, Common.IsReceived);
      }
    }
  }

  /** A round receives exactly once. */
  lemma PollingReceivesOnce(s: Setup, w: Aws.World)
    ensures Common.Occurrences(Polling(s, w).steps, Common.IsReceived) == 1
  {
    var e := Common.Receiving(w, s.queue);
    assert Common.Occurrences([Common.Received], Common.IsReceived) == 1;
    if e.result.Ok? {
      var d := Dispatching(s, e.result.value, e.world);
      DispatchingSteps(s, e.result.value, e.world);
      NoReceiveCounted(d.steps, s, e.result.value);
      Common.OccurrencesConcat([Common.Received], d.steps, Common.IsReceived);
    }
  }

  lemma {:induction false} NoReceiveCounted(st: seq<Common.Step>, s: Setup, ms: seq<Common.Message>)
    requires forall i | 0 <= i < |st| :: BatchStep(s, ms, st[i])
    ensures Common.Occurrences(st, Common.IsReceived) == 0
  {
    if st != [] {
      assert BatchStep(s, ms, st[0]);
      NoReceiveCounted(st[1..], s, ms);
    }
  }

  /** The handler step: the scratch file is removed however it ends, the queues are untouched, a
      handler error comes back as "handle: ..." with nothing uploaded, and otherwise the store
      gains exactly the handler's output file and metadata under the response key, or nothing
      when the upload fails. */
  lemma InvokingResult(s: Setup, op: string, handler: Handler, input: Input, rk: string, w: Aws.World)
    requires input.filename in w.files
    ensures var r := Invoking(s, op, handler, input, rk, w);
      var reply := handler(input, w.files[input.filename]);
      && input.filename !in r.world.files
      && r.world.queues == w.queues
      && (reply.Fails? ==> r.err == Some(Handle(reply.reason)) && r.world.objects == w.objects)
      && (r.err.Some? ==> r.world.objects == w.objects)
      && (r.err.None? ==>
            && reply.Done?
            && reply.output.filename in w.files + reply.files
            && r.world.objects == w.objects[(s.bucket, rk) :=
                 Aws.Object((w.files + reply.files)[reply.output.filename], reply.output.metadata)])
  {
  }

  /** The handler accepted the request object stored under key, read through scratch file f
      (with the local files `files` around it), and objects' is objects with the handler's output
      file and metadata stored under responseKey. */
  ghost predicate Answered(s: Setup, handler: Handler, key: string, responseKey: string, f: string,
                           files: map<string, Blob>, objects: map<(string, string), Aws.Object>,
                           objects': map<(string, string), Aws.Object>)
  {
    && (s.bucket, key) in objects
    && var obj := objects[(s.bucket, key)];
       var reply := handler(Input(f, obj.metadata), obj.content);
       && reply.Done?
       && var fs := files[f := obj.content] + reply.files;
          && reply.output.filename in fs
          && objects' == objects[(s.bucket, responseKey) := Aws.Object(fs[reply.output.filename], reply.output.metadata)]
  }

  /** What f held before the download does not matter: the download overwrites it. */
  lemma AnsweredOverwritesScratch(s: Setup, handler: Handler, key: string, responseKey: string, f: string,
                                  files: map<string, Blob>, c: Blob, objects: map<(string, string), Aws.Object>,
                                  objects': map<(string, string), Aws.Object>)
    requires Answered(s, handler, key, responseKey, f, files[f := c], objects, objects')
    ensures Answered(s, handler, key, responseKey, f, files, objects, objects')
  {
    var d := objects[(s.bucket, key)].content;
    assert files[f := c][f := d] == files[f := d];
  }

  /** Download and handler: when this ends without error the handler answered the request; with
      an error the store is as before. The scratch file is gone either way. */
  lemma WorkingResult(s: Setup, op: string, handler: Handler, key: string, f: string, w: Aws.World)
    ensures var r := Working(s, op, handler, key, f, w);
      && f !in r.world.files
      && r.world.queues == w.queues
      && (r.err.Some? ==> r.world.objects == w.objects)
      && (r.err.None? ==> Answered(s, handler, key, Keys.ResponseKey(op, Base(key)), f, w.files, w.objects, r.world.objects))
  {
    var g := Aws.GetObject(w, s.bucket, key, f);
    if g.result.Ok? {
      var input := Input(f, g.result.value);
      InvokingResult(s, op, handler, input, Keys.ResponseKey(op, Base(key)), g.world);
    }
  }

  /** What the server leaves behind for a message it took: the scratch file (fresh when it was
      created) is gone, the queues are untouched, and a failure leaves the store as it was. */
  lemma ProcessingCleansUp(s: Setup, op: string, handler: Handler, key: string, w: Aws.World)
    ensures var r := Processing(s, op, handler, key, w);
      && (Aws.TempName(s.tempDir, w.nonce, "*_" + Base(key)) !in w.files ==>
            Aws.TempName(s.tempDir, w.nonce, "*_" + Base(key)) !in r.world.files)
      && r.world.queues == w.queues
      && (r.err.Some? ==> r.world.objects == w.objects)
  {
    var t := Aws.CreateTemp(w, s.tempDir, "*_" + Base(key));
    if t.result.Ok? {
      WorkingResult(s, op, handler, key, t.result.value, t.world);
    }
  }

  /** A message the server took and processed without error: the request object was there, the
      handler accepted the scratch file holding its bytes together with its metadata, and the
      handler's output file and metadata now sit under the response key. */
  lemma ProcessingUploads(s: Setup, op: string, handler: Handler, key: string, w: Aws.World)
    requires Processing(s, op, handler, key, w).err.None?
    ensures Answered(s, handler, key, Keys.ResponseKey(op, Base(key)), Aws.TempName(s.tempDir, w.nonce, "*_" + Base(key)),
                     w.files, w.objects, Processing(s, op, handler, key, w).world.objects)
  {
    var t := Aws.CreateTemp(w, s.tempDir, "*_" + Base(key));
    ProcessingIsWorking(s, op, handler, key, w);
    var f := t.result.value;
    WorkingResult(s, op, handler, key, f, t.world);
    AnsweredOverwritesScratch(s, handler, key, Keys.ResponseKey(op, Base(key)), f, w.files, [], w.objects,
      Processing(s, op, handler, key, w).world.objects);
  }

  /** Processing is Working on the scratch file, once that was created. */
  lemma ProcessingIsWorking(s: Setup, op: string, handler: Handler, key: string, w: Aws.World)
    ensures var t := Aws.CreateTemp(w, s.tempDir, "*_" + Base(key));
      && (t.result.Err? ==> Processing(s, op, handler, key, w).err.Some?)
      && (t.result.Ok? ==>
            && t.result.value == Aws.TempName(s.tempDir, w.nonce, "*_" + Base(key))
            && t.world.objects == w.objects
            && t.world.files == w.files[t.result.value := []]
            && Processing(s, op, handler, key, w) == Working(s, op, handler, key, t.result.value, t.world))
  {
  }

  /** A message the server takes leaves the queue for good before its processing: unless the
      delete fails (which ends the batch with that error and changes nothing), no message with
      its receipt handle is left in the queue, whatever the processing then does. */
  lemma TakenMessageGone(s: Setup, m: Common.Message, op: string, w: Aws.World)
    requires op in s.handlers
    ensures var r := Taking(s, m, op, w);
      && (DeleteMessage(s.queue, m.receiptHandle) in w.faults ==>
            r.err == Some(CallFailed(DeleteMessage(s.queue, m.receiptHandle))) && r.world == w)
      && (DeleteMessage(s.queue, m.receiptHandle) !in w.faults ==>
            forall e | e in Aws.Entries(r.world, s.queue) :: e.handle != m.receiptHandle)
  {
    var d := Aws.DeleteMessage(w, s.queue, m.receiptHandle);
    Aws.DeleteMessageRemoves(w, s.queue, m.receiptHandle);
    if d.result.Ok? {
      ProcessingCleansUp(s, op, s.handlers[op], m.key, d.world);
    }
  }

  /** A message for an operation without a handler is released: it stays in the queue, visible
      again at once for another server, and nothing else happens to it. */
  lemma PassedMessageReleased(s: Setup, m: Common.Message, w: Aws.World)
    requires Passes(s, m)
    requires ChangeMessageVisibility(s.queue, m.receiptHandle) !in w.faults
    ensures var r := Handling(s, m, w);
      && r.err.None? && r.steps == [Common.Released(m)]
      && r.world.objects == w.objects && r.world.files == w.files
      && |Aws.Entries(r.world, s.queue)| == |Aws.Entries(w, s.queue)|
      && forall i | 0 <= i < |Aws.Entries(w, s.queue)| ::
           && Aws.Entries(r.world, s.queue)[i].body == Aws.Entries(w, s.queue)[i].body
           && (Aws.Entries(w, s.queue)[i].handle == m.receiptHandle ==> Aws.Entries(r.world, s.queue)[i].hiddenFor == 0)
  {
    Aws.ChangeMessageVisibilityResets(w, s.queue, m.receiptHandle, 0);
  }
}

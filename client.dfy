/** The client: it uploads a request object under a key built around a fresh call id, then
    listens on its queue until the notification of an object whose key contains that id comes
    in, and downloads that object as the call's Output. */
module Client {
  import opened Types
  import opened Paths
  import Aws
  import Common
  import Keys

  /** The timeout NewClient puts in place of a zero one: five minutes. */
  const DefaultTimeout: int := 5 * 60 * Common.Second

  datatype ClientOptions = ClientOptions(queue: string, timeout: int, config: Common.AwsConfig)

  /** What a running client works with: its bucket, its response queue and its scratch directory. */
  datatype Setup = Setup(bucket: string, queue: string, tempDir: string)

  /** Where a part of a call leaves it: its run, the Output it holds so far, and whether the wait
      for the response is over (by an error, by the response, or by the deadline). */
  datatype Outcome = Outcome(run: Common.Run, output: Output, over: bool)

  /** o, preceded by the steps done before it. */
  function After(before: seq<Common.Step>, o: Outcome): Outcome
  {
    Outcome(Common.Then(before, o.run), o.output, o.over)
  }

  /** After in two goes is After at once. */
  lemma AfterAfter(a: seq<Common.Step>, b: seq<Common.Step>, o: Outcome)
    ensures After(a, After(b, o)) == After(a + b, o)
  {
    Common.ThenThen(a, b, o.run);
  }

  /** The download of the response under key into a fresh scratch file, which becomes the
      Output's file; the response and the request objects are deleted afterwards. */
  function Fetching(c: Setup, key: string, requestKey: string, w: Aws.World): Outcome
  {
    var t := Aws.CreateTemp(w, c.tempDir, "*_" + Base(key));
    if t.result.Err? then Outcome(Common.Run(Some(TempFile(t.result.error)), t.world, []), ZeroOutput, true)
    else Downloading(c, key, requestKey, t.result.value, t.world)
  }

  /** Fetching is Downloading into the scratch file, once that was created. */
  lemma FetchingIsDownloading(c: Setup, key: string, requestKey: string, w: Aws.World)
    ensures var t := Aws.CreateTemp(w, c.tempDir, "*_" + Base(key));
      Fetching(c, key, requestKey, w) ==
        if t.result.Err? then Outcome(Common.Run(Some(TempFile(t.result.error)), t.world, []), ZeroOutput, true)
        else Downloading(c, key, requestKey, t.result.value, t.world)
  {
  }

  /** Fetching once the scratch file f exists: the Output names f as soon as it exists and takes
      the object's metadata once it is downloaded; errors of the two deletions are ignored. */
  function Downloading(c: Setup, key: string, requestKey: string, f: string, w: Aws.World): Outcome
  {
    var g := Aws.GetObject(w, c.bucket, key, f);
    if g.result.Err? then Outcome(Common.Run(Some(g.result.error), g.world, [Common.Downloaded(key)]), Output(f, map[]), true)
    else
      var d := Aws.DeleteObject(g.world, c.bucket, key);
      var e := Aws.DeleteObject(d.world, c.bucket, requestKey);
      Outcome(Common.Run(None, e.world, [Common.Downloaded(key), Common.ObjectDeleted(key), Common.ObjectDeleted(requestKey)]),
              Output(f, g.result.value), true)
  }

  /** The response message m: deleted from the queue, then its object fetched. */
  function Claiming(c: Setup, m: Common.Message, requestKey: string, w: Aws.World): Outcome
  {
    var d := Aws.DeleteMessage(w, c.queue, m.receiptHandle);
    if d.result.Err? then Outcome(Common.Run(Some(d.result.error), d.world, [Common.Deleted(m)]), ZeroOutput, true)
    else After([Common.Deleted(m)], Fetching(c, m.key, requestKey, d.world))
  }

  /** One received message: a foreign bucket ends the call with an error; a key without the
      call's id is released for the client it belongs to, and the wait goes on; a key with the
      id is the response. */
  function Examining(c: Setup, id: string, requestKey: string, m: Common.Message, w: Aws.World): Outcome
  {
    if m.bucket != c.bucket then Outcome(Common.Run(Some(BucketMismatch(c.bucket, m.bucket)), w, []), ZeroOutput, true)
    else if !Keys.Matches(m.key, id) then
      var r := Aws.ChangeMessageVisibility(w, c.queue, m.receiptHandle, 0);
      Outcome(Common.Run(ErrorOf(r.result), r.world, [Common.Released(m)]), ZeroOutput, r.result.Err?)
    else Claiming(c, m, requestKey, w)
  }

  /** The messages of one batch examined in order until the wait is over. */
  function Scanning(c: Setup, id: string, requestKey: string, ms: seq<Common.Message>, w: Aws.World): Outcome
    decreases |ms|
  {
    if ms == [] then Outcome(Common.Run(None, w, []), ZeroOutput, false)
    else
      var x := Examining(c, id, requestKey, ms[0], w);
      if x.over then x else After(x.run.steps, Scanning(c, id, requestKey, ms[1..], x.run.world))
  }

  /** Scanning from position i: message i is examined, and the rest follows unless that ended the wait. */
  lemma ScanningFrom(c: Setup, id: string, requestKey: string, ms: seq<Common.Message>, i: nat, w: Aws.World)
    requires i < |ms|
    ensures var x := Examining(c, id, requestKey, ms[i], w);
      Scanning(c, id, requestKey, ms[i..], w) ==
        if x.over then x else After(x.run.steps, Scanning(c, id, requestKey, ms[i + 1..], x.run.world))
  {
    assert ms[i..][1..] == ms[i + 1..];
  }

  /** One round of the wait: one receive on the response queue, then its batch. */
  function Listening(c: Setup, id: string, requestKey: string, w: Aws.World): Outcome
  {
    var e := Common.Receiving(w, c.queue);
    if e.result.Err? then Outcome(Common.Run(Some(e.result.error), e.world, [Common.Received]), ZeroOutput, true)
    else After([Common.Received], Scanning(c, id, requestKey, e.result.value, e.world))
  }

  /** The wait while the deadline leaves `polls` more rounds: a passed deadline ends it without
      error and without Output; otherwise rounds run until one ends the wait. */
  function Waiting(c: Setup, id: string, requestKey: string, polls: nat, w: Aws.World): Outcome
    decreases polls
  {
    if polls == 0 then Outcome(Common.Run(None, w, []), ZeroOutput, true)
    else
      var l := Listening(c, id, requestKey, w);
      if l.over then l else After(l.run.steps, Waiting(c, id, requestKey, polls - 1, l.run.world))
  }

  /** ExecuteFilename of op on filename, as call id: the file is uploaded without metadata under
      the request key, then the wait; every error comes back wrapped as "apply: ..." with the
      zero Output. */
  function Execution(c: Setup, op: string, id: string, filename: string, polls: nat, w: Aws.World): Outcome
  {
    var key := Keys.RequestKey(op, id, filename);
    var u := Common.Uploading(w, c.bucket, filename, key, map[]);
    if u.result.Err? then Outcome(Common.Run(Some(Apply(u.result.error)), u.world, [Common.Uploaded(key)]), ZeroOutput, true)
    else
      var r := Waiting(c, id, key, polls, u.world);
      if r.run.err.Some? then
        Outcome(Common.Run(Some(Apply(r.run.err.value)), r.run.world, [Common.Uploaded(key)] + r.run.steps), ZeroOutput, true)
      else After([Common.Uploaded(key)], r)
  }

  /** The objects the wait has fetched from: a key that contains the call's id names an object
      of the bucket whose bytes the Output's file holds and whose metadata the Output carries. */
  ghost predicate Delivered(bucket: string, id: string, objects: map<(string, string), Aws.Object>,
                            files: map<string, Blob>, output: Output)
  {
    exists key :: Keys.Matches(key, id) && Holds(bucket, key, objects, files, output)
  }

  /** The Output is a copy of the object under key: its file holds the object's bytes and it
      carries the object's metadata. */
  ghost predicate Holds(bucket: string, key: string, objects: map<(string, string), Aws.Object>,
                        files: map<string, Blob>, output: Output)
  {
    && (bucket, key) in objects
    && output.metadata == objects[(bucket, key)].metadata
    && output.filename in files
    && files[output.filename] == objects[(bucket, key)].content
  }

  /** A fetch ends the wait. It fails exactly when the scratch file cannot be created or the
      download fails: the errors of the two deletions are ignored. Without error it hands out a
      new file holding the object's bytes and the object's metadata, and deletes the response and
      the request objects unless those deletions fail; with an error it leaves the store as it
      was. It never touches a queue. */
  lemma FetchingDelivers(c: Setup, key: string, requestKey: string, w: Aws.World)
    ensures var x := Fetching(c, key, requestKey, w);
      && x.over
      && x.run.world.queues == w.queues
      && x.run.world.faults == w.faults
      && (x.run.err.Some? ==> x.run.world.objects == w.objects)
      && (x.run.err.None? ==>
            && x.output.filename == Aws.TempName(c.tempDir, w.nonce, "*_" + Base(key))
            && x.output.filename !in w.files
            && Holds(c.bucket, key, w.objects, x.run.world.files, x.output))
      && (x.run.err.None? <==>
            && Aws.CreateTemp(w, c.tempDir, "*_" + Base(key)).result.Ok?
            && GetObject(c.bucket, key) !in w.faults && (c.bucket, key) in w.objects)
      && (x.run.err.Some? ==> x.run.err.value.TempFile? || x.run.err == Some(CallFailed(GetObject(c.bucket, key))))
      && (x.run.err.None? && DeleteObject(c.bucket, key) !in w.faults && DeleteObject(c.bucket, requestKey) !in w.faults ==>
            (c.bucket, key) !in x.run.world.objects && (c.bucket, requestKey) !in x.run.world.objects)
  {
  }

  /** A step of the scan of batch ms: a release of a message of ms whose key lacks the id, a
      delete of one whose key has it, or a step of the fetch; never a receive, an upload or a
      handler call. */
  ghost predicate ScanStep(c: Setup, id: string, ms: seq<Common.Message>, st: Common.Step)
  {
    match st
    case Released(m) => m in ms && m.bucket == c.bucket && !Keys.Matches(m.key, id)
    case Deleted(m) => m in ms && m.bucket == c.bucket && Keys.Matches(m.key, id)
    case Downloaded(_) => true
    case ObjectDeleted(_) => true
    case _ => false
  }

  /** Examining a message: its steps are scan steps with at most one delete; the wait goes on only
      after a release without error of a message of this bucket whose key lacks the id, which
      leaves the store as it was. */
  lemma ExaminingSteps(c: Setup, id: string, requestKey: string, m: Common.Message, w: Aws.World)
    ensures var x := Examining(c, id, requestKey, m, w);
      && (forall i | 0 <= i < |x.run.steps| :: ScanStep(c, id, [m], x.run.steps[i]))
      && Common.Occurrences(x.run.steps, Common.IsDeleted) <= 1
      && (!x.over ==>
            && x.run.err.None? && x.run.steps == [Common.Released(m)]
            && m.bucket == c.bucket && !Keys.Matches(m.key, id)
            && x.run.world.objects == w.objects)
  {
    if m.bucket == c.bucket {
      if !Keys.Matches(m.key, id) {
        Aws.ChangeMessageVisibilityResets(w, c.queue, m.receiptHandle, 0);
        assert Common.Occurrences([Common.Released(m)], Common.IsDeleted) == 0;
      } else {
        ClaimingSteps(c, m, requestKey, w);
        ClaimIsScan(c, id, m, Claiming(c, m, requestKey, w).run.steps);
      }
    }
  }

  /** Examining a message decides it. A message of another bucket fails the call with
      BucketMismatch and leaves the world as it was. A message of this bucket whose key lacks the
      id is released: unless that release fails, it stays in the queue at its place with its
      body, visible at once, and the wait goes on. A message whose key holds the id ends the wait
      and is deleted before anything else: unless that delete fails, no message with its receipt
      handle is left in the queue, and every other message is. */
  lemma ExaminingDecides(c: Setup, id: string, requestKey: string, m: Common.Message, w: Aws.World)
    ensures var x := Examining(c, id, requestKey, m, w);
      var q := c.queue;
      var h := m.receiptHandle;
      && (m.bucket != c.bucket ==>
            x == Outcome(Common.Run(Some(BucketMismatch(c.bucket, m.bucket)), w, []), ZeroOutput, true))
      && (m.bucket == c.bucket && !Keys.Matches(m.key, id) ==>
            && x.run.steps == [Common.Released(m)] && x.output == ZeroOutput
            && (x.over <==> x.run.err.Some?)
            && (x.run.err.Some? <==> ChangeMessageVisibility(q, h) in w.faults)
            && (x.run.err.Some? ==> x.run.world == w)
            && (x.run.err.None? ==>
                  && Aws.OnlyQueueChanged(w, x.run.world, q)
                  && |Aws.Entries(x.run.world, q)| == |Aws.Entries(w, q)|
                  && forall i | 0 <= i < |Aws.Entries(w, q)| ::
                       Aws.Entries(x.run.world, q)[i] ==
                         if Aws.Entries(w, q)[i].handle == h then Aws.Entries(w, q)[i].(hiddenFor := 0)
                         else Aws.Entries(w, q)[i]))
      && (m.bucket == c.bucket && Keys.Matches(m.key, id) ==>
            && x.over && x.run.steps != [] && x.run.steps[0] == Common.Deleted(m)
            && (DeleteMessage(q, h) in w.faults ==>
                  x.run.err.Some? && x.run.world == w && x.run.steps == [Common.Deleted(m)])
            && (DeleteMessage(q, h) !in w.faults ==>
                  forall e :: e in Aws.Entries(x.run.world, q) <==> e in Aws.Entries(w, q) && e.handle != h))
  {
    if m.bucket == c.bucket {
      if !Keys.Matches(m.key, id) {
        Aws.ChangeMessageVisibilityResets(w, c.queue, m.receiptHandle, 0);
      } else {
        ClaimingSteps(c, m, requestKey, w);
        var d := Aws.DeleteMessage(w, c.queue, m.receiptHandle);
        Aws.DeleteMessageRemoves(w, c.queue, m.receiptHandle);
        if d.result.Ok? {
          FetchingDelivers(c, m.key, requestKey, d.world);
        }
      }
    }
  }

  lemma ClaimIsScan(c: Setup, id: string, m: Common.Message, st: seq<Common.Step>)
    requires m.bucket == c.bucket && Keys.Matches(m.key, id)
    requires st != [] && st[0] == Common.Deleted(m)
    requires forall i | 1 <= i < |st| :: st[i].Downloaded? || st[i].ObjectDeleted?
    ensures forall i | 0 <= i < |st| :: ScanStep(c, id, [m], st[i])
  {
  }

  /** Claiming the response deletes its message first and then only downloads and deletes objects. */
  lemma ClaimingSteps(c: Setup, m: Common.Message, requestKey: string, w: Aws.World)
    ensures var st := Claiming(c, m, requestKey, w).run.steps;
      && Claiming(c, m, requestKey, w).over
      && st != [] && st[0] == Common.Deleted(m)
      && (forall i | 1 <= i < |st| :: st[i].Downloaded? || st[i].ObjectDeleted?)
      && Common.Occurrences(st, Common.IsDeleted) == 1
  {
    var d := Aws.DeleteMessage(w, c.queue, m.receiptHandle);
    assert Common.Occurrences([Common.Deleted(m)], Common.IsDeleted) == 1;
    if d.result.Ok? {
      var f := Fetching(c, m.key, requestKey, d.world);
      FetchingDelivers(c, m.key, requestKey, d.world);
      FetchingSteps(c, m.key, requestKey, d.world);
      Common.OccurrencesConcat([Common.Deleted(m)], f.run.steps, Common.IsDeleted);
      var st := [Common.Deleted(m)] + f.run.steps;
      assert forall i | 1 <= i < |st| :: st[i] == f.run.steps[i - 1];
    }
  }

  /** A fetch downloads and deletes objects, nothing else. */
  lemma FetchingSteps(c: Setup, key: string, requestKey: string, w: Aws.World)
    ensures var st := Fetching(c, key, requestKey, w).run.steps;
      && (forall i | 0 <= i < |st| :: st[i].Downloaded? || st[i].ObjectDeleted?)
      && Common.Occurrences(st, Common.IsDeleted) == 0
  {
    var st := Fetching(c, key, requestKey, w).run.steps;
    Common.NoneCounted(st, Common.IsDeleted);
  }

  /** The scan of a batch: every step is a scan step of the batch, at most one message is
      deleted, and the wait goes on only when none was, without error. */
  lemma {:induction false} ScanningSteps(c: Setup, id: string, requestKey: string, ms: seq<Common.Message>, w: Aws.World)
    ensures var x := Scanning(c, id, requestKey, ms, w);
      && (forall i | 0 <= i < |x.run.steps| :: ScanStep(c, id, ms, x.run.steps[i]))
      && Common.Occurrences(x.run.steps, Common.IsDeleted) <= 1
      && (!x.over ==> x.run.err.None? && Common.Occurrences(x.run.steps, Common.IsDeleted) == 0)
    decreases |ms|
  {
    if ms != [] {
      var x := Examining(c, id, requestKey, ms[0], w);
      ExaminingSteps(c, id, requestKey, ms[0], w);
      assert forall i | 0 <= i < |x.run.steps| :: ScanStep(c, id, ms, x.run.steps[i]) by {
        forall i | 0 <= i < |x.run.steps| ensures ScanStep(c, id, ms, x.run.steps[i]) {
          assert ScanStep(c, id, [ms[0]], x.run.steps[i]);
        }
      }
      if !x.over {
        var rest := Scanning(c, id, requestKey, ms[1..], x.run.world);
        ScanningSteps(c, id, requestKey, ms[1..], x.run.world);
        Common.OccurrencesConcat(x.run.steps, rest.run.steps, Common.IsDeleted);
        var st := x.run.steps + rest.run.steps;
        forall i | 0 <= i < |st| ensures ScanStep(c, id, ms, st[i]) {
          if i >= |x.run.steps| {
            assert st[i] == rest.run.steps[i - |x.run.steps|];
            assert ScanStep(c, id, ms[1..], st[i]);
          }
        }
      }
    }
  }

  /** Once a message is deleted, the scan only downloads and deletes objects: no later message
      of the batch is released or deleted. */
  ghost predicate NothingAfterDelete(st: seq<Common.Step>)
  {
    forall i, j | 0 <= i < j < |st| && st[i].Deleted? :: st[j].Downloaded? || st[j].ObjectDeleted?
  }

  /** The first message whose key holds the id is the last message the scan touches. */
  lemma {:induction false} ScanningStopsAtMatch(c: Setup, id: string, requestKey: string, ms: seq<Common.Message>, w: Aws.World)
    ensures NothingAfterDelete(Scanning(c, id, requestKey, ms, w).run.steps)
    decreases |ms|
  {
    if ms != [] {
      var m := ms[0];
      var x := Examining(c, id, requestKey, m, w);
      ExaminingSteps(c, id, requestKey, m, w);
      if !x.over {
        var rest := Scanning(c, id, requestKey, ms[1..], x.run.world);
        ScanningStopsAtMatch(c, id, requestKey, ms[1..], x.run.world);
        ReleaseBeforeNothingAfterDelete(m, rest.run.steps);
      } else if m.bucket == c.bucket && Keys.Matches(m.key, id) {
        ClaimingSteps(c, m, requestKey, w);
        OneDeleteFirst(Claiming(c, m, requestKey, w).run.steps);
      }
    }
  }

  lemma ReleaseBeforeNothingAfterDelete(m: Common.Message, st: seq<Common.Step>)
    requires NothingAfterDelete(st)
    ensures NothingAfterDelete([Common.Released(m)] + st)
  {
    var all := [Common.Released(m)] + st;
    forall i, j | 0 <= i < j < |all| && all[i].Deleted? ensures all[j].Downloaded? || all[j].ObjectDeleted? {
      assert all[i] == st[i - 1] && all[j] == st[j - 1];
    }
  }

  lemma OneDeleteFirst(st: seq<Common.Step>)
    requires forall i | 1 <= i < |st| :: st[i].Downloaded? || st[i].ObjectDeleted?
    ensures NothingAfterDelete(st)
  {
  }

  /** The message the scan deletes is the first of the batch whose key holds the id: it is
      deleted at its own position, and every message before it was of this bucket, lacked the
      id, and was released, in order. */
  lemma {:induction false} ScanningFirstMatch(c: Setup, id: string, requestKey: string, ms: seq<Common.Message>, w: Aws.World)
    ensures var st := Scanning(c, id, requestKey, ms, w).run.steps;
      forall k | 0 <= k < |st| && st[k].Deleted? ::
        && k < |ms| && st[k] == Common.Deleted(ms[k])
        && ms[k].bucket == c.bucket && Keys.Matches(ms[k].key, id)
        && forall j | 0 <= j < k :: st[j] == Common.Released(ms[j]) && ms[j].bucket == c.bucket && !Keys.Matches(ms[j].key, id)
    decreases |ms|
  {
    if ms != [] {
      var m := ms[0];
      var x := Examining(c, id, requestKey, m, w);
      ExaminingSteps(c, id, requestKey, m, w);
      if !x.over {
        var rest := Scanning(c, id, requestKey, ms[1..], x.run.world);
        ScanningFirstMatch(c, id, requestKey, ms[1..], x.run.world);
        var st := x.run.steps + rest.run.steps;
        forall k | 0 <= k < |st| && st[k].Deleted?
          ensures && k < |ms| && st[k] == Common.Deleted(ms[k])
                  && ms[k].bucket == c.bucket && Keys.Matches(ms[k].key, id)
                  && forall j | 0 <= j < k :: st[j] == Common.Released(ms[j]) && ms[j].bucket == c.bucket && !Keys.Matches(ms[j].key, id)
        {
          assert st[k] == rest.run.steps[k - 1] && ms[k] == ms[1..][k - 1];
          forall j | 0 <= j < k
            ensures st[j] == Common.Released(ms[j]) && ms[j].bucket == c.bucket && !Keys.Matches(ms[j].key, id)
          {
            if j > 0 {
              assert st[j] == rest.run.steps[j - 1] && ms[j] == ms[1..][j - 1];
            }
          }
        }
      } else if m.bucket == c.bucket && Keys.Matches(m.key, id) {
        ClaimingSteps(c, m, requestKey, w);
      }
    }
  }

  /** The first message whose key holds the id ends the scan: the wait goes on after a batch only
      when every message of it was of this bucket, lacked the id, and was released, in order. */
  lemma {:induction false} ScanningPasses(c: Setup, id: string, requestKey: string, ms: seq<Common.Message>, w: Aws.World)
    ensures var x := Scanning(c, id, requestKey, ms, w);
      !x.over ==>
        && x.run.err.None?
        && x.run.world.objects == w.objects
        && |x.run.steps| == |ms|
        && forall i | 0 <= i < |ms| ::
             x.run.steps[i] == Common.Released(ms[i]) && ms[i].bucket == c.bucket && !Keys.Matches(ms[i].key, id)
    decreases |ms|
  {
    if ms != [] {
      var x := Examining(c, id, requestKey, ms[0], w);
      ExaminingSteps(c, id, requestKey, ms[0], w);
      if !x.over {
        var rest := Scanning(c, id, requestKey, ms[1..], x.run.world);
        ScanningPasses(c, id, requestKey, ms[1..], x.run.world);
        if !rest.over {
          var st := x.run.steps + rest.run.steps;
          forall i | 0 <= i < |ms|
            ensures st[i] == Common.Released(ms[i]) && ms[i].bucket == c.bucket && !Keys.Matches(ms[i].key, id)
          {
            if i > 0 {
              assert ms[i] == ms[1..][i - 1];
              assert st[i] == rest.run.steps[i - 1];
            }
          }
        }
      }
    }
  }

  /** A scan that ends the wait without error has fetched an object whose key holds the id, from
      the store as the scan found it. */
  lemma {:induction false} ScanningDelivers(c: Setup, id: string, requestKey: string, ms: seq<Common.Message>, w: Aws.World)
    ensures var x := Scanning(c, id, requestKey, ms, w);
      x.over && x.run.err.None? ==> Delivered(c.bucket, id, w.objects, x.run.world.files, x.output)
    decreases |ms|
  {
    if ms != [] {
      var m := ms[0];
      var x := Examining(c, id, requestKey, m, w);
      ExaminingSteps(c, id, requestKey, m, w);
      if !x.over {
        ScanningDelivers(c, id, requestKey, ms[1..], x.run.world);
      } else if m.bucket == c.bucket && Keys.Matches(m.key, id) {
        var d := Aws.DeleteMessage(w, c.queue, m.receiptHandle);
        Aws.DeleteMessageRemoves(w, c.queue, m.receiptHandle);
        if d.result.Ok? {
          FetchingDelivers(c, m.key, requestKey, d.world);
        }
      }
    }
  }

  /** A scan that ends the wait without error ended it by claiming the response: exactly one
      message was deleted, and the Output names the fetched file. */
  lemma {:induction false} ScanningClaims(c: Setup, id: string, requestKey: string, ms: seq<Common.Message>, w: Aws.World)
    ensures var x := Scanning(c, id, requestKey, ms, w);
      x.over && x.run.err.None? ==>
        Common.Occurrences(x.run.steps, Common.IsDeleted) == 1 && x.output != ZeroOutput
    decreases |ms|
  {
    if ms != [] {
      var m := ms[0];
      var x := Examining(c, id, requestKey, m, w);
      ExaminingSteps(c, id, requestKey, m, w);
      if !x.over {
        var rest := Scanning(c, id, requestKey, ms[1..], x.run.world);
        ScanningClaims(c, id, requestKey, ms[1..], x.run.world);
        assert Common.Occurrences([Common.Released(m)], Common.IsDeleted) == 0;
        Common.OccurrencesConcat(x.run.steps, rest.run.steps, Common.IsDeleted);
      } else if m.bucket == c.bucket && Keys.Matches(m.key, id) {
        ClaimingSteps(c, m, requestKey, w);
        var d := Aws.DeleteMessage(w, c.queue, m.receiptHandle);
        if d.result.Ok? {
          FetchingDelivers(c, m.key, requestKey, d.world);
          assert |Aws.TempName(c.tempDir, d.world.nonce, "*_" + Base(m.key))| > 0;
        }
      }
    }
  }

  /** One round of the wait receives once; it deletes at most one message, none when the wait
      goes on, and then the store is as it was. */
  lemma ListeningSteps(c: Setup, id: string, requestKey: string, w: Aws.World)
    ensures var l := Listening(c, id, requestKey, w);
      && Common.Occurrences(l.run.steps, Common.IsReceived) == 1
      && Common.Occurrences(l.run.steps, Common.IsDeleted) <= 1
      && (!l.over ==>
            && l.run.err.None? && Common.Occurrences(l.run.steps, Common.IsDeleted) == 0
            && l.run.world.objects == w.objects)
  {
    var e := Common.Receiving(w, c.queue);
    assert Common.Occurrences([Common.Received], Common.IsReceived) == 1;
    assert Common.Occurrences([Common.Received], Common.IsDeleted) == 0;
    if e.result.Ok? {
      Common.ReceivingBounded(w, c.queue);
      var sc := Scanning(c, id, requestKey, e.result.value, e.world);
      ScanningSteps(c, id, requestKey, e.result.value, e.world);
      ScanningPasses(c, id, requestKey, e.result.value, e.world);
      forall i | 0 <= i < |sc.run.steps| ensures !Common.IsReceived(sc.run.steps[i]) {
        assert ScanStep(c, id, e.result.value, sc.run.steps[i]);
      }
      Common.NoneCounted(sc.run.steps, Common.IsReceived);
      Common.OccurrencesConcat([Common.Received], sc.run.steps, Common.IsReceived);
      Common.OccurrencesConcat([Common.Received], sc.run.steps, Common.IsDeleted);
    }
  }

  /** A round that ends the wait without error has fetched an object whose key holds the id. */
  lemma ListeningDelivers(c: Setup, id: string, requestKey: string, w: Aws.World)
    ensures var l := Listening(c, id, requestKey, w);
      l.over && l.run.err.None? ==> Delivered(c.bucket, id, w.objects, l.run.world.files, l.output)
  {
    var e := Common.Receiving(w, c.queue);
    if e.result.Ok? {
      Common.ReceivingBounded(w, c.queue);
      ScanningDelivers(c, id, requestKey, e.result.value, e.world);
    }
  }

  /** A round that ends the wait without error deleted exactly one message and hands out a file. */
  lemma ListeningClaims(c: Setup, id: string, requestKey: string, w: Aws.World)
    ensures var l := Listening(c, id, requestKey, w);
      l.over && l.run.err.None? ==> Common.Occurrences(l.run.steps, Common.IsDeleted) == 1 && l.output != ZeroOutput
  {
    var e := Common.Receiving(w, c.queue);
    if e.result.Ok? {
      var sc := Scanning(c, id, requestKey, e.result.value, e.world);
      ScanningClaims(c, id, requestKey, e.result.value, e.world);
      assert Common.Occurrences([Common.Received], Common.IsDeleted) == 0;
      Common.OccurrencesConcat([Common.Received], sc.run.steps, Common.IsDeleted);
    }
  }

  /** A step of the wait: a receive, a release of a message of this bucket whose key lacks the
      id, a delete of one whose key holds it, or a step of the fetch. */
  ghost predicate WaitStep(c: Setup, id: string, st: Common.Step)
  {
    match st
    case Received => true
    case Released(m) => m.bucket == c.bucket && !Keys.Matches(m.key, id)
    case Deleted(m) => m.bucket == c.bucket && Keys.Matches(m.key, id)
    case Downloaded(_) => true
    case ObjectDeleted(_) => true
    case _ => false
  }

  /** Steps without a delete, then steps with nothing after a delete: nothing after a delete. */
  lemma NothingAfterDeleteConcat(a: seq<Common.Step>, b: seq<Common.Step>)
    requires forall i | 0 <= i < |a| :: !a[i].Deleted?
    requires NothingAfterDelete(b)
    ensures NothingAfterDelete(a + b)
  {
    var all := a + b;
    forall i, j | 0 <= i < j < |all| && all[i].Deleted? ensures all[j].Downloaded? || all[j].ObjectDeleted? {
      assert i >= |a| && all[i] == b[i - |a|] && all[j] == b[j - |a|];
    }
  }

  /** Steps of the wait, with nothing but fetching after a delete. */
  ghost predicate Decided(c: Setup, id: string, st: seq<Common.Step>)
  {
    && (forall i | 0 <= i < |st| :: WaitStep(c, id, st[i]))
    && NothingAfterDelete(st)
  }

  /** Decided steps without a delete, followed by decided steps, are decided. */
  lemma DecidedConcat(c: Setup, id: string, a: seq<Common.Step>, b: seq<Common.Step>)
    requires Decided(c, id, a) && Decided(c, id, b)
    requires Common.Occurrences(a, Common.IsDeleted) == 0
    ensures Decided(c, id, a + b)
  {
    Common.CountedNone(a, Common.IsDeleted);
    NothingAfterDeleteConcat(a, b);
    var st := a + b;
    forall i | 0 <= i < |st| ensures WaitStep(c, id, st[i]) {
      if i < |a| {
        assert st[i] == a[i];
      } else {
        assert st[i] == b[i - |a|];
      }
    }
  }

  /** A round of the wait decides each message as Examining does, and once it deletes a message
      it only fetches. */
  lemma ListeningDecides(c: Setup, id: string, requestKey: string, w: Aws.World)
    ensures Decided(c, id, Listening(c, id, requestKey, w).run.steps)
  {
    var e := Common.Receiving(w, c.queue);
    if e.result.Ok? {
      var ms := e.result.value;
      var sc := Scanning(c, id, requestKey, ms, e.world);
      ScanningSteps(c, id, requestKey, ms, e.world);
      ScanningStopsAtMatch(c, id, requestKey, ms, e.world);
      NothingAfterDeleteConcat([Common.Received], sc.run.steps);
      var st := [Common.Received] + sc.run.steps;
      forall i | 1 <= i < |st| ensures WaitStep(c, id, st[i]) {
        assert st[i] == sc.run.steps[i - 1];
        assert ScanStep(c, id, ms, sc.run.steps[i - 1]);
      }
    }
  }

  /** The wait receives at most once per round the deadline leaves, deletes at most one message,
      and without error hands out either the zero Output (the deadline passed) or a copy of an
      object whose key holds the id. */
  lemma {:induction false} WaitingSteps(c: Setup, id: string, requestKey: string, polls: nat, w: Aws.World)
    ensures var x := Waiting(c, id, requestKey, polls, w);
      && x.over
      && Common.Occurrences(x.run.steps, Common.IsReceived) <= polls
      && Common.Occurrences(x.run.steps, Common.IsDeleted) <= 1
      && (x.run.err.None? && x.output == ZeroOutput ==>
            Common.Occurrences(x.run.steps, Common.IsReceived) == polls
            && Common.Occurrences(x.run.steps, Common.IsDeleted) == 0)
      && (x.run.err.None? && x.output != ZeroOutput ==>
            Common.Occurrences(x.run.steps, Common.IsDeleted) == 1
            && Delivered(c.bucket, id, w.objects, x.run.world.files, x.output))
    decreases polls
  {
    if polls > 0 {
      var l := Listening(c, id, requestKey, w);
      ListeningSteps(c, id, requestKey, w);
      ListeningDelivers(c, id, requestKey, w);
      ListeningClaims(c, id, requestKey, w);
      if !l.over {
        var rest := Waiting(c, id, requestKey, polls - 1, l.run.world);
        WaitingSteps(c, id, requestKey, polls - 1, l.run.world);
        Common.OccurrencesConcat(l.run.steps, rest.run.steps, Common.IsReceived);
        Common.OccurrencesConcat(l.run.steps, rest.run.steps, Common.IsDeleted);
      }
    }
  }

  /** Every round of the wait decides its messages as Examining does, and once a message is
      deleted the wait only fetches. */
  lemma {:induction false} WaitingDecides(c: Setup, id: string, requestKey: string, polls: nat, w: Aws.World)
    ensures Decided(c, id, Waiting(c, id, requestKey, polls, w).run.steps)
    decreases polls
  {
    if polls > 0 {
      var l := Listening(c, id, requestKey, w);
      ListeningDecides(c, id, requestKey, w);
      if !l.over {
        var rest := Waiting(c, id, requestKey, polls - 1, l.run.world);
        WaitingDecides(c, id, requestKey, polls - 1, l.run.world);
        ListeningSteps(c, id, requestKey, w);
        DecidedConcat(c, id, l.run.steps, rest.run.steps);
      }
    }
  }

  /** A call starts with the upload of its request; when that fails it ends there with
      "apply: ..." and the zero Output, without receiving; any error comes back so wrapped and
      with the zero Output. */
  lemma ExecutionUploadsFirst(c: Setup, op: string, id: string, filename: string, polls: nat, w: Aws.World)
    ensures var x := Execution(c, op, id, filename, polls, w);
      var key := Keys.RequestKey(op, id, filename);
      var u := Common.Uploading(w, c.bucket, filename, key, map[]);
      && x.run.steps != [] && x.run.steps[0] == Common.Uploaded(key)
      && (u.result.Err? ==> x.run.steps == [Common.Uploaded(key)] && x.run.err == Some(Apply(u.result.error)))
      && (x.run.err.Some? ==> x.run.err.value.Apply? && x.output == ZeroOutput)
      && (u.result.Ok? && polls == 0 ==> x.run.err.None? && x.output == ZeroOutput)
  {
  }

  /** A call receives at most once per round the deadline leaves and takes at most one message
      off the queue; without error it hands out either the zero Output (the deadline passed) or a
      copy of an object whose key holds the call's id, as the store held it after the request was
      uploaded. */
  lemma ExecutionDelivers(c: Setup, op: string, id: string, filename: string, polls: nat, w: Aws.World)
    ensures var x := Execution(c, op, id, filename, polls, w);
      && Common.Occurrences(x.run.steps, Common.IsReceived) <= polls
      && Common.Occurrences(x.run.steps, Common.IsDeleted) <= 1
      && (x.run.err.None? ==> filename in w.files)
      && (x.run.err.None? && x.output == ZeroOutput ==>
            Common.Occurrences(x.run.steps, Common.IsReceived) == polls
            && Common.Occurrences(x.run.steps, Common.IsDeleted) == 0)
      && (x.run.err.None? && x.output != ZeroOutput ==>
            && Common.Occurrences(x.run.steps, Common.IsDeleted) == 1
            && Delivered(c.bucket, id, w.objects[(c.bucket, Keys.RequestKey(op, id, filename)) := Aws.Object(w.files[filename], map[])],
                         x.run.world.files, x.output))
  {
    var key := Keys.RequestKey(op, id, filename);
    var u := Common.Uploading(w, c.bucket, filename, key, map[]);
    assert Common.Occurrences([Common.Uploaded(key)], Common.IsReceived) == 0;
    assert Common.Occurrences([Common.Uploaded(key)], Common.IsDeleted) == 0;
    if u.result.Ok? {
      var r := Waiting(c, id, key, polls, u.world);
      WaitingSteps(c, id, key, polls, u.world);
      Common.OccurrencesConcat([Common.Uploaded(key)], r.run.steps, Common.IsReceived);
      Common.OccurrencesConcat([Common.Uploaded(key)], r.run.steps, Common.IsDeleted);
    }
  }

  /** A call uploads its request first; every later step is a step of the wait, which releases
      only messages of this bucket whose keys lack the id and deletes only one whose key holds
      it, and after that delete the call only fetches. */
  lemma ExecutionDecides(c: Setup, op: string, id: string, filename: string, polls: nat, w: Aws.World)
    ensures var st := Execution(c, op, id, filename, polls, w).run.steps;
      && st != [] && st[0] == Common.Uploaded(Keys.RequestKey(op, id, filename))
      && Decided(c, id, st[1..])
      && NothingAfterDelete(st)
  {
    var key := Keys.RequestKey(op, id, filename);
    var u := Common.Uploading(w, c.bucket, filename, key, map[]);
    var st := Execution(c, op, id, filename, polls, w).run.steps;
    if u.result.Ok? {
      var r := Waiting(c, id, key, polls, u.world);
      WaitingDecides(c, id, key, polls, u.world);
      assert st == [Common.Uploaded(key)] + r.run.steps;
      assert st[1..] == r.run.steps;
      NothingAfterDeleteConcat([Common.Uploaded(key)], r.run.steps);
    }
  }

  /** The Output's file lies in the client's scratch directory, so a Close without error
      removes it. */
  lemma CloseRemovesOutput(c: Setup, key: string, requestKey: string, w: Aws.World, w': Aws.World)
    requires Fetching(c, key, requestKey, w).run.err.None?
    requires Aws.RemoveAll(w', c.tempDir).result.Ok?
    ensures Fetching(c, key, requestKey, w).output.filename !in Aws.RemoveAll(w', c.tempDir).world.files
  {
    FetchingDelivers(c, key, requestKey, w);
    Aws.TempNameWithin(c.tempDir, w.nonce, "*_" + Base(key));
  }

  /** ClientOptions.init: fills in the default region, then checks the credentials and the queue. */
  method InitOptions(opts: ClientOptions) returns (opts': ClientOptions, err: Option<Error>)
    ensures opts' == opts.(config := Common.WithDefaultRegion(opts.config))
    ensures err == Common.Missing(opts.config, opts.queue)
  {
    opts' := opts;
    if opts'.config.region == "" {
      opts' := opts'.(config := opts'.config.(region := Common.DefaultRegion));
    }
    if opts'.config.accessKeyId == "" {
      return opts', Some(AccessKeyIdRequired);
    }
    if opts'.config.secretAccessKey == "" {
      return opts', Some(SecretAccessKeyRequired);
    }
    if opts'.queue == "" {
      return opts', Some(QueueRequired);
    }
    return opts', None;
  }

  class Client {
    const timeout: int
    const common: Common.Common
    /** The steps taken so far. */
    ghost var trace: seq<Common.Step>

    constructor (timeout: int, common: Common.Common)
      ensures this.timeout == timeout && this.common == common && trace == []
    {
      this.timeout := timeout;
      this.common := common;
      trace := [];
    }

    function Settings(): Setup
    {
      Setup(common.bucket, common.queue, common.tempDir)
    }

    /** ExecuteFilename with call id `id` (a fresh UUID in the source), while the deadline
        `timeout` leaves `polls` rounds of the wait. */
    method ExecuteFilename(op: string, filename: string, id: string, polls: nat) returns (output: Output, err: Option<Error>)
      modifies this, common.cloud
      ensures var x := Execution(Settings(), op, id, filename, polls, old(common.cloud.world));
        output == x.output && err == x.run.err && common.cloud.world == x.run.world && trace == old(trace) + x.run.steps
    {
      var key := Keys.RequestKey(op, id, filename);
      trace := trace + [Common.Uploaded(key)];
      err := common.Upload(filename, key, map[]);
      if err.Some? {
        return ZeroOutput, Some(Apply(err.value));
      }
      ghost var r := Waiting(Settings(), id, key, polls, common.cloud.world);
      output, err := Await(id, key, polls);
      Common.AppendAssoc(old(trace), [Common.Uploaded(key)], r.run.steps);
      if err.Some? {
        return ZeroOutput, Some(Apply(err.value));
      }
    }

    /** The goroutine that waits for the response (client.go, lines 87-142). */
    method Await(id: string, requestKey: string, polls: nat) returns (output: Output, err: Option<Error>)
      modifies this, common.cloud
      ensures var x := Waiting(Settings(), id, requestKey, polls, old(common.cloud.world));
        output == x.output && err == x.run.err && common.cloud.world == x.run.world && trace == old(trace) + x.run.steps
    {
      ghost var done: seq<Common.Step> := [];
      var n := polls;
      while n > 0
        invariant trace == old(trace) + done
        invariant Waiting(Settings(), id, requestKey, polls, old(common.cloud.world)) ==
          After(done, Waiting(Settings(), id, requestKey, n, common.cloud.world))
      {
        ghost var l := Listening(Settings(), id, requestKey, common.cloud.world);
        ghost var rest := Waiting(Settings(), id, requestKey, n - 1, l.run.world);
        var over;
        output, err, over := Listen(id, requestKey);
        Common.AppendAssoc(old(trace), done, l.run.steps);
        if over {
          return;
        }
        AfterAfter(done, l.run.steps, rest);
        done := done + l.run.steps;
        n := n - 1;
      }
      assert done + [] == done;
      return ZeroOutput, None;
    }

    /** One round of the wait: receive a batch and examine it. */
    method Listen(id: string, requestKey: string) returns (output: Output, err: Option<Error>, over: bool)
      modifies this, common.cloud
      ensures var x := Listening(Settings(), id, requestKey, old(common.cloud.world));
        output == x.output && err == x.run.err && over == x.over
        && common.cloud.world == x.run.world && trace == old(trace) + x.run.steps
    {
      trace := trace + [Common.Received];
      var ms := common.Receive();
      if ms.Err? {
        return ZeroOutput, Some(ms.error), true;
      }
      ghost var sc := Scanning(Settings(), id, requestKey, ms.value, common.cloud.world);
      output, err, over := ScanBatch(id, requestKey, ms.value);
      Common.AppendAssoc(old(trace), [Common.Received], sc.run.steps);
    }

    /** The loop over one received batch. */
    method ScanBatch(id: string, requestKey: string, ms: seq<Common.Message>) returns (output: Output, err: Option<Error>, over: bool)
      modifies this, common.cloud
      ensures var x := Scanning(Settings(), id, requestKey, ms, old(common.cloud.world));
        output == x.output && err == x.run.err && over == x.over
        && common.cloud.world == x.run.world && trace == old(trace) + x.run.steps
    {
      ghost var done: seq<Common.Step> := [];
      var i := 0;
      while i < |ms|
        invariant 0 <= i <= |ms|
        invariant trace == old(trace) + done
        invariant Scanning(Settings(), id, requestKey, ms, old(common.cloud.world)) ==
          After(done, Scanning(Settings(), id, requestKey, ms[i..], common.cloud.world))
      {
        ghost var x := Examining(Settings(), id, requestKey, ms[i], common.cloud.world);
        ScanningFrom(Settings(), id, requestKey, ms, i, common.cloud.world);
        ghost var rest := Scanning(Settings(), id, requestKey, ms[i + 1..], x.run.world);
        output, err, over := Examine(id, requestKey, ms[i]);
        Common.AppendAssoc(old(trace), done, x.run.steps);
        if over {
          return;
        }
        AfterAfter(done, x.run.steps, rest);
        done := done + x.run.steps;
        i := i + 1;
      }
      return ZeroOutput, None, false;
    }

    /** The body of the batch loop for one message (client.go, lines 98-138). */
    method Examine(id: string, requestKey: string, m: Common.Message) returns (output: Output, err: Option<Error>, over: bool)
      modifies this, common.cloud
      ensures var x := Examining(Settings(), id, requestKey, m, old(common.cloud.world));
        output == x.output && err == x.run.err && over == x.over
        && common.cloud.world == x.run.world && trace == old(trace) + x.run.steps
    {
      if m.bucket != common.bucket {
        return ZeroOutput, Some(BucketMismatch(common.bucket, m.bucket)), true;
      }
      if !Keys.Matches(m.key, id) {
        trace := trace + [Common.Released(m)];
        err := common.ReleaseMessage(m.receiptHandle);
        return ZeroOutput, err, err.Some?;
      }
      output, err := Claim(m, requestKey);
      over := true;
    }

    /** The response found: its message deleted, then its object fetched. */
    method Claim(m: Common.Message, requestKey: string) returns (output: Output, err: Option<Error>)
      modifies this, common.cloud
      ensures var x := Claiming(Settings(), m, requestKey, old(common.cloud.world));
        output == x.output && err == x.run.err && common.cloud.world == x.run.world && trace == old(trace) + x.run.steps
    {
      trace := trace + [Common.Deleted(m)];
      err := common.DeleteMessage(m.receiptHandle);
      if err.Some? {
        return ZeroOutput, err;
      }
      ghost var f := Fetching(Settings(), m.key, requestKey, common.cloud.world);
      output, err := Fetch(m.key, requestKey);
      Common.AppendAssoc(old(trace), [Common.Deleted(m)], f.run.steps);
    }

    /** The closure that fetches the response (client.go, lines 116-138): the scratch file. */
    method Fetch(key: string, requestKey: string) returns (output: Output, err: Option<Error>)
      modifies this, common.cloud
      ensures var x := Fetching(Settings(), key, requestKey, old(common.cloud.world));
        output == x.output && err == x.run.err && common.cloud.world == x.run.world && trace == old(trace) + x.run.steps
    {
      var t := Aws.CreateTemp(common.cloud.world, common.tempDir, "*_" + Base(key));
      FetchingIsDownloading(Settings(), key, requestKey, common.cloud.world);
      common.cloud.world := t.world;
      if t.result.Err? {
        return ZeroOutput, Some(TempFile(t.result.error));
      }
      output, err := Download(key, requestKey, t.result.value);
    }

    /** The closure once its scratch file f exists: the download, then the clean-up of both objects. */
    method Download(key: string, requestKey: string, f: string) returns (output: Output, err: Option<Error>)
      modifies this, common.cloud
      ensures var x := Downloading(Settings(), key, requestKey, f, old(common.cloud.world));
        output == x.output && err == x.run.err && common.cloud.world == x.run.world && trace == old(trace) + x.run.steps
    {
      output := Output(f, map[]);
      trace := trace + [Common.Downloaded(key)];
      var md := common.GetObject(f, key);
      if md.Err? {
        return output, Some(md.error);
      }
      output := output.(metadata := md.value);
      trace := trace + [Common.ObjectDeleted(key)];
      var ignored := common.DeleteObject(key);
      trace := trace + [Common.ObjectDeleted(requestKey)];
      ignored := common.DeleteObject(requestKey);
      err := None;
    }

    /** Close: removes the scratch directory, on every call. */
    method Close() returns (err: Option<Error>)
      modifies common.cloud
      ensures var r := Aws.RemoveAll(old(common.cloud.world), common.tempDir);
        err == ErrorOf(r.result) && common.cloud.world == r.world
    {
      var r := Aws.RemoveAll(common.cloud.world, common.tempDir);
      common.cloud.world := r.world;
      err := ErrorOf(r.result);
    }
  }

  /** NewClient: validates the options, puts five minutes in place of a zero timeout and creates
      the scratch directory. */
  method NewClient(opts: ClientOptions, cloud: Aws.Cloud) returns (r: Result<Client>)
    modifies cloud
    ensures var e := Common.Missing(opts.config, opts.queue);
      e.Some? ==> r == Err(e.value) && cloud.world == old(cloud.world)
    ensures Common.Missing(opts.config, opts.queue).None? ==>
      var m := Aws.MkdirTemp(old(cloud.world), "s3rpc_client");
      && cloud.world == m.world
      && (m.result.Err? ==> r == Err(m.result.error))
      && (m.result.Ok? ==>
            && r.Ok? && fresh(r.value) && fresh(r.value.common) && r.value.trace == []
            && r.value.timeout == (if opts.timeout == 0 then DefaultTimeout else opts.timeout)
            && r.value.Settings() == Setup(opts.config.bucket, opts.queue, m.result.value)
            && r.value.common.cloud == cloud)
  {
    var o, err := InitOptions(opts);
    if err.Some? {
      return Err(err.value);
    }
    if o.timeout == 0 {
      o := o.(timeout := DefaultTimeout);
    }
    var m := Aws.MkdirTemp(cloud.world, "s3rpc_client");
    cloud.world := m.world;
    if m.result.Err? {
      return Err(m.result.error);
    }
    var c := new Common.Common(m.result.value, o.config.bucket, o.queue, cloud);
    var client := new Client(o.timeout, c);
    return Ok(client);
  }
}

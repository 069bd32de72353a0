/** The services the library drives, reduced to abstract state: the message queues, the
    object store, and the local file system, with the calls the library makes on them as
    transitions. Which calls fail is part of the state (`faults`): the model decides every
    outcome from the state alone. */
module Aws {
  import opened Types

  /** A message held by a queue; it is visible to receivers when hiddenFor is 0. */
  datatype Entry = Entry(handle: string, body: Body, hiddenFor: nat)

  /** A stored object: its bytes and its user metadata. */
  datatype Object = Object(content: Blob, metadata: Metadata)

  /** Everything outside the process: queues by name, objects by (bucket, key), the local
      directories and files, a counter from which fresh temporary names are drawn, and the
      calls that fail. */
  datatype World = World(
    queues: map<string, seq<Entry>>,
    objects: map<(string, string), Object>,
    dirs: set<string>,
    files: map<string, Blob>,
    nonce: nat,
    faults: set<Call>)

  /** The result of one call together with the world after it. */
  datatype Effect<+T> = Effect(result: Result<T>, world: World)

  /** The directory in which MkdirTemp("", pattern) creates its directories. */
  const TempRoot := "/tmp"

  /** The messages queue q holds (none for an unknown queue). */
  function Entries(w: World, q: string): seq<Entry>
  {
    if q in w.queues then w.queues[q] else []
  }

  /** w' differs from w at most in the messages of queue q. */
  ghost predicate OnlyQueueChanged(w: World, w': World, q: string)
  {
    && w'.objects == w.objects && w'.dirs == w.dirs && w'.files == w.files
    && w'.nonce == w.nonce && w'.faults == w.faults
    && forall q' | q' != q :: Entries(w', q') == Entries(w, q')
  }

  function WithEntries(w: World, q: string, es: seq<Entry>): World
  {
    w.(queues := w.queues[q := es])
  }

  /** Replacing the messages of q changes nothing else. */
  lemma WithEntriesTouchesOnly(w: World, q: string, es: seq<Entry>)
    ensures Entries(WithEntries(w, q, es), q) == es && OnlyQueueChanged(w, WithEntries(w, q, es), q)
  {
  }

  function Refused<T>(w: World, call: Call): Effect<T>
  {
    Effect(Err(CallFailed(call)), w)
  }

  function RawOf(e: Entry): RawMessage
  {
    RawMessage(e.body, e.handle)
  }

  /** Hands out the first `max` visible messages of es and hides each of them for `seconds`. */
  function Lease(es: seq<Entry>, max: nat, seconds: nat): (seq<RawMessage>, seq<Entry>)
  {
    if es == [] || max == 0 then ([], es)
    else if es[0].hiddenFor == 0 then
      var rest := Lease(es[1..], max - 1, seconds);
      ([RawOf(es[0])] + rest.0, [es[0].(hiddenFor := seconds)] + rest.1)
    else
      var rest := Lease(es[1..], max, seconds);
      (rest.0, [es[0]] + rest.1)
  }

  /** The visible messages of es, in their order. */
  function Visible(es: seq<Entry>): seq<Entry>
  {
    if es == [] then [] else (if es[0].hiddenFor == 0 then [es[0]] else []) + Visible(es[1..])
  }

  /** A lease hands out the first `max` visible messages of es, in their order, and hides exactly
      those for `seconds`: every other message keeps its place, body, handle and lease. */
  lemma {:induction false} LeaseExact(es: seq<Entry>, max: nat, seconds: nat)
    ensures var r := Lease(es, max, seconds);
      && |r.0| == (if |Visible(es)| < max then |Visible(es)| else max)
      && (forall k | 0 <= k < |r.0| :: r.0[k] == RawOf(Visible(es)[k]))
      && |r.1| == |es|
      && (forall i | 0 <= i < |es| ::
            r.1[i] == if es[i].hiddenFor == 0 && |Visible(es[..i])| < max then es[i].(hiddenFor := seconds) else es[i])
  {
    if es != [] && max != 0 {
      var m := if es[0].hiddenFor == 0 then max - 1 else max;
      var rest := Lease(es[1..], m, seconds);
      LeaseExact(es[1..], m, seconds);
      var r := Lease(es, max, seconds);
      assert Visible(es[..0]) == [] by { assert es[..0] == []; }
      forall i | 1 <= i < |es|
        ensures r.1[i] == if es[i].hiddenFor == 0 && |Visible(es[..i])| < max then es[i].(hiddenFor := seconds) else es[i]
      {
        assert r.1[i] == rest.1[i - 1] && es[i] == es[1..][i - 1];
        assert es[..i][0] == es[0] && es[..i][1..] == es[1..][..i - 1];
      }
      forall k | 0 <= k < |r.0| ensures r.0[k] == RawOf(Visible(es)[k]) {
        if es[0].hiddenFor == 0 && k > 0 {
          assert r.0[k] == rest.0[k - 1] && Visible(es)[k] == Visible(es[1..])[k - 1];
        }
      }
    }
  }

  /** A lease hands out at most `max` messages, each a visible one it now hides for `seconds`,
      changes nothing else, and leaves out a visible message only when `max` were handed out. */
  lemma {:induction false} LeaseHidesWhatItHandsOut(es: seq<Entry>, max: nat, seconds: nat)
    ensures var r := Lease(es, max, seconds);
      && |r.0| <= max
      && |r.1| == |es|
      && (forall i | 0 <= i < |es| ::
            r.1[i] == es[i] || (es[i].hiddenFor == 0 && r.1[i] == es[i].(hiddenFor := seconds)))
      && (forall i | 0 <= i < |es| :: es[i].hiddenFor == 0 && |Visible(es[..i])| >= max ==> r.1[i] == es[i])
      && (forall raw | raw in r.0 :: exists i | 0 <= i < |es| ::
            es[i].hiddenFor == 0 && raw == RawOf(es[i]) && r.1[i].hiddenFor == seconds)
      && (|r.0| < max ==> forall i | 0 <= i < |es| && es[i].hiddenFor == 0 :: RawOf(es[i]) in r.0)
  {
    LeaseExact(es, max, seconds);
    if es != [] && max != 0 {
      var m := if es[0].hiddenFor == 0 then max - 1 else max;
      var rest := Lease(es[1..], m, seconds);
      LeaseHidesWhatItHandsOut(es[1..], m, seconds);
      var r := Lease(es, max, seconds);
      assert r.1 == [r.1[0]] + rest.1;
      forall i | 1 <= i < |es| ensures r.1[i] == rest.1[i - 1] && es[i] == es[1..][i - 1] {
      }
      forall raw | raw in r.0 ensures exists i | 0 <= i < |es| ::
        es[i].hiddenFor == 0 && raw == RawOf(es[i]) && r.1[i].hiddenFor == seconds
      {
        if raw in rest.0 {
          var j :| 0 <= j < |es[1..]| && es[1..][j].hiddenFor == 0 && raw == RawOf(es[1..][j]) && rest.1[j].hiddenFor == seconds;
          assert r.1[j + 1] == rest.1[j];
        } else {
          assert raw == RawOf(es[0]) && r.1[0].hiddenFor == seconds;
        }
      }
    }
  }

  /** ReceiveMessage: at most `max` visible messages of queue q, each now hidden for `seconds`. */
  function ReceiveMessage(w: World, q: string, max: nat, seconds: nat): Effect<seq<RawMessage>>
  {
    if Types.ReceiveMessage(q) in w.faults then Refused(w, Types.ReceiveMessage(q))
    else
      var l := Lease(Entries(w, q), max, seconds);
      Effect(Ok(l.0), WithEntries(w, q, l.1))
  }

  /** A receive fails only by fault; otherwise it returns at most `max` messages, each a visible
      message of q now hidden for `seconds`, and changes nothing but queue q. Exactly: it returns
      the first `max` visible messages of q in their order, and hides exactly those, every other
      message of q keeping its place, body, handle and lease. */
  lemma ReceiveMessageLeases(w: World, q: string, max: nat, seconds: nat)
    ensures var r := ReceiveMessage(w, q, max, seconds);
      && (Types.ReceiveMessage(q) in w.faults ==> r == Refused(w, Types.ReceiveMessage(q)))
      && (Types.ReceiveMessage(q) !in w.faults ==> r.result.Ok? && |r.result.value| <= max)
      && OnlyQueueChanged(w, r.world, q) && |Entries(r.world, q)| == |Entries(w, q)|
      && (r.result.Ok? ==> forall raw | raw in r.result.value :: exists i | 0 <= i < |Entries(w, q)| ::
            Entries(w, q)[i].hiddenFor == 0 && raw == RawOf(Entries(w, q)[i]) && Entries(r.world, q)[i].hiddenFor == seconds)
      && (r.result.Ok? ==>
            var es := Entries(w, q);
            && |r.result.value| == (if |Visible(es)| < max then |Visible(es)| else max)
            && (forall k | 0 <= k < |r.result.value| :: r.result.value[k] == RawOf(Visible(es)[k]))
            && forall i | 0 <= i < |es| ::
                 Entries(r.world, q)[i] ==
                   if es[i].hiddenFor == 0 && |Visible(es[..i])| < max then es[i].(hiddenFor := seconds) else es[i])
  {
    LeaseExact(Entries(w, q), max, seconds);
    LeaseHidesWhatItHandsOut(Entries(w, q), max, seconds);
    WithEntriesTouchesOnly(w, q, Lease(Entries(w, q), max, seconds).1);
  }

  /** The messages of es except those with receipt handle h, in their order. */
  function Without(es: seq<Entry>, h: string): seq<Entry>
  {
    if es == [] then []
    else if es[0].handle == h then Without(es[1..], h)
    else [es[0]] + Without(es[1..], h)
  }

  /** Without keeps exactly the messages whose handle is not h. */
  lemma {:induction false} WithoutDropsHandle(es: seq<Entry>, h: string)
    ensures forall e :: e in Without(es, h) <==> e in es && e.handle != h
    ensures |Without(es, h)| <= |es|
  {
    if es != [] {
      WithoutDropsHandle(es[1..], h);
      assert forall e :: e in es <==> e == es[0] || e in es[1..];
    }
  }

  /** DeleteMessage: the messages with receipt handle h leave queue q for good. */
  function DeleteMessage(w: World, q: string, h: string): Effect<()>
  {
    if Types.DeleteMessage(q, h) in w.faults then Refused(w, Types.DeleteMessage(q, h))
    else Effect(Ok(()), WithEntries(w, q, Without(Entries(w, q), h)))
  }

  /** A delete fails only by fault; otherwise the messages with handle h, and only they, are
      gone from q, and nothing but q changes. */
  lemma DeleteMessageRemoves(w: World, q: string, h: string)
    ensures var r := DeleteMessage(w, q, h);
      && (Types.DeleteMessage(q, h) in w.faults ==> r == Refused(w, Types.DeleteMessage(q, h)))
      && (Types.DeleteMessage(q, h) !in w.faults ==>
            && r.result.Ok?
            && OnlyQueueChanged(w, r.world, q)
            && forall e :: e in Entries(r.world, q) <==> e in Entries(w, q) && e.handle != h)
  {
    WithoutDropsHandle(Entries(w, q), h);
    WithEntriesTouchesOnly(w, q, Without(Entries(w, q), h));
  }

  /** ChangeMessageVisibility: the messages with receipt handle h stay in queue q, now
      hidden for `seconds` (0 makes them receivable at once). */
  function ChangeMessageVisibility(w: World, q: string, h: string, seconds: nat): Effect<()>
  {
    if Types.ChangeMessageVisibility(q, h) in w.faults then Refused(w, Types.ChangeMessageVisibility(q, h))
    else
      var es := Entries(w, q);
      var es' := seq(|es|, i requires 0 <= i < |es| =>
        if es[i].handle == h then es[i].(hiddenFor := seconds) else es[i]);
      Effect(Ok(()), WithEntries(w, q, es'))
  }

  /** A visibility change fails only by fault; otherwise every message of q stays where it is,
      those with handle h now hidden for `seconds`, and nothing but q changes. */
  lemma ChangeMessageVisibilityResets(w: World, q: string, h: string, seconds: nat)
    ensures var r := ChangeMessageVisibility(w, q, h, seconds);
      && (Types.ChangeMessageVisibility(q, h) in w.faults ==> r == Refused(w, Types.ChangeMessageVisibility(q, h)))
      && (Types.ChangeMessageVisibility(q, h) !in w.faults ==>
            && r.result.Ok?
            && OnlyQueueChanged(w, r.world, q)
            && |Entries(r.world, q)| == |Entries(w, q)|
            && forall i | 0 <= i < |Entries(w, q)| ::
                 && Entries(r.world, q)[i].handle == Entries(w, q)[i].handle
                 && Entries(r.world, q)[i].body == Entries(w, q)[i].body
                 && Entries(r.world, q)[i].hiddenFor ==
                      (if Entries(w, q)[i].handle == h then seconds else Entries(w, q)[i].hiddenFor))
  {
    if Types.ChangeMessageVisibility(q, h) !in w.faults {
      var es := Entries(w, q);
      var es' := seq(|es|, i requires 0 <= i < |es| =>
        if es[i].handle == h then es[i].(hiddenFor := seconds) else es[i]);
      WithEntriesTouchesOnly(w, q, es');
    }
  }

  /** GetObject into local file f: f receives the object's bytes and the call returns its metadata. */
  function GetObject(w: World, b: string, k: string, f: string): (r: Effect<Metadata>)
    ensures r.result.Ok? <==> Types.GetObject(b, k) !in w.faults && (b, k) in w.objects
    ensures r.result.Err? ==> r == Refused(w, Types.GetObject(b, k))
    ensures r.result.Ok? ==>
      && r.result.value == w.objects[(b, k)].metadata
      && r.world == w.(files := w.files[f := w.objects[(b, k)].content])
  {
    if Types.GetObject(b, k) in w.faults || (b, k) !in w.objects then Refused(w, Types.GetObject(b, k))
    else Effect(Ok(w.objects[(b, k)].metadata), w.(files := w.files[f := w.objects[(b, k)].content]))
  }

  /** PutObject: (b, k) now holds exactly the given bytes and metadata. */
  function PutObject(w: World, b: string, k: string, content: Blob, md: Metadata): (r: Effect<()>)
    ensures r.result.Ok? <==> Types.PutObject(b, k) !in w.faults
    ensures r.result.Err? ==> r == Refused(w, Types.PutObject(b, k))
    ensures r.result.Ok? ==> r.world == w.(objects := w.objects[(b, k) := Object(content, md)])
  {
    if Types.PutObject(b, k) in w.faults then Refused(w, Types.PutObject(b, k))
    else Effect(Ok(()), w.(objects := w.objects[(b, k) := Object(content, md)]))
  }

  /** DeleteObject: (b, k) no longer holds an object. */
  function DeleteObject(w: World, b: string, k: string): (r: Effect<()>)
    ensures r.result.Ok? <==> Types.DeleteObject(b, k) !in w.faults
    ensures r.result.Err? ==> r == Refused(w, Types.DeleteObject(b, k))
    ensures r.result.Ok? ==> r.world == w.(objects := w.objects - {(b, k)})
  {
    if Types.DeleteObject(b, k) in w.faults then Refused(w, Types.DeleteObject(b, k))
    else Effect(Ok(()), w.(objects := w.objects - {(b, k)}))
  }

  /** os.Open followed by reading the file: its bytes, or an error when it does not exist. */
  function Open(w: World, name: string): (r: Result<Blob>)
    ensures r.Ok? <==> Types.Open(name) !in w.faults && name in w.files
    ensures r.Ok? ==> r.value == w.files[name]
    ensures r.Err? ==> r.error == CallFailed(Types.Open(name))
  {
    if Types.Open(name) in w.faults || name !in w.files then Err(CallFailed(Types.Open(name)))
    else Ok(w.files[name])
  }

  /** The decimal digits of n. */
  function Digits(n: nat): (s: string)
    ensures |s| >= 1
  {
    if n < 10 then ["0123456789"[n]] else Digits(n / 10) + ["0123456789"[n % 10]]
  }

  /** The position of the last '*' in p, if p has one. */
  function LastStar(p: string): (r: Option<nat>)
    ensures r.Some? ==> r.value < |p| && p[r.value] == '*' && '*' !in p[r.value + 1..]
    ensures r.None? ==> '*' !in p
  {
    if p == [] then None
    else if p[|p| - 1] == '*' then Some(|p| - 1)
    else
      var r := LastStar(p[..|p| - 1]);
      assert r.Some? ==> p[r.value + 1..] == p[..|p| - 1][r.value + 1..] + [p[|p| - 1]];
      assert p == p[..|p| - 1] + [p[|p| - 1]];
      r
  }

  /** The name os.CreateTemp(dir, pattern) picks when its random part is `n`. */
  function TempName(dir: string, n: nat, pattern: string): string
  {
    dir + "/" + TempBase(n, pattern)
  }

  /** The last element of that name: the random part takes the place of the pattern's last '*',
      or follows the pattern when it has none. */
  function TempBase(n: nat, pattern: string): string
  {
    match LastStar(pattern)
    case None => pattern + Digits(n)
    case Some(k) => pattern[..k] + Digits(n) + pattern[k + 1..]
  }

  /** A temporary name lies inside its directory. */
  lemma TempNameWithin(dir: string, n: nat, pattern: string)
    ensures Within(TempName(dir, n, pattern), dir)
  {
    assert TempName(dir, n, pattern) == (dir + "/") + TempBase(n, pattern);
  }

  /** The random part takes the place of the pattern's last '*': for "*_a*b.txt" it goes between
      "*_a" and "b.txt", and for "*_name" with a '*'-free name it leads the name. */
  lemma TempBaseAtLastStar(n: nat, prefix: string, rest: string)
    requires '*' !in rest
    ensures TempBase(n, prefix + "*" + rest) == prefix + Digits(n) + rest
  {
    var p := prefix + "*" + rest;
    var k := |prefix|;
    assert p[k] == '*';
    match LastStar(p)
    case None =>
      assert '*' in p;
    case Some(j) =>
      assert p[..k] == prefix && p[k + 1..] == rest;
  }

  /** os.CreateTemp(dir, pattern): a new empty file in dir, or an error when the pattern holds a
      path separator or dir is gone. The name is drawn from the nonce; a name already taken is
      refused here, where os.CreateTemp would draw another. */
  function CreateTemp(w: World, dir: string, pattern: string): (r: Effect<string>)
    ensures r.result.Ok? <==>
      && Types.CreateTemp(dir) !in w.faults && '/' !in pattern && dir in w.dirs
      && TempName(dir, w.nonce, pattern) !in w.files
    ensures r.result.Err? ==> r == Refused(w, Types.CreateTemp(dir))
    ensures r.result.Ok? ==>
      && r.result.value == TempName(dir, w.nonce, pattern)
      && r.result.value !in w.files
      && r.world == w.(files := w.files[r.result.value := []], nonce := w.nonce + 1)
  {
    var name := TempName(dir, w.nonce, pattern);
    if Types.CreateTemp(dir) in w.faults || '/' in pattern || dir !in w.dirs || name in w.files then
      Refused(w, Types.CreateTemp(dir))
    else Effect(Ok(name), w.(files := w.files[name := []], nonce := w.nonce + 1))
  }

  /** os.Remove of a file whose error the caller ignores. */
  function Remove(w: World, name: string): (w': World)
    ensures name !in w'.files
    ensures w'.files == w.files - {name}
    ensures w' == w.(files := w'.files)
  {
    w.(files := w.files - {name})
  }

  /** The path p lies inside directory dir (or is dir itself). */
  predicate Within(p: string, dir: string)
  {
    p == dir || dir + "/" <= p
  }

  /** os.RemoveAll: dir and everything under it are gone (a missing dir is not an error). */
  function RemoveAll(w: World, dir: string): (r: Effect<()>)
    ensures r.result.Ok? <==> Types.RemoveAll(dir) !in w.faults
    ensures r.result.Err? ==> r == Refused(w, Types.RemoveAll(dir))
    ensures r.result.Ok? ==>
      && r.world.queues == w.queues && r.world.objects == w.objects
      && (forall d :: d in r.world.dirs <==> d in w.dirs && !Within(d, dir))
      && (forall f :: f in r.world.files <==> f in w.files && !Within(f, dir))
      && (forall f | f in r.world.files :: r.world.files[f] == w.files[f])
      && r.world.(dirs := w.dirs, files := w.files) == w
  {
    if Types.RemoveAll(dir) in w.faults then Refused(w, Types.RemoveAll(dir))
    else
      var dirs := set d | d in w.dirs && !Within(d, dir);
      var files := map f | f in w.files && !Within(f, dir) :: w.files[f];
      Effect(Ok(()), w.(dirs := dirs, files := files))
  }

  /** os.MkdirTemp("", pattern): a new directory under the temporary root, its name drawn from
      the nonce; a name already taken is refused here, where os.MkdirTemp would draw another. */
  function MkdirTemp(w: World, pattern: string): (r: Effect<string>)
    ensures r.result.Ok? <==>
      Types.MkdirTemp(pattern) !in w.faults && TempRoot + "/" + pattern + Digits(w.nonce) !in w.dirs
    ensures r.result.Err? ==> r == Refused(w, Types.MkdirTemp(pattern))
    ensures r.result.Ok? ==>
      && r.result.value == TempRoot + "/" + pattern + Digits(w.nonce)
      && r.result.value !in w.dirs
      && r.world == w.(dirs := w.dirs + {r.result.value}, nonce := w.nonce + 1)
  {
    var name := TempRoot + "/" + pattern + Digits(w.nonce);
    if Types.MkdirTemp(pattern) in w.faults || name in w.dirs then Refused(w, Types.MkdirTemp(pattern))
    else Effect(Ok(name), w.(dirs := w.dirs + {name}, nonce := w.nonce + 1))
  }

  /** The handle through which the library reaches the services: the world is its one field,
      and every call replaces it with the world the call leaves behind. */
  class Cloud {
    var world: World

    constructor (w: World)
      ensures world == w
    {
      world := w;
    }
  }
}

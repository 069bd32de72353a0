/** The key scheme that pairs a request object with its response object:
    requests live under to_server/<operation>/<id>_<file>, responses under
    to_client/<operation>/<the request key's base>. */
module Keys {
  import opened Types
  import opened Paths
  import Common

  /** A key in the layout <direction>/<operation>/<base>. */
  function Key(direction: string, op: string, baseKey: string): string
  {
    direction + "/" + op + "/" + baseKey
  }

  /** The key a client call uploads its request under. */
  function RequestKey(op: string, id: string, filename: string): string
  {
    Key(Common.ToServer, op, id + "_" + Base(filename))
  }

  /** The key a server uploads a response under. */
  function ResponseKey(op: string, baseKey: string): string
  {
    Key(Common.ToClient, op, baseKey)
  }

  /** The operation a server reads from a key: its second '/'-separated segment. A key
      without '/' has none (the Go code indexes past the end of the split and panics). */
  function OperationOf(key: string): (r: Option<string>)
    ensures r.Some? <==> '/' in key
    ensures r.Some? ==> '/' !in r.value
  {
    var parts := Split(key);
    if |parts| >= 2 then Some(parts[1]) else None
  }

  /** The operation as the dispatch loop reads it (server.go, line 120): element 1 of the key's
      '/'-split, which exists only when the key holds a '/'. */
  function SecondSegment(key: string): string
    requires |Split(key)| >= 2
  {
    Split(key)[1]
  }

  /** A key without '/' (such as "photo.jpg") splits into a single piece, so element 1 of its
      split does not exist and the loop's index is out of range; OperationOf reports no
      operation for it instead, and agrees with SecondSegment wherever that is defined. */
  lemma {:induction false} SlashlessKeyPanics(key: string)
    ensures '/' !in key ==> |Split(key)| == 1 && OperationOf(key) == None
    ensures |Split(key)| >= 2 ==> OperationOf(key) == Some(SecondSegment(key))
    ensures |Split("photo.jpg")| == 1
  {
    assert '/' !in "photo.jpg" by {
      assert "photo.jpg" == ['p', 'h', 'o', 't', 'o', '.', 'j', 'p', 'g'];
    }
  }

  /** The client's test that a response belongs to its call: the key contains the call's id. */
  predicate Matches(key: string, id: string)
  {
    Contains(key, id)
  }

  lemma DirectionsHaveNoSlash()
    ensures '/' !in Common.ToServer && '/' !in Common.ToClient
  {
    assert Common.ToServer == ['t', 'o', '_', 's', 'e', 'r', 'v', 'e', 'r'];
    assert Common.ToClient == ['t', 'o', '_', 'c', 'l', 'i', 'e', 'n', 't'];
  }

  /** The operation of a key is its middle segment whenever direction and operation are slash-free. */
  lemma {:induction false} OperationOfKey(direction: string, op: string, baseKey: string)
    requires '/' !in direction && '/' !in op
    ensures OperationOf(Key(direction, op, baseKey)) == Some(op)
  {
    assert Key(direction, op, baseKey) == direction + "/" + (op + "/" + baseKey);
    SplitAfterHead(direction, op + "/" + baseKey);
    SplitAfterHead(op, baseKey);
  }

  /** The server reads back, from a request key, the operation the client put in it. */
  lemma {:induction false} OperationOfRequestKey(op: string, id: string, filename: string)
    requires '/' !in op
    ensures OperationOf(RequestKey(op, id, filename)) == Some(op)
  {
    DirectionsHaveNoSlash();
    OperationOfKey(Common.ToServer, op, id + "_" + Base(filename));
  }

  /** The base of a key whose last segment is "<id>_<b>", b being the base of some path. */
  lemma {:induction false} BaseOfIdKey(direction: string, op: string, id: string, b: string)
    requires '/' !in id
    requires b != [] && (b == "/" || '/' !in b)
    ensures Base(Key(direction, op, id + "_" + b)) == if b == "/" then id + "_" else id + "_" + b
  {
    var head := direction + "/" + op;
    var k := Key(direction, op, id + "_" + b);
    if b == "/" {
      var t := head + "/" + (id + "_");
      assert k == t + "/";
      assert k[..|k| - 1] == t;
      assert t[|t| - 1] == '_';
      assert TrimTrailingSlashes(k) == t;
      LastElementAfterSlash(head, id + "_");
    } else {
      assert k == head + "/" + (id + "_" + b);
      BaseOfJoin(head, id + "_" + b);
    }
  }

  /** The base of a request key is the call's id, an underscore and the base of the file
      (only "id_" when the file's base is "/"). */
  lemma {:induction false} RequestKeyBase(op: string, id: string, filename: string)
    requires '/' !in id
    ensures Base(RequestKey(op, id, filename)) ==
      if Base(filename) == "/" then id + "_" else id + "_" + Base(filename)
  {
    BaseOfIdKey(Common.ToServer, op, id, Base(filename));
  }

  /** The base of a key is the base it was built with. */
  lemma {:induction false} KeyBase(direction: string, op: string, baseKey: string)
    requires baseKey != [] && '/' !in baseKey
    ensures Base(Key(direction, op, baseKey)) == baseKey
  {
    assert Key(direction, op, baseKey) == (direction + "/" + op) + "/" + baseKey;
    BaseOfJoin(direction + "/" + op, baseKey);
  }

  /** The response key keeps the base it is given. */
  lemma {:induction false} ResponseKeyBase(op: string, baseKey: string)
    requires baseKey != [] && '/' !in baseKey
    ensures Base(ResponseKey(op, baseKey)) == baseKey
  {
    KeyBase(Common.ToClient, op, baseKey);
  }

  /** A key contains the start of its last segment. */
  lemma {:induction false} KeyContains(direction: string, op: string, id: string, rest: string)
    ensures Matches(Key(direction, op, id + rest), id)
  {
    assert Key(direction, op, id + rest) == (direction + "/" + op + "/") + id + rest;
    ContainsMiddle(direction + "/" + op + "/", id, rest);
  }

  /** A key whose last segment is "<id>_<b>" contains id. */
  lemma {:induction false} IdKeyMatches(direction: string, op: string, id: string, b: string)
    ensures Matches(Key(direction, op, id + "_" + b), id)
  {
    assert id + "_" + b == id + ("_" + b);
    KeyContains(direction, op, id, "_" + b);
  }

  /** A reply under a slash-free base that starts with id contains id and keeps that base. */
  lemma {:induction false} ReplyKeeps(back: string, op: string, id: string, tail: string, t: string)
    requires t == id + tail && t != [] && '/' !in t
    ensures Base(Key(back, op, t)) == t && Matches(Key(back, op, t), id)
  {
    KeyBase(back, op, t);
    KeyContains(back, op, id, tail);
  }

  /** A reply, under direction back, to a key built around an id contains that id and keeps
      the key's base. */
  lemma {:induction false} ReplyToIdKey(direction: string, back: string, op: string, id: string, b: string)
    requires '/' !in id
    requires b != [] && (b == "/" || '/' !in b)
    ensures var k := Key(direction, op, id + "_" + b);
      && Base(Key(back, op, Base(k))) == Base(k)
      && Matches(Key(back, op, Base(k)), id)
  {
    BaseOfIdKey(direction, op, id, b);
    var t := Base(Key(direction, op, id + "_" + b));
    if b == "/" {
      ReplyKeeps(back, op, id, "_", t);
    } else {
      IdTail(id, b, t);
      ReplyKeeps(back, op, id, "_" + b, t);
    }
  }

  lemma IdTail(id: string, b: string, t: string)
    requires '/' !in id && '/' !in b && t == id + "_" + b
    ensures t == id + ("_" + b) && t != [] && '/' !in t
  {
  }

  /** The request and response keys of one call fit together: the server finds the client's
      operation in the request key, the response key has the request key's base, and the
      response key contains the id, so the calling client accepts it. */
  lemma {:induction false} ResponseFindsCaller(op: string, id: string, filename: string)
    requires '/' !in op && '/' !in id
    ensures var k := RequestKey(op, id, filename);
      && OperationOf(k) == Some(op)
      && Base(ResponseKey(op, Base(k))) == Base(k)
      && Matches(ResponseKey(op, Base(k)), id)
      && Matches(k, id)
  {
    OperationOfRequestKey(op, id, filename);
    ReplyToIdKey(Common.ToServer, Common.ToClient, op, id, Base(filename));
    IdKeyMatches(Common.ToServer, op, id, Base(filename));
  }
}

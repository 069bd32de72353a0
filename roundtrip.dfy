/** A call served end to end: the object a client call uploads is picked up by a server, and
    the response that server uploads is the one the calling client accepts and downloads. */
module RoundTrip {
  import opened Types
  import opened Paths
  import Aws
  import Keys
  import Server
  import Client

  /** Suppose a client call for op, with id `id`, uploaded `content` without metadata under its
      request key, and a server then processed that key without error. The server finds op in
      the key, and the handler accepts the request it saw. The response key contains the id, so
      the calling client takes that response. When the client then fetches it, from the store
      the server left, without error, the client's Output carries the handler's metadata, and
      its file holds the bytes of the handler's output file. */
  lemma ServedCallAnswered(s: Server.Setup, c: Client.Setup, op: string, id: string, filename: string,
                           content: Blob, handler: Server.Handler, w: Aws.World, w': Aws.World)
    requires '/' !in op && '/' !in id
    requires c.bucket == s.bucket
    requires var k := Keys.RequestKey(op, id, filename);
      (s.bucket, k) in w.objects && w.objects[(s.bucket, k)] == Aws.Object(content, map[])
    requires Server.Processing(s, op, handler, Keys.RequestKey(op, id, filename), w).err.None?
    requires w'.objects == Server.Processing(s, op, handler, Keys.RequestKey(op, id, filename), w).world.objects
    requires var k := Keys.RequestKey(op, id, filename);
      Client.Fetching(c, Keys.ResponseKey(op, Base(k)), k, w').run.err.None?
    ensures var k := Keys.RequestKey(op, id, filename);
      var rk := Keys.ResponseKey(op, Base(k));
      var f := Aws.TempName(s.tempDir, w.nonce, "*_" + Base(k));
      var reply := handler(Input(f, map[]), content);
      var x := Client.Fetching(c, rk, k, w');
      && Keys.OperationOf(k) == Some(op)
      && Keys.Matches(rk, id)
      && reply.Done?
      && x.output.metadata == reply.output.metadata
      && reply.output.filename in w.files[f := content] + reply.files
      && x.output.filename in x.run.world.files
      && x.run.world.files[x.output.filename] == (w.files[f := content] + reply.files)[reply.output.filename]
  {
    var k := Keys.RequestKey(op, id, filename);
    var rk := Keys.ResponseKey(op, Base(k));
    Keys.ResponseFindsCaller(op, id, filename);
    Server.ProcessingUploads(s, op, handler, k, w);
    Client.FetchingDelivers(c, rk, k, w');
  }
}

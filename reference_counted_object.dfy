/** The base class of every exposed COM object: creating one locks the server,
    finalizing it unlocks the server. The process-wide `OutOfProcServer.Instance`
    is the `server` each object is given; the finalizer is an explicit call. */
module ReferenceCounting {
  import opened ComTypes
  import opened OutOfProcCom

  class ReferenceCountedObject {
    const server: OutOfProcServer
    /** Whether the runtime has run this object's finalizer. */
    ghost var finalized: bool

    /** Increments the lock count of the server. */
    constructor (server: OutOfProcServer)
      requires server.Valid()
      modifies server`lockCnt, server`counterOps
      ensures this.server == server && !finalized
      ensures server.Valid()
      ensures server.lockCnt == Increment(old(server.lockCnt))
      ensures server.counterOps == old(server.counterOps) + [LockOp]
    {
      this.server := server;
      finalized := false;
      new;
      var _ := server.Lock();
    }

    /** The finalizer: decrements the lock count of the server, which posts `WM_QUIT`
        when the count reaches 0; the message joins the queue of the recorded main
        thread, if there is one. */
    method Finalize()
      requires server.Valid() && !finalized
      modifies this`finalized, server`lockCnt, server`counterOps, server`quitPosts, server`queue
      ensures finalized && server.Valid()
      ensures server.lockCnt == Decrement(old(server.lockCnt))
      ensures server.counterOps == old(server.counterOps) + [UnlockOp]
      ensures server.quitPosts ==
              old(server.quitPosts) + (if server.lockCnt == 0 then [server.mainThreadId] else [])
      ensures server.queue ==
              old(server.queue) + (if server.lockCnt == 0 && server.mainThreadId != 0 then [WmQuit] else [])
    {
      var _ := server.Unlock();
      finalized := true;
    }
  }

  /** Creating an object and then finalizing it leaves the lock count where it was;
      if that count is 0, the finalization posts `WM_QUIT`. */
  method CreateThenFinalize(server: OutOfProcServer) returns (obj: ReferenceCountedObject)
    requires server.Valid()
    modifies server`lockCnt, server`counterOps, server`quitPosts, server`queue
    ensures fresh(obj) && obj.server == server && obj.finalized && server.Valid()
    ensures server.lockCnt == old(server.lockCnt)
    ensures server.quitPosts ==
            old(server.quitPosts) + (if old(server.lockCnt) == 0 then [server.mainThreadId] else [])
    ensures server.queue ==
            old(server.queue) + (if old(server.lockCnt) == 0 && server.mainThreadId != 0 then [WmQuit] else [])
  {
    obj := new ReferenceCountedObject(server);
    obj.Finalize();
  }
}

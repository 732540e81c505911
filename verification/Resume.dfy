/** The browser's chunk count, which it resumes from after a reconnection, depends on the server's
    pruning, on its own lock, and on what waited there as it subscribed: together they decide whether it
    names the next chunk wanted. `Browser` says the same of whole runs. Whether that number still names
    the same bytes after a restart is a question about two records. */
module Resume {
  import opened ByteSeqs
  import opened ShellStore
  import opened Subscription
  import AsyncLock

  /** The tasks that arriving batches submit: the chunks of each. */
  function Arrived(batches: seq<Batch>): seq<seq<Bytes>> {
    if batches == [] then [] else [batches[0].chunks] + Arrived(batches[1..])
  }

  lemma {:induction false} ArrivedChunks(batches: seq<Batch>)
    ensures Flatten(Arrived(batches)) == AllChunks(batches)
  {
    if batches == [] {
    } else {
      ArrivedChunks(batches[1..]);
      assert Arrived(batches)[1..] == Arrived(batches[1..]);
    }
  }

  lemma {:induction false} YieldsNotEmpty(observed: seq<Shell>, chunknum: nat)
    ensures AsyncLock.NoEmptyTask(Arrived(Yields(observed, chunknum)))
    decreases |observed|
  {
    hide ReadChunks, NextCursor;
    if observed == [] {
    } else {
      var later := Yields(observed[1..], NextCursor(chunknum, observed[0]));
      YieldsNotEmpty(observed[1..], NextCursor(chunknum, observed[0]));
      var batch := ReadChunks(chunknum, observed[0]);
      if batch.chunks == [] {
        assert [] + later == later;
      } else {
        assert ([batch] + later)[1..] == later;
        assert Arrived([batch] + later)[1..] == Arrived(later);
      }
    }
  }

  /** The first subscription of a browser, from an idle lock, within one life of the server's record. Once
      its batches have all been submitted to the lock, the browser has counted up to the next chunk wanted
      exactly when no pruned chunk was skipped and no batch waits for its turn or its first step; otherwise
      the count is lower. */
  lemma ResumeIff(observed: seq<Shell>, chunknum: nat, events: seq<AsyncLock.Event<Bytes>>)
    requires AsyncLock.Run(AsyncLock.Idle<Bytes>(), events).submitted == Arrived(Yields(observed, chunknum))
    ensures var s := AsyncLock.Run(AsyncLock.Idle<Bytes>(), events);
            && chunknum + s.counted <= EndCursor(observed, chunknum)
            && (chunknum + s.counted == EndCursor(observed, chunknum)
                <==> Skipped(observed, chunknum) == 0 && s.queue == [] && AsyncLock.AllBegun(s.settled + s.running))
  {
    YieldsNotEmpty(observed, chunknum);
    hide AsyncLock.Run, Yields, Skipped, EndCursor, AsyncLock.AllBegun, AsyncLock.NoEmptyTask;
    AsyncLock.CountIsCompleteIff(events);
    ArrivedChunks(Yields(observed, chunknum));
    DeliveredPlusSkipped(observed, chunknum);
  }

  /** Any later subscription. The lock and the count survive a disconnection, and what waited in the lock
      when the browser subscribed from its count is counted afterwards, although it is served again. So
      the count then names the next chunk wanted exactly when as much waited before as waits now or was
      skipped, and it runs past that chunk, which is then never served, exactly when more waited before.
      When nothing waits as the browser subscribes, it never runs past it. */
  lemma ConnectionAccounts(
      before: seq<AsyncLock.Event<Bytes>>, during: seq<AsyncLock.Event<Bytes>>, observed: seq<Shell>)
    requires var s0 := AsyncLock.Run(AsyncLock.Idle<Bytes>(), before);
             AsyncLock.Run(s0, during).submitted == s0.submitted + Arrived(Yields(observed, s0.counted))
    ensures var s0 := AsyncLock.Run(AsyncLock.Idle<Bytes>(), before);
            var s1, end := AsyncLock.Run(s0, during), EndCursor(observed, s0.counted);
            var w0, w1, skipped := AsyncLock.Waiting(s0), AsyncLock.Waiting(s1), Skipped(observed, s0.counted);
            && w0 >= 0 && w1 >= 0
            && s1.counted + w1 + skipped == end + w0
            && (s1.counted == end <==> w0 == w1 + skipped)
            && (s1.counted > end <==> w0 > w1 + skipped)
            && (w0 == 0 ==> s1.counted <= end)
  {
    hide AsyncLock.Run, Yields, Skipped, EndCursor, AsyncLock.LockOk, Flatten, Arrived, AllChunks;
    AsyncLock.StartsOk<Bytes>();
    var s0 := AsyncLock.Run(AsyncLock.Idle<Bytes>(), before);
    AsyncLock.RunOk(AsyncLock.Idle<Bytes>(), before);
    AsyncLock.RunOk(s0, during);
    AsyncLock.CountedAtMost(s0);
    AsyncLock.CountedAtMost(AsyncLock.Run(s0, during));
    ArrivedChunks(Yields(observed, s0.counted));
    FlattenAppend(s0.submitted, Arrived(Yields(observed, s0.counted)));
    DeliveredPlusSkipped(observed, s0.counted);
  }
}

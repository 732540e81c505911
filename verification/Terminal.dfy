/** The last step of the path: what the lock's tasks write to the terminal, against the output. */
module Terminal {
  import opened ByteSeqs
  import opened Utf8
  import opened Keystreams
  import opened Subscription
  import opened Replication
  import opened Service
  import AsyncLock

  /** The tasks that arriving batches submit to the lock: the text of each of their chunks. */
  function Shown(key: Keystream, batches: seq<Batch>): seq<seq<seq<nat>>>
    decreases |batches|
  {
    if batches == [] then []
    else [Texts(DecryptChunks(key, batches[0].seqnum, batches[0].chunks))] + Shown(key, batches[1..])
  }

  lemma {:induction false} TextsAppend(a: seq<Bytes>, b: seq<Bytes>)
    ensures Texts(a + b) == Texts(a) + Texts(b)
    decreases |a|
  {
    hide TextDecode;
    if a == [] {
      assert a + b == b;
    } else {
      assert (a + b)[0] == a[0] && (a + b)[1..] == a[1..] + b;
      TextsAppend(a[1..], b);
    }
  }

  lemma {:induction false} DecryptAppend(key: Keystream, offset: nat, a: seq<Bytes>, b: seq<Bytes>)
    ensures DecryptChunks(key, offset, a + b)
         == DecryptChunks(key, offset, a) + DecryptChunks(key, offset + Total(a), b)
    decreases |a|
  {
    hide Segment;
    if a == [] {
      assert a + b == b;
    } else {
      assert (a + b)[0] == a[0] && (a + b)[1..] == a[1..] + b;
      DecryptAppend(key, offset + |a[0]|, a[1..], b);
    }
  }

  /** Batches without a gap are written chunk for chunk as one series. */
  lemma {:induction false} ShownChain(key: Keystream, batches: seq<Batch>, from: nat, to: nat)
    requires Chain(batches, from, to)
    ensures Flatten(Shown(key, batches)) == Texts(DecryptChunks(key, from, AllChunks(batches)))
    decreases |batches|
  {
    hide Texts, DecryptChunks, Total;
    if batches == [] {
      NothingShown(key, from);
    } else {
      var head, rest := batches[0], batches[1..];
      var next := from + Total(head.chunks);
      ShownChain(key, rest, next, to);
      ShownHead(key, batches);
      hide Chain, AllChunks, Shown, Flatten;
      DecryptAppend(key, from, head.chunks, AllChunks(rest));
      TextsAppend(DecryptChunks(key, from, head.chunks), DecryptChunks(key, next, AllChunks(rest)));
    }
  }

  lemma ShownHead(key: Keystream, batches: seq<Batch>)
    requires batches != []
    ensures Flatten(Shown(key, batches))
         == Texts(DecryptChunks(key, batches[0].seqnum, batches[0].chunks)) + Flatten(Shown(key, batches[1..]))
    ensures AllChunks(batches) == batches[0].chunks + AllChunks(batches[1..])
  {
    hide Texts, DecryptChunks;
    assert Shown(key, batches)[1..] == Shown(key, batches[1..]);
  }

  lemma NothingShown(key: Keystream, from: nat)
    ensures Texts(DecryptChunks(key, from, [])) == []
  {
  }

  lemma FlattenPrefix<T>(a: seq<seq<T>>, b: seq<seq<T>>)
    requires a <= b
    ensures Flatten(a) <= Flatten(b)
  {
    assert b == a + b[|a|..];
    FlattenAppend(a, b[|a|..]);
  }

  /** The pieces that the batches decrypt to, one for each chunk. */
  function Pieces(key: Keystream, batches: seq<Batch>): seq<Bytes>
    requires batches != []
  {
    DecryptChunks(key, batches[0].seqnum, AllChunks(batches))
  }

  predicate NoMarks(pieces: seq<Bytes>) {
    forall p :: p in pieces ==> !StartsWithBom(p)
  }

  /** The stretch of the output that the batches spell. */
  function Stretch(log: Bytes, batches: seq<Batch>): Bytes
    requires batches != [] && batches[0].seqnum + Total(AllChunks(batches)) <= |log|
  {
    log[batches[0].seqnum..batches[0].seqnum + Total(AllChunks(batches))]
  }

  lemma ShownText(key: Keystream, log: Bytes, batches: seq<Batch>)
    requires batches != [] && SpellsLog(key, log, batches)
    ensures batches[0].seqnum + Total(AllChunks(batches)) <= |log|
    ensures Flatten(Flatten(Shown(key, batches))) == Decode(Stretch(log, batches)) <==> NoMarks(Pieces(key, batches))
  {
    hide Texts, DecryptChunks, Decode, DecodePieces, WellFormed, Shown, AllChunks, Chain, StartsWithBom, Total;
    var from := batches[0].seqnum;
    ShownChain(key, batches, from, from + Total(AllChunks(batches)));
    PieceTexts(Pieces(key, batches));
    hide Flatten;
    FreshDecodersIff(Pieces(key, batches));
  }

  lemma PieceTexts(pieces: seq<Bytes>)
    ensures Flatten(Texts(pieces)) == DecodePieces(pieces)
  {
  }

  /** The terminal was given the texts of batches that spell a stretch of the output, through the lock and
      without a failure. What it shows is a prefix of that stretch's text if no piece starts with a byte
      order mark; and once the lock is idle it shows the whole text exactly then. */
  lemma TerminalText(key: Keystream, log: Bytes, batches: seq<Batch>, events: seq<AsyncLock.Event<seq<nat>>>)
    requires batches != [] && SpellsLog(key, log, batches)
    requires var s := AsyncLock.Run(AsyncLock.Idle<seq<nat>>(), events);
             s.submitted == Shown(key, batches) && AsyncLock.NoneFailed(s)
    ensures batches[0].seqnum + Total(AllChunks(batches)) <= |log|
    ensures var s, text := AsyncLock.Run(AsyncLock.Idle<seq<nat>>(), events), Decode(Stretch(log, batches));
            && (NoMarks(Pieces(key, batches)) ==> Flatten(s.output) <= text)
            && (s.running == [] ==> (Flatten(s.output) == text <==> NoMarks(Pieces(key, batches))))
  {
    hide AsyncLock.Run, SpellsLog, Shown, Flatten, Decode, NoMarks, AsyncLock.NoneFailed;
    ShownText(key, log, batches);
    AsyncLock.WritesInOrder(events);
    FlattenPrefix(AsyncLock.Run(AsyncLock.Idle<seq<nat>>(), events).output, Flatten(Shown(key, batches)));
  }

  /** The whole path, over every run from the start, for a subscriber between restarts from which nothing
      was skipped: from the terminal at one end to the terminal at the other, the text is the output's. */
  lemma TerminalShowsOutput(
      key: Keystream, before: seq<Replication.Action>, during: seq<Replication.Action>, user: nat,
      events: seq<AsyncLock.Event<seq<nat>>>)
    requires var sys := Run(key, INITIAL, before); sys.shell.Some? && user in sys.cursors
    requires Undisturbed(during, user)
    requires var sys := Run(key, INITIAL, before);
             var seen, c := ReadsOf(key, sys, during, user), sys.cursors[user];
             var s := AsyncLock.Run(AsyncLock.Idle<seq<nat>>(), events);
             && Skipped(seen, c) == 0 && Yields(seen, c) != []
             && s.submitted == Shown(key, Yields(seen, c)) && AsyncLock.NoneFailed(s)
    ensures var sys := Run(key, INITIAL, before);
            var got := Yields(ReadsOf(key, sys, during, user), sys.cursors[user]);
            var log := Run(key, INITIAL, before + during).log;
            var s := AsyncLock.Run(AsyncLock.Idle<seq<nat>>(), events);
            && got[0].seqnum + Total(AllChunks(got)) <= |log|
            && (NoMarks(Pieces(key, got)) ==> Flatten(s.output) <= Decode(Stretch(log, got)))
            && (s.running == [] ==> (Flatten(s.output) == Decode(Stretch(log, got)) <==> NoMarks(Pieces(key, got))))
  {
    hide Run, AsyncLock.Run, ReadsOf, Skipped, Yields, Shown, SpellsLog, Undisturbed, AsyncLock.NoneFailed, Flatten,
         Decode, NoMarks, Pieces, Stretch, Chain, AllObserve, EndCursor, BatchesOf, Total, AllChunks;
    var sys := Run(key, INITIAL, before);
    var all := UndisturbedService(key, before, during, user);
    var got := Yields(ReadsOf(key, sys, during, user), sys.cursors[user]);
    TerminalText(key, Run(key, INITIAL, before + during).log, got, events);
  }
}

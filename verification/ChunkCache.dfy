/** The chunk cache of the chunked reader under every interleaving of the threads
    that fetch through it. Each step is one critical section. */
module ChunkCache {
  /** Where a thread is in fetching a chunk: before or waiting at the lock, with
      the download, between storing the data and counting it, or done. */
  datatype Thread = Entering(idx: nat) | Downloading(idx: nat) | Stored(idx: nat) | Finished

  /** stores is how often the data of the chunk has been set. */
  datatype Chunk = Chunk(present: bool, fetching: bool, stores: nat)

  /** fired is how often the completion callback has been started. */
  datatype Cache = Cache(
    chunks: seq<Chunk>, threads: seq<Thread>, closed: bool,
    completed: nat, registered: bool, fired: nat)

  datatype Step =
    | Start(idx: nat) | Enter(t: nat) | Fail(t: nat) | Store(t: nat) | Mark(t: nat)
    | Register | Close

  /** A reader of n chunks, the first of which has been read to learn the size. */
  function Opened(n: nat): Cache
    requires n > 0
  {
    Cache([Chunk(true, false, 1)] + seq(n - 1, _ => Chunk(false, false, 0)), [], false, 1, false, 0)
  }

  predicate Enabled(c: Cache, step: Step) {
    match step
    case Start(idx) => idx < |c.chunks|
    case Enter(t) => t < |c.threads| && c.threads[t].Entering? && c.threads[t].idx < |c.chunks|
    case Fail(t) => t < |c.threads| && c.threads[t].Downloading? && c.threads[t].idx < |c.chunks|
    case Store(t) => t < |c.threads| && c.threads[t].Downloading? && c.threads[t].idx < |c.chunks|
    case Mark(t) => t < |c.threads| && c.threads[t].Stored?
    case Register => true
    case Close => true
  }

  function MaybeFire(c: Cache): Cache {
    if c.fired > 0 || !c.registered || c.completed < |c.chunks| then c else c.(fired := c.fired + 1)
  }

  function At(c: Cache, t: nat, thread: Thread): Cache
    requires t < |c.threads|
  {
    c.(threads := c.threads[t := thread])
  }

  function WithChunk(c: Cache, idx: nat, chunk: Chunk): Cache
    requires idx < |c.chunks|
  {
    c.(chunks := c.chunks[idx := chunk])
  }

  function Do(c: Cache, step: Step): Cache
    requires Enabled(c, step)
  {
    match step
    case Start(idx) => c.(threads := c.threads + [Entering(idx)])
    case Enter(t) =>
      var idx := c.threads[t].idx;
      if c.closed || c.chunks[idx].present then At(c, t, Finished)
      else if !c.chunks[idx].fetching then
        At(WithChunk(c, idx, c.chunks[idx].(fetching := true)), t, Downloading(idx))
      else c
    case Fail(t) =>
      var idx := c.threads[t].idx;
      At(WithChunk(c, idx, c.chunks[idx].(fetching := false)), t, Finished)
    case Store(t) =>
      var idx := c.threads[t].idx;
      At(WithChunk(c, idx, Chunk(true, false, c.chunks[idx].stores + 1)), t, Stored(idx))
    case Mark(t) => MaybeFire(At(c, t, Finished).(completed := c.completed + 1))
    case Register => MaybeFire(c.(registered := true))
    case Close => c.(closed := true)
  }

  function Downloads(idx: nat): Thread -> bool {
    (thread: Thread) => thread == Downloading(idx)
  }

  function IsStored(): Thread -> bool {
    (thread: Thread) => thread.Stored?
  }

  function Count(threads: seq<Thread>, p: Thread -> bool): nat {
    if threads == [] then 0 else Count(threads[..|threads|-1], p) + if p(threads[|threads|-1]) then 1 else 0
  }

  function Present(chunks: seq<Chunk>): nat {
    if chunks == [] then 0 else Present(chunks[..|chunks|-1]) + if chunks[|chunks|-1].present then 1 else 0
  }

  /** A chunk has a downloader, and only one, exactly while it is marked as being
      fetched; it is not fetched once there, and its data is set once. */
  predicate ChunkInv(c: Cache, idx: nat)
    requires idx < |c.chunks|
  {
    && Count(c.threads, Downloads(idx)) == (if c.chunks[idx].fetching then 1 else 0)
    && !(c.chunks[idx].fetching && c.chunks[idx].present)
    && c.chunks[idx].stores == (if c.chunks[idx].present then 1 else 0)
  }

  ghost predicate Inv(c: Cache) {
    && (forall idx :: 0 <= idx < |c.chunks| ==> ChunkInv(c, idx))
    && c.completed + Count(c.threads, IsStored()) == Present(c.chunks)
    && c.fired <= 1 && (c.fired == 1 ==> Present(c.chunks) == |c.chunks|)
  }

  lemma {:induction false} CountUpdate(threads: seq<Thread>, t: nat, thread: Thread, p: Thread -> bool)
    requires t < |threads|
    ensures Count(threads[t := thread], p) + (if p(threads[t]) then 1 else 0)
         == Count(threads, p) + (if p(thread) then 1 else 0)
  {
    var n := |threads| - 1;
    if t == n {
      assert threads[t := thread][..n] == threads[..n];
    } else {
      assert threads[t := thread][..n] == threads[..n][t := thread];
      CountUpdate(threads[..n], t, thread, p);
    }
  }

  lemma {:induction false} CountHas(threads: seq<Thread>, t: nat, p: Thread -> bool)
    requires t < |threads| && p(threads[t])
    ensures Count(threads, p) > 0
  {
    if t < |threads| - 1 {
      CountHas(threads[..|threads|-1], t, p);
    }
  }

  lemma {:induction false} PresentUpdate(chunks: seq<Chunk>, idx: nat, chunk: Chunk)
    requires idx < |chunks|
    ensures Present(chunks[idx := chunk]) + (if chunks[idx].present then 1 else 0)
         == Present(chunks) + (if chunk.present then 1 else 0)
  {
    var n := |chunks| - 1;
    if idx == n {
      assert chunks[idx := chunk][..n] == chunks[..n];
    } else {
      assert chunks[idx := chunk][..n] == chunks[..n][idx := chunk];
      PresentUpdate(chunks[..n], idx, chunk);
    }
  }

  lemma {:induction false} PresentAll(chunks: seq<Chunk>)
    ensures Present(chunks) <= |chunks|
    ensures Present(chunks) == |chunks| <==> forall i :: 0 <= i < |chunks| ==> chunks[i].present
  {
    if chunks != [] {
      var n := |chunks| - 1;
      PresentAll(chunks[..n]);
      assert forall i :: 0 <= i < n ==> chunks[i] == chunks[..n][i];
    }
  }

  /** Moving one thread, and with it the chunk it is at. */
  lemma MoveInv(c: Cache, t: nat, thread: Thread, chunk: Chunk)
    requires t < |c.threads| && !c.threads[t].Finished? && c.threads[t].idx < |c.chunks| && Inv(c)
    requires thread.Finished? || thread.idx == c.threads[t].idx
    requires var was := c.chunks[c.threads[t].idx];
      && (if chunk.fetching then 1 else 0) - (if was.fetching then 1 else 0)
         == (if thread.Downloading? then 1 else 0) - (if c.threads[t].Downloading? then 1 else 0)
      && (if chunk.present then 1 else 0) - (if was.present then 1 else 0)
         == (if thread.Stored? then 1 else 0) - (if c.threads[t].Stored? then 1 else 0)
      && !(chunk.fetching && chunk.present) && chunk.stores == (if chunk.present then 1 else 0)
      && (was.present ==> chunk.present)
    ensures Inv(At(WithChunk(c, c.threads[t].idx, chunk), t, thread))
  {
    hide Count, Present;
    var idx := c.threads[t].idx;
    var c' := At(WithChunk(c, idx, chunk), t, thread);
    forall i | 0 <= i < |c'.chunks| ensures ChunkInv(c', i) {
      assert ChunkInv(c, i);
      CountUpdate(c.threads, t, thread, Downloads(i));
    }
    CountUpdate(c.threads, t, thread, IsStored());
    PresentUpdate(c.chunks, idx, chunk);
    PresentAll(c'.chunks);
  }

  lemma FireInv(c: Cache)
    requires Inv(c)
    ensures Inv(MaybeFire(c))
  {
    hide Count, Present;
    PresentAll(c.chunks);
    assert forall idx :: 0 <= idx < |c.chunks| && ChunkInv(c, idx) ==> ChunkInv(MaybeFire(c), idx);
  }

  lemma StartInv(c: Cache, idx: nat)
    requires Inv(c)
    ensures Inv(c.(threads := c.threads + [Entering(idx)]))
  {
    var c' := c.(threads := c.threads + [Entering(idx)]);
    assert c'.threads[..|c.threads|] == c.threads;
    assert forall i :: 0 <= i < |c.chunks| && ChunkInv(c, i) ==> ChunkInv(c', i);
  }

  /** A thread with the download is the one its chunk is being fetched by. */
  lemma DownloaderFetches(c: Cache, t: nat)
    requires Inv(c) && t < |c.threads| && c.threads[t].Downloading? && c.threads[t].idx < |c.chunks|
    ensures c.chunks[c.threads[t].idx].fetching
  {
    hide Count, Present;
    assert ChunkInv(c, c.threads[t].idx);
    CountHas(c.threads, t, Downloads(c.threads[t].idx));
  }

  lemma EnterInv(c: Cache, t: nat)
    requires Inv(c) && Enabled(c, Enter(t))
    ensures Inv(Do(c, Enter(t)))
  {
    hide Count, Present;
    var idx := c.threads[t].idx;
    var chunk := c.chunks[idx];
    assert ChunkInv(c, idx);
    if c.closed || chunk.present {
      MoveInv(c, t, Finished, chunk);
      assert WithChunk(c, idx, chunk) == c;
    } else if !chunk.fetching {
      MoveInv(c, t, Downloading(idx), chunk.(fetching := true));
    }
  }

  lemma DownloadedInv(c: Cache, t: nat)
    requires Inv(c) && Enabled(c, Fail(t))
    ensures Inv(Do(c, Fail(t))) && Inv(Do(c, Store(t)))
  {
    hide Count, Present;
    var idx := c.threads[t].idx;
    var chunk := c.chunks[idx];
    assert ChunkInv(c, idx);
    DownloaderFetches(c, t);
    MoveInv(c, t, Finished, chunk.(fetching := false));
    MoveInv(c, t, Stored(idx), Chunk(true, false, chunk.stores + 1));
  }

  lemma MarkInv(c: Cache, t: nat)
    requires Inv(c) && Enabled(c, Mark(t))
    ensures Inv(Do(c, Mark(t)))
  {
    hide Count, Present;
    var c' := At(c, t, Finished).(completed := c.completed + 1);
    forall i | 0 <= i < |c.chunks| ensures ChunkInv(c', i) {
      assert ChunkInv(c, i);
      CountUpdate(c.threads, t, Finished, Downloads(i));
    }
    CountUpdate(c.threads, t, Finished, IsStored());
    FireInv(c');
  }

  lemma StepInv(c: Cache, step: Step)
    requires Inv(c) && Enabled(c, step)
    ensures Inv(Do(c, step))
  {
    hide ChunkInv, Count, Present, MaybeFire;
    match step {
      case Start(idx) => StartInv(c, idx);
      case Enter(t) => EnterInv(c, t);
      case Fail(t) => DownloadedInv(c, t);
      case Store(t) => DownloadedInv(c, t);
      case Mark(t) => MarkInv(c, t);
      case Register => SameInv(c, c.(registered := true)); FireInv(c.(registered := true));
      case Close => SameInv(c, c.(closed := true));
    }
  }

  lemma SameInv(c: Cache, c': Cache)
    requires Inv(c) && c'.chunks == c.chunks
    requires c'.threads == c.threads && c'.completed == c.completed && c'.fired == c.fired
    ensures Inv(c')
  {
    hide Count, Present;
    assert forall i :: 0 <= i < |c.chunks| && ChunkInv(c, i) ==> ChunkInv(c', i);
  }

  predicate Possible(c: Cache, steps: seq<Step>)
    decreases |steps|
  {
    steps == [] || (Enabled(c, steps[0]) && Possible(Do(c, steps[0]), steps[1..]))
  }

  function Run(c: Cache, steps: seq<Step>): Cache
    requires Possible(c, steps)
    decreases |steps|
  {
    if steps == [] then c else Run(Do(c, steps[0]), steps[1..])
  }

  lemma {:induction false} RunInv(c: Cache, steps: seq<Step>)
    requires Inv(c) && Possible(c, steps)
    ensures Inv(Run(c, steps)) && |Run(c, steps).chunks| == |c.chunks|
    decreases |steps|
  {
    hide Inv;
    if steps != [] {
      StepInv(c, steps[0]);
      RunInv(Do(c, steps[0]), steps[1..]);
    }
  }

  lemma OpenedInv(n: nat)
    requires n > 0
    ensures Inv(Opened(n))
  {
    var chunks := Opened(n).chunks;
    PresentFirst(chunks);
    assert forall i :: 0 <= i < n ==> ChunkInv(Opened(n), i);
  }

  lemma {:induction false} PresentFirst(chunks: seq<Chunk>)
    requires chunks != [] && chunks[0].present && forall i :: 0 < i < |chunks| ==> !chunks[i].present
    ensures Present(chunks) == 1
  {
    if |chunks| > 1 {
      PresentFirst(chunks[..|chunks|-1]);
    } else {
      assert chunks[..0] == [];
    }
  }

  /** In every run a chunk has at most one downloader and its data is set at most
      once. */
  lemma OneDownloader(n: nat, steps: seq<Step>, idx: nat)
    requires n > 0 && Possible(Opened(n), steps) && idx < n
    ensures var c := Run(Opened(n), steps);
      && |c.chunks| == n && Count(c.threads, Downloads(idx)) <= 1
      && c.chunks[idx].stores <= 1 && (c.chunks[idx].present <==> c.chunks[idx].stores == 1)
  {
    hide Possible, Run, Count, Present;
    OpenedInv(n);
    RunInv(Opened(n), steps);
    assert ChunkInv(Run(Opened(n), steps), idx);
  }

  /** The count of completed chunks lags behind the chunks with data by exactly the
      threads that have stored one and not yet counted it. */
  lemma CompletedCount(n: nat, steps: seq<Step>)
    requires n > 0 && Possible(Opened(n), steps)
    ensures var c := Run(Opened(n), steps);
      c.completed + Count(c.threads, IsStored()) == Present(c.chunks)
  {
    hide Possible, Run, Count, Present, ChunkInv;
    OpenedInv(n);
    RunInv(Opened(n), steps);
  }

  /** The completion callback is started at most once, and only with every chunk
      there. */
  lemma CallbackOnce(n: nat, steps: seq<Step>)
    requires n > 0 && Possible(Opened(n), steps)
    ensures var c := Run(Opened(n), steps);
      c.fired <= 1 && (c.fired == 1 ==> forall idx :: 0 <= idx < |c.chunks| ==> c.chunks[idx].present)
  {
    hide Possible, Run, Count, Present, ChunkInv;
    OpenedInv(n);
    RunInv(Opened(n), steps);
    PresentAll(Run(Opened(n), steps).chunks);
  }

  ghost predicate FiredIfDone(c: Cache) {
    c.registered && c.completed >= |c.chunks| ==> c.fired > 0
  }

  lemma {:induction false} RunFires(c: Cache, steps: seq<Step>)
    requires Inv(c) && FiredIfDone(c) && Possible(c, steps)
    ensures FiredIfDone(Run(c, steps))
    decreases |steps|
  {
    hide Count, Present, ChunkInv;
    if steps != [] {
      StepInv(c, steps[0]);
      RunFires(Do(c, steps[0]), steps[1..]);
    }
  }

  /** Completion cannot be missed: when a callback is registered, every chunk is
      there and nobody is left to count one, it has been started. */
  lemma CallbackFires(n: nat, steps: seq<Step>)
    requires n > 0 && Possible(Opened(n), steps)
    requires var c := Run(Opened(n), steps);
      c.registered && Present(c.chunks) == |c.chunks| && Count(c.threads, IsStored()) == 0
    ensures Run(Opened(n), steps).fired == 1
  {
    hide Possible, Run, Count, Present, ChunkInv;
    OpenedInv(n);
    RunInv(Opened(n), steps);
    RunFires(Opened(n), steps);
  }

  /** What a thread does at the lock: on a closed cache, or with the chunk there, it is
      done; a chunk nobody fetches it fetches; one that is being fetched it waits for. */
  lemma Enters(c: Cache, t: nat)
    requires Enabled(c, Enter(t))
    ensures var idx := c.threads[t].idx; var c' := Do(c, Enter(t));
      && |c'.threads| == |c.threads| && |c'.chunks| == |c.chunks|
      && (forall i :: 0 <= i < |c.threads| && i != t ==> c'.threads[i] == c.threads[i])
      && if c.closed || c.chunks[idx].present then c'.threads[t] == Finished && c'.chunks == c.chunks
         else if c.chunks[idx].fetching then c' == c
         else c'.threads[t] == Downloading(idx) && c'.chunks[idx].fetching
  {}

  lemma {:induction false} CountFinds(threads: seq<Thread>, p: Thread -> bool) returns (t: nat)
    requires Count(threads, p) > 0
    ensures t < |threads| && p(threads[t])
  {
    var n := |threads| - 1;
    if p(threads[n]) {
      t := n;
    } else {
      t := CountFinds(threads[..n], p);
    }
  }

  /** In every run a thread that has to wait for a chunk waits for another thread, which
      is downloading it; once that has stored it, the one waiting is done, and if it
      fails, the one waiting takes over. */
  lemma WaitsForDownload(n: nat, steps: seq<Step>, t: nat) returns (other: nat)
    requires n > 0 && Possible(Opened(n), steps)
    requires var c := Run(Opened(n), steps);
      Enabled(c, Enter(t)) && !c.closed && !c.chunks[c.threads[t].idx].present && c.chunks[c.threads[t].idx].fetching
    ensures var c := Run(Opened(n), steps); var idx := c.threads[t].idx;
      && other < |c.threads| && other != t && c.threads[other] == Downloading(idx)
      && Enabled(c, Store(other)) && Enabled(Do(c, Store(other)), Enter(t))
      && Do(Do(c, Store(other)), Enter(t)).threads[t] == Finished && Do(c, Store(other)).chunks[idx].present
      && Enabled(c, Fail(other)) && Enabled(Do(c, Fail(other)), Enter(t))
      && Do(Do(c, Fail(other)), Enter(t)).threads[t] == Downloading(idx)
  {
    hide Possible, Run, Count, Present;
    OpenedInv(n);
    RunInv(Opened(n), steps);
    var c := Run(Opened(n), steps);
    var idx := c.threads[t].idx;
    assert ChunkInv(c, idx);
    other := CountFinds(c.threads, Downloads(idx));
  }

  predicate AnyClose(steps: seq<Step>) {
    exists i :: 0 <= i < |steps| && steps[i].Close?
  }

  /** Once closed the cache stays so: no thread begins a download any more. */
  lemma {:induction false} StaysClosed(c: Cache, steps: seq<Step>, idx: nat)
    requires Possible(c, steps) && (c.closed || AnyClose(steps))
    ensures Run(c, steps).closed
    ensures c.closed ==> Count(Run(c, steps).threads, Downloads(idx)) <= Count(c.threads, Downloads(idx))
    decreases |steps|
  {
    hide Count;
    if steps != [] {
      var c' := Do(c, steps[0]);
      if !c'.closed {
        var i :| 0 <= i < |steps| && steps[i].Close?;
        assert steps[1..][i - 1].Close?;
      }
      StaysClosed(c', steps[1..], idx);
      if c.closed {
        ClosedStep(c, steps[0], idx);
      }
    }
  }

  lemma ClosedStep(c: Cache, step: Step, idx: nat)
    requires c.closed && Enabled(c, step)
    ensures Count(Do(c, step).threads, Downloads(idx)) <= Count(c.threads, Downloads(idx))
  {
    hide Count;
    match step {
      case Start(i) => CountMore(c.threads, Entering(i), Downloads(idx));
      case Enter(t) => CountUpdate(c.threads, t, Finished, Downloads(idx));
      case Fail(t) => CountUpdate(c.threads, t, Finished, Downloads(idx));
      case Store(t) => CountUpdate(c.threads, t, Stored(c.threads[t].idx), Downloads(idx));
      case Mark(t) => CountUpdate(c.threads, t, Finished, Downloads(idx));
      case _ =>
    }
  }

  lemma CountMore(threads: seq<Thread>, thread: Thread, p: Thread -> bool)
    ensures Count(threads + [thread], p) == Count(threads, p) + if p(thread) then 1 else 0
  {}
}

/** The cache of context listings, which edits invalidate while listings are being
    enumerated. */
module ListingModel {
  import opened Words

  type Uri = string

  const LISTING_TTL: int := 300

  /** A cached listing: which enumeration produced it, and when. */
  datatype Entry = Entry(run: nat, fetched: int)

  /** One enumeration of a context: the generation it was told, whether it is over,
      and how many times its context has been invalidated since it began. */
  datatype Enumeration = Enumeration(uri: Uri, gen: nat, ended: bool, missed: nat)

  /** The cache, and every enumeration so far. */
  datatype Cache = Cache(cached: map<Uri, Entry>, inFlight: map<Uri, nat>, runs: seq<Enumeration>)

  const EMPTY := Cache(map[], map[], [])

  datatype Found = Nothing | Listing(run: nat)

  function Get(c: Cache, uri: Uri, now: int): Found {
    if uri in c.cached && now - c.cached[uri].fetched <= LISTING_TTL then Listing(c.cached[uri].run) else Nothing
  }

  /** An enumeration that may begin: none of the same context is under way. */
  function Begin(c: Cache, uri: Uri): Cache {
    if uri in c.inFlight then c
    else c.(inFlight := c.inFlight[uri := 0], runs := c.runs + [Enumeration(uri, 0, false, 0)])
  }

  /** Caches what an enumeration found, evicting whatever has to make room, unless
      it was told another generation than the current one. */
  function Put(c: Cache, e: nat, now: int, evicted: set<Uri>): Cache
    requires e < |c.runs|
  {
    var uri := c.runs[e].uri;
    if uri in c.inFlight && c.inFlight[uri] != c.runs[e].gen then c
    else c.(cached := (c.cached - evicted)[uri := Entry(e, now)])
  }

  function End(c: Cache, e: nat): Cache
    requires e < |c.runs|
  {
    c.(inFlight := c.inFlight - {c.runs[e].uri}, runs := c.runs[e := c.runs[e].(ended := true)])
  }

  function Missed(runs: seq<Enumeration>, uri: Uri): (r: seq<Enumeration>)
    ensures |r| == |runs|
    ensures forall i :: 0 <= i < |r| ==>
      r[i] == if runs[i].uri == uri then runs[i].(missed := runs[i].missed + 1) else runs[i]
  {
    if runs == [] then []
    else
      var last := runs[|runs|-1];
      Missed(runs[..|runs|-1], uri) + [if last.uri == uri then last.(missed := last.missed + 1) else last]
  }

  /** Generations are 64-bit numbers. */
  function Invalidate(c: Cache, uri: Uri): Cache {
    c.(cached := c.cached - {uri},
       inFlight := if uri in c.inFlight then c.inFlight[uri := (c.inFlight[uri] + 1) % TWO_64] else c.inFlight,
       runs := Missed(c.runs, uri))
  }
}

/** The cache as an object. */
module ListingCaches {
  import opened Words
  import opened ListingModel

  class ContextListCache {
    var lru: map<Uri, Entry>
    var inFlight: map<Uri, nat>
    ghost var runs: seq<Enumeration>

    constructor ()
      ensures View() == EMPTY
    {
      lru, inFlight, runs := map[], map[], [];
    }

    ghost function View(): Cache
      reads this
    {
      Cache(lru, inFlight, runs)
    }

    method GetListing(uri: Uri, now: int) returns (found: Found)
      ensures found == Get(View(), uri, now)
    {
      if uri !in lru || now - lru[uri].fetched > LISTING_TTL {
        return Nothing;
      }
      found := Listing(lru[uri].run);
    }

    method BeginFetch(uri: Uri, now: int) returns (gen: nat, ok: bool)
      modifies this
      ensures ok == (Get(old(View()), uri, now).Nothing? && uri !in old(inFlight)) && gen == 0
      ensures View() == if ok then Begin(old(View()), uri) else old(View())
    {
      var found := GetListing(uri, now);
      if found.Listing? || uri in inFlight {
        return 0, false;
      }
      inFlight := inFlight[uri := 0];
      runs := runs + [Enumeration(uri, 0, false, 0)];
      return 0, true;
    }

    method PutListing(e: nat, uri: Uri, gen: nat, now: int, evicted: set<Uri>)
      requires e < |runs| && runs[e].uri == uri && runs[e].gen == gen
      modifies `lru
      ensures View() == Put(old(View()), e, now, evicted)
    {
      if uri in inFlight && inFlight[uri] != gen {
        return;
      }
      lru := (lru - evicted)[uri := Entry(e, now)];
    }

    method InvalidateListing(uri: Uri)
      modifies this
      ensures View() == Invalidate(old(View()), uri)
    {
      lru := lru - {uri};
      if uri in inFlight {
        inFlight := inFlight[uri := (inFlight[uri] + 1) % TWO_64];
      }
      runs := Missed(runs, uri);
    }

    method EndFetch(e: nat, uri: Uri)
      requires e < |runs| && runs[e].uri == uri
      modifies this
      ensures View() == End(old(View()), e)
    {
      inFlight := inFlight - {uri};
      runs := runs[e := runs[e].(ended := true)];
    }
  }
}

/** What every interleaving of enumerations and invalidations keeps. */
module ListingRuns {
  import opened Words
  import opened ListingModel

  datatype Op = OpBegin(uri: Uri) | OpPut(e: nat, now: int, evicted: set<Uri>) | OpEnd(e: nat) | OpInvalidate(uri: Uri)

  /** An enumeration puts only before it ends. */
  predicate Enabled(c: Cache, op: Op) {
    match op
    case OpPut(e, _, _) => e < |c.runs| && !c.runs[e].ended
    case OpEnd(e) => e < |c.runs| && !c.runs[e].ended
    case _ => true
  }

  function Do(c: Cache, op: Op): Cache
    requires Enabled(c, op)
  {
    match op
    case OpBegin(uri) => Begin(c, uri)
    case OpPut(e, now, evicted) => Put(c, e, now, evicted)
    case OpEnd(e) => End(c, e)
    case OpInvalidate(uri) => Invalidate(c, uri)
  }

  predicate Possible(c: Cache, ops: seq<Op>)
    decreases |ops|
  {
    ops == [] || (Enabled(c, ops[0]) && Possible(Do(c, ops[0]), ops[1..]))
  }

  function Run(c: Cache, ops: seq<Op>): Cache
    requires Possible(c, ops)
    decreases |ops|
  {
    if ops == [] then c else Run(Do(c, ops[0]), ops[1..])
  }

  /** Each context has at most one enumeration under way, whose generation counts
      the invalidations it has missed. */
  ghost predicate Flights(c: Cache) {
    && (forall e :: 0 <= e < |c.runs| && !c.runs[e].ended ==>
          c.runs[e].uri in c.inFlight && c.inFlight[c.runs[e].uri] == c.runs[e].missed % TWO_64 && c.runs[e].gen == 0)
    && (forall e, f :: 0 <= e < f < |c.runs| && !c.runs[e].ended && !c.runs[f].ended ==> c.runs[e].uri != c.runs[f].uri)
  }

  /** Every cached listing is of its own context. */
  ghost predicate Entries(c: Cache) {
    forall uri :: uri in c.cached ==> c.cached[uri].run < |c.runs| && c.runs[c.cached[uri].run].uri == uri
  }

  /** No cached listing has missed an invalidation. */
  ghost predicate Fresh(c: Cache) {
    forall uri :: uri in c.cached ==> c.cached[uri].run < |c.runs| && c.runs[c.cached[uri].run].missed == 0
  }

  lemma StepFlights(c: Cache, op: Op)
    requires Flights(c) && Entries(c) && Enabled(c, op)
    ensures Flights(Do(c, op)) && Entries(Do(c, op))
  {
    if op.OpInvalidate? {
      InvalidateFlights(c, op.uri);
    }
  }

  lemma InvalidateFlights(c: Cache, uri: Uri)
    requires Flights(c) && Entries(c)
    ensures Flights(Invalidate(c, uri)) && Entries(Invalidate(c, uri))
  {
    hide Invalidate;
    var c' := Invalidate(c, uri);
    InvalidateKeeps(c, uri);
    forall e | 0 <= e < |c'.runs| && !c'.runs[e].ended
      ensures c'.runs[e].uri in c'.inFlight && c'.runs[e].gen == 0
      ensures c'.inFlight[c'.runs[e].uri] == c'.runs[e].missed % TWO_64
    {
      assert c.runs[e].uri in c.inFlight && c.inFlight[c.runs[e].uri] == c.runs[e].missed % TWO_64;
      InvalidateOne(c, uri, e);
    }
  }

  lemma InvalidateKeeps(c: Cache, uri: Uri)
    ensures var c' := Invalidate(c, uri);
      && |c'.runs| == |c.runs| && (forall u :: u in c'.cached ==> u in c.cached && c'.cached[u] == c.cached[u])
      && (forall e :: 0 <= e < |c.runs| ==>
            c'.runs[e].uri == c.runs[e].uri && c'.runs[e].gen == c.runs[e].gen && c'.runs[e].ended == c.runs[e].ended)
  {
    hide Missed;
  }

  lemma InvalidateOne(c: Cache, uri: Uri, e: nat)
    requires e < |c.runs| && c.runs[e].uri in c.inFlight && c.inFlight[c.runs[e].uri] == c.runs[e].missed % TWO_64
    ensures var c' := Invalidate(c, uri);
      c.runs[e].uri in c'.inFlight && c'.inFlight[c.runs[e].uri] == c'.runs[e].missed % TWO_64
  {
    hide Missed;
    assert (c.runs[e].missed % TWO_64 + 1) % TWO_64 == (c.runs[e].missed + 1) % TWO_64;
  }

  /** An enumeration under way gets its listing cached exactly when the number of
      invalidations it has missed is a multiple of 2^64. */
  lemma PutWhenUnmissed(c: Cache, e: nat, now: int, evicted: set<Uri>)
    requires Flights(c) && e < |c.runs| && !c.runs[e].ended
    ensures Put(c, e, now, evicted) == if c.runs[e].missed % TWO_64 == 0
      then c.(cached := (c.cached - evicted)[c.runs[e].uri := Entry(e, now)]) else c
  {}

  /** The puts of a run that come after 2^64 invalidations of what they list. */
  predicate Wraps(c: Cache, op: Op) {
    op.OpPut? && op.e < |c.runs| && c.runs[op.e].missed > 0 && c.runs[op.e].missed % TWO_64 == 0
  }

  lemma StepFresh(c: Cache, op: Op)
    requires Flights(c) && Entries(c) && Fresh(c) && Enabled(c, op)
    ensures Fresh(Do(c, op)) <==> !Wraps(c, op)
  {
    hide Missed;
    match op {
      case OpPut(e, now, evicted) =>
        PutWhenUnmissed(c, e, now, evicted);
        var c' := Put(c, e, now, evicted);
        if Wraps(c, op) {
          assert c'.cached[c.runs[e].uri].run == e;
        }
      case OpInvalidate(uri) => InvalidateFresh(c, uri);
      case OpBegin(uri) =>
      case OpEnd(e) =>
    }
  }

  lemma InvalidateFresh(c: Cache, uri: Uri)
    requires Entries(c) && Fresh(c)
    ensures Fresh(Invalidate(c, uri))
  {
    hide Missed;
    var c' := Invalidate(c, uri);
    forall u | u in c'.cached ensures c'.cached[u].run < |c'.runs| && c'.runs[c'.cached[u].run].missed == 0 {
      assert u in c.cached && u != uri;
      assert c.runs[c.cached[u].run].uri == u;
    }
  }

  ghost predicate NeverWraps(c: Cache, ops: seq<Op>)
    requires Possible(c, ops)
    decreases |ops|
  {
    ops == [] || (!Wraps(c, ops[0]) && NeverWraps(Do(c, ops[0]), ops[1..]))
  }

  lemma {:induction false} RunFresh(c: Cache, ops: seq<Op>)
    requires Flights(c) && Entries(c) && Fresh(c) && Possible(c, ops) && NeverWraps(c, ops)
    ensures Fresh(Run(c, ops)) && Entries(Run(c, ops))
    decreases |ops|
  {
    hide Flights, Entries, Fresh, Wraps;
    if ops != [] {
      StepFlights(c, ops[0]);
      StepFresh(c, ops[0]);
      RunFresh(Do(c, ops[0]), ops[1..]);
    }
  }

  /** What is served is a listing of the context asked for, and after an invalidation
      none that was begun before it, in every run where no enumeration outlasts 2^64
      invalidations of its context. */
  lemma NothingStale(ops: seq<Op>, uri: Uri, now: int)
    requires Possible(EMPTY, ops) && NeverWraps(EMPTY, ops)
    ensures var c := Run(EMPTY, ops); var found := Get(c, uri, now);
      found.Listing? ==>
        found.run < |c.runs| && c.runs[found.run].uri == uri && c.runs[found.run].missed == 0
  {
    hide Possible, Run, NeverWraps;
    RunFresh(EMPTY, ops);
  }

  /** The step neither invalidates the listing of a context, nor replaces it, nor makes
      room at its cost. */
  predicate Spares(c: Cache, op: Op, uri: Uri) {
    match op
    case OpPut(e, _, evicted) => e < |c.runs| && c.runs[e].uri != uri && uri !in evicted
    case OpInvalidate(u) => u != uri
    case _ => true
  }

  ghost predicate AllSpare(c: Cache, ops: seq<Op>, uri: Uri)
    requires Possible(c, ops)
    decreases |ops|
  {
    ops == [] || (Spares(c, ops[0], uri) && AllSpare(Do(c, ops[0]), ops[1..], uri))
  }

  lemma {:induction false} SparedStays(c: Cache, ops: seq<Op>, uri: Uri)
    requires Possible(c, ops) && AllSpare(c, ops, uri) && uri in c.cached
    ensures var c' := Run(c, ops); uri in c'.cached && c'.cached[uri] == c.cached[uri]
    decreases |ops|
  {
    hide Missed;
    if ops != [] {
      SparedStays(Do(c, ops[0]), ops[1..], uri);
    }
  }

  /** A listing put by an enumeration that missed no invalidation is served for 300
      seconds and no longer, whatever happens to other contexts. */
  lemma ServedUntilOld(c: Cache, e: nat, put: int, evicted: set<Uri>, ops: seq<Op>, now: int)
    requires Flights(c) && e < |c.runs| && !c.runs[e].ended && c.runs[e].missed == 0
    requires Possible(Put(c, e, put, evicted), ops) && AllSpare(Put(c, e, put, evicted), ops, c.runs[e].uri)
    ensures Get(Run(Put(c, e, put, evicted), ops), c.runs[e].uri, now) ==
      if now - put <= 300 then Listing(e) else Nothing
  {
    hide Possible, Run, AllSpare;
    PutWhenUnmissed(c, e, put, evicted);
    SparedStays(Put(c, e, put, evicted), ops, c.runs[e].uri);
  }

  ghost predicate Claimed(c: Cache) {
    forall uri :: uri in c.inFlight ==> exists e :: 0 <= e < |c.runs| && !c.runs[e].ended && c.runs[e].uri == uri
  }

  lemma StepClaimed(c: Cache, op: Op)
    requires Flights(c) && Claimed(c) && Enabled(c, op)
    ensures Claimed(Do(c, op))
  {
    hide Missed;
    var c' := Do(c, op);
    forall uri | uri in c'.inFlight
      ensures exists e :: 0 <= e < |c'.runs| && !c'.runs[e].ended && c'.runs[e].uri == uri
    {
      if uri in c.inFlight {
        var e :| 0 <= e < |c.runs| && !c.runs[e].ended && c.runs[e].uri == uri;
        assert !c'.runs[e].ended && c'.runs[e].uri == uri;
      } else {
        assert c'.runs[|c.runs|].uri == uri;
      }
    }
  }

  lemma {:induction false} RunClaimed(c: Cache, ops: seq<Op>)
    requires Flights(c) && Entries(c) && Claimed(c) && Possible(c, ops)
    ensures Flights(Run(c, ops)) && Claimed(Run(c, ops))
    decreases |ops|
  {
    hide Flights, Entries, Claimed;
    if ops != [] {
      StepFlights(c, ops[0]);
      StepClaimed(c, ops[0]);
      RunClaimed(Do(c, ops[0]), ops[1..]);
    }
  }

  /** In every run a context is marked as being enumerated exactly while an enumeration
      of it is under way, so that one can always begin when none is. */
  lemma InFlightIff(ops: seq<Op>, uri: Uri)
    requires Possible(EMPTY, ops)
    ensures var c := Run(EMPTY, ops);
      uri in c.inFlight <==> exists e :: 0 <= e < |c.runs| && !c.runs[e].ended && c.runs[e].uri == uri
  {
    hide Possible, Run;
    RunClaimed(EMPTY, ops);
  }

  function Invalidations(c: Cache, uri: Uri, n: nat): (c': Cache)
    ensures |c'.runs| == |c.runs|
  {
    if n == 0 then c else Invalidate(Invalidations(c, uri, n - 1), uri)
  }

  /** The cache with one enumeration under way that has missed n invalidations. */
  function Waiting(uri: Uri, n: nat): Cache {
    Cache(map[], map[uri := n % TWO_64], [Enumeration(uri, 0, false, n)])
  }

  lemma OneMore(uri: Uri, n: nat)
    ensures Invalidate(Waiting(uri, n), uri) == Waiting(uri, n + 1)
  {
    hide Missed;
    var c := Invalidate(Waiting(uri, n), uri);
    assert c.runs == [Enumeration(uri, 0, false, n + 1)];
    assert c.cached == map[];
  }

  lemma {:induction false} ManyMissed(uri: Uri, n: nat)
    ensures Invalidations(Begin(EMPTY, uri), uri, n) == Waiting(uri, n)
  {
    hide Invalidate;
    if n > 0 {
      ManyMissed(uri, n - 1);
      OneMore(uri, n - 1);
    } else {
      assert Begin(EMPTY, uri) == Waiting(uri, 0);
    }
  }

  /** The limit is real: after that many a stale listing is cached and served. */
  lemma StaleAfterWrap(uri: Uri)
    ensures var c := Put(Invalidations(Begin(EMPTY, uri), uri, TWO_64), 0, 0, {});
      Get(c, uri, 0) == Listing(0) && c.runs[0].missed == TWO_64
  {
    hide Invalidations, Invalidate, Begin;
    ManyMissed(uri, TWO_64);
  }

  /** So is the order: an enumeration that put its listing after ending would have
      an outdated one cached. */
  lemma StaleIfPutAfterEnd(uri: Uri)
    ensures var c := End(Invalidate(Begin(EMPTY, uri), uri), 0);
      !Enabled(c, OpPut(0, 0, {})) && Get(Put(c, 0, 0, {}), uri, 0) == Listing(0) && c.runs[0].missed == 1
  {}
}

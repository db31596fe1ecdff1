/** A lazily paged context and the order its tracks are loaded in. */
module Paging {
  /** A context track. gidUri is the uri its gid stands for; any of the three
      names may be empty. */
  datatype Track = Track(uri: string, gidUri: string, uid: string, queued: bool)

  /** What the page resolver answers for a page that does not fail to load. */
  datatype Page = Tracks(tracks: seq<Track>) | EndOfContext

  type Context = nat -> Page

  /** A loaded track with the page it came from, or page -1 for a track injected
      ahead of the context. */
  datatype Item = Item(track: Track, page: int, index: int)

  const INJECTED_PAGE := -1
  const SEEK_MAX_PAGES := 256

  function NextPage(list: seq<Item>): int {
    if list == [] then 0 else list[|list|-1].page + 1
  }

  function Tagged(tracks: seq<Track>, page: nat): (items: seq<Item>)
    ensures |items| == |tracks|
    ensures forall i :: 0 <= i < |items| ==> items[i] == Item(tracks[i], page, i)
  {
    if tracks == [] then []
    else
      var n := |tracks| - 1;
      Tagged(tracks[..n], page) + [Item(tracks[n], page, n)]
  }

  /** Pages are numbered from 0, injected tracks with -1. */
  predicate Numbered(list: seq<Item>) {
    forall i :: 0 <= i < |list| ==> list[i].page >= INJECTED_PAGE
  }

  /** Appending the next page: the page after that of the last item, which has
      to exist and hold something. */
  function Grown(ctx: Context, list: seq<Item>): (list': seq<Item>)
    ensures list <= list' && (CanGrow(ctx, list) ==> |list| < |list'|)
  {
    var page := NextPage(list);
    if page >= 0 && ctx(page).Tracks? then list + Tagged(ctx(page).tracks, page) else list
  }

  predicate CanGrow(ctx: Context, list: seq<Item>) {
    var page := NextPage(list);
    page >= 0 && ctx(page).Tracks? && ctx(page).tracks != []
  }

  predicate AtEnd(ctx: Context, list: seq<Item>) {
    NextPage(list) >= 0 && ctx(NextPage(list)).EndOfContext?
  }

  /** Every page either loads with something on it or is past the end. */
  ghost predicate WellFormed(ctx: Context) {
    forall i: nat :: ctx(i).Tracks? ==> ctx(i).tracks != []
  }

  /** The first k pages of a context, in order. */
  function FirstPages(ctx: Context, k: nat): seq<Item>
    requires HasPages(ctx, k)
  {
    if k == 0 then [] else FirstPages(ctx, k - 1) + Tagged(ctx(k - 1).tracks, k - 1)
  }

  ghost predicate HasPages(ctx: Context, k: nat) {
    forall i: nat :: i < k ==> ctx(i).Tracks? && ctx(i).tracks != []
  }

  /** m injected tracks, then the first k pages of the context. */
  ghost predicate Shaped(ctx: Context, list: seq<Item>, m: nat, k: nat) {
    && m <= |list| && HasPages(ctx, k)
    && (forall i :: 0 <= i < m ==> list[i].page == INJECTED_PAGE)
    && list[m..] == FirstPages(ctx, k)
  }

  ghost predicate InOrder(ctx: Context, list: seq<Item>) {
    exists m: nat, k: nat :: Shaped(ctx, list, m, k)
  }
}

/** Walking a paged list. A walk fetches pages as it needs them; `budget` is how
    many of its fetches go through before one fails. */
module Walking {
  import opened Paging

  datatype Outcome = Found(at: nat) | Missing | GaveUp | Failed

  datatype Walk = Walk(list: seq<Item>, outcome: Outcome)

  /** Looks for f from index i on, giving up past the page limit. */
  function SeekFrom(ctx: Context, list: seq<Item>, i: nat, f: Track -> bool, budget: nat): Walk
    requires i <= |list|
    decreases budget, |list| - i
  {
    if i < |list| then
      if f(list[i].track) then Walk(list, Found(i))
      else if list[i].page >= SEEK_MAX_PAGES then Walk(list, GaveUp)
      else SeekFrom(ctx, list, i + 1, f, budget)
    else if AtEnd(ctx, list) && budget > 0 then Walk(list, Missing)
    else if CanGrow(ctx, list) && budget > 0 then SeekFrom(ctx, Grown(ctx, list), i, f, budget - 1)
    else Walk(list, Failed)
  }

  /** The list after n more pages, or all there are. */
  function GrownBy(ctx: Context, list: seq<Item>, n: nat): (list': seq<Item>)
    ensures list <= list'
    decreases n
  {
    if n == 0 || !CanGrow(ctx, list) then list else GrownBy(ctx, Grown(ctx, list), n - 1)
  }

  /** The list once it holds n items, or all there are, a page at a time. */
  function LoadedTo(ctx: Context, list: seq<Item>, n: nat): (list': seq<Item>)
    ensures list <= list'
    ensures n <= |list'| || !CanGrow(ctx, list')
    decreases n - |list|
  {
    if n <= |list| || !CanGrow(ctx, list) then list else LoadedTo(ctx, Grown(ctx, list), n)
  }

  /** What a seek promises: it only ever appends whole pages, and where it ends
      is the first match in the order they load. */
  ghost predicate SeekResult(ctx: Context, w: Walk, f: Track -> bool) {
    && (w.outcome.Found? ==>
          && w.outcome.at < |w.list| && f(w.list[w.outcome.at].track)
          && forall j :: 0 <= j < w.outcome.at ==> !f(w.list[j].track) && w.list[j].page < SEEK_MAX_PAGES)
    && (w.outcome.Missing? ==> AtEnd(ctx, w.list) && forall j :: 0 <= j < |w.list| ==> !f(w.list[j].track))
    && (w.outcome.GaveUp? ==>
          exists j :: 0 <= j < |w.list| && w.list[j].page >= SEEK_MAX_PAGES
            && forall i :: 0 <= i <= j ==> !f(w.list[i].track))
  }

  lemma {:induction false} SeekFinds(ctx: Context, list: seq<Item>, i: nat, f: Track -> bool, budget: nat)
    returns (pages: nat)
    requires i <= |list|
    requires forall j :: 0 <= j < i ==> !f(list[j].track) && list[j].page < SEEK_MAX_PAGES
    ensures var w := SeekFrom(ctx, list, i, f, budget);
            w.list == GrownBy(ctx, list, pages) && SeekResult(ctx, w, f)
    decreases budget, |list| - i
  {
    hide CanGrow, AtEnd, Grown;
    pages := 0;
    if i < |list| {
      if !f(list[i].track) && list[i].page < SEEK_MAX_PAGES {
        pages := SeekFinds(ctx, list, i + 1, f, budget);
      }
    } else if CanGrow(ctx, list) && !AtEnd(ctx, list) && budget > 0 {
      var rest := SeekFinds(ctx, Grown(ctx, list), i, f, budget - 1);
      pages := rest + 1;
    }
  }

  /** Growing keeps the order of the context. */
  lemma GrownInOrder(ctx: Context, list: seq<Item>, m: nat, k: nat)
    requires Shaped(ctx, list, m, k) && CanGrow(ctx, list)
    ensures NextPage(list) == k && Shaped(ctx, Grown(ctx, list), m, k + 1)
  {
    ShapedNextPage(ctx, list, m, k);
    var grown := Grown(ctx, list);
    assert HasPages(ctx, k + 1) by {
      forall i: nat | i < k + 1 ensures ctx(i).Tracks? && ctx(i).tracks != [] {
        if i < k { assert HasPages(ctx, k); }
      }
    }
    assert grown[m..] == list[m..] + Tagged(ctx(k).tracks, k);
  }

  lemma ShapedNextPage(ctx: Context, list: seq<Item>, m: nat, k: nat)
    requires Shaped(ctx, list, m, k)
    ensures NextPage(list) == k
  {
    if k > 0 {
      var last := Tagged(ctx(k - 1).tracks, k - 1);
      assert ctx(k - 1).tracks != [];
      assert list[m..] == FirstPages(ctx, k - 1) + last;
      assert list[|list|-1] == list[m..][|list| - m - 1] == last[|last|-1];
    } else if list != [] {
      assert m == |list| by { assert |list[m..]| == 0; }
    }
  }

  lemma {:induction false} GrownByInOrder(ctx: Context, list: seq<Item>, n: nat, m: nat, k: nat) returns (k': nat)
    requires Shaped(ctx, list, m, k)
    ensures Shaped(ctx, GrownBy(ctx, list, n), m, k')
    decreases n
  {
    hide Shaped, Grown, CanGrow;
    k' := k;
    if n > 0 && CanGrow(ctx, list) {
      GrownInOrder(ctx, list, m, k);
      k' := GrownByInOrder(ctx, Grown(ctx, list), n - 1, m, k + 1);
    }
  }
}

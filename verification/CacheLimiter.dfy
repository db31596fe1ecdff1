/** The limit on the size of the file cache. */
module Sizes {
  type Path = string

  datatype File = File(size: nat, atime: int)

  type Files = map<Path, File>

  /** The sizes of all the files tracked. */
  ghost function Total(files: Files): nat
    decreases |files|
  {
    if files == map[] then 0
    else
      var path :| path in files;
      files[path].size + Total(files - {path})
  }

  /** Which file is taken out first does not matter. */
  lemma {:induction false} TotalWithout(files: Files, path: Path)
    requires path in files
    ensures Total(files) == files[path].size + Total(files - {path})
    decreases |files|
  {
    var first :| first in files && Total(files) == files[first].size + Total(files - {first});
    if first != path {
      TotalWithout(files - {first}, path);
      TotalWithout(files - {path}, first);
      assert files - {first} - {path} == files - {path} - {first};
    }
  }

  lemma TotalWith(files: Files, path: Path, file: File)
    ensures path !in files ==> Total(files[path := file]) == Total(files) + file.size
    ensures path in files ==> Total(files[path := file]) + files[path].size == Total(files) + file.size
  {
    TotalWithout(files[path := file], path);
    assert files[path := file] - {path} == files - {path};
    if path in files {
      TotalWithout(files, path);
    } else {
      assert files - {path} == files;
    }
  }
}

module CacheLimiter {
  import opened Sizes

  /** A file met while walking the cache directory. */
  datatype Met = Met(path: Path, size: nat, modTime: int)

  predicate Temporary(path: Path) {
    |path| >= 4 && path[|path| - 4..] == ".tmp"
  }

  ghost predicate AllDifferent(met: seq<Met>) {
    forall i, j :: 0 <= i < j < |met| ==> met[i].path != met[j].path
  }

  /** The sizes already counted of files met again. */
  function CountedBefore(met: seq<Met>, files: Files): nat {
    if met == [] then 0
    else
      var path := met[|met|-1].path;
      CountedBefore(met[..|met|-1], files) + if !Temporary(path) && path in files then files[path].size else 0
  }

  /** Nothing met that has a size is tracked already. */
  ghost predicate NothingTracked(met: seq<Met>, files: Files) {
    forall i :: 0 <= i < |met| && !Temporary(met[i].path) && met[i].path in files ==> files[met[i].path].size == 0
  }

  lemma {:induction false} CountedNothing(met: seq<Met>, files: Files)
    ensures CountedBefore(met, files) == 0 <==> NothingTracked(met, files)
  {
    if met != [] {
      var n := |met| - 1;
      CountedNothing(met[..n], files);
      assert forall i :: 0 <= i < n ==> met[i] == met[..n][i];
    }
  }

  /** A directory walked a second time is counted twice. */
  lemma CountedTwice(path: Path, size: nat)
    requires size > 0 && !Temporary(path)
    ensures var met, files := [Met(path, size, 0)], map[path := File(size, 0)];
      CountedBefore(met, files) == size && !NothingTracked(met, files)
  {
    var met, files := [Met(path, size, 0)], map[path := File(size, 0)];
    assert CountedBefore(met[..0], files) == 0;
    CountedNothing(met, files);
  }

  class SizeLimiter {
    const limit: int
    var inUse: int
    var files: Files

    constructor (limit: int)
      ensures this.limit == limit && files == map[] && Accounted()
    {
      this.limit, inUse, files := limit, 0, map[];
    }

    /** The figure in use is the size of the files tracked. */
    ghost predicate Accounted()
      reads this
    {
      inUse == Total(files)
    }

    /** How much too high the figure is. */
    ghost function Excess(): int
      reads this
    {
      inUse - Total(files)
    }

    /** Registers the files of a directory. What is tracked already is counted again,
        so a right figure stays right if and only if nothing with a size is. */
    method Init(met: seq<Met>)
      requires AllDifferent(met)
      modifies this
      ensures Excess() == old(Excess()) + CountedBefore(met, old(files))
      ensures old(Accounted()) ==> (Accounted() <==> NothingTracked(met, old(files)))
      ensures forall i :: 0 <= i < |met| && !Temporary(met[i].path) ==>
        met[i].path in files && files[met[i].path] == File(met[i].size, met[i].modTime)
      ensures forall path :: path in old(files) ==> path in files
    {
      hide Total;
      var i := 0;
      while i < |met|
        invariant i <= |met| && Excess() == old(Excess()) + CountedBefore(met[..i], old(files))
        invariant forall k :: i <= k < |met| ==>
          && (met[k].path in files <==> met[k].path in old(files))
          && (met[k].path in files ==> files[met[k].path] == old(files)[met[k].path])
        invariant forall k :: 0 <= k < i && !Temporary(met[k].path) ==>
          met[k].path in files && files[met[k].path] == File(met[k].size, met[k].modTime)
        invariant forall path :: path in old(files) ==> path in files
      {
        assert met[..i + 1][..i] == met[..i];
        var path, file := met[i].path, File(met[i].size, met[i].modTime);
        if !Temporary(path) {
          TotalWith(files, path, file);
          files := files[path := file];
          inUse := inUse + file.size;
        }
        i := i + 1;
      }
      assert met[..i] == met;
      CountedNothing(met, old(files));
    }

    method Add(path: Path, size: nat, now: int)
      modifies this
      ensures files == old(files)[path := File(size, now)] && Excess() == old(Excess())
    {
      hide Total;
      TotalWith(files, path, File(size, now));
      if path in files {
        inUse := inUse - files[path].size;
      }
      files := files[path := File(size, now)];
      inUse := inUse + size;
    }

    method Touch(path: Path, now: int)
      modifies `files
      ensures files == if path in old(files) then old(files)[path := old(files)[path].(atime := now)] else old(files)
      ensures Excess() == old(Excess())
    {
      hide Total;
      if path in files {
        TotalWith(files, path, files[path].(atime := now));
        files := files[path := files[path].(atime := now)];
      }
    }

    /** A file no more recent than any other. */
    method Oldest() returns (oldest: Path)
      requires files != map[]
      ensures oldest in files && forall path :: path in files ==> files[oldest].atime <= files[path].atime
    {
      var left := files.Keys;
      oldest :| oldest in files;
      while left != {}
        invariant left <= files.Keys && oldest in files
        invariant forall path :: path in files && path !in left ==> files[oldest].atime <= files[path].atime
        decreases |left|
      {
        var path :| path in left;
        if files[path].atime < files[oldest].atime {
          oldest := path;
        }
        left := left - {path};
      }
    }

    /** Evicts files until the figure is within the limit, stopping early if one
        cannot be removed from disk. gone are the files no longer tracked, in order.
        The figure decides, right or not: with one too high, more files go. */
    method Prune() returns (evicted: seq<Path>, failed: bool, ghost gone: seq<Path>)
      modifies this
      ensures Excess() == old(Excess()) && Evicted(old(files), files, gone)
      ensures failed ==> gone != []
      ensures evicted == if failed then gone[..|gone| - 1] else gone
      ensures !failed ==> inUse <= limit || files == map[]
      ensures !failed && old(Excess()) <= limit ==> inUse <= limit
      ensures LastNeeded(old(files), gone, inUse, limit)
      ensures old(inUse) <= limit ==> gone == []
    {
      hide Total, Evicted;
      evicted, failed, gone := [], false, [];
      NoneEvicted(files);
      while inUse > limit
        invariant Excess() == old(Excess()) && Evicted(old(files), files, gone) && evicted == gone && !failed
        invariant LastNeeded(old(files), gone, inUse, limit)
        invariant if gone == [] then inUse == old(inUse) else old(inUse) > limit
        decreases |files|
      {
        if files == map[] {
          NothingTotals();
          return;
        }
        var oldest := Oldest();
        EvictedOne(old(files), files, gone, oldest);
        TotalWithout(files, oldest);
        var removed := *;
        inUse := inUse - files[oldest].size;
        files := files - {oldest};
        gone := gone + [oldest];
        if !removed {
          return evicted, true, gone;
        }
        evicted := evicted + [oldest];
      }
    }
  }

  /** Stopping one file earlier would have left too much. */
  ghost predicate LastNeeded(was: Files, gone: seq<Path>, inUse: int, limit: int) {
    gone != [] ==> gone[|gone| - 1] in was && inUse + was[gone[|gone| - 1]].size > limit
  }

  lemma NoneEvicted(files: Files)
    ensures Evicted(files, files, [])
  {}

  lemma NothingTotals()
    ensures Total(map[]) == 0
  {}

  /** The files gone are some of those there were, each once; the rest are as they
      were, and none of them is older than one that is gone. */
  ghost predicate Evicted(was: Files, files: Files, gone: seq<Path>) {
    && (forall i :: 0 <= i < |gone| ==> gone[i] in was && gone[i] !in files)
    && (forall i, j :: 0 <= i < j < |gone| ==> gone[i] != gone[j])
    && (forall path :: path in was ==> path in files || path in gone)
    && (forall path :: path in files ==> path in was && files[path] == was[path])
    && (forall i, path :: 0 <= i < |gone| && path in files ==> was[gone[i]].atime <= files[path].atime)
  }

  lemma EvictedOne(was: Files, files: Files, gone: seq<Path>, oldest: Path)
    requires Evicted(was, files, gone) && oldest in files
    requires forall path :: path in files ==> files[oldest].atime <= files[path].atime
    ensures Evicted(was, files - {oldest}, gone + [oldest])
    ensures oldest in was && was[oldest] == files[oldest]
  {}
}

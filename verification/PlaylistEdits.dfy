/** Playlists as a server keeps them: a sequence of revisions, each with its
    contents, and pages read out of one of them. */
module Playlists {
  type Uri = string

  const PAGE_SIZE: nat := 1000
  const MAX_PAGES: nat := 50

  /** The contents at every revision so far; the last is the current one. */
  type History = seq<seq<Uri>>

  datatype Answer = Page(revision: nat, items: seq<Uri>, truncated: bool) | NoAnswer

  /** What a server may answer to a request for a page: part of the contents of a
      revision from a position on, and whether there is more behind it. */
  ghost predicate Honest(history: History, from: nat, answer: Answer) {
    answer.Page? ==>
      && answer.revision < |history| && |answer.items| <= PAGE_SIZE
      && var contents := history[answer.revision];
         if from <= |contents| then
           && from + |answer.items| <= |contents|
           && answer.items == contents[from..from + |answer.items|]
           && (answer.truncated <==> from + |answer.items| < |contents|)
         else answer.items == [] && !answer.truncated
  }

  /** How far the client has got: reading on, or with a result. */
  datatype Progress =
    Reading(revision: nat, uris: seq<Uri>) | Contents(revision: nat, uris: seq<Uri>) | Conflict | Failed

  /** What the client makes of the answer to its request for the next page. */
  function Step(p: Progress, page: nat, answer: Answer): Progress {
    if !p.Reading? then p
    else
      match answer
      case NoAnswer => Failed
      case Page(rev, items, truncated) =>
        if page > 0 && rev != p.revision then Conflict
        else if !truncated || items == [] then Contents(rev, p.uris + items)
        else if page + 1 == MAX_PAGES then Failed
        else Reading(rev, p.uris + items)
  }

  function After(answers: seq<Answer>): Progress {
    if answers == [] then Reading(0, []) else Step(After(answers[..|answers|-1]), |answers| - 1, answers[|answers|-1])
  }

  /** Every answer is honest, each asked for what comes after the ones before. */
  ghost predicate HonestRun(history: History, answers: seq<Answer>) {
    answers == [] ||
      var before := answers[..|answers|-1];
      && HonestRun(history, before)
      && (After(before).Reading? ==> Honest(history, |After(before).uris|, answers[|answers|-1]))
  }

  /** The last page said there was more, but held nothing. */
  predicate Stalled(answers: seq<Answer>) {
    answers != [] && answers[|answers|-1].Page? && answers[|answers|-1].truncated && answers[|answers|-1].items == []
  }

  /** The contents read are those of the one revision named, from the start, and all
      of them if and only if reading did not end on a page that stalled. */
  lemma {:induction false} ReadsOneRevision(history: History, answers: seq<Answer>)
    requires HonestRun(history, answers)
    requires answers != [] ==> After(answers[..|answers|-1]).Reading?
    ensures var p := After(answers);
      && (p.Reading? && answers != [] ==> p.revision < |history| && p.uris <= history[p.revision])
      && (p.Reading? ==> |p.uris| <= |answers| * PAGE_SIZE && |answers| < MAX_PAGES)
      && (p.Contents? ==>
            && p.revision < |history| && p.uris <= history[p.revision] && |p.uris| <= MAX_PAGES * PAGE_SIZE
            && (p.uris == history[p.revision] <==> !Stalled(answers)))
  {
    if answers != [] {
      var n := |answers| - 1;
      var before, last := After(answers[..n]), answers[n];
      if n > 0 {
        assert After(answers[..n][..n - 1]).Reading?;
      }
      ReadsOneRevision(history, answers[..n]);
      if last.Page? && (n == 0 || last.revision == before.revision) {
        assert before.uris + last.items == history[last.revision][..|before.uris| + |last.items|];
      }
    }
  }

  /** A server may stall, and then what is read is not all there is. */
  lemma StalledContents(uri: Uri)
    ensures var history := [[uri]]; var answers := [Page(0, [], true)];
      HonestRun(history, answers) && After(answers) == Contents(0, []) && history[0] != []
  {
    assert [Page(0, [], true)][..0] == [];
  }

  function Without(contents: seq<Uri>, i: nat): seq<Uri>
    requires i < |contents|
  {
    contents[..i] + contents[i + 1..]
  }
}

/** The client against a server others are changing at the same time. */
module PlaylistEdits {
  import opened Playlists

  datatype Change = Remove(uri: Uri, at: nat) | Append(uris: seq<Uri>)

  datatype Status = Ok | ChangeConflict | ItemMoved | NotFound | Error

  datatype Position = Any | At(index: nat)

  ghost predicate Applicable(change: Change, contents: seq<Uri>) {
    change.Remove? ==> change.at < |contents| && contents[change.at] == change.uri
  }

  ghost function Apply(change: Change, contents: seq<Uri>): seq<Uri>
    requires Applicable(change, contents)
  {
    match change
    case Remove(_, at) => Without(contents, at)
    case Append(uris) => contents + uris
  }

  /** The revision after r was made by a change of ours. */
  ghost predicate Made(history: History, ours: set<nat>, r: nat, change: Change) {
    && r + 1 < |history| && r + 1 in ours
    && Applicable(change, history[r]) && history[r + 1] == Apply(change, history[r])
  }

  /** Some revision is longer than the client reads. */
  ghost predicate TooLong(history: History) {
    exists r :: 0 <= r < |history| && |history[r]| > MAX_PAGES * PAGE_SIZE
  }

  class Server {
    /** It answers every request, with as much as fits on a page, and loses none of its
        answers. */
    const reliable: bool
    var history: History
    /** How often others have made revisions. */
    ghost var disturbed: nat
    /** The revisions made by this client. */
    ghost var ours: set<nat>

    ghost predicate Valid()
      reads this
    {
      history != [] && forall r :: r in ours ==> r < |history|
    }

    /** Others may make any revisions at any time. */
    method Others()
      requires Valid()
      modifies `history, `disturbed
      ensures Valid() && old(history) <= history && disturbed >= old(disturbed)
      ensures disturbed == old(disturbed) ==> history == old(history)
    {
      var more: History := *;
      if more != [] {
        history, disturbed := history + more, disturbed + 1;
      }
    }

    method Get(from: nat) returns (answer: Answer)
      requires Valid()
      modifies `history, `disturbed
      ensures Valid() && old(history) <= history && Honest(history, from, answer)
      ensures disturbed >= old(disturbed) && (disturbed == old(disturbed) ==> history == old(history))
      ensures answer.Page? ==> answer.revision == |history| - 1
      ensures reliable ==> answer.Page? && (answer.truncated ==> |answer.items| == PAGE_SIZE)
    {
      Others();
      var lost := *;
      if lost && !reliable {
        return NoAnswer;
      }
      var current := history[|history| - 1];
      if from >= |current| {
        return Page(|history| - 1, [], false);
      }
      var n :| 0 <= n <= |current| - from && n <= PAGE_SIZE && (reliable && n < PAGE_SIZE ==> n == |current| - from);
      answer := Page(|history| - 1, current[from..from + n], from + n < |current|);
    }

    /** Accepts a change only on top of the current revision. An answer may be lost
        after the change has been made, and a change may be refused. */
    method Post(base: nat, change: Change) returns (status: Status)
      requires Valid()
      modifies this
      ensures Valid() && old(history) <= history && old(ours) <= ours
      ensures status in {Ok, ChangeConflict, Error}
      ensures ours == old(ours) ||
        (Made(history, ours, base, change) && base + 1 !in old(ours) && ours == old(ours) + {base + 1})
      ensures status.Ok? ==> ours != old(ours)
      ensures status.ChangeConflict? ==> ours == old(ours)
      ensures disturbed >= old(disturbed)
      ensures status.ChangeConflict? && disturbed == old(disturbed) ==> base != |old(history)| - 1
      ensures reliable && status.Error? ==> base < |old(history)| ==> !Applicable(change, old(history)[base])
    {
      Others();
      var refused := *;
      if refused && !reliable {
        return Error;
      }
      if base != |history| - 1 {
        return ChangeConflict;
      }
      var current := history[base];
      match change {
        case Remove(uri, at) =>
          if at >= |current| || current[at] != uri {
            return Error;
          }
          history := history + [current[..at] + current[at + 1..]];
        case Append(uris) =>
          history := history + [current + uris];
      }
      ours := ours + {base + 1};
      ghost var made := history;
      Others();
      assert made == history[..|made|];
      var lost := *;
      status := if lost && !reliable then Error else Ok;
    }
  }

  /** Reads the whole playlist, page by page. */
  method PlaylistContents(server: Server) returns (r: Progress, ghost answers: seq<Answer>)
    requires server.Valid()
    modifies server`history, server`disturbed
    ensures server.Valid() && old(server.history) <= server.history && server.disturbed >= old(server.disturbed)
    ensures !r.Reading? && r == After(answers) && HonestRun(server.history, answers)
    ensures r.Contents? ==>
      && r.revision < |server.history| && r.uris <= server.history[r.revision] && |r.uris| <= MAX_PAGES * PAGE_SIZE
      && (r.uris == server.history[r.revision] <==> !Stalled(answers)) && r.revision == |server.history| - 1
    ensures server.reliable && r.Contents? ==> r.uris == server.history[r.revision]
    ensures server.reliable && r.Conflict? ==> server.disturbed > old(server.disturbed)
    ensures server.reliable && r.Failed? ==> TooLong(server.history)
  {
    hide HonestRun, After, Stalled;
    var revision: nat, uris: seq<Uri>, page: nat := 0, [], 0;
    answers := [];
    NothingRead(server.history);
    while page < MAX_PAGES
      invariant server.Valid() && old(server.history) <= server.history && page == |answers|
      invariant HonestRun(server.history, answers)
      invariant After(answers) == if page < MAX_PAGES then Reading(revision, uris) else Failed
      invariant server.disturbed >= old(server.disturbed) && (page > 0 ==> revision < |server.history|)
      invariant page > 0 && server.disturbed == old(server.disturbed) ==> revision == |server.history| - 1
      invariant server.reliable ==>
        |uris| == page * PAGE_SIZE && (page > 0 ==> |server.history[revision]| > page * PAGE_SIZE)
    {
      ghost var was := server.history;
      var answer := server.Get(|uris|);
      OnePage(was, server.history, answers, answer);
      LastStalls(answers, answer);
      answers := answers + [answer];
      match answer {
        case NoAnswer =>
          return Failed, answers;
        case Page(rev, items, truncated) =>
          if page == 0 {
            revision := rev;
          } else if rev != revision {
            return Conflict, answers;
          }
          uris := uris + items;
          if !truncated || items == [] {
            return Contents(revision, uris), answers;
          }
      }
      page := page + 1;
    }
    r := Failed;
  }

  lemma LastStalls(answers: seq<Answer>, answer: Answer)
    ensures Stalled(answers + [answer]) <==> answer.Page? && answer.truncated && answer.items == []
  {}

  lemma NothingRead(history: History)
    ensures HonestRun(history, []) && After([]) == Reading(0, [])
  {}

  lemma {:induction false} HonestStays(was: History, history: History, answers: seq<Answer>)
    requires was <= history && HonestRun(was, answers)
    ensures HonestRun(history, answers)
  {
    if answers != [] {
      HonestStays(was, history, answers[..|answers|-1]);
    }
  }

  /** One more page: what it adds up to, and if that is a result, what it is. */
  lemma OnePage(was: History, history: History, answers: seq<Answer>, answer: Answer)
    requires was <= history && HonestRun(was, answers) && After(answers).Reading?
    requires Honest(history, |After(answers).uris|, answer)
    ensures var answers' := answers + [answer]; var p := After(answers');
      && HonestRun(history, answers') && p == Step(After(answers), |answers|, answer)
      && (p.Contents? ==>
            && p.revision < |history| && p.uris <= history[p.revision] && |p.uris| <= MAX_PAGES * PAGE_SIZE
            && (p.uris == history[p.revision] <==> !Stalled(answers')))
  {
    hide Stalled, Honest, Step;
    assert (answers + [answer])[..|answers|] == answers;
    HonestStays(was, history, answers);
    ReadsOneRevision(history, answers + [answer]);
  }

  /** Where the entry to remove is: at the position named, or first in the list. */
  ghost predicate Chosen(uris: seq<Uri>, uri: Uri, position: Position, i: nat) {
    && i < |uris| && uris[i] == uri
    && if position.At? then i == position.index else uri !in uris[..i]
  }

  method ItemPosition(uris: seq<Uri>, uri: Uri, position: Position) returns (status: Status, i: nat)
    ensures status in {Ok, ItemMoved, NotFound}
    ensures status.Ok? ==> Chosen(uris, uri, position, i)
    ensures status.ItemMoved? <==> position.At? && !(position.index < |uris| && uris[position.index] == uri)
    ensures status.NotFound? <==> position.Any? && uri !in uris
  {
    if position.At? {
      if position.index < |uris| && uris[position.index] == uri {
        return Ok, position.index;
      }
      return ItemMoved, 0;
    }
    i := 0;
    while i < |uris|
      invariant i <= |uris| && uri !in uris[..i]
    {
      if uris[i] == uri {
        return Ok, i;
      }
      i := i + 1;
    }
    return NotFound, 0;
  }

  /** At most one entry was removed, the one asked for in the revision replaced. */
  ghost predicate RemovedAtMostOne(history: History, was: set<nat>, ours: set<nat>, uri: Uri, position: Position) {
    ours == was ||
      exists r: nat, i: nat ::
        && r + 1 < |history| && r + 1 !in was && ours == was + {r + 1}
        && Chosen(history[r], uri, position, i) && history[r + 1] == Without(history[r], i)
  }

  /** In some revision what is to be removed is not where it was said to be. */
  ghost predicate NotThere(history: History, uri: Uri, position: Position) {
    exists r :: 0 <= r < |history| && forall i: nat :: !Chosen(history[r], uri, position, i)
  }

  /** Removes an entry. A server that loses no answer has it removed, or does not have it
      there, unless others made changes in between twice. */
  method RemoveFromPlaylist(server: Server, uri: Uri, position: Position) returns (status: Status)
    requires server.Valid()
    modifies server
    ensures server.Valid() && old(server.history) <= server.history
    ensures RemovedAtMostOne(server.history, old(server.ours), server.ours, uri, position)
    ensures status.Ok? ==> server.ours != old(server.ours)
    ensures status in {ChangeConflict, ItemMoved, NotFound} ==> server.ours == old(server.ours)
    ensures server.reliable && status.Error? ==> TooLong(server.history)
    ensures server.reliable && status.ChangeConflict? ==> server.disturbed >= old(server.disturbed) + 2
    ensures server.reliable && status in {ItemMoved, NotFound} ==> NotThere(server.history, uri, position)
  {
    hide HonestRun, After, Stalled, Honest;
    var attempt := 0;
    while true
      invariant attempt <= 1 && server.Valid() && old(server.history) <= server.history
      invariant server.ours == old(server.ours)
      invariant server.reliable ==> server.disturbed >= old(server.disturbed) + attempt
      decreases 1 - attempt
    {
      var contents, _ := PlaylistContents(server);
      match contents {
        case Contents(revision, uris) =>
          var found, i := ItemPosition(uris, uri, position);
          if !found.Ok? {
            assert server.reliable ==> forall i: nat :: !Chosen(server.history[revision], uri, position, i);
            return found;
          }
          ghost var was := server.history;
          status := server.Post(revision, Remove(uri, i));
          ChosenInAll(uris, was[revision], uri, position, i);
          assert server.history[revision] == was[revision];
        case Conflict =>
          status := ChangeConflict;
        case _ =>
          status := Error;
      }
      if !status.ChangeConflict? || attempt > 0 {
        return;
      }
      attempt := attempt + 1;
    }
  }

  /** What is first in a prefix is first in the whole. */
  lemma ChosenInAll(uris: seq<Uri>, contents: seq<Uri>, uri: Uri, position: Position, i: nat)
    requires uris <= contents && Chosen(uris, uri, position, i)
    ensures Chosen(contents, uri, position, i)
  {
    assert uris[..i] == contents[..i];
  }

  /** The revision an append is based on. */
  method PlaylistRevision(server: Server) returns (ok: bool, revision: nat)
    requires server.Valid()
    modifies server`history, server`disturbed
    ensures server.Valid() && old(server.history) <= server.history && server.disturbed >= old(server.disturbed)
    ensures (ok ==> revision == |server.history| - 1) && (server.reliable ==> ok)
  {
    var answer := server.Get(0);
    match answer {
      case NoAnswer => return false, 0;
      case Page(rev, _, _) => return true, rev;
    }
  }

  /** Appends to the playlist. With a server that loses no answer it succeeds, unless
      others made changes in between twice. */
  method AppendToPlaylist(server: Server, uris: seq<Uri>) returns (status: Status)
    requires server.Valid()
    modifies server
    ensures server.Valid() && old(server.history) <= server.history
    ensures server.ours == old(server.ours) ||
      exists r: nat ::
        && r + 1 < |server.history| && r + 1 !in old(server.ours) && server.ours == old(server.ours) + {r + 1}
        && server.history[r + 1] == server.history[r] + uris
    ensures status.Ok? ==> server.ours != old(server.ours)
    ensures status.ChangeConflict? ==> server.ours == old(server.ours)
    ensures server.reliable ==> status in {Ok, ChangeConflict}
    ensures server.reliable && status.ChangeConflict? ==> server.disturbed >= old(server.disturbed) + 2
  {
    var attempt := 0;
    while true
      invariant attempt <= 1 && server.Valid() && old(server.history) <= server.history
      invariant server.ours == old(server.ours)
      invariant server.reliable ==> server.disturbed >= old(server.disturbed) + attempt
      decreases 1 - attempt
    {
      var ok, revision := PlaylistRevision(server);
      if !ok {
        return Error;
      }
      status := server.Post(revision, Append(uris));
      if !status.ChangeConflict? || attempt > 0 {
        return;
      }
      attempt := attempt + 1;
    }
  }
}

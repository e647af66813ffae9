/** Listing the dead-letter stream page by page, while entries come and go. */
module DlqPaging {
  import opened Options
  import opened StreamIds
  import opened DlqRedrive

  type Log = seq<Entry>

  /** At or past the cursor; no cursor is the start of the stream. */
  predicate Reached(cursor: Option<Id>, id: Id) {
    cursor.None? || UpTo(cursor.value, id)
  }

  /** How many leading entries a range from the cursor skips. */
  function Skipped(log: Log, cursor: Option<Id>): (k: nat)
    ensures k <= |log|
    ensures forall i :: 0 <= i < k ==> !Reached(cursor, log[i].id)
    ensures k < |log| ==> Reached(cursor, log[k].id)
  {
    if log == [] || Reached(cursor, log[0].id) then 0 else 1 + Skipped(log[1..], cursor)
  }

  datatype Page = Page(entries: Log, next: Option<Id>)

  /** The id right after `id`: the sequence part counts up. */
  function Past(id: Id): Id {
    Id(id.ms, id.n + 1)
  }

  function ListEntries(log: Log, cursor: Option<Id>, limit: int): Page {
    if limit <= 0 then Page([], None)
    else
      var k := Skipped(log, cursor);
      var entries := log[k..Min(k + limit, |log|)];
      Page(entries, if |entries| >= limit then Some(Past(entries[|entries| - 1].id)) else None)
  }

  /** Follow the cursor, one call per log: `logs[i]` is the stream at the time of call `i`. */
  function Walk(logs: seq<Log>, cursor: Option<Id>, limit: int): Log {
    if logs == [] then []
    else
      var page := ListEntries(logs[0], cursor, limit);
      if page.next.None? then page.entries else page.entries + Walk(logs[1..], page.next, limit)
  }

  /** Did the walk come to a page without a cursor? */
  predicate Finishes(logs: seq<Log>, cursor: Option<Id>, limit: int) {
    logs != [] &&
    var page := ListEntries(logs[0], cursor, limit);
    page.next.None? || Finishes(logs[1..], page.next, limit)
  }

  lemma PageInOrder(log: Log, cursor: Option<Id>, limit: int)
    requires Ascending(log)
    ensures var page := ListEntries(log, cursor, limit);
            && Ascending(page.entries)
            && (forall e :: e in page.entries ==> Reached(cursor, e.id))
            && (page.next.Some? ==> forall e :: e in page.entries ==> Before(e.id, page.next.value))
  {
    var k := Skipped(log, cursor);
    forall i | k <= i < |log| ensures Reached(cursor, log[i].id) {
      if k < i {
        assert Before(log[k].id, log[i].id);
      }
    }
  }

  /** A page is at most `limit` entries, and a shorter one is the last: it has all that is left. */
  lemma PageIsBounded(log: Log, cursor: Option<Id>, limit: int, e: Entry)
    requires Ascending(log)
    ensures var page := ListEntries(log, cursor, limit);
            && |page.entries| <= Max(limit, 0)
            && (limit > 0 ==> (page.next.None? <==> |page.entries| < limit))
            && (|page.entries| < limit && e in log && Reached(cursor, e.id) ==> e in page.entries)
  {
    if limit > 0 && e in log && Reached(cursor, e.id) {
      OnPageOrLater(log, cursor, limit, e);
    }
  }

  lemma OrderedConcat(a: Log, b: Log, c: Id)
    requires Ascending(a) && Ascending(b)
    requires forall e :: e in a ==> Before(e.id, c)
    requires forall e :: e in b ==> UpTo(c, e.id)
    ensures Ascending(a + b)
  {
    forall i, j | 0 <= i < j < |a + b| ensures Before((a + b)[i].id, (a + b)[j].id) {
      if i < |a| <= j {
        assert a[i] in a && b[j - |a|] in b;
      }
    }
  }

  /** Whatever happens between the calls, ids only go up: nothing is listed twice. */
  lemma {:induction false} NothingListedTwice(logs: seq<Log>, cursor: Option<Id>, limit: int)
    requires forall i :: 0 <= i < |logs| ==> Ascending(logs[i])
    ensures Ascending(Walk(logs, cursor, limit))
    ensures forall e :: e in Walk(logs, cursor, limit) ==> Reached(cursor, e.id)
    decreases |logs|
  {
    if logs != [] {
      var page := ListEntries(logs[0], cursor, limit);
      PageInOrder(logs[0], cursor, limit);
      if page.next.Some? {
        NothingListedTwice(logs[1..], page.next, limit);
        OrderedConcat(page.entries, Walk(logs[1..], page.next, limit), page.next.value);
        assert page.entries[0] in page.entries;
      }
    }
  }

  /** An entry a page reaches is on that page, or the cursor it returns reaches it. */
  lemma OnPageOrLater(log: Log, cursor: Option<Id>, limit: int, e: Entry)
    requires Ascending(log) && limit > 0 && e in log && Reached(cursor, e.id)
    ensures var page := ListEntries(log, cursor, limit);
            e in page.entries || (page.next.Some? && Reached(page.next, e.id))
  {
    var i :| 0 <= i < |log| && log[i] == e;
    var k := Skipped(log, cursor);
    var page := ListEntries(log, cursor, limit);
    if i < k + limit {
      assert page.entries[i - k] == e;
    } else {
      assert Before(log[k + limit - 1].id, log[i].id);
    }
  }

  /** A finished walk lists every entry that was there at every call. */
  lemma {:induction false} EveryLastingEntryListed(logs: seq<Log>, cursor: Option<Id>, limit: int, e: Entry)
    requires limit > 0 && Finishes(logs, cursor, limit) && Reached(cursor, e.id)
    requires forall i :: 0 <= i < |logs| ==> Ascending(logs[i]) && e in logs[i]
    ensures e in Walk(logs, cursor, limit)
    decreases |logs|
  {
    OnPageOrLater(logs[0], cursor, limit, e);
    var page := ListEntries(logs[0], cursor, limit);
    if e !in page.entries {
      EveryLastingEntryListed(logs[1..], page.next, limit, e);
    }
  }

  function Listings(log: Log, e: Entry): nat {
    if log == [] then 0 else (if log[0] == e then 1 else 0) + Listings(log[1..], e)
  }

  lemma {:induction false} ListedOnce(log: Log, e: Entry)
    requires Ascending(log)
    ensures Listings(log, e) == if e in log then 1 else 0
    decreases |log|
  {
    if log != [] {
      ListedOnce(log[1..], e);
      if e in log[1..] {
        var i :| 0 <= i < |log| - 1 && log[1..][i] == e;
        assert Before(log[0].id, log[i + 1].id);
      }
    }
  }

  /** From the first page to the last: entries present throughout come exactly once. */
  lemma PagingIsComplete(logs: seq<Log>, limit: int, e: Entry)
    requires limit > 0 && Finishes(logs, None, limit)
    requires forall i :: 0 <= i < |logs| ==> Ascending(logs[i]) && e in logs[i]
    ensures Listings(Walk(logs, None, limit), e) == 1
  {
    EveryLastingEntryListed(logs, None, limit, e);
    NothingListedTwice(logs, None, limit);
    ListedOnce(Walk(logs, None, limit), e);
  }

  /** Where a walk over a log that does not change stands after `done` entries. */
  function CursorAfter(log: Log, done: nat): Option<Id>
    requires done <= |log|
  {
    if done == 0 then None else Some(Past(log[done - 1].id))
  }

  lemma SkipsExactly(log: Log, k: nat)
    requires Ascending(log) && 0 < k <= |log|
    ensures Skipped(log, Some(Past(log[k - 1].id))) == k
  {
  }

  lemma NextPage(log: Log, limit: int, done: nat)
    requires limit > 0 && Ascending(log) && done <= |log|
    ensures ListEntries(log, CursorAfter(log, done), limit)
         == if |log| - done < limit then Page(log[done..], None)
            else Page(log[done..done + limit], CursorAfter(log, done + limit))
  {
    if done > 0 {
      SkipsExactly(log, done);
    }
    assert log[done..|log|] == log[done..];
  }

  /** How many entries so many calls can list: calls * limit. */
  function Capacity(calls: nat, limit: nat): nat {
    if calls == 0 then 0 else limit + Capacity(calls - 1, limit)
  }

  lemma SplitAt(log: Log, done: nat, limit: nat)
    requires done + limit <= |log|
    ensures log[done..] == log[done..done + limit] + log[done + limit..]
  {
  }

  lemma WalkStep(logs: seq<Log>, cursor: Option<Id>, limit: int, page: Page)
    requires logs != [] && ListEntries(logs[0], cursor, limit) == page
    ensures page.next.None? ==> Finishes(logs, cursor, limit) && Walk(logs, cursor, limit) == page.entries
    ensures page.next.Some? ==>
      && (Finishes(logs, cursor, limit) <==> Finishes(logs[1..], page.next, limit))
      && Walk(logs, cursor, limit) == page.entries + Walk(logs[1..], page.next, limit)
  {
  }

  /** The same log at every call. */
  function Still(log: Log, calls: nat): seq<Log> {
    if calls == 0 then [] else [log] + Still(log, calls - 1)
  }

  /** From `done` entries on, so many calls finish the walk with the rest of the log. */
  ghost predicate ListsRest(log: Log, calls: nat, limit: int, done: nat)
    requires done <= |log|
  {
    && Finishes(Still(log, calls), CursorAfter(log, done), limit)
    && Walk(Still(log, calls), CursorAfter(log, done), limit) == log[done..]
  }

  lemma StillStep(log: Log, calls: nat, limit: int, done: nat)
    requires limit > 0 && Ascending(log) && done <= |log| && calls > 0
    requires |log| - done >= limit ==> ListsRest(log, calls - 1, limit, done + limit)
    ensures ListsRest(log, calls, limit, done)
  {
    NextPage(log, limit, done);
    var logs := Still(log, calls);
    assert logs[0] == log && logs[1..] == Still(log, calls - 1);
    WalkStep(logs, CursorAfter(log, done), limit, ListEntries(log, CursorAfter(log, done), limit));
    if |log| - done >= limit {
      SplitAt(log, done, limit);
    }
  }

  /** On a log that stays as it is, the walk finishes once the calls can list it all, with the log. */
  lemma {:induction false} StillLogIsListed(log: Log, calls: nat, limit: nat, done: nat)
    requires limit > 0 && Ascending(log) && done <= |log| && |log| - done < Capacity(calls, limit)
    ensures ListsRest(log, calls, limit, done)
    decreases calls
  {
    if |log| - done >= limit {
      StillLogIsListed(log, calls - 1, limit, done + limit);
    }
    StillStep(log, calls, limit, done);
  }
}

/** Paging through the directory and syncing it in chunks (packages/db/src/directory.ts). */
module DirectoryTable {
  import opened Wrappers

  // ---- Offset paging over a fixed, ordered result ----

  datatype Page<T> = Page(users: seq<T>, nextOffset: Option<nat>)

  function Clamp(limit: Option<int>): (n: nat)
    ensures 1 <= n <= 50
  {
    var asked := if limit.Some? then limit.value else 10;
    if asked < 1 then 1 else if asked > 50 then 50 else asked
  }

  /** Ten rows unless asked otherwise, one at least and fifty at most. */
  lemma ClampMeaning(limit: Option<int>)
    ensures limit.None? ==> Clamp(limit) == 10
    ensures limit.Some? && 1 <= limit.value <= 50 ==> Clamp(limit) == limit.value
    ensures limit.Some? && limit.value < 1 ==> Clamp(limit) == 1
    ensures limit.Some? && limit.value > 50 ==> Clamp(limit) == 50
  {
  }

  function Min(a: int, b: int): int {
    if a < b then a else b
  }

  /** select .. limit n offset o */
  function Fetch<T>(rows: seq<T>, n: nat, offset: nat): seq<T> {
    if offset >= |rows| then []
    else
      var end := Min(offset + n, |rows|);
      rows[offset..end]
  }

  /** One page: one row more than asked for tells whether there is another. */
  function SearchPage<T>(rows: seq<T>, limit: Option<int>, offset: Option<int>): Page<T> {
    var n := Clamp(limit);
    var o := if offset.Some? && offset.value > 0 then offset.value else 0;
    var fetched := Fetch(rows, n + 1, o);
    if |fetched| > n then Page(fetched[..n], Some(o + n)) else Page(fetched, None)
  }

  /** The pages a client gets by following nextOffset. */
  function Follow<T>(rows: seq<T>, limit: Option<int>, offset: nat): (pages: seq<seq<T>>)
    decreases |rows| - offset
  {
    var page := SearchPage(rows, limit, Some(offset));
    if page.nextOffset.None? then [page.users]
    else [page.users] + Follow(rows, limit, page.nextOffset.value)
  }

  function Concat<T>(pages: seq<seq<T>>): seq<T> {
    if pages == [] then [] else pages[0] + Concat(pages[1..])
  }

  lemma FullPage<T>(rows: seq<T>, limit: Option<int>, offset: nat)
    requires offset <= |rows|
    ensures var page := SearchPage(rows, limit, Some(offset));
            var n := Clamp(limit);
            if offset + n < |rows| then page == Page(rows[offset..offset + n], Some(offset + n))
            else page == Page(rows[offset..], None)
  {
    var n := Clamp(limit);
    if offset + n < |rows| {
      FetchMore(rows, n, offset);
    } else {
      FetchRest(rows, n + 1, offset);
    }
  }

  lemma FetchMore<T>(rows: seq<T>, n: nat, offset: nat)
    requires offset + n < |rows|
    ensures |Fetch(rows, n + 1, offset)| == n + 1
    ensures Fetch(rows, n + 1, offset)[..n] == rows[offset..offset + n]
  {
    var end := Min(offset + (n + 1), |rows|);
    assert end == offset + n + 1;
    assert Fetch(rows, n + 1, offset) == rows[offset..end];
  }

  lemma FetchRest<T>(rows: seq<T>, n: nat, offset: nat)
    requires offset <= |rows| <= offset + n
    ensures Fetch(rows, n, offset) == rows[offset..]
  {
    var end := Min(offset + n, |rows|);
    assert end == |rows|;
    if offset < |rows| {
      assert Fetch(rows, n, offset) == rows[offset..end];
      assert rows[offset..end] == rows[offset..];
    }
  }

  /** The first page from an offset, and the pages after it. */
  lemma FollowStep<T>(rows: seq<T>, limit: Option<int>, offset: nat)
    requires offset <= |rows|
    ensures var n := Clamp(limit);
            Follow(rows, limit, offset) ==
            if offset + n < |rows| then [rows[offset..offset + n]] + Follow(rows, limit, offset + n)
            else [rows[offset..]]
  {
    FullPage(rows, limit, offset);
  }

  /**
   A page holds the rows from its offset on, as many as asked for if there are; a next offset is
   given exactly if rows are left, and it is where they start. An offset below zero is the start.
   */
  lemma PageMeaning<T>(rows: seq<T>, limit: Option<int>, offset: Option<int>)
    ensures var o := if offset.Some? && offset.value > 0 then offset.value else 0;
            var n := Clamp(limit);
            var page := SearchPage(rows, limit, offset);
            && page.users == (if o >= |rows| then [] else if o + n < |rows| then rows[o..o + n] else rows[o..])
            && page.nextOffset == (if o + n < |rows| then Some(o + n) else None)
  {
    var o: nat := if offset.Some? && offset.value > 0 then offset.value else 0;
    if o <= |rows| {
      FullPage(rows, limit, o);
      assert SearchPage(rows, limit, offset) == SearchPage(rows, limit, Some(o));
      assert o == |rows| ==> rows[o..] == [];
    }
  }

  /** The pages joined are the rest of the list. */
  ghost predicate JoinTo<T>(pages: seq<seq<T>>, rows: seq<T>, offset: nat)
    requires offset <= |rows|
  {
    Concat(pages) == rows[offset..]
  }

  lemma JoinPage<T>(rows: seq<T>, offset: nat, next: nat, rest: seq<seq<T>>)
    requires offset <= next <= |rows| && JoinTo(rest, rows, next)
    ensures JoinTo([rows[offset..next]] + rest, rows, offset)
  {
    ConcatCons(rows[offset..next], rest);
    assert rows[offset..next] + rows[next..] == rows[offset..];
  }

  lemma JoinLast<T>(rows: seq<T>, offset: nat)
    requires offset <= |rows|
    ensures JoinTo([rows[offset..]], rows, offset)
  {
    ConcatCons(rows[offset..], []);
  }

  /** Following the pages from an offset yields exactly the rest of the list. */
  lemma {:induction false} PagesJoined<T>(rows: seq<T>, limit: Option<int>, offset: nat)
    requires offset <= |rows|
    ensures JoinTo(Follow(rows, limit, offset), rows, offset)
    decreases |rows| - offset
  {
    FollowStep(rows, limit, offset);
    var next := offset + Clamp(limit);
    if next < |rows| {
      PagesJoined(rows, limit, next);
      JoinPage(rows, offset, next, Follow(rows, limit, next));
    } else {
      JoinLast(rows, offset);
    }
  }

  /** All but the last of the pages have n rows. */
  predicate AllFull<T>(pages: seq<seq<T>>, n: nat) {
    |pages| <= 1 || (|pages[0]| == n && AllFull(pages[1..], n))
  }

  lemma {:induction false} AllFullMeans<T>(pages: seq<seq<T>>, n: nat)
    requires AllFull(pages, n)
    ensures forall i :: 0 <= i < |pages| - 1 ==> |pages[i]| == n
  {
    if |pages| > 1 {
      AllFullMeans(pages[1..], n);
      assert forall i :: 0 < i < |pages| ==> pages[i] == pages[1..][i - 1];
    }
  }

  lemma {:induction false} PagesFull<T>(rows: seq<T>, limit: Option<int>, offset: nat)
    requires offset <= |rows|
    ensures AllFull(Follow(rows, limit, offset), Clamp(limit))
    decreases |rows| - offset
  {
    FollowStep(rows, limit, offset);
    var next := offset + Clamp(limit);
    if next < |rows| {
      PagesFull(rows, limit, next);
      FullCons(rows[offset..next], Follow(rows, limit, next), Clamp(limit));
    } else {
      LastPage(rows[offset..], Clamp(limit));
    }
  }

  lemma FullCons<T>(page: seq<T>, rest: seq<seq<T>>, n: nat)
    requires |page| == n && AllFull(rest, n)
    ensures AllFull([page] + rest, n)
  {
    assert ([page] + rest)[1..] == rest;
  }

  lemma LastPage<T>(page: seq<T>, n: nat)
    ensures AllFull([page], n)
  {
  }

  lemma ConcatCons<T>(page: seq<T>, rest: seq<seq<T>>)
    ensures Concat([page] + rest) == page + Concat(rest)
    ensures Concat([page]) == page
  {
    assert ([page] + rest)[1..] == rest;
    assert [page][1..] == [];
    assert page + [] == page;
  }

  /**
   Paging refines the full list: whatever limit is asked for, following nextOffset from the start
   ends, and the pages joined are the list, every page but the last being full.
   */
  lemma PagesAreTheList<T>(rows: seq<T>, limit: Option<int>)
    ensures Concat(Follow(rows, limit, 0)) == rows
    ensures forall i :: 0 <= i < |Follow(rows, limit, 0)| - 1 ==> |Follow(rows, limit, 0)[i]| == Clamp(limit)
    ensures SearchPage(rows, limit, None) == SearchPage(rows, limit, Some(0))
  {
    PagesJoined(rows, limit, 0);
    PagesFull(rows, limit, 0);
    AllFullMeans(Follow(rows, limit, 0), Clamp(limit));
    assert rows[0..] == rows;
  }

  // ---- Bulk upsert in chunks ----

  datatype Row<T> = Row(id: string, data: T)

  const CHUNK := 500

  /** The table after upserting rows one by one. */
  function UpsertRows<T>(table: map<string, T>, rows: seq<Row<T>>): map<string, T> {
    if rows == [] then table
    else UpsertRows(table, rows[..|rows| - 1])[rows[|rows| - 1].id := rows[|rows| - 1].data]
  }

  predicate DistinctIds<T>(rows: seq<Row<T>>) {
    forall i, j :: 0 <= i < j < |rows| ==> rows[i].id != rows[j].id
  }

  lemma {:induction false} UpsertAppend<T>(table: map<string, T>, a: seq<Row<T>>, b: seq<Row<T>>)
    ensures UpsertRows(table, a + b) == UpsertRows(UpsertRows(table, a), b)
  {
    if b == [] {
      assert a + b == a;
    } else {
      assert (a + b)[..|a + b| - 1] == a + b[..|b| - 1];
      UpsertAppend(table, a, b[..|b| - 1]);
    }
  }

  lemma NextChunk<T>(table: map<string, T>, rows: seq<Row<T>>, i: nat, end: nat)
    requires i <= end <= |rows|
    ensures UpsertRows(UpsertRows(table, rows[..i]), rows[i..end]) == UpsertRows(table, rows[..end])
  {
    assert rows[..i] + rows[i..end] == rows[..end];
    UpsertAppend(table, rows[..i], rows[i..end]);
  }

  /** The members with an id. */
  function Named<T>(members: seq<Row<T>>): (r: seq<Row<T>>)
    ensures |r| <= |members|
  {
    if members == [] then []
    else Named(members[..|members| - 1]) + (if members[|members| - 1].id != "" then [members[|members| - 1]] else [])
  }

  lemma NamedSnoc<T>(front: seq<Row<T>>, last: Row<T>)
    ensures Named(front + [last]) == if last.id != "" then Named(front) + [last] else Named(front)
  {
    assert (front + [last])[..|front|] == front;
    assert Named(front) + [] == Named(front);
  }

  function Occurrences<T(==)>(rows: seq<Row<T>>, row: Row<T>): nat {
    if rows == [] then 0
    else Occurrences(rows[..|rows| - 1], row) + (if rows[|rows| - 1] == row then 1 else 0)
  }

  lemma OccurrencesSnoc<T>(front: seq<Row<T>>, last: Row<T>, row: Row<T>)
    ensures Occurrences(front + [last], row) == Occurrences(front, row) + (if last == row then 1 else 0)
  {
    assert (front + [last])[..|front|] == front;
  }

  /** Exactly the members with an id, each as often as before. */
  lemma {:induction false} NamedMeaning<T>(members: seq<Row<T>>, row: Row<T>)
    ensures Occurrences(Named(members), row) == if row.id != "" then Occurrences(members, row) else 0
  {
    if members != [] {
      var front, last := members[..|members| - 1], members[|members| - 1];
      assert members == front + [last];
      NamedMeaning(front, row);
      NamedOneMore(front, last, row);
    }
  }

  lemma NamedOneMore<T>(front: seq<Row<T>>, last: Row<T>, row: Row<T>)
    requires Occurrences(Named(front), row) == if row.id != "" then Occurrences(front, row) else 0
    ensures Occurrences(Named(front + [last]), row) == if row.id != "" then Occurrences(front + [last], row) else 0
  {
    NamedSnoc(front, last);
    OccurrencesSnoc(front, last, row);
    OccurrencesSnoc(Named(front), last, row);
  }

  /** In the same order: what is named of a list is what is named of its parts, one after the other. */
  lemma {:induction false} NamedAppend<T>(a: seq<Row<T>>, b: seq<Row<T>>)
    ensures Named(a + b) == Named(a) + Named(b)
  {
    if b == [] {
      assert a + b == a;
    } else {
      var front, last := b[..|b| - 1], b[|b| - 1];
      NamedAppend(a, front);
      assert b == front + [last] && a + b == a + front + [last];
      AppendOneMore(a, front, last);
    }
  }

  lemma AppendOneMore<T>(a: seq<Row<T>>, front: seq<Row<T>>, last: Row<T>)
    requires Named(a + front) == Named(a) + Named(front)
    ensures Named(a + front + [last]) == Named(a) + Named(front + [last])
  {
    NamedSnoc(front, last);
    NamedSnoc(a + front, last);
    Associates(Named(a), Named(front), [last]);
  }

  lemma Associates<T>(x: seq<Row<T>>, y: seq<Row<T>>, z: seq<Row<T>>)
    ensures x + y + z == x + (y + z)
  {
  }

  class Table<T> {
    var rows: map<string, T>

    /**
     One INSERT .. ON CONFLICT DO UPDATE. The statement fails, and changes nothing, when it names
     the same row twice.
     */
    method InsertChunk(chunk: seq<Row<T>>) returns (ok: bool)
      modifies this
      ensures ok <==> DistinctIds(chunk)
      ensures rows == if ok then UpsertRows(old(rows), chunk) else old(rows)
    {
      ok := DistinctIds(chunk);
      if !ok {
        return;
      }
      for i := 0 to |chunk|
        invariant rows == UpsertRows(old(rows), chunk[..i])
      {
        assert chunk[..i + 1][..i] == chunk[..i];
        rows := rows[chunk[i].id := chunk[i].data];
      }
      assert chunk[..|chunk|] == chunk;
    }

    /**
     The sync: chunk by chunk, it is the one-by-one upsert of every member that has an id. It fails
     if and only if some chunk names a row twice, at the first such chunk, keeping the chunks before.
     */
    method UpsertDirectoryUsers(members: seq<Row<T>>) returns (written: Option<nat>)
      modifies this
      ensures written.Some? ==> written.value == |Named(members)| && rows == UpsertRows(old(rows), Named(members))
      ensures written.None? <==> exists n: nat :: StopsAt(Named(members), n)
      ensures written.None? ==>
                exists n: nat :: FirstStop(Named(members), n) && rows == UpsertRows(old(rows), Named(members)[..n])
    {
      var named := Named(members);
      if |named| == 0 {
        return Some(0);
      }
      var i := 0;
      while i < |named|
        invariant 0 <= i && i % CHUNK == 0
        invariant rows == UpsertRows(old(rows), named[..Min(i, |named|)])
        invariant forall m: nat :: m < i ==> !StopsAt(named, m)
        decreases |named| - i
      {
        var end := Min(i + CHUNK, |named|);
        var chunk := named[i..end];
        NextChunk(old(rows), named, i, end);
        var ok := InsertChunk(chunk);
        if !ok {
          assert StopsAt(named, i) && FirstStop(named, i);
          assert Min(i, |named|) == i;
          ghost var n: nat := i;
          assert FirstStop(Named(members), n) && rows == UpsertRows(old(rows), Named(members)[..n]);
          return None;
        }
        ChunkPassed(named, i);
        i := i + CHUNK;
      }
      assert named[..|named|] == named;
      written := Some(|named|);
    }
  }

  /** No chunk before the one that starts at n names a row twice. */
  ghost predicate FirstStop<T>(rows: seq<Row<T>>, n: nat) {
    StopsAt(rows, n) && forall m: nat :: m < n ==> !StopsAt(rows, m)
  }

  lemma ChunkPassed<T>(rows: seq<Row<T>>, n: nat)
    requires n % CHUNK == 0 && !StopsAt(rows, n) && forall m: nat :: m < n ==> !StopsAt(rows, m)
    ensures forall m: nat :: m < n + CHUNK ==> !StopsAt(rows, m)
  {
    forall m: nat | m < n + CHUNK ensures !StopsAt(rows, m) {
      if m > n {
        assert m % CHUNK == m - n;
      }
    }
  }

  /** The chunk that starts at n names a row twice. */
  ghost predicate StopsAt<T>(rows: seq<Row<T>>, n: nat) {
    n < |rows| && n % CHUNK == 0 && !DistinctIds(rows[n..Min(n + CHUNK, |rows|)])
  }
}

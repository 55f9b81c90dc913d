/** The `stories` table and the client-side story service: the published and
    scheduled listings, and the create, partial-update and delete operations. */
module StoryService {
  import opened Wrappers
  import opened JsArrays
  import opened Postgrest

  /** A row of `stories`. Timestamps are instants in one integer time base. */
  datatype Story = Story(
    id: string,
    userId: string,
    title: string,
    description: Option<string>,
    imageUrl: Option<string>,
    createdAt: int,
    releaseAt: Option<int>)

  /** `.eq('user_id', u)`. */
  function OwnerIs(u: string): Story -> bool {
    (s: Story) => s.userId == u
  }

  /** The stories of user `u`, in table order. */
  function OwnedBy(rows: seq<Story>, u: string): (r: seq<Story>)
    ensures forall s :: s in r <==> s in rows && s.userId == u
    ensures |r| <= |rows|
  {
    Filter(rows, OwnerIs(u))
  }

  /** `.eq('user_id', u).lte('release_at', now)`: a null release time
      compares as unknown, so such a story is never listed. */
  function PublishedFor(u: string, now: int): Story -> bool {
    (s: Story) => s.userId == u && s.releaseAt.Some? && s.releaseAt.value <= now
  }

  /** `.eq('user_id', u).gt('release_at', now)`. */
  function ScheduledFor(u: string, now: int): Story -> bool {
    (s: Story) => s.userId == u && s.releaseAt.Some? && s.releaseAt.value > now
  }

  /** The stories of `u` that carry a release time. */
  function DatedFor(u: string): Story -> bool {
    (s: Story) => s.userId == u && s.releaseAt.Some?
  }

  /** `.order(...)` on an integer key, ascending. */
  predicate SortedBy(s: seq<Story>, key: Story -> int) {
    forall i, j :: 0 <= i < j < |s| ==> key(s[i]) <= key(s[j])
  }

  /** Places `x` before the first element whose key is not smaller. */
  function Insert(x: Story, s: seq<Story>, key: Story -> int): (r: seq<Story>)
    ensures multiset(r) == multiset(s) + multiset{x}
    decreases |s|
  {
    if s == [] || key(x) <= key(s[0]) then [x] + s
    else
      assert s == [s[0]] + s[1..];
      [s[0]] + Insert(x, s[1..], key)
  }

  /** Every key in `s` is at least `k`. */
  predicate KeysAtLeast(s: seq<Story>, key: Story -> int, k: int) {
    forall j :: 0 <= j < |s| ==> k <= key(s[j])
  }

  /** Inserting into a sorted sequence keeps it sorted. */
  lemma {:induction false} InsertSorted(x: Story, s: seq<Story>, key: Story -> int)
    requires SortedBy(s, key)
    ensures SortedBy(Insert(x, s, key), key)
    decreases |s|
  {
    if s != [] && key(x) > key(s[0]) {
      var rest := Insert(x, s[1..], key);
      InsertSorted(x, s[1..], key);
      InsertLowerBound(x, s[1..], key, key(s[0]));
      SortedCons(s[0], rest, key);
    }
  }

  /** A head no larger than every key of a sorted tail keeps it sorted. */
  lemma SortedCons(h: Story, rest: seq<Story>, key: Story -> int)
    requires SortedBy(rest, key) && KeysAtLeast(rest, key, key(h))
    ensures SortedBy([h] + rest, key)
  {
    var r := [h] + rest;
    forall i, j | 0 <= i < j < |r|
      ensures key(r[i]) <= key(r[j])
    {
      assert r[j] == rest[j - 1];
      if i > 0 { assert r[i] == rest[i - 1]; }
    }
  }

  /** A lower bound on the keys of `s` and of `x` bounds the result. */
  lemma {:induction false} InsertLowerBound(x: Story, s: seq<Story>, key: Story -> int, k: int)
    requires SortedBy(s, key)
    requires KeysAtLeast(s, key, k) && k <= key(x)
    ensures KeysAtLeast(Insert(x, s, key), key, k)
    decreases |s|
  {
    if s != [] && key(x) > key(s[0]) {
      InsertLowerBound(x, s[1..], key, k);
    }
  }

  /** The rows in ascending key order (the database's ordering; rows with
      equal keys come out in table order). */
  function SortBy(s: seq<Story>, key: Story -> int): (r: seq<Story>)
    ensures SortedBy(r, key)
    ensures multiset(r) == multiset(s)
    decreases |s|
  {
    if s == [] then []
    else
      assert s == [s[0]] + s[1..];
      var sorted := SortBy(s[1..], key);
      InsertSorted(s[0], sorted, key);
      Insert(s[0], sorted, key)
  }

  /** The key of `.order('created_at', { ascending: false })`. */
  function NewestFirst(s: Story): int {
    -s.createdAt
  }

  /** The key of `.order('release_at', { ascending: true })`; every row it
      is applied to has a release time. */
  function ReleaseKey(s: Story): int {
    if s.releaseAt.Some? then s.releaseAt.value else 0
  }

  /** listStoriesByUser: the released stories of `u`, newest first. */
  function ListStoriesByUser(rows: seq<Story>, u: string, now: int): (r: seq<Story>)
    ensures forall s :: s in r <==> s in rows && s.userId == u && s.releaseAt.Some? && s.releaseAt.value <= now
    ensures multiset(r) == multiset(Filter(rows, PublishedFor(u, now)))
    ensures forall i, j :: 0 <= i < j < |r| ==> r[i].createdAt >= r[j].createdAt
  {
    var f := Filter(rows, PublishedFor(u, now));
    var r := SortBy(f, NewestFirst);
    assert forall s :: s in r <==> s in multiset(r);
    assert forall s :: s in f <==> s in multiset(f);
    assert forall s :: PublishedFor(u, now)(s) <==> s.userId == u && s.releaseAt.Some? && s.releaseAt.value <= now;
    r
  }

  /** listScheduledStoriesByUser: the not yet released stories of `u`,
      soonest release first. */
  function ListScheduledStoriesByUser(rows: seq<Story>, u: string, now: int): (r: seq<Story>)
    ensures forall s :: s in r <==> s in rows && s.userId == u && s.releaseAt.Some? && s.releaseAt.value > now
    ensures multiset(r) == multiset(Filter(rows, ScheduledFor(u, now)))
    ensures SortedBy(r, ReleaseKey)
  {
    var f := Filter(rows, ScheduledFor(u, now));
    var r := SortBy(f, ReleaseKey);
    assert forall s :: s in r <==> s in multiset(r);
    assert forall s :: s in f <==> s in multiset(f);
    assert forall s :: ScheduledFor(u, now)(s) <==> s.userId == u && s.releaseAt.Some? && s.releaseAt.value > now;
    r
  }

  /** For one instant, no story is both published and scheduled, and the two
      listings together hold every dated story of `u` exactly as often as
      the table does. */
  lemma PublishedScheduledPartition(rows: seq<Story>, u: string, now: int)
    ensures forall s :: !(s in ListStoriesByUser(rows, u, now) && s in ListScheduledStoriesByUser(rows, u, now))
    ensures multiset(ListStoriesByUser(rows, u, now)) + multiset(ListScheduledStoriesByUser(rows, u, now))
            == multiset(Filter(rows, DatedFor(u)))
  {
    FilterPartition(rows, PublishedFor(u, now), ScheduledFor(u, now), DatedFor(u));
  }

  /** The fields createStory receives; `None` is an omitted field. */
  datatype StoryInput = StoryInput(
    title: string,
    description: Option<string>,
    imageUrl: Option<string>,
    releaseAt: Option<int>)

  /** The fields updateStory receives. `None` is `undefined` (leave the column
      alone); `Some(None)` is an explicit null. */
  datatype StoryPatch = StoryPatch(
    title: Option<string>,
    description: Option<Option<string>>,
    imageUrl: Option<Option<string>>,
    releaseAt: Option<Option<int>>)

  /** A story with the fields of the patch that are not `undefined` written. */
  function Patched(s: Story, p: StoryPatch): (r: Story)
    ensures r.id == s.id && r.userId == s.userId && r.createdAt == s.createdAt
    ensures r.title == (if p.title.Some? then p.title.value else s.title)
    ensures r.description == (if p.description.Some? then p.description.value else s.description)
    ensures r.imageUrl == (if p.imageUrl.Some? then p.imageUrl.value else s.imageUrl)
    ensures r.releaseAt == (if p.releaseAt.Some? then p.releaseAt.value else s.releaseAt)
  {
    Story(
      s.id,
      s.userId,
      p.title.GetOr(s.title),
      p.description.GetOr(s.description),
      p.imageUrl.GetOr(s.imageUrl),
      s.createdAt,
      p.releaseAt.GetOr(s.releaseAt))
  }

  /** `.eq('id', id)`. */
  function IdIs(id: string): Story -> bool {
    (s: Story) => s.id == id
  }

  /** `.neq('id', id)`: the rows a delete by id leaves. */
  function IdIsNot(id: string): Story -> bool {
    (s: Story) => s.id != id
  }

  /** Every row whose id is `id` patched, the others as they were. */
  function UpdateWhere(rows: seq<Story>, id: string, p: StoryPatch): (r: seq<Story>)
    ensures |r| == |rows|
    ensures forall i :: 0 <= i < |rows| ==> r[i] == if rows[i].id == id then Patched(rows[i], p) else rows[i]
  {
    seq(|rows|, i requires 0 <= i < |rows| => if rows[i].id == id then Patched(rows[i], p) else rows[i])
  }

  /** The `stories` table. */
  class StoryTable {
    var rows: seq<Story>

    constructor (initial: seq<Story>)
      ensures rows == initial
    {
      rows := initial;
    }

    /** createStory: inserts one row. `sessionUser` is the column default of
        `user_id` (the signed-in user); `newId` and `now` are the defaults of
        `id` and `created_at`. */
    method CreateStory(input: StoryInput, sessionUser: string, newId: string, now: int) returns (r: Story)
      modifies this
      ensures r.id == newId && r.userId == sessionUser && r.title == input.title && r.createdAt == now
      ensures r.description == input.description && r.imageUrl == input.imageUrl
      ensures r.releaseAt == Some(if input.releaseAt.Some? then input.releaseAt.value else now)
      ensures rows == old(rows) + [r]
    {
      r := Story(newId, sessionUser, input.title, input.description, input.imageUrl, now,
                 Some(input.releaseAt.GetOr(now)));
      rows := rows + [r];
    }

    /** updateStory: a partial update of the row with that id. The request asks
        for the single updated row back, so it fails, leaving the table as it
        was, unless exactly one row has the id. */
    method UpdateStory(id: string, p: StoryPatch) returns (r: Result<Story, DbError>)
      modifies this
      ensures |Filter(old(rows), IdIs(id))| == 1 ==>
                rows == UpdateWhere(old(rows), id, p)
                && r.Success? && r.value == Patched(Filter(old(rows), IdIs(id))[0], p)
      ensures |Filter(old(rows), IdIs(id))| != 1 ==> rows == old(rows) && r == Failure(NotSingular)
    {
      var matching := Filter(rows, IdIs(id));
      if |matching| != 1 {
        return Failure(NotSingular);
      }
      rows := UpdateWhere(rows, id, p);
      r := Success(Patched(matching[0], p));
    }

    /** deleteStory: removes every row with that id and keeps the others in
        order. */
    method DeleteStory(id: string)
      modifies this
      ensures rows == Filter(old(rows), IdIsNot(id))
      ensures forall s :: s in rows <==> s in old(rows) && s.id != id
    {
      rows := Filter(rows, IdIsNot(id));
    }
  }
}

/** The recipient service: the links between a story and the recipients it
    is delivered to (`story_recipients`), replaced wholesale, and the payloads
    written to `recipients`. */
module RecipientService {
  import opened Wrappers
  import opened Postgrest
  import opened JsArrays

  /** A row of `story_recipients`. */
  datatype StoryRecipient = StoryRecipient(storyId: string, recipientId: string, userId: string, notify: bool)

  /** `.eq('story_id', storyId)`. */
  function StoryIs(storyId: string): StoryRecipient -> bool {
    (l: StoryRecipient) => l.storyId == storyId
  }

  /** The complement of `StoryIs`: what a delete by story keeps. */
  function StoryIsNot(storyId: string): StoryRecipient -> bool {
    (l: StoryRecipient) => l.storyId != storyId
  }

  /** `.map((r) => r.recipient_id)`. */
  function RecipientIds(links: seq<StoryRecipient>): (ids: seq<string>)
    ensures |ids| == |links|
    ensures forall i :: 0 <= i < |links| ==> ids[i] == links[i].recipientId
  {
    seq(|links|, i requires 0 <= i < |links| => links[i].recipientId)
  }

  /** The rows `setRecipientsForStory` inserts: one per id, in order, all
      owned by `userId` and carrying the same `notify`. */
  function LinksFor(storyId: string, userId: string, ids: seq<string>, notify: bool): (links: seq<StoryRecipient>)
    ensures RecipientIds(links) == ids
    ensures forall l :: l in links ==> l.storyId == storyId && l.userId == userId && l.notify == notify
  {
    seq(|ids|, i requires 0 <= i < |ids| => StoryRecipient(storyId, ids[i], userId, notify))
  }

  /** The recipients linked to a story, in table order. */
  function RecipientsOf(links: seq<StoryRecipient>, storyId: string): seq<string> {
    RecipientIds(Filter(links, StoryIs(storyId)))
  }

  /** `id` is the recipient id of some link. */
  lemma {:induction false} RecipientIdsMembership(links: seq<StoryRecipient>)
    ensures forall id :: id in RecipientIds(links) <==> exists l :: l in links && l.recipientId == id
  {
    var ids := RecipientIds(links);
    forall id | id in ids
      ensures exists l :: l in links && l.recipientId == id
    {
      var i :| 0 <= i < |ids| && ids[i] == id;
      assert links[i] in links;
    }
    forall l | l in links
      ensures l.recipientId in ids
    {
      var i :| 0 <= i < |links| && links[i] == l;
      assert ids[i] == l.recipientId;
    }
  }

  /** The table after a successful replace: the links of every other story
      in their order, then the new links of this one. */
  function ReplaceLinks(rows: seq<StoryRecipient>, storyId: string, userId: string, ids: seq<string>,
                        notify: bool): seq<StoryRecipient> {
    Filter(rows, StoryIsNot(storyId)) + LinksFor(storyId, userId, ids, notify)
  }

  /** The `story_recipients` table. */
  class StoryRecipientTable {
    var rows: seq<StoryRecipient>

    constructor (initial: seq<StoryRecipient>)
      ensures rows == initial
    {
      rows := initial;
    }

    /** setRecipientsForStory: deletes every link of the story, then (for a
        non-empty list) inserts one link per id. A failed delete is thrown
        before anything is inserted; a failed insert is thrown after the
        delete has taken effect. */
    method SetRecipientsForStory(storyId: string, userId: string, ids: seq<string>, notify: bool,
                                 deleteError: Option<DbError>, insertError: Option<DbError>)
      returns (thrown: Option<DbError>)
      modifies this
      ensures deleteError.Some? ==> thrown == deleteError && rows == old(rows)
      ensures deleteError.None? && ids != [] && insertError.Some? ==>
                thrown == insertError && rows == Filter(old(rows), StoryIsNot(storyId))
      ensures deleteError.None? && (ids == [] || insertError.None?) ==>
                thrown.None? && rows == ReplaceLinks(old(rows), storyId, userId, ids, notify)
    {
      if deleteError.Some? {
        return deleteError;
      }
      rows := Filter(rows, StoryIsNot(storyId));
      if |ids| == 0 {
        return None;
      }
      var inserted := LinksFor(storyId, userId, ids, notify);
      if insertError.Some? {
        return insertError;
      }
      rows := rows + inserted;
      thrown := None;
    }

    /** listRecipientsForStory: the recipient id of every link of the story;
        a query error is thrown. Nothing changes. */
    method ListRecipientsForStory(storyId: string, queryError: Option<DbError>)
      returns (r: Result<seq<string>, DbError>)
      ensures queryError.Some? ==> r == Failure(queryError.value)
      ensures queryError.None? ==> r.Success?
                                   && |r.value| == |Filter(rows, StoryIs(storyId))|
                                   && r.value == RecipientsOf(rows, storyId)
                                   && forall id :: id in r.value <==> exists l :: l in rows && l.storyId == storyId && l.recipientId == id
    {
      if queryError.Some? {
        return Failure(queryError.value);
      }
      var matching := Filter(rows, StoryIs(storyId));
      RecipientIdsMembership(matching);
      r := Success(RecipientIds(matching));
    }
  }

  /** After a replace the links of the story are exactly one row per given
      id, in order, with the given owner and flag; listing them gives back
      the ids, duplicates included. An empty list leaves the story with no
      links. */
  lemma SetThenList(rows: seq<StoryRecipient>, storyId: string, userId: string, ids: seq<string>, notify: bool)
    ensures Filter(ReplaceLinks(rows, storyId, userId, ids, notify), StoryIs(storyId))
            == LinksFor(storyId, userId, ids, notify)
    ensures RecipientsOf(ReplaceLinks(rows, storyId, userId, ids, notify), storyId) == ids
  {
    var kept := Filter(rows, StoryIsNot(storyId));
    var links := LinksFor(storyId, userId, ids, notify);
    FilterAppend(kept, links, StoryIs(storyId));
    FilterNone(kept, StoryIs(storyId));
    FilterAll(links, StoryIs(storyId));
  }

  /** A replace never changes the links of another story. */
  lemma ReplaceKeepsOtherStories(rows: seq<StoryRecipient>, storyId: string, other: string, userId: string,
                                 ids: seq<string>, notify: bool)
    requires other != storyId
    ensures Filter(ReplaceLinks(rows, storyId, userId, ids, notify), StoryIs(other)) == Filter(rows, StoryIs(other))
  {
    var kept := Filter(rows, StoryIsNot(storyId));
    var links := LinksFor(storyId, userId, ids, notify);
    FilterAppend(kept, links, StoryIs(other));
    FilterFilter(rows, StoryIsNot(storyId), StoryIs(other));
    FilterNone(links, StoryIs(other));
  }

  /** Repeated ids are not merged: two equal ids give two links. */
  lemma DuplicatesKept(rows: seq<StoryRecipient>, storyId: string, userId: string, r: string, notify: bool)
    ensures |Filter(ReplaceLinks(rows, storyId, userId, [r, r], notify), StoryIs(storyId))| == 2
  {
    SetThenList(rows, storyId, userId, [r, r], notify);
  }

  /** A row of `recipients`, or a payload for it: column name to value,
      `None` standing for `null`. */
  type Fields = map<string, Option<string>>

  /** The columns an update may not touch. */
  const ProtectedColumns: set<string> := {"id", "user_id", "created_at"}

  /** updateRecipient's payload: a copy of the input with `id`, `user_id` and
      `created_at` deleted; every other field passes through unchanged. */
  method UpdatePayload(input: Fields) returns (payload: Fields)
    ensures payload.Keys == input.Keys - ProtectedColumns
    ensures forall k :: k in payload ==> payload[k] == input[k]
  {
    payload := input;
    payload := payload - {"id"};
    payload := payload - {"user_id"};
    payload := payload - {"created_at"};
  }

  /** createRecipient's payload: the input, with `user_id` set to the
      signed-in user when there is one (a truthy id). */
  function CreatePayload(input: Fields, sessionUserId: Option<string>): (payload: Fields)
    ensures sessionUserId.Some? && sessionUserId.value != "" ==>
              "user_id" in payload && payload["user_id"] == Some(sessionUserId.value)
    ensures !(sessionUserId.Some? && sessionUserId.value != "") ==> payload == input
    ensures forall k :: k != "user_id" ==> (k in payload <==> k in input)
    ensures forall k :: k in input && k != "user_id" ==> payload[k] == input[k]
  {
    if sessionUserId.Some? && sessionUserId.value != "" then input["user_id" := Some(sessionUserId.value)] else input
  }

  /** `.eq('id', id)` on a recipient row. */
  predicate HasId(row: Fields, id: string) {
    "id" in row && row["id"] == Some(id)
  }

  /** The same predicate as a filter argument. */
  function RecipientIdIs(id: string): Fields -> bool {
    (row: Fields) => HasId(row, id)
  }

  /** The rows with that id, each with the payload written over it. */
  function UpdateById(rows: seq<Fields>, id: string, payload: Fields): (r: seq<Fields>)
    ensures |r| == |rows|
    ensures forall i :: 0 <= i < |rows| ==> r[i] == if HasId(rows[i], id) then rows[i] + payload else rows[i]
  {
    seq(|rows|, i requires 0 <= i < |rows| => if HasId(rows[i], id) then rows[i] + payload else rows[i])
  }

  /** An update whose payload names none of the protected columns keeps
      every row's id, owner and creation time. */
  lemma {:induction false} UpdateKeepsProtected(rows: seq<Fields>, id: string, payload: Fields)
    requires payload.Keys !! ProtectedColumns
    ensures forall i, k :: 0 <= i < |rows| && k in ProtectedColumns ==>
              (k in UpdateById(rows, id, payload)[i] <==> k in rows[i])
              && (k in rows[i] ==> UpdateById(rows, id, payload)[i][k] == rows[i][k])
  {
    var r := UpdateById(rows, id, payload);
    forall i, k | 0 <= i < |rows| && k in ProtectedColumns
      ensures (k in r[i] <==> k in rows[i]) && (k in rows[i] ==> r[i][k] == rows[i][k])
    {
      assert k !in payload;
    }
  }

  /** The `recipients` table. */
  class RecipientTable {
    var rows: seq<Fields>

    constructor (initial: seq<Fields>)
      ensures rows == initial
    {
      rows := initial;
    }

    /** updateRecipient: strips the payload, writes it over the row with
        that id and returns the updated row (`.single()`); unless exactly one
        row has the id, nothing is written and the not-singular error is
        thrown. A database error is thrown as well. */
    method UpdateRecipient(id: string, input: Fields, updateError: Option<DbError>)
      returns (r: Result<Fields, DbError>)
      modifies this
      ensures updateError.Some? ==> r == Failure(updateError.value) && rows == old(rows)
      ensures updateError.None? && |Filter(old(rows), RecipientIdIs(id))| != 1 ==> r == Failure(NotSingular) && rows == old(rows)
      ensures updateError.None? && |Filter(old(rows), RecipientIdIs(id))| == 1 ==>
                rows == UpdateById(old(rows), id, input - ProtectedColumns)
                && r == Success(Filter(old(rows), RecipientIdIs(id))[0] + (input - ProtectedColumns))
    {
      var payload := UpdatePayload(input);
      if updateError.Some? {
        return Failure(updateError.value);
      }
      var matching := Filter(rows, RecipientIdIs(id));
      if |matching| != 1 {
        return Failure(NotSingular);
      }
      assert payload == input - ProtectedColumns;
      rows := UpdateById(rows, id, payload);
      r := Success(matching[0] + payload);
    }
  }
}

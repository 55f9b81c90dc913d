/** The story form's rules: the title check, the release time it sends, the
    updates of the recipient selection, and the writes a submit makes. */
module StoryForm {
  import opened Wrappers
  import opened Postgrest
  import opened JsArrays
  import opened StoryService
  import opened RecipientService

  const TitleRequired := "Title is required"

  /** The schema's title rule (`z.string().min(1, ...)`): the error when the
      title is empty, none otherwise. */
  function ValidateTitle(title: string): (error: Option<string>)
    ensures error.Some? <==> |title| < 1
    ensures error.Some? ==> error.value == TitleRequired
  {
    if |title| < 1 then Some(TitleRequired) else None
  }

  /** The release time sent on save: now when publishing immediately,
      otherwise the chosen time, or now when none was chosen (the empty
      date field is falsy). */
  function ReleaseAtChoice(publishImmediately: bool, releaseAt: Option<int>, now: int): (t: int)
    ensures publishImmediately || releaseAt.None? ==> t == now
    ensures !publishImmediately && releaseAt.Some? ==> t == releaseAt.value
  {
    if publishImmediately then now else releaseAt.GetOr(now)
  }

  /** The checkbox handler: checking adds the id through a Set (so the
      selection keeps its first occurrences and the id appears once);
      unchecking removes every occurrence of the id. */
  function ToggleRecipient(prev: seq<string>, id: string, checked: bool): (next: seq<string>)
    ensures checked ==> id in next
    ensures !checked ==> id !in next
    ensures forall x :: x != id ==> (x in next <==> x in prev)
  {
    if checked then
      DedupeSpec(prev + [id]);
      Dedupe(prev + [id])
    else Without(prev, id)
  }

  /** Checking an id keeps the deduplicated selection in order and appends
      the id unless it was already selected; the selection then has no
      repeats. */
  lemma ToggleOn(prev: seq<string>, id: string)
    ensures ToggleRecipient(prev, id, true) == Dedupe(prev) + (if id in prev then [] else [id])
    ensures Distinct(ToggleRecipient(prev, id, true))
  {
    DedupeSnoc(prev, id);
    DedupeSpec(prev + [id]);
  }

  /** Unchecking keeps the other ids in their order. */
  lemma ToggleOffKeepsOrder(prev: seq<string>, last: string, id: string)
    ensures ToggleRecipient(prev + [last], id, false)
            == ToggleRecipient(prev, id, false) + (if last == id then [] else [last])
  {
    WithoutSnoc(prev, last, id);
  }

  /** On a selection without repeats, checking a new id and unchecking it
      again restores the selection. */
  lemma {:induction false} ToggleOnThenOff(prev: seq<string>, id: string)
    requires Distinct(prev) && id !in prev
    ensures ToggleRecipient(ToggleRecipient(prev, id, true), id, false) == prev
  {
    ToggleOn(prev, id);
    DedupeDistinct(prev);
    WithoutSnoc(prev, id, id);
    WithoutAbsent(prev, id);
  }

  /** The inline recipient creation: the new recipient goes first in the
      list of all recipients and first in the selection, which is then
      deduplicated. */
  function AddInline(allRecipients: seq<string>, selected: seq<string>, newId: string)
    : (r: (seq<string>, seq<string>))
    ensures r.0 == [newId] + allRecipients
    ensures |r.1| >= 1 && r.1[0] == newId
    ensures Distinct(r.1)
    ensures forall x :: x in r.1 <==> x == newId || x in selected
  {
    DedupeSpec([newId] + selected);
    assert ([newId] + selected)[0] == newId;
    ([newId] + allRecipients, Dedupe([newId] + selected))
  }

  /** Whether the form creates a story or edits an existing one. */
  datatype FormMode = Create | Edit(storyId: string)

  /** The form's fields. `imageUrl` is `undefined` until an image is chosen;
      `releaseAt` is the date field, `None` when empty. */
  datatype FormState = FormState(
    title: string,
    description: string,
    imageUrl: Option<string>,
    publishImmediately: bool,
    releaseAt: Option<int>,
    selected: seq<string>)

  /** What a create sends: the description as typed (an empty string is
      kept), and no image when none was chosen. */
  function CreateInput(form: FormState, now: int): (input: StoryInput)
    ensures input.title == form.title && input.description == Some(form.description)
    ensures input.imageUrl == form.imageUrl
    ensures input.releaseAt == Some(ReleaseAtChoice(form.publishImmediately, form.releaseAt, now))
  {
    StoryInput(form.title, Some(form.description), form.imageUrl,
               Some(ReleaseAtChoice(form.publishImmediately, form.releaseAt, now)))
  }

  /** What an edit sends: title, description and release time always, the
      image only when one is set (an `undefined` field is not written). */
  function EditPatch(form: FormState, now: int): (p: StoryPatch)
    ensures p.title == Some(form.title) && p.description == Some(Some(form.description))
    ensures p.releaseAt == Some(Some(ReleaseAtChoice(form.publishImmediately, form.releaseAt, now)))
    ensures p.imageUrl.Some? <==> form.imageUrl.Some?
    ensures form.imageUrl.Some? ==> p.imageUrl == Some(form.imageUrl)
  {
    StoryPatch(Some(form.title), Some(Some(form.description)),
               if form.imageUrl.Some? then Some(form.imageUrl) else None,
               Some(Some(ReleaseAtChoice(form.publishImmediately, form.releaseAt, now))))
  }

  /** onSubmit. An empty title is reported before any write. A create adds
      the story and links the selection only when it is non-empty and a user
      is signed in; an edit updates the story and then, with a signed-in
      user, replaces its links even with an empty selection. A thrown error
      ends the sequence and is reported. `sessionUser` and `newId` are the
      column defaults of the new row, `user` the signed-in user of the page,
      `deleteError` and `insertError` what the link writes report. */
  method Submit(mode: FormMode, form: FormState, user: Option<string>, sessionUser: string, newId: string,
                now: int, stories: StoryTable, links: StoryRecipientTable,
                deleteError: Option<DbError>, insertError: Option<DbError>)
    returns (error: Option<string>)
    modifies stories, links
    ensures form.title == "" ==>
              error == Some(TitleRequired) && stories.rows == old(stories.rows) && links.rows == old(links.rows)
    ensures form.title != "" && mode.Create? ==>
              stories.rows == old(stories.rows)
                              + [Story(newId, sessionUser, form.title, Some(form.description), form.imageUrl, now,
                                       Some(ReleaseAtChoice(form.publishImmediately, form.releaseAt, now)))]
    ensures form.title != "" && mode.Create? && (form.selected == [] || user.None?) ==>
              error.None? && links.rows == old(links.rows)
    ensures form.title != "" && mode.Create? && form.selected != [] && user.Some? && deleteError.None?
            && insertError.None? ==>
              error.None?
              && links.rows == ReplaceLinks(old(links.rows), newId, user.value, form.selected, false)
    ensures form.title != "" && mode.Create? && form.selected != [] && user.Some? && deleteError.Some? ==>
              error == Some(deleteError.value.message) && links.rows == old(links.rows)
    ensures form.title != "" && mode.Create? && form.selected != [] && user.Some? && deleteError.None?
            && insertError.Some? ==>
              error == Some(insertError.value.message)
              && links.rows == Filter(old(links.rows), StoryIsNot(newId))
    ensures form.title != "" && mode.Edit? && |Filter(old(stories.rows), IdIs(mode.storyId))| != 1 ==>
              error == Some(NotSingular.message)
              && stories.rows == old(stories.rows) && links.rows == old(links.rows)
    ensures form.title != "" && mode.Edit? && |Filter(old(stories.rows), IdIs(mode.storyId))| == 1 ==>
              stories.rows == UpdateWhere(old(stories.rows), mode.storyId, EditPatch(form, now))
    ensures form.title != "" && mode.Edit? && |Filter(old(stories.rows), IdIs(mode.storyId))| == 1
            && user.Some? && deleteError.None? && (form.selected == [] || insertError.None?) ==>
              error.None?
              && links.rows == ReplaceLinks(old(links.rows), mode.storyId, user.value, form.selected, false)
    ensures form.title != "" && mode.Edit? && |Filter(old(stories.rows), IdIs(mode.storyId))| == 1
            && user.None? ==>
              error.None? && links.rows == old(links.rows)
    ensures form.title != "" && mode.Edit? && |Filter(old(stories.rows), IdIs(mode.storyId))| == 1
            && user.Some? && deleteError.Some? ==>
              error == Some(deleteError.value.message) && links.rows == old(links.rows)
    ensures form.title != "" && mode.Edit? && |Filter(old(stories.rows), IdIs(mode.storyId))| == 1
            && user.Some? && deleteError.None? && form.selected != [] && insertError.Some? ==>
              error == Some(insertError.value.message)
              && links.rows == Filter(old(links.rows), StoryIsNot(mode.storyId))
  {
    var invalid := ValidateTitle(form.title);
    if invalid.Some? {
      return invalid;
    }
    match mode
    case Create =>
      var story := stories.CreateStory(CreateInput(form, now), sessionUser, newId, now);
      if |form.selected| > 0 && user.Some? {
        var thrown := links.SetRecipientsForStory(story.id, user.value, form.selected, false, deleteError, insertError);
        if thrown.Some? {
          return Some(thrown.value.message);
        }
      }
      error := None;
    case Edit(id) =>
      var updated := stories.UpdateStory(id, EditPatch(form, now));
      if updated.Failure? {
        return Some(updated.error.message);
      }
      if user.Some? {
        var thrown := links.SetRecipientsForStory(id, user.value, form.selected, false, deleteError, insertError);
        if thrown.Some? {
          return Some(thrown.value.message);
        }
      }
      error := None;
  }
}

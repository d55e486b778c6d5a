/** The story store of app.py: a module-level list of stories, changed in
    place by the five handlers. Each lookup handler raises its 404 inside
    the loop body, next to the `if`, so the loop never gets past the first
    story; the model keeps that behaviour and sets the whole-list scan the
    handlers evidently intend beside it. */
module Stories {
  import opened Outcomes

  const STORY_NOT_FOUND := "story not found"
  const STORY_DELETED := "Story deleted"

  datatype Story = Story(id: string, title: string, content: string)

  /** The body of `PATCH /stories/{id}`: the keys the client sent, each
      `None` when absent. */
  datatype StoryPatch = StoryPatch(id: Option<string>, title: Option<string>, content: Option<string>)

  /** The patch with no keys at all. */
  const EMPTY_PATCH := StoryPatch(None, None, None)

  /** Where a scan of the list for an id stopped: at a position, at a 404,
      or at the end of a list that had nothing to scan. */
  datatype Scan = Hit(index: nat) | Miss | Exhausted

  /** The scan as the handlers run it: the first story decides. */
  function HeadOnly(ss: seq<Story>, id: string): (r: Scan)
    ensures r.Exhausted? <==> |ss| == 0
    ensures r.Hit? <==> |ss| > 0 && ss[0].id == id
    ensures r.Hit? ==> r.index == 0
    ensures |ss| > 0 ==> r == HeadOnly(ss[..1], id)
  {
    if |ss| == 0 then Exhausted
    else if ss[0].id == id then Hit(0)
    else Miss
  }

  /** The scan the handlers evidently intend: the first story with that id
      anywhere in the list, and a 404 only once the whole list is passed. */
  function FindStory(ss: seq<Story>, id: string): (r: Scan)
    ensures !r.Exhausted?
    ensures r.Hit? ==> r.index < |ss| && ss[r.index].id == id
    ensures r.Hit? ==> forall j :: 0 <= j < r.index ==> ss[j].id != id
    ensures r.Miss? ==> forall j :: 0 <= j < |ss| ==> ss[j].id != id
  {
    if |ss| == 0 then Miss
    else if ss[0].id == id then Hit(0)
    else match FindStory(ss[1..], id)
      case Hit(k) => Hit(k + 1)
      case _ => Miss
  }

  /** `dict.update` of a story's fields with a patch: every key the patch
      holds overwrites that field, `id` included; the others stay. */
  function Merge(s: Story, p: StoryPatch): (r: Story)
    ensures p.id.Some? ==> r.id == p.id.value
    ensures p.id.None? ==> r.id == s.id
    ensures p.title.Some? ==> r.title == p.title.value
    ensures p.title.None? ==> r.title == s.title
    ensures p.content.Some? ==> r.content == p.content.value
    ensures p.content.None? ==> r.content == s.content
  {
    Story(
      if p.id.Some? then p.id.value else s.id,
      if p.title.Some? then p.title.value else s.title,
      if p.content.Some? then p.content.value else s.content)
  }

  /** One `dict.update` followed by another, as a single patch: the keys of
      `q` win over those of `p`. */
  function Then(p: StoryPatch, q: StoryPatch): StoryPatch
  {
    StoryPatch(
      if q.id.Some? then q.id else p.id,
      if q.title.Some? then q.title else p.title,
      if q.content.Some? then q.content else p.content)
  }

  class StoryStore {
    /** `stories_db`, in insertion order. */
    var stories: seq<Story>

    constructor ()
      ensures stories == []
    {
      stories := [];
    }

    /** `create_story`: the client's id is replaced by a fresh one, then
        the story is appended. `freshId` stands for `str(uuid4())`. */
    method CreateStory(story: Story, freshId: string) returns (s: Story)
      modifies this
      ensures s.id == freshId && s.title == story.title && s.content == story.content
      ensures stories == old(stories) + [s]
    {
      s := story.(id := freshId);
      stories := stories + [s];
    }

    /** `get_all_stories`: the whole list, in insertion order. */
    method GetAllStories() returns (all: seq<Story>)
      ensures all == stories
    {
      all := stories;
    }

    /** The `for` loop shared by the four lookup handlers, as written: the
        404 is raised in the loop body right after the first comparison, so
        only the first story is ever compared, and an empty list ends the
        loop without raising anything. */
    method ScanAsWritten(storyId: string) returns (o: Scan)
      ensures o == HeadOnly(stories, storyId)
    {
      for i := 0 to |stories|
        invariant i == 0
      {
        if stories[i].id == storyId {
          return Hit(i);
        }
        return Miss;
      }
      return Exhausted;
    }

    /** The loop with its 404 moved after the loop: the whole list is
        searched before giving up. */
    method ScanWhole(storyId: string) returns (o: Scan)
      ensures o == FindStory(stories, storyId)
    {
      for i := 0 to |stories|
        invariant forall j :: 0 <= j < i ==> stories[j].id != storyId
      {
        if stories[i].id == storyId {
          return Hit(i);
        }
      }
      return Miss;
    }

    /** `get_story` as written. */
    method GetStory(storyId: string) returns (r: Response<Story>)
      ensures |stories| == 0 ==> r == NoResponse
      ensures |stories| > 0 && stories[0].id == storyId ==> r == Ok(stories[0])
      ensures |stories| > 0 && stories[0].id != storyId ==> r == NotFound(STORY_NOT_FOUND)
    {
      var o := ScanAsWritten(storyId);
      match o
      case Hit(i) => r := Ok(stories[i]);
      case Miss => r := NotFound(STORY_NOT_FOUND);
      case Exhausted => r := NoResponse;
    }

    /** `replace_story` as written: on a match the new story, with its id
        forced to the path id, takes the matched place. */
    method ReplaceStory(storyId: string, newStory: Story) returns (r: Response<Story>)
      modifies this
      ensures |old(stories)| == 0 ==> r == NoResponse && stories == old(stories)
      ensures |old(stories)| > 0 && old(stories)[0].id != storyId ==>
        r == NotFound(STORY_NOT_FOUND) && stories == old(stories)
      ensures |old(stories)| > 0 && old(stories)[0].id == storyId ==>
        && r == Ok(Story(storyId, newStory.title, newStory.content))
        && stories == old(stories)[0 := r.value]
    {
      var o := ScanAsWritten(storyId);
      match o
      case Hit(i) =>
        var s := newStory.(id := storyId);
        stories := stories[i := s];
        r := Ok(s);
      case Miss => r := NotFound(STORY_NOT_FOUND);
      case Exhausted => r := NoResponse;
    }

    /** `patch_story` as written: on a match the stored story's fields are
        merged with the patch and the result stored in its place. */
    method PatchStory(storyId: string, patch: StoryPatch) returns (r: Response<Story>)
      modifies this
      ensures |old(stories)| == 0 ==> r == NoResponse && stories == old(stories)
      ensures |old(stories)| > 0 && old(stories)[0].id != storyId ==>
        r == NotFound(STORY_NOT_FOUND) && stories == old(stories)
      ensures |old(stories)| > 0 && old(stories)[0].id == storyId ==>
        && r == Ok(Merge(old(stories)[0], patch))
        && stories == old(stories)[0 := r.value]
    {
      var o := ScanAsWritten(storyId);
      match o
      case Hit(i) =>
        stories := stories[i := Merge(stories[i], patch)];
        r := Ok(stories[i]);
      case Miss => r := NotFound(STORY_NOT_FOUND);
      case Exhausted => r := NoResponse;
    }

    /** `delete_story` as written: on a match the story is popped. */
    method DeleteStory(storyId: string) returns (r: Response<string>)
      modifies this
      ensures |old(stories)| == 0 ==> r == NoResponse && stories == old(stories)
      ensures |old(stories)| > 0 && old(stories)[0].id != storyId ==>
        r == NotFound(STORY_NOT_FOUND) && stories == old(stories)
      ensures |old(stories)| > 0 && old(stories)[0].id == storyId ==>
        r == Ok(STORY_DELETED) && stories == old(stories)[1..]
    {
      var o := ScanAsWritten(storyId);
      match o
      case Hit(i) =>
        stories := stories[..i] + stories[i + 1..];
        r := Ok(STORY_DELETED);
      case Miss => r := NotFound(STORY_NOT_FOUND);
      case Exhausted => r := NoResponse;
    }
  }

  // ---------------------------------------------------------------------
  // Properties

  /** The scan as written answers like the intended one exactly when the
      list is not empty and either its first story carries the id or no
      story does. */
  lemma HeadOnlyAgreesIff(ss: seq<Story>, id: string)
    ensures HeadOnly(ss, id) == FindStory(ss, id) <==>
      |ss| > 0 && (ss[0].id == id || forall j :: 0 <= j < |ss| ==> ss[j].id != id)
  {
    if |ss| > 0 && ss[0].id != id && exists j :: 0 <= j < |ss| && ss[j].id == id {
      var r := FindStory(ss, id);
      assert r.Hit?;
    }
  }

  /** The input that shows the misplaced 404: with two stories, a lookup of
      the second one's id is answered 404, while the intended scan finds it
      at position 1. `CreateGetScenario` shows the same right after
      creating the second story. */
  lemma AsWrittenMissesSecondStory()
    ensures var ss := [Story("a", "first", ""), Story("b", "second", "")];
      HeadOnly(ss, "b") == Miss && FindStory(ss, "b") == Hit(1)
  {
    var ss := [Story("a", "first", ""), Story("b", "second", "")];
    assert ss[1..] == [Story("b", "second", "")];
  }

  /** Creating two stories and then getting the second one: the handler
      answers 404 although the story was just stored, while the first one
      is still found. */
  method CreateGetScenario(a: Story, b: Story, idA: string, idB: string)
    requires idA != idB
  {
    var store := new StoryStore();
    var sa := store.CreateStory(a, idA);
    var sb := store.CreateStory(b, idB);
    assert store.stories == [sa, sb];
    var gb := store.GetStory(idB);
    assert gb == NotFound(STORY_NOT_FOUND);
    var ga := store.GetStory(idA);
    assert ga == Ok(sa);
  }

  /** Patching with no keys changes nothing: `patch_story` with `{}`
      returns the stored story unchanged. */
  lemma MergeEmptyPatch(s: Story)
    ensures Merge(s, EMPTY_PATCH) == s
  {
  }

  /** Two patches in a row act as one patch whose later keys win. */
  lemma MergeThen(s: Story, p: StoryPatch, q: StoryPatch)
    ensures Merge(Merge(s, p), q) == Merge(s, Then(p, q))
  {
  }

  /** Applying the same patch twice is applying it once. */
  lemma MergeIdempotent(s: Story, p: StoryPatch)
    ensures Merge(Merge(s, p), p) == Merge(s, p)
  {
  }
}

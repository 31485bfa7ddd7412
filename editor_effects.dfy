/** The editor's side effects: for each triggering action, the editor-service
    calls made and the actions emitted back to the store, as a function of
    what those calls answer. Each stream is reduced to a single triggering
    action; the stream operators become plain functions, with the `ofType`
    filter between the save and the publish step kept as a function of its
    own. */
module EditorEffects {
  import opened Wrappers

  type ErrorValue = string

  datatype PostStatus = Draft | Published | Archived
  datatype PostType = Comment | Article | Response

  /** A post, with a few of its fields. */
  datatype Post = Post(
    id: int,
    title: string,
    body: string,
    status: PostStatus,
    postTypeId: PostType,
    parentPostId: Option<int>
  )

  /** The properties of a post that are saved separately. */
  datatype Property = BodyAndTitle | Hashtags | PaidSection

  /** What one property save answers. */
  datatype SaveResult = Saved | SaveFailed(error: ErrorValue)

  /** What a call answering a post answers (a load or a publish). */
  datatype PostResult = Answered(post: Post) | Failed(error: ErrorValue)

  /** The argument of a draft load. */
  datatype DraftQuery = AnyDraft | ForPost(postId: int) | ForParent(parentPostId: int)

  /** A call made to the editor service. */
  datatype ServiceCall =
    | LoadPostDraft(query: DraftQuery)
    | SavePostProperty(post: Post, property: Property)
    | SavePostPropertyLocally(property: Property, value: string)
    | PublishPost(post: Post)

  /** The actions the effects build. */
  datatype EditorAction =
    | DraftLoadSuccess(post: Post)
    | DraftLoadFailure(error: ErrorValue)
    | StoryLoadSuccess(post: Post)
    | StoryLoadFailure(error: ErrorValue)
    | ParentStoryLoadSuccess(post: Post)
    | ParentStoryLoadFailure(error: ErrorValue)
    | StoryLocalLoadSuccess(post: Post)
    | StoryLocalLoadFailure(error: ErrorValue)
    | StorySaveSuccess(post: Post)
    | StorySaveFailure(error: ErrorValue)
    | CommentSaveAndPublishSuccess(post: Post)
    | CommentSaveAndPublishFailure(error: ErrorValue)
    | StoryPublishSuccess(post: Post)
    | StoryPublishFailure(error: ErrorValue)
    | StoryPropertySaveSuccess
    | StoryPropertySaveFailure

  /** The type tag of an action, as `ofType` compares it. */
  datatype ActionType =
    | DRAFT_LOAD_SUCCESS | DRAFT_LOAD_FAILURE
    | STORY_LOAD_SUCCESS | STORY_LOAD_FAILURE
    | PARENT_STORY_LOAD_SUCCESS | PARENT_STORY_LOAD_FAILURE
    | STORY_LOCAL_LOAD_SUCCESS | STORY_LOCAL_LOAD_FAILURE
    | STORY_SAVE_SUCCESS | STORY_SAVE_FAILURE
    | COMMENT_SAVE_AND_PUBLISH_SUCCESS | COMMENT_SAVE_AND_PUBLISH_FAILURE
    | STORY_PUBLISH_SUCCESS | STORY_PUBLISH_FAILURE
    | STORY_PROPERTY_SAVE_SUCCESS | STORY_PROPERTY_SAVE_FAILURE

  /** The tags the two save-then-publish filters and the publish step
      compare belong to exactly one case each. */
  function TypeOf(a: EditorAction): (r: ActionType)
    ensures r == STORY_SAVE_SUCCESS <==> a.StorySaveSuccess?
    ensures r == COMMENT_SAVE_AND_PUBLISH_SUCCESS <==> a.CommentSaveAndPublishSuccess?
    ensures r == STORY_PUBLISH_SUCCESS <==> a.StoryPublishSuccess?
    ensures r == STORY_PUBLISH_FAILURE <==> a.StoryPublishFailure?
  {
    match a
    case DraftLoadSuccess(_) => DRAFT_LOAD_SUCCESS
    case DraftLoadFailure(_) => DRAFT_LOAD_FAILURE
    case StoryLoadSuccess(_) => STORY_LOAD_SUCCESS
    case StoryLoadFailure(_) => STORY_LOAD_FAILURE
    case ParentStoryLoadSuccess(_) => PARENT_STORY_LOAD_SUCCESS
    case ParentStoryLoadFailure(_) => PARENT_STORY_LOAD_FAILURE
    case StoryLocalLoadSuccess(_) => STORY_LOCAL_LOAD_SUCCESS
    case StoryLocalLoadFailure(_) => STORY_LOCAL_LOAD_FAILURE
    case StorySaveSuccess(_) => STORY_SAVE_SUCCESS
    case StorySaveFailure(_) => STORY_SAVE_FAILURE
    case CommentSaveAndPublishSuccess(_) => COMMENT_SAVE_AND_PUBLISH_SUCCESS
    case CommentSaveAndPublishFailure(_) => COMMENT_SAVE_AND_PUBLISH_FAILURE
    case StoryPublishSuccess(_) => STORY_PUBLISH_SUCCESS
    case StoryPublishFailure(_) => STORY_PUBLISH_FAILURE
    case StoryPropertySaveSuccess => STORY_PROPERTY_SAVE_SUCCESS
    case StoryPropertySaveFailure => STORY_PROPERTY_SAVE_FAILURE
  }

  /** What one triggering action leads to: the service calls made, in order,
      and the actions emitted to the store. */
  datatype Effect = Effect(calls: seq<ServiceCall>, emitted: seq<EditorAction>)

  /** `ofType(t)`: the actions of type `t`, in their order. */
  function OfType(t: ActionType, s: seq<EditorAction>): (r: seq<EditorAction>)
    ensures |r| <= |s|
    ensures forall i :: 0 <= i < |r| ==> TypeOf(r[i]) == t
    ensures forall i :: 0 <= i < |s| && TypeOf(s[i]) == t ==> s[i] in r
    ensures forall a :: a in r ==> a in s
    decreases |s|
  {
    if |s| == 0 then []
    else (if TypeOf(s[0]) == t then [s[0]] else []) + OfType(t, s[1..])
  }

  /** The filter keeps order: filtering a concatenation is concatenating the
      filtered parts. */
  lemma {:induction false} OfTypeConcat(t: ActionType, s1: seq<EditorAction>, s2: seq<EditorAction>)
    ensures OfType(t, s1 + s2) == OfType(t, s1) + OfType(t, s2)
    decreases |s1|
  {
    if |s1| == 0 {
      assert s1 + s2 == s2;
    } else {
      assert (s1 + s2)[0] == s1[0];
      assert (s1 + s2)[1..] == s1[1..] + s2;
      OfTypeConcat(t, s1[1..], s2);
    }
  }

  /** One action passes the filter exactly when it has the filter's type. */
  lemma OfTypeSingle(t: ActionType, a: EditorAction)
    ensures OfType(t, [a]) == if TypeOf(a) == t then [a] else []
  {
    assert [a][1..] == [];
  }

  // ---------------------------------------------------------------------
  // Loads

  /** A load answer mapped to the matching success or failure action. */
  function LoadOutcome(result: PostResult, onSuccess: Post -> EditorAction, onFailure: ErrorValue -> EditorAction): EditorAction {
    match result
    case Answered(p) => onSuccess(p)
    case Failed(e) => onFailure(e)
  }

  /** Loading the current draft: no query. */
  function DraftLoad(result: PostResult): (r: Effect)
    ensures r.calls == [LoadPostDraft(AnyDraft)]
    ensures result.Answered? ==> r.emitted == [DraftLoadSuccess(result.post)]
    ensures result.Failed? ==> r.emitted == [DraftLoadFailure(result.error)]
  {
    Effect([LoadPostDraft(AnyDraft)],
           [LoadOutcome(result, p => DraftLoadSuccess(p), e => DraftLoadFailure(e))])
  }

  /** Loading a story for editing: the draft of that post. */
  function StoryLoad(storyId: int, result: PostResult): (r: Effect)
    ensures r.calls == [LoadPostDraft(ForPost(storyId))]
    ensures result.Answered? ==> r.emitted == [StoryLoadSuccess(result.post)]
    ensures result.Failed? ==> r.emitted == [StoryLoadFailure(result.error)]
  {
    Effect([LoadPostDraft(ForPost(storyId))],
           [LoadOutcome(result, p => StoryLoadSuccess(p), e => StoryLoadFailure(e))])
  }

  /** Loading the story a response is written to: the draft whose parent is
      that post. */
  function ParentStoryLoad(storyId: int, result: PostResult): (r: Effect)
    ensures r.calls == [LoadPostDraft(ForParent(storyId))]
    ensures result.Answered? ==> r.emitted == [ParentStoryLoadSuccess(result.post)]
    ensures result.Failed? ==> r.emitted == [ParentStoryLoadFailure(result.error)]
  {
    Effect([LoadPostDraft(ForParent(storyId))],
           [LoadOutcome(result, p => ParentStoryLoadSuccess(p), e => ParentStoryLoadFailure(e))])
  }

  /** The outcome of loading the locally saved story: an action, or an error
      that ends the effect's stream. */
  datatype LocalLoadOutcome = Emits(action: EditorAction) | StreamError(error: ErrorValue)

  /** Loading the locally saved story. The local read happens while the inner
      stream is being built, before its error handler is attached, so a
      failing read is not turned into the failure action: it escapes as a
      stream error, and the failure action is never emitted. */
  function StoryLocalLoad(result: PostResult): (r: LocalLoadOutcome)
    ensures result.Answered? ==> r == Emits(StoryLocalLoadSuccess(result.post))
    ensures r.StreamError? <==> result.Failed?
    ensures result.Failed? ==> r == StreamError(result.error)
    ensures !(r.Emits? && r.action.StoryLocalLoadFailure?)
  {
    match result
    case Answered(p) => Emits(StoryLocalLoadSuccess(p))
    case Failed(e) => StreamError(e)
  }

  // ---------------------------------------------------------------------
  // Saving and publishing

  /** The two save-then-publish flows. */
  datatype Flow = StoryFlow | CommentFlow

  /** The properties a flow saves before publishing: every property, each
      once, for a story; only body and title for a comment. */
  function SavedProperties(flow: Flow): (r: seq<Property>)
    ensures |r| > 0 && r[0] == BodyAndTitle
    ensures flow == CommentFlow ==> r == [BodyAndTitle]
    ensures flow == StoryFlow ==> |r| == 3 && BodyAndTitle in r && Hashtags in r && PaidSection in r
                                  && forall i, j :: 0 <= i < j < |r| ==> r[i] != r[j]
  {
    match flow
    case StoryFlow => [BodyAndTitle, Hashtags, PaidSection]
    case CommentFlow => [BodyAndTitle]
  }

  predicate AllSaved(props: seq<Property>, outcome: Property -> SaveResult) {
    forall i :: 0 <= i < |props| ==> outcome(props[i]).Saved?
  }

  /** The error a joined save reports: the first failure, in argument order.
      Which failure really wins depends on response timing; the choice does
      not matter here, since the failure action is filtered out. */
  function FirstFailure(props: seq<Property>, outcome: Property -> SaveResult): (r: Option<ErrorValue>)
    ensures r.None? <==> AllSaved(props, outcome)
    ensures r.Some? ==> exists i :: 0 <= i < |props| && outcome(props[i]) == SaveFailed(r.value)
    decreases |props|
  {
    if |props| == 0 then None
    else match outcome(props[0])
      case SaveFailed(e) => Some(e)
      case Saved =>
        var rest := FirstFailure(props[1..], outcome);
        assert rest.Some? ==> exists i :: 0 <= i < |props[1..]| && outcome(props[1..][i]) == SaveFailed(rest.value);
        assert forall i :: 0 < i < |props| ==> props[i] == props[1..][i - 1];
        rest
  }

  /** The joined saves mapped to the flow's save success or failure action. */
  function SaveStage(flow: Flow, post: Post, outcome: Property -> SaveResult): (r: EditorAction)
    ensures AllSaved(SavedProperties(flow), outcome) <==> TypeOf(r) == SaveSuccessType(flow)
  {
    match FirstFailure(SavedProperties(flow), outcome)
    case None => if flow == StoryFlow then StorySaveSuccess(post) else CommentSaveAndPublishSuccess(post)
    case Some(e) => if flow == StoryFlow then StorySaveFailure(e) else CommentSaveAndPublishFailure(e)
  }

  /** The type the second filter of a flow lets through. */
  function SaveSuccessType(flow: Flow): ActionType {
    if flow == StoryFlow then STORY_SAVE_SUCCESS else COMMENT_SAVE_AND_PUBLISH_SUCCESS
  }

  /** A publish answer mapped to the story publish actions; the comment flow
      uses the same two. */
  function PublishStage(result: PostResult): (r: EditorAction)
    ensures TypeOf(r) == STORY_PUBLISH_SUCCESS <==> result.Answered?
    ensures TypeOf(r) == STORY_PUBLISH_FAILURE <==> result.Failed?
    ensures result.Answered? ==> r.post == result.post
    ensures result.Failed? ==> r.error == result.error
  {
    match result
    case Answered(p) => StoryPublishSuccess(p)
    case Failed(e) => StoryPublishFailure(e)
  }

  /** The save-and-publish effect of a flow: save each property in parallel,
      pass the save action through the success filter, and publish the post
      the passing action carries. */
  function SaveAndPublish(flow: Flow, post: Post, outcome: Property -> SaveResult, publish: PostResult): (r: Effect)
    ensures |r.emitted| <= 1
    ensures forall i :: 0 <= i < |r.emitted| ==> r.emitted[i] == PublishStage(publish)
  {
    var props := SavedProperties(flow);
    var saves := seq(|props|, i requires 0 <= i < |props| => SavePostProperty(post, props[i]));
    var passed := OfType(SaveSuccessType(flow), [SaveStage(flow, post, outcome)]);
    if |passed| == 0 then Effect(saves, [])
    else Effect(saves + [PublishPost(passed[0].post)], [PublishStage(publish)])
  }

  /** The story flow saves body and title, hashtags and the paid section, each
      once and for the same post. If every save succeeds, that post is
      published and the publish answer is emitted as a publish success or
      failure. If any save fails, nothing is published and nothing at all is
      emitted: the save-failure action is dropped by the success filter. */
  lemma StorySaveAndPublishOutcome(post: Post, outcome: Property -> SaveResult, publish: PostResult)
    ensures var r := SaveAndPublish(StoryFlow, post, outcome, publish);
      var ok := outcome(BodyAndTitle).Saved? && outcome(Hashtags).Saved? && outcome(PaidSection).Saved?;
      && r.calls[..3] == [SavePostProperty(post, BodyAndTitle), SavePostProperty(post, Hashtags),
                          SavePostProperty(post, PaidSection)]
      && (ok ==> r.calls == r.calls[..3] + [PublishPost(post)] && r.emitted == [PublishStage(publish)])
      && (!ok ==> |r.calls| == 3 && r.emitted == [])
  {
    var props := SavedProperties(StoryFlow);
    var ok := outcome(BodyAndTitle).Saved? && outcome(Hashtags).Saved? && outcome(PaidSection).Saved?;
    assert AllSaved(props, outcome) <==> ok by {
      if ok {
        assert forall i :: 0 <= i < 3 ==> props[i] in {BodyAndTitle, Hashtags, PaidSection};
      } else {
        assert !outcome(props[0]).Saved? || !outcome(props[1]).Saved? || !outcome(props[2]).Saved?;
      }
    }
    SaveStagePassesFilter(StoryFlow, post, outcome);
  }

  /** The comment flow saves only body and title; it publishes exactly when
      that save succeeds, and maps the answer to the story publish actions.
      A failed save emits nothing. */
  lemma CommentSaveAndPublishOutcome(post: Post, outcome: Property -> SaveResult, publish: PostResult)
    ensures var r := SaveAndPublish(CommentFlow, post, outcome, publish);
      && r.calls[..1] == [SavePostProperty(post, BodyAndTitle)]
      && (outcome(BodyAndTitle).Saved? ==>
            r.calls == r.calls[..1] + [PublishPost(post)] && r.emitted == [PublishStage(publish)])
      && (!outcome(BodyAndTitle).Saved? ==> |r.calls| == 1 && r.emitted == [])
  {
    var props := SavedProperties(CommentFlow);
    assert AllSaved(props, outcome) <==> outcome(BodyAndTitle).Saved? by {
      assert props[0] == BodyAndTitle;
    }
    SaveStagePassesFilter(CommentFlow, post, outcome);
  }

  /** The success filter lets the save action through exactly when every save
      succeeded, and the action it lets through carries the post. */
  lemma SaveStagePassesFilter(flow: Flow, post: Post, outcome: Property -> SaveResult)
    ensures var passed := OfType(SaveSuccessType(flow), [SaveStage(flow, post, outcome)]);
      && (AllSaved(SavedProperties(flow), outcome) ==>
            passed == [SaveStage(flow, post, outcome)] && passed[0].post == post)
      && (!AllSaved(SavedProperties(flow), outcome) ==> passed == [])
  {
    var a := SaveStage(flow, post, outcome);
    assert [a][1..] == [];
  }

  /** Whatever the saves answer, the only actions a save-and-publish effect
      can emit are publish actions: never a save success or failure. */
  lemma SaveAndPublishEmitsOnlyPublishActions(flow: Flow, post: Post, outcome: Property -> SaveResult, publish: PostResult)
    ensures forall i :: 0 <= i < |SaveAndPublish(flow, post, outcome, publish).emitted| ==>
      TypeOf(SaveAndPublish(flow, post, outcome, publish).emitted[i]) in {STORY_PUBLISH_SUCCESS, STORY_PUBLISH_FAILURE}
  {
  }

  // ---------------------------------------------------------------------
  // Single property changes

  /** A property change is only saved locally; nothing is dispatched. */
  function StoryPropertyChange(property: Property, value: string): (r: Effect)
    ensures r.emitted == []
    ensures r.calls == [SavePostPropertyLocally(property, value)]
  {
    Effect([SavePostPropertyLocally(property, value)], [])
  }

  /** Saving one property: one save call, its answer mapped to the property
      save success or failure action. */
  function StoryPropertySave(story: Post, property: Property, result: SaveResult): (r: Effect)
    ensures r.calls == [SavePostProperty(story, property)]
    ensures |r.emitted| == 1
    ensures r.emitted[0] == StoryPropertySaveSuccess <==> result.Saved?
    ensures r.emitted[0] == StoryPropertySaveFailure <==> result.SaveFailed?
  {
    Effect([SavePostProperty(story, property)],
           [if result.Saved? then StoryPropertySaveSuccess else StoryPropertySaveFailure])
  }
}

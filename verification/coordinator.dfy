/** The save orchestration of the post coordinator: `save(_:automatedRetry:)`
    with its media observer, `cancelAnyPendingSaveOf(post:)` and the upload
    hand-off. Collaborator answers are inputs: `Answers` for the media service
    and media coordinator, `VideoLookup` for the remote video URL fetch,
    `Editor` for the content processors. */
module PostCoordinator {
  import opened Model
  import opened Observers
  import opened Status
  import opened MediaUpload
  import opened References

  /** State of one media upload reported to an observer. */
  datatype MediaState = Uploading | Ended | Failed | Progress

  /** Outcome of fetching the playable remote URL of a video. */
  datatype VideoLookup = Resolved(url: string) | LookupFailed

  /** A revision that does not exist remotely and has an original is folded
      into that original before it is saved. */
  predicate Folds(p: Post)
  {
    p.isRevision && !p.hasRemote && p.original.Some?
  }

  /** The post a save acts on: the original of a foldable revision, otherwise
      the post itself. */
  function Canonical(st: Coordinator, id: PostId): (c: PostId)
    requires Known(st, id)
    ensures c in st.posts
  {
    if Folds(st.posts[id]) then st.posts[id].original.value else id
  }

  /** Applies a foldable revision's edits to its original and discards the
      revision; any other post is left as it is. */
  function Reconcile(st: Coordinator, id: PostId): (r: Coordinator)
    requires Known(st, id)
    ensures r.posts.Keys == st.posts.Keys
    ensures r.observers == st.observers && r.nextToken == st.nextToken
    ensures forall q :: q in st.posts && q != Canonical(st, id) ==> r.posts[q] == st.posts[q]
    ensures Folds(st.posts[id]) ==>
      && Canonical(st, id) == st.posts[id].original.value
      && r.posts[Canonical(st, id)] == st.posts[Canonical(st, id)].(content := st.posts[id].content)
      && r.log == st.log + [RevisionMerged(id, Canonical(st, id))]
    ensures !Folds(st.posts[id]) ==> Canonical(st, id) == id && r == st
  {
    var p := st.posts[id];
    if Folds(p) then
      var o := p.original.value;
      st.(posts := st.posts[o := st.posts[o].(content := p.content)],
          log := st.log + [RevisionMerged(id, o)])
    else st
  }

  /** Hands the post to the post service for upload. */
  function Upload(st: Coordinator, c: PostId): (st': Coordinator)
    ensures st'.log == st.log + [Uploaded(c)]
    ensures st'.posts == st.posts && st'.observers == st.observers && st'.nextToken == st.nextToken
  {
    st.(log := st.log + [Uploaded(c)])
  }

  /** The post a save acts on, after reconciliation. */
  function Target(st: Coordinator, id: PostId): Post
    requires Known(st, id)
  {
    Reconcile(st, id).posts[Canonical(st, id)]
  }

  /** The media a save retries and whether they cover the post. */
  function Push(st: Coordinator, id: PostId, automated: bool, ans: Answers): MediaPush
    requires Known(st, id)
  {
    UploadMedia(Target(st, id), automated, ans.retryable)
  }

  /** The state once the revision is folded and the media retries are issued. */
  function AfterRetries(st: Coordinator, id: PostId, automated: bool, ans: Answers): (r: Coordinator)
    requires Known(st, id)
    ensures r.posts == Reconcile(st, id).posts
    ensures r.observers == st.observers && r.nextToken == st.nextToken
    ensures r.log == Reconcile(st, id).log + RetryEvents(Push(st, id, automated, ans).retried, automated)
  {
    var rec := Reconcile(st, id);
    rec.(log := rec.log + RetryEvents(Push(st, id, automated, ans).retried, automated))
  }

  /** Saves a post: fold a revision, retry media, then fail, wait for media
      or upload. */
  function Save(st: Coordinator, id: PostId, automated: bool, ans: Answers): (st': Coordinator)
    requires Known(st, id)
    ensures st'.posts.Keys == st.posts.Keys
    ensures forall q :: q in st.posts ==> st'.posts[q].original == st.posts[q].original
    ensures forall q :: q in st.posts ==> st'.posts[q].status == st.posts[q].status
    ensures forall q :: q in st.posts ==> st'.posts[q].hasRemote == st.posts[q].hasRemote
  {
    Decide(AfterRetries(st, id, automated, ans), Canonical(st, id), Push(st, id, automated, ans).pushingAll, ans)
  }

  /** What follows the media retries: mark the post failed when the retries
      did not cover it, otherwise mark it pushing and either wait for its
      media under a single observer or upload it. */
  function Decide(st: Coordinator, c: PostId, pushingAll: bool, ans: Answers): (st': Coordinator)
    requires c in st.posts
    ensures st'.posts.Keys == st.posts.Keys
    ensures forall q :: q in st.posts && q != c ==> st'.posts[q] == st.posts[q]
    ensures st'.posts[c] == st.posts[c].(remoteStatus := st'.posts[c].remoteStatus)
  {
    if !pushingAll then Change(st, c, RemoteStatus.Failed)
    else
      var pushing := Change(st, c, Pushing);
      if ans.uploading || ans.failedMedia then
        var waiting := Change(pushing, c, PushingMedia);
        if IsObserving(waiting, c) then waiting
        else TrackObserver(AddObserver(waiting, c), c, waiting.nextToken)
      else Upload(pushing, c)
  }

  /** Every log entry after the first `from` names the canonical post, if it
      names a post at all. */
  predicate OnlyAbout(log: seq<Event>, from: nat, c: PostId)
  {
    forall i :: from <= i < |log| ==>
      match log[i]
      case StatusWritten(p, _) => p == c
      case Subscribed(p, _) => p == c
      case Uploaded(p) => p == c
      case _ => true
  }

  /** Reached when the media covered by the save were not all of the post's:
      the post is marked failed and nothing else follows. */
  lemma SaveIncompleteMarksFailed(st: Coordinator, id: PostId, automated: bool, ans: Answers)
    requires Known(st, id)
    requires !Push(st, id, automated, ans).pushingAll
    ensures automated && |ans.retryable| != |Target(st, id).media|
    ensures var st', before := Save(st, id, automated, ans), AfterRetries(st, id, automated, ans);
      && st'.log == before.log + Writes(before, Canonical(st, id), MarkedFailed)
      && st'.observers == st.observers && st'.nextToken == st.nextToken
      && (Managed(before, Canonical(st, id)) ==> st'.posts[Canonical(st, id)].remoteStatus == RemoteStatus.Failed)
  {
  }

  /** With every media covered, nothing uploading and nothing failed, the post
      goes to `pushing` and is uploaded once; no observer is involved. */
  lemma SaveUploadsAtOnce(st: Coordinator, id: PostId, automated: bool, ans: Answers)
    requires Known(st, id)
    requires Push(st, id, automated, ans).pushingAll && !ans.uploading && !ans.failedMedia
    ensures var st', before, c := Save(st, id, automated, ans), AfterRetries(st, id, automated, ans), Canonical(st, id);
      && st'.log == before.log + Writes(before, c, Assigned(Pushing)) + [Uploaded(c)]
      && st'.observers == st.observers && st'.nextToken == st.nextToken
      && (Managed(before, c) ==> st'.posts[c].remoteStatus == Pushing)
  {
  }

  /** With media still uploading or failed, the post goes to `pushing` then
      `pushingMedia` and is not uploaded; an observer is added only when none
      is tracked for the post, so the post keeps a single entry. */
  lemma SaveWaitsForMedia(st: Coordinator, id: PostId, automated: bool, ans: Answers)
    requires Known(st, id)
    requires Push(st, id, automated, ans).pushingAll && (ans.uploading || ans.failedMedia)
    ensures var st', before, c := Save(st, id, automated, ans), AfterRetries(st, id, automated, ans), Canonical(st, id);
      var writes := Writes(before, c, Assigned(Pushing)) + Writes(before, c, Assigned(PushingMedia));
      && (Managed(before, c) ==> st'.posts[c].remoteStatus == PushingMedia)
      && c in st'.observers
      && (c in st.observers ==>
            st'.observers == st.observers && st'.nextToken == st.nextToken && st'.log == before.log + writes)
      && (c !in st.observers ==>
            st'.observers == st.observers[c := st.nextToken] &&
            st'.log == before.log + writes + [Subscribed(c, st.nextToken)])
  {
  }

  /** Whatever the answers, a save never drops or replaces a tracked observer,
      and the only observer it can add is the canonical post's. */
  lemma SaveKeepsObservers(st: Coordinator, id: PostId, automated: bool, ans: Answers)
    requires Known(st, id)
    ensures var st' := Save(st, id, automated, ans);
      && (forall q :: q in st.observers ==> q in st'.observers && st'.observers[q] == st.observers[q])
      && (forall q :: q in st'.observers && q !in st.observers ==> q == Canonical(st, id))
  {
  }

  /** A save keeps every post's identity as a revision, so a post folds into
      the same original before and after it. */
  lemma SaveKeepsCanonical(st: Coordinator, id: PostId, automated: bool, ans: Answers, other: PostId)
    requires Known(st, id) && Known(st, other)
    ensures var st' := Save(st, id, automated, ans);
      Known(st', other) && Folds(st'.posts[other]) == Folds(st.posts[other])
      && Canonical(st', other) == Canonical(st, other)
  {
  }

  /** Saving a second time, the same post or another that folds into the
      same original, while the first save waits on media adds no second
      observer and no second subscription. */
  lemma {:induction false} RepeatedSaveSubscribesOnce(st: Coordinator, id1: PostId, id2: PostId,
                                                      automated1: bool, automated2: bool,
                                                      ans1: Answers, ans2: Answers)
    requires Known(st, id1) && Known(st, id2) && Inv(st)
    requires Canonical(st, id2) == Canonical(st, id1)
    requires Push(st, id1, automated1, ans1).pushingAll && (ans1.uploading || ans1.failedMedia)
    ensures var st1 := Save(st, id1, automated1, ans1);
      && Known(st1, id2)
      && var st2 := Save(st1, id2, automated2, ans2);
      && st2.observers == st1.observers
      && st2.nextToken == st1.nextToken
      && Inv(st2)
  {
    var st1 := Save(st, id1, automated1, ans1);
    SaveWaitsForMedia(st, id1, automated1, ans1);
    SavePreservesInv(st, id1, automated1, ans1);
    SaveKeepsCanonical(st, id1, automated1, ans1, id2);
    assert Canonical(st, id1) in st1.observers;
    SaveKeepsObservers(st1, id2, automated2, ans2);
    SavePreservesInv(st1, id2, automated2, ans2);
  }

  /** Extending a log by entries about `c` keeps it about `c` from `from` on. */
  lemma OnlyAboutAppend(log: seq<Event>, from: nat, c: PostId, es: seq<Event>)
    requires from <= |log| && OnlyAbout(log, from, c) && OnlyAbout(es, 0, c)
    ensures OnlyAbout(log + es, from, c)
  {
  }

  /** The calls made after the media retries all concern the post decided on. */
  lemma DecideActsOn(st: Coordinator, c: PostId, pushingAll: bool, ans: Answers)
    requires c in st.posts
    ensures var st' := Decide(st, c, pushingAll, ans);
      && |st.log| <= |st'.log| && st'.log[..|st.log|] == st.log && OnlyAbout(st'.log[|st.log|..], 0, c)
      && forall i :: |st.log| <= i < |st'.log| ==> !st'.log[i].MediaRetried?
  {
  }

  /** The canonical post is the only post a save changes or names in its calls. */
  lemma SaveActsOnCanonical(st: Coordinator, id: PostId, automated: bool, ans: Answers)
    requires Known(st, id)
    ensures var st', rec := Save(st, id, automated, ans), Reconcile(st, id);
      && (forall q :: q in st.posts && q != Canonical(st, id) ==> st'.posts[q] == st.posts[q])
      && |rec.log| <= |st'.log| && st'.log[..|rec.log|] == rec.log
      && OnlyAbout(st'.log, |rec.log|, Canonical(st, id))
  {
    var c, rec := Canonical(st, id), Reconcile(st, id);
    var push := Push(st, id, automated, ans);
    var retried := AfterRetries(st, id, automated, ans);
    var st' := Save(st, id, automated, ans);
    DecideActsOn(retried, c, push.pushingAll, ans);
    var es := RetryEvents(push.retried, automated);
    assert OnlyAbout(es, 0, c);
    OnlyAboutAppend(rec.log, |rec.log|, c, es);
    assert st'.log == retried.log + st'.log[|retried.log|..];
    OnlyAboutAppend(retried.log, |rec.log|, c, st'.log[|retried.log|..]);
    assert st'.log[..|rec.log|] == rec.log;
  }

  /** After a save the post reads as uploading exactly when it was handed to
      upload at once; a post waiting on media does not read as uploading. */
  lemma IsUploadingAfterSave(st: Coordinator, id: PostId, automated: bool, ans: Answers)
    requires Known(st, id)
    requires st.posts[Canonical(st, id)].managed
    ensures IsUploading(Save(st, id, automated, ans).posts[Canonical(st, id)]) <==>
            Push(st, id, automated, ans).pushingAll && !ans.uploading && !ans.failedMedia
  {
  }

  /** Counting `retryMedia` entries over a log extended by entries of which
      only the middle part holds retries. */
  lemma RetryCountSplit(base: seq<Event>, pre: seq<Event>, es: seq<Event>, tail: seq<Event>, m: Media, a: bool)
    requires forall i :: 0 <= i < |pre| ==> !pre[i].MediaRetried?
    requires forall i :: 0 <= i < |tail| ==> !tail[i].MediaRetried?
    ensures multiset(base + pre + es + tail)[MediaRetried(m, a)] ==
            multiset(base)[MediaRetried(m, a)] + multiset(es)[MediaRetried(m, a)]
  {
    assert MediaRetried(m, a) !in pre && MediaRetried(m, a) !in tail;
  }

  /** A save's log: the fold entry, if any, then the retries of the selected
      media, then entries that retry nothing. */
  lemma SaveLogShape(st: Coordinator, id: PostId, automated: bool, ans: Answers)
    returns (pre: seq<Event>, tail: seq<Event>)
    requires Known(st, id)
    ensures Save(st, id, automated, ans).log ==
            st.log + pre + RetryEvents(Push(st, id, automated, ans).retried, automated) + tail
    ensures forall i :: 0 <= i < |pre| ==> !pre[i].MediaRetried?
    ensures forall i :: 0 <= i < |tail| ==> !tail[i].MediaRetried?
  {
    var c := Canonical(st, id);
    var push := Push(st, id, automated, ans);
    var before := AfterRetries(st, id, automated, ans);
    pre := if Folds(st.posts[id]) then [RevisionMerged(id, c)] else [];
    assert Reconcile(st, id).log == st.log + pre;
    DecideActsOn(before, c, push.pushingAll, ans);
    var log' := Decide(before, c, push.pushingAll, ans).log;
    tail := log'[|before.log|..];
    assert log' == before.log + tail;
  }

  /** The only `retryMedia` calls a save logs are those for the media it
      selected, issued after the revision is folded. */
  lemma SaveLogsSelectedRetries(st: Coordinator, id: PostId, automated: bool, ans: Answers)
    requires Known(st, id)
    ensures var st', es := Save(st, id, automated, ans), RetryEvents(Push(st, id, automated, ans).retried, automated);
      forall m, a :: multiset(st'.log)[MediaRetried(m, a)] ==
                     multiset(st.log)[MediaRetried(m, a)] + multiset(es)[MediaRetried(m, a)]
  {
    var pre, tail := SaveLogShape(st, id, automated, ans);
    var es := RetryEvents(Push(st, id, automated, ans).retried, automated);
    forall m, a ensures multiset(Save(st, id, automated, ans).log)[MediaRetried(m, a)] ==
                        multiset(st.log)[MediaRetried(m, a)] + multiset(es)[MediaRetried(m, a)]
    {
      RetryCountSplit(st.log, pre, es, tail, m, a);
    }
  }

  /** A user-initiated save always covers all media and retries each failed
      media of the post exactly once (and nothing else). */
  lemma UserSaveRetriesFailedMedia(st: Coordinator, id: PostId, ans: Answers)
    requires Known(st, id)
    requires Distinct(Target(st, id).media)
    ensures Push(st, id, false, ans).pushingAll
    ensures var es := RetryEvents(Push(st, id, false, ans).retried, false);
      forall m :: multiset(es)[MediaRetried(m, false)] ==
        (if m in Target(st, id).media && m.remoteStatus == MediaStatus.Failed then 1 else 0)
    ensures forall m :: multiset(Save(st, id, false, ans).log)[MediaRetried(m, false)] ==
                        multiset(st.log)[MediaRetried(m, false)] +
                        (if m in Target(st, id).media && m.remoteStatus == MediaStatus.Failed then 1 else 0)
  {
    var sel := Push(st, id, false, ans).retried;
    FailedMediaOnce(Target(st, id).media);
    RetryEventsCount(sel, false);
    SaveLogsSelectedRetries(st, id, false, ans);
  }

  /** A user-initiated save logs no `retryMedia` call flagged as automated. */
  lemma UserSaveLogsNoAutomatedRetry(st: Coordinator, id: PostId, ans: Answers)
    requires Known(st, id)
    ensures forall m :: multiset(Save(st, id, false, ans).log)[MediaRetried(m, true)] ==
                        multiset(st.log)[MediaRetried(m, true)]
  {
    SaveLogsSelectedRetries(st, id, false, ans);
  }

  /** An automated retry covers the post exactly when the media service offers
      as many media as the post has, and retries each offered media as many
      times as it is offered. */
  lemma AutomatedSaveCoverage(st: Coordinator, id: PostId, ans: Answers)
    requires Known(st, id)
    ensures Push(st, id, true, ans).pushingAll <==> |ans.retryable| == |Target(st, id).media|
    ensures var es := RetryEvents(Push(st, id, true, ans).retried, true);
      forall m :: multiset(es)[MediaRetried(m, true)] == multiset(ans.retryable)[m]
    ensures forall m :: multiset(Save(st, id, true, ans).log)[MediaRetried(m, true)] ==
                        multiset(st.log)[MediaRetried(m, true)] + multiset(ans.retryable)[m]
  {
    RetryEventsCount(ans.retryable, true);
    SaveLogsSelectedRetries(st, id, true, ans);
  }

  /** Log entries that are neither subscriptions nor removals keep the
      registry invariant. */
  lemma NeutralPreservesInv(st: Coordinator, es: seq<Event>)
    requires Inv(st)
    requires forall i :: 0 <= i < |es| ==> Neutral(es[i])
    ensures Inv(st.(log := st.log + es))
  {
    LiveAppendNeutral(st.log, es);
  }

  /** A save keeps the registry invariant: one live subscription per tracked
      post, none untracked. */
  lemma SavePreservesInv(st: Coordinator, id: PostId, automated: bool, ans: Answers)
    requires Known(st, id)
    requires Inv(st)
    ensures Inv(Save(st, id, automated, ans))
  {
    var c := Canonical(st, id);
    var rec := Reconcile(st, id);
    if Folds(st.posts[id]) {
      NeutralPreservesInv(st, [RevisionMerged(id, c)]);
      assert rec == st.(posts := rec.posts).(log := st.log + [RevisionMerged(id, c)]);
    }
    assert Inv(rec);
    var push := Push(st, id, automated, ans);
    RetryEventsNeutral(push.retried, automated);
    NeutralPreservesInv(rec, RetryEvents(push.retried, automated));
    var retried := AfterRetries(st, id, automated, ans);
    assert Inv(retried);
    if !push.pushingAll {
      ChangePreservesInv(retried, c, RemoteStatus.Failed);
    } else {
      var pushing := Change(retried, c, Pushing);
      ChangePreservesInv(retried, c, Pushing);
      if ans.uploading || ans.failedMedia {
        var waiting := Change(pushing, c, PushingMedia);
        ChangePreservesInv(pushing, c, PushingMedia);
        if !IsObserving(waiting, c) {
          SubscribePreservesInv(waiting, c);
        }
      } else {
        NeutralPreservesInv(pushing, [Uploaded(c)]);
      }
    }
  }

  /** A save keeps every original reference in the store resolvable. */
  lemma SavePreservesClosed(st: Coordinator, id: PostId, automated: bool, ans: Answers)
    requires Known(st, id)
    requires Closed(st)
    ensures Closed(Save(st, id, automated, ans))
  {
  }

  // ---------------------------------------------------------------------
  // The observer added by a save

  /** A media of the post finished uploading and its remote URL is known:
      rewrite the content, then upload the post and drop the observer if
      nothing is uploading and nothing has failed any more. */
  function MediaEnded(st: Coordinator, c: PostId, m: Media, after: Answers, editor: Editor): (st': Coordinator)
    requires c in st.posts
  {
    var rewritten := st.(posts := st.posts[c := UpdateReferences(st.posts[c], m, editor)]);
    if !after.uploading && !after.failedMedia then Upload(RemoveObserver(rewritten, c), c)
    else rewritten
  }

  /** The media the rewrite sees: a video carries the URL the lookup resolved. */
  function Delivered(m: Media, lookup: VideoLookup): Media
  {
    if m.kind == Video && lookup.Resolved? then m.(remoteUrl := Some(lookup.url)) else m
  }

  /** The observer a save adds for post `c`, called with a media of the post
      and its new state. `lookup` is the outcome of the remote video URL fetch
      (used for videos only); `after` is what the media collaborators answer
      once the content has been rewritten. */
  function OnMediaEvent(st: Coordinator, c: PostId, m: Media, state: MediaState,
                        lookup: VideoLookup, after: Answers, editor: Editor): (st': Coordinator)
    requires c in st.posts
    ensures st'.posts.Keys == st.posts.Keys
    ensures forall q :: q in st.posts && q != c ==> st'.posts[q] == st.posts[q]
    ensures forall q :: q in st'.observers ==> q in st.observers && st'.observers[q] == st.observers[q]
    ensures st'.nextToken == st.nextToken
  {
    match state
    case Ended =>
      if m.kind == Video && lookup.LookupFailed? then Change(st, c, RemoteStatus.Failed)
      else MediaEnded(st, c, Delivered(m, lookup), after, editor)
    case Failed => Change(st, c, RemoteStatus.Failed)
    case _ => st
  }

  /** A failed media marks the post failed and keeps its observer, so a later
      success of another media can still be seen. */
  lemma MediaFailedKeepsObserver(st: Coordinator, c: PostId, m: Media, lookup: VideoLookup,
                                 after: Answers, editor: Editor)
    requires c in st.posts
    ensures var st' := OnMediaEvent(st, c, m, MediaState.Failed, lookup, after, editor);
      && st'.observers == st.observers
      && st'.log == st.log + Writes(st, c, MarkedFailed)
      && (Managed(st, c) ==> st'.posts[c].remoteStatus == RemoteStatus.Failed)
      && st'.posts[c].content == st.posts[c].content
  {
  }

  /** A video whose remote URL cannot be fetched marks the post failed; its
      content is not rewritten and the observer stays. */
  lemma VideoLookupFailureMarksFailed(st: Coordinator, c: PostId, m: Media, after: Answers, editor: Editor)
    requires c in st.posts
    requires m.kind == Video
    ensures var st' := OnMediaEvent(st, c, m, Ended, LookupFailed, after, editor);
      && st'.observers == st.observers
      && st'.log == st.log + Writes(st, c, MarkedFailed)
      && (Managed(st, c) ==> st'.posts[c].remoteStatus == RemoteStatus.Failed)
      && st'.posts[c].content == st.posts[c].content
  {
  }

  /** A finished media (with its video URL resolved) rewrites the content;
      then, when nothing is uploading and nothing has failed, the observer is
      dropped and the post uploaded once. */
  lemma MediaEndedUploadsWhenClear(st: Coordinator, c: PostId, m: Media, lookup: VideoLookup,
                                   after: Answers, editor: Editor)
    requires c in st.posts
    requires m.kind == Video ==> lookup.Resolved?
    requires !after.uploading && !after.failedMedia
    ensures var st' := OnMediaEvent(st, c, m, Ended, lookup, after, editor);
      && c !in st'.observers
      && (forall q :: q != c ==> (q in st'.observers <==> q in st.observers))
      && st'.posts[c] == UpdateReferences(st.posts[c], Delivered(m, lookup), editor)
      && st'.log == st.log + (if c in st.observers then [Unsubscribed(st.observers[c])] else []) + [Uploaded(c)]
  {
  }

  /** A finished media while others are still uploading, or some has failed,
      only rewrites the content: no upload, no observer change. */
  lemma MediaEndedWaitsOtherwise(st: Coordinator, c: PostId, m: Media, lookup: VideoLookup,
                                 after: Answers, editor: Editor)
    requires c in st.posts
    requires m.kind == Video ==> lookup.Resolved?
    requires after.uploading || after.failedMedia
    ensures var st' := OnMediaEvent(st, c, m, Ended, lookup, after, editor);
      && st'.observers == st.observers
      && st'.log == st.log
      && st'.posts[c] == UpdateReferences(st.posts[c], Delivered(m, lookup), editor)
  {
  }

  /** One media of a waiting post fails and a sibling later finishes while the
      failure is still reported: the post stays failed, keeps its observer and
      is not uploaded. */
  lemma {:induction false} FailedSiblingBlocksUpload(st: Coordinator, c: PostId, failed: Media, ended: Media,
                                                     lookup: VideoLookup, after: Answers, editor: Editor)
    requires c in st.posts && st.posts[c].managed && c in st.observers
    requires ended.kind == Video ==> lookup.Resolved?
    requires after.failedMedia
    ensures var st1 := OnMediaEvent(st, c, failed, MediaState.Failed, lookup, after, editor);
      var st2 := OnMediaEvent(st1, c, ended, Ended, lookup, after, editor);
      && st2.observers == st.observers
      && st2.posts[c].remoteStatus == RemoteStatus.Failed
      && st2.log == st.log + [StatusWritten(c, MarkedFailed)]
  {
    var st1 := OnMediaEvent(st, c, failed, MediaState.Failed, lookup, after, editor);
    MediaFailedKeepsObserver(st, c, failed, lookup, after, editor);
    MediaEndedWaitsOtherwise(st1, c, ended, lookup, after, editor);
  }

  /** The observer of a post stays until a finished media leaves nothing
      uploading and nothing failed: no other call of the observer drops it. */
  lemma ObserverDroppedOnlyOnSuccess(st: Coordinator, c: PostId, m: Media, state: MediaState,
                                     lookup: VideoLookup, after: Answers, editor: Editor)
    requires c in st.posts && c in st.observers
    ensures c !in OnMediaEvent(st, c, m, state, lookup, after, editor).observers <==>
            state == Ended && !(m.kind == Video && lookup.LookupFailed?) && !after.uploading && !after.failedMedia
  {
  }

  /** Progress and upload-start notifications change nothing. */
  lemma OtherStatesChangeNothing(st: Coordinator, c: PostId, m: Media, state: MediaState,
                                 lookup: VideoLookup, after: Answers, editor: Editor)
    requires c in st.posts
    requires state == MediaState.Uploading || state == Progress
    ensures OnMediaEvent(st, c, m, state, lookup, after, editor) == st
  {
  }

  /** Every observer call keeps the registry invariant. */
  lemma OnMediaEventPreservesInv(st: Coordinator, c: PostId, m: Media, state: MediaState,
                                 lookup: VideoLookup, after: Answers, editor: Editor)
    requires c in st.posts
    requires Inv(st)
    ensures Inv(OnMediaEvent(st, c, m, state, lookup, after, editor))
  {
    if state == MediaState.Failed || (state == Ended && m.kind == Video && lookup.LookupFailed?) {
      ChangePreservesInv(st, c, RemoteStatus.Failed);
    } else if state == Ended {
      var d := Delivered(m, lookup);
      var rewritten := st.(posts := st.posts[c := UpdateReferences(st.posts[c], d, editor)]);
      if !after.uploading && !after.failedMedia {
        RemovePreservesInv(rewritten, c);
        NeutralPreservesInv(RemoveObserver(rewritten, c), [Uploaded(c)]);
      }
    }
  }

  // ---------------------------------------------------------------------
  // Cancelling

  /** Stops waiting for the post's media: drops its observer, nothing more. */
  function CancelAnyPendingSave(st: Coordinator, p: PostId): (st': Coordinator)
    ensures p !in st'.observers
    ensures st'.posts == st.posts && st'.nextToken == st.nextToken
    ensures forall q :: q != p ==> (q in st'.observers <==> q in st.observers)
    ensures forall q :: q != p && q in st.observers ==> st'.observers[q] == st.observers[q]
  {
    RemoveObserver(st, p)
  }

  /** Cancelling leaves every post, status included, as it was; it only
      unsubscribes the observer the post had, and cancelling again does nothing. */
  lemma CancelOnlyDropsObserver(st: Coordinator, p: PostId)
    ensures var st' := CancelAnyPendingSave(st, p);
      && st'.posts == st.posts
      && st'.log == st.log + (if p in st.observers then [Unsubscribed(st.observers[p])] else [])
      && CancelAnyPendingSave(st', p) == st'
  {
  }
}

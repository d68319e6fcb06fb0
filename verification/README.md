# Post save orchestration of the WordPress iOS post coordinator

This project models the part of WordPress iOS's `PostCoordinator` that decides what happens when a post is saved:

- A local-only revision is folded into its original.
- The coordinator chooses which of the post's media to retry, and whether that choice covers all of them.
- The post's upload state (`remoteStatus`) moves through `failed`, `pushing` and `pushingMedia`.
- The post is either uploaded at once or waits on its media under a single media-completion observer.
- The observer reacts to media that end or fail.
- `cancelAnyPendingSaveOf` drops the observer.
- `resume()` saves again, as automated retries, the failed posts that are drafts with no remote copy.

The model is a functional state machine. A `Coordinator` value holds four things:

- the post store (`posts`, keyed by post identity);
- the observer map (post to observer receipt);
- the next receipt the media coordinator will hand out;
- a log of the calls the coordinator makes into its collaborators: media retries, status writes, observer subscriptions and removals, post uploads and revision merges.

Every operation is a pure function from one `Coordinator` to the next. The one exception is `Recovery.Resume`, a method whose loop visits the fetched posts in order.

The collaborators whose code is not part of this model are inputs:

- **`Answers`** holds three things: what `MediaService.failedMediaForUpload` offers for an automated retry, what `MediaCoordinator.isUploadingMedia` answers, and what `post.hasFailedMedia` answers. One `Answers` value is given per save, and one per observer call, for the re-check after the rewrite.
- **`VideoLookup`** is the outcome of `EditorMediaUtility.fetchRemoteVideoURL`.
- **`Editor`** holds what each content processor does to the text, and `URL(string:)` followed by `lastPathComponent`.
- **Resume's answers** come from a function from post to `Answers`, and the posts returned by `getFailedPosts` are a sequence of post identities.

The registry invariant `Model.Inv` ties the observer map to the log. The receipts in the map are exactly the subscriptions made and not yet removed. No receipt belongs to two posts, and every receipt ever subscribed was issued before `nextToken`. A live receipt is the one the map holds for the post that subscribed it. Every operation keeps this invariant. `Model.OneLiveSubscriptionPerPost` derives from it that each post has at most one live subscription. That a subscription is dropped only on success or on cancel is stated separately, by `PostCoordinator.ObserverDroppedOnlyOnSuccess`, `PostCoordinator.SaveKeepsObservers` and `PostCoordinator.CancelAnyPendingSave`.

Two points of the code shape the model:

- A post has two status fields. `status` is the publication status (draft, publish, …) that `resume()` reads. `remoteStatus` is the upload state that `change(post:status:)` writes. The model keeps them apart.
- `isObserving`, `addObserver` and `trackObserver` are separate calls. The model runs them in sequence, so no atomicity is claimed.

## Model

| member | source | states |
|---|---|---|
| MediaUpload.UploadMedia | WordPress/Classes/Services/PostCoordinator.swift:51-69 | A user-initiated save selects exactly the post's media whose remote status is failed and always reports full coverage. An automated retry selects what the media service offers, and it covers the post if and only if that is as many media as the post has. |
| MediaUpload.FailedMedia | WordPress/Classes/Services/PostCoordinator.swift:60 | A media is selected if and only if it belongs to the post and its upload failed. |
| MediaUpload.FailedMediaOnce | WordPress/Classes/Services/PostCoordinator.swift:60-66 | When the post lists each media once, every failed media is selected exactly once and no other media is selected. |
| MediaUpload.RetryEvents | WordPress/Classes/Services/PostCoordinator.swift:64-66 | One `retryMedia` entry per selected media, in order, each carrying the save's automated-retry flag. |
| MediaUpload.RetryEventsCount | WordPress/Classes/Services/PostCoordinator.swift:64-66 | Each selected media gets `retryMedia` as many times as it is selected, with the call's automated-retry flag. |
| PostCoordinator.UserSaveRetriesFailedMedia | WordPress/Classes/Services/PostCoordinator.swift:59-66 | A user-initiated save always covers all media, and retries each failed media of the (reconciled) post exactly once. This count also holds over the log `Save` produces: the save adds exactly one `retryMedia` entry per failed media and none for any other media. |
| PostCoordinator.UserSaveLogsNoAutomatedRetry | WordPress/Classes/Services/PostCoordinator.swift:59-66 | A user-initiated save adds no `retryMedia` entry flagged as automated to the log. |
| PostCoordinator.AutomatedSaveCoverage | WordPress/Classes/Services/PostCoordinator.swift:56-66 | An automated save covers the post if and only if the number of offered media equals the post's media count. Each offered media is retried once per time it is offered. This holds both in the selection and in the log `Save` produces. |
| PostCoordinator.Reconcile | WordPress/Classes/Services/PostCoordinator.swift:79-85 | A revision with no remote copy and with an original is folded in: the save then acts on the original, which takes the revision's content, and the merge is logged. Any other post is used unchanged, and the state is untouched. |
| PostCoordinator.Save | WordPress/Classes/Services/PostCoordinator.swift:78-140 | A save keeps every post's original reference and remote-existence flag. In this model it also keeps the set of posts and every publication status; see the Left-out line for Save. |
| PostCoordinator.Decide | WordPress/Classes/Services/PostCoordinator.swift:87-139 | After the retries, only the decided-on post changes, and only its upload state. |
| PostCoordinator.SaveIncompleteMarksFailed | WordPress/Classes/Services/PostCoordinator.swift:87-90 | Incomplete coverage can only come from an automated retry whose count differs. After the retries, the only call is the delegated mark-as-failed write. There is no `pushing` write, no observer and no upload. |
| PostCoordinator.SaveUploadsAtOnce | WordPress/Classes/Services/PostCoordinator.swift:92-139 | With full coverage, nothing uploading and nothing failed, the post gets one `pushing` write and then exactly one upload. There is no `pushingMedia` write and the observers are unchanged. |
| PostCoordinator.SaveWaitsForMedia | WordPress/Classes/Services/PostCoordinator.swift:92-136 | With media uploading or failed, the post gets `pushing` then `pushingMedia` and is not uploaded. If an observer is already tracked, nothing is added. Otherwise exactly one subscription is made and its fresh receipt is tracked for the post. |
| PostCoordinator.SaveKeepsObservers | WordPress/Classes/Services/PostCoordinator.swift:94-135 | Whatever the answers, a save never drops or replaces a tracked observer. The only observer it can add is the canonical post's. |
| PostCoordinator.SaveKeepsCanonical | WordPress/Classes/Services/PostCoordinator.swift:79-86 | A save does not change whether any known post folds, nor the original it folds into. |
| PostCoordinator.RepeatedSaveSubscribesOnce | WordPress/Classes/Services/PostCoordinator.swift:79-135 | The first save waits on media. A second save then leaves the observer map and the receipt counter as they were and keeps the registry invariant. The second save may be of the same post or of another post with the same canonical post, such as a local revision and then its original. |
| PostCoordinator.SaveActsOnCanonical | WordPress/Classes/Services/PostCoordinator.swift:79-139 | Every later status write, subscription and upload names the canonical post, which is the original for a folded revision. No other post changes. |
| PostCoordinator.SavePreservesInv | WordPress/Classes/Services/PostCoordinator.swift:94-135 | A save keeps the registry invariant: each tracked post has one live subscription, and no subscription is left untracked. |
| PostCoordinator.SavePreservesClosed | WordPress/Classes/Services/PostCoordinator.swift:79-85 | Every original reference in the store still resolves after a save. |
| Status.ChangeSetsUploading | WordPress/Classes/Services/PostCoordinator.swift:146-148 | After a write to a post with a context, `isUploading` reads true exactly when the write was `pushing`. Without a context, the post reads as it did. |
| PostCoordinator.IsUploadingAfterSave | WordPress/Classes/Services/PostCoordinator.swift:146-148 | Consider a post with a context, right after a save. `isUploading` is true if and only if the post was handed to upload at once. A post waiting on media does not read as uploading. |
| PostCoordinator.Upload | WordPress/Classes/Services/PostCoordinator.swift:207-221 | Uploading logs one upload of the post and changes nothing else the coordinator keeps. |
| PostCoordinator.OnMediaEvent | WordPress/Classes/Services/PostCoordinator.swift:101-134 | The observer changes no post other than the one it was added for. It never adds or replaces an observer entry, and issues no new receipt. |
| PostCoordinator.MediaFailedKeepsObserver | WordPress/Classes/Services/PostCoordinator.swift:129-130 | A failed media marks the post failed through the delegated write. The observer entry and the content stay. |
| PostCoordinator.VideoLookupFailureMarksFailed | WordPress/Classes/Services/PostCoordinator.swift:115-120 | A finished video whose remote URL cannot be fetched marks the post failed: with a context, its upload state becomes `failed`. The content is not rewritten and the observer stays. |
| PostCoordinator.MediaEndedUploadsWhenClear | WordPress/Classes/Services/PostCoordinator.swift:106-128 | A finished media first has its references rewritten, with the fetched URL for a video. If nothing is then uploading and nothing has failed, the observer is removed, with its one unsubscribe, and the post is uploaded exactly once. |
| PostCoordinator.MediaEndedWaitsOtherwise | WordPress/Classes/Services/PostCoordinator.swift:106-128 | If media are still uploading or some media failed, a finished media only rewrites content. There is no upload and the observers stay the same. |
| PostCoordinator.FailedSiblingBlocksUpload | WordPress/Classes/Services/PostCoordinator.swift:106-130 | A waiting post has one media fail and then another finish while the failure is still reported. The post stays failed and keeps its observer. It is never uploaded: the only logged write is the failure mark. |
| PostCoordinator.ObserverDroppedOnlyOnSuccess | WordPress/Classes/Services/PostCoordinator.swift:105-133 | This covers the `successHandler` closure (lines 107-114). For an observed post, an observer call drops the entry if and only if a media finished, any video URL was fetched, and nothing is uploading or failed. A failure, a failed video lookup or any other state keeps the entry. |
| PostCoordinator.OtherStatesChangeNothing | WordPress/Classes/Services/PostCoordinator.swift:131-132 | Upload-start and progress notifications leave the state unchanged. |
| PostCoordinator.OnMediaEventPreservesInv | WordPress/Classes/Services/PostCoordinator.swift:105-133 | Every observer call keeps the registry invariant. |
| PostCoordinator.CancelAnyPendingSave | WordPress/Classes/Services/PostCoordinator.swift:142-144 | Cancelling removes the post's observer and leaves every post and every other observer as it was. |
| PostCoordinator.CancelOnlyDropsObserver | WordPress/Classes/Services/PostCoordinator.swift:142-144 | Cancelling writes no status. It unsubscribes only the observer the post had, and cancelling again changes nothing. |
| Observers.AddObserver | WordPress/Classes/Services/PostCoordinator.swift:101-134 | The media coordinator hands out a receipt greater than any live one, so it is not in the observer map, and logs one subscription for the post. |
| Observers.TrackObserver | WordPress/Classes/Services/PostCoordinator.swift:254-258 | Records the receipt for the post and leaves every other post's entry as it was. |
| Observers.RemoveObserver | WordPress/Classes/Services/PostCoordinator.swift:260-270 | Deletes the post's entry. It unsubscribes that receipt if and only if an entry existed, and otherwise changes nothing. |
| Observers.RemoveObserverIdempotent | WordPress/Classes/Services/PostCoordinator.swift:260-270 | A second removal is a no-op. Removal adds one unsubscribe exactly when the post was observed. |
| Model.OneLiveSubscriptionPerPost | WordPress/Classes/Services/PostCoordinator.swift:94-135 | Under the registry invariant, any two live subscriptions made for the same post carry the same receipt. So a post is never observed twice, which is what the `isObserving` guard before `addObserver` is for. |
| Observers.SubscribePreservesInv | WordPress/Classes/Services/PostCoordinator.swift:97-135 | Subscribing for an unobserved post and tracking the receipt keeps the registry invariant. |
| Observers.ObservingFollowsTrackAndRemove | WordPress/Classes/Services/PostCoordinator.swift:253-278 | `isObserving` is true after `trackObserver` and false after `removeObserver` for that post. For every other post it is unchanged by either call. |
| Observers.RemovePreservesInv | WordPress/Classes/Services/PostCoordinator.swift:260-270 | The receipt dropped from the map is exactly the subscription dropped at the media coordinator, so the registry invariant holds. |
| Status.Change | WordPress/Classes/Services/PostCoordinator.swift:280-293 | A post without a context is left alone. Otherwise `failed` is delegated to mark-as-failed and any other state is assigned directly. Only that post's upload state changes. |
| Status.ChangePreservesInv | WordPress/Classes/Services/PostCoordinator.swift:280-293 | Status writes do not touch the observer registry. |
| References.Processors | WordPress/Classes/Services/PostCoordinator.swift:235-249 | Images get the classic-editor image processor and then the block-editor one, and videos the same with video processors. Each processor is built from the media's own ids, server id and remote URL. A document gets one processor, titled by the URL's last path component, if and only if the URL parses. |
| References.UpdateReferences | WordPress/Classes/Services/PostCoordinator.swift:223-252 | Only the content can change. It is left as it was when the post has no content, or the media has no server id, no remote URL, or a failed status. Otherwise it is the kind's processors applied in order. |
| References.UnparsableDocumentKeepsContent | WordPress/Classes/Services/PostCoordinator.swift:245-251 | A document whose remote URL does not parse leaves the post as it was. |
| Recovery.Retryable | WordPress/Classes/Services/PostCoordinator.swift:303-308 | A fetched post is chosen if and only if it is a draft with no remote copy. |
| Recovery.SaveAll | WordPress/Classes/Services/PostCoordinator.swift:303-308 | Saving a list of posts one after another as automated retries keeps the store closed and its set of posts. Every post keeps its publication status and remote-copy flag (see the Left-out line for `Recovery.ResumeKeepsPublicationState`). |
| Recovery.Resume | WordPress/Classes/Services/PostCoordinator.swift:297-311 | Visiting the fetched posts in order, resume saves as automated retries exactly the drafts with no remote copy, in fetch order, and no other post. |
| Recovery.ResumeKeepsPublicationState | WordPress/Classes/Services/PostCoordinator.swift:303-307 | In this model, the retries leave every post's draft and remote-copy flags unchanged. So which posts qualify does not depend on the order they are saved in. See the Left-out line for this member. |
| Recovery.SaveAllPreservesInv | WordPress/Classes/Services/PostCoordinator.swift:303-308 | A round of retries keeps the registry invariant. |

## Left out

- `posts(for:wichTitleContains:)` and `titleOfPost(withPermaLink:in:)`: these build Core Data fetch requests and predicates, and contain no orchestration logic.
- `refreshPostStatus` and `init`: these only delegate to, and wire up, the post service, context manager and media coordinator.
- The upload itself: `PostService.uploadPost`, search indexing and the success or failure notice are all reduced to one "uploaded" log entry.
- The content processors (image, block-editor image, video, block-editor video, document) are not part of this model. What each one does to the text is an input, so no property of the rewritten text is stated.
- `MediaService.failedMediaForUpload`, `MediaCoordinator.isUploadingMedia`, `post.hasFailedMedia`, `EditorMediaUtility.fetchRemoteVideoURL` and `URL(string:)`/`lastPathComponent` are not part of this model. Their answers are inputs. Resume's answers are a function of the post, so two saves of the same post in one resume get the same answers.
- `retryMedia` is logged as a call. The change it makes to media upload states is not modelled; only the media layer advances those.
- Status.Change: `markAsFailedAndDraftIfNeeded` belongs to the post service and is not part of this model. It is logged as a delegated write that leaves the upload state `failed`. The demotion to draft it may apply is not modelled.
- PostCoordinator.Reconcile: `applyRevision` and `deleteRevision` belong to the post and are not part of this model. Applying is modelled as the original taking the revision's content; any other fields it may copy are not modelled. Deleting is logged as a merge; the revision object stays in the store.
- PostCoordinator.Save: its frame holds only because two effects are not modelled. The revision that `deleteRevision` removes (line 84) stays in the store, so the set of posts never changes. The move to draft that `markAsFailedAndDraftIfNeeded` may make (line 286) is dropped, so publication status never changes.
- Recovery.ResumeKeepsPublicationState: true only because the move to draft on failure is dropped. With that move, a failed save of a local revision could move its original to draft. If the original comes later in the fetched list, it would then qualify. `Recovery.Resume` reads the filter on the initial state, which is why its `retried == Retryable(st, fetched)` relies on this lemma.
- PostCoordinator.OnMediaEvent: the fetched video URL is given to the rewrite as the media's remote URL. Writing it back onto the stored media object is not modelled.
- MediaUpload.FailedMediaOnce: `post.media` is a set in the app and a sequence (its enumeration) here, so this lemma and PostCoordinator.UserSaveRetriesFailedMedia assume each media is listed once.
- Concurrency is not modelled: the serial-queue locking of the observer map, the asynchronous `context.perform` status writes (taken as immediate and in order), the weak captures, and the non-atomic check-then-track between `isObserving` and `trackObserver`.
- Core Data object identity and lifetime: a post is an entry of the store. Operations require the post they are given, and the original it refers to, to be in the store, since a Swift reference always denotes an object.

/** The entities the post coordinator reads and writes: posts, their media,
    the coordinator's observer map and the log of the calls it makes into its
    collaborators (media retries, status writes, subscriptions, uploads). */
module Model {

  datatype Option<+T> = None | Some(value: T)

  /** Identity of a post object in the persistent store. */
  type PostId = nat

  /** Receipt handed out by the media coordinator when an observer is added
      (a UUID in the app; a fresh number here). */
  type Token = nat

  /** The kinds of media the content rewrite tells apart. `Document` stands for
      every media type other than image and video: the rewrite and the
      observer treat all of those alike. */
  datatype MediaKind = Image | Video | Document

  /** Upload state of a media object. Only the media layer advances it; the
      coordinator reads it. */
  datatype MediaStatus = Local | Uploading | Failed | Synced

  /** A media object attached to a post, with the fields the coordinator reads. */
  datatype Media = Media(
    kind: MediaKind,
    remoteStatus: MediaStatus,
    serverId: Option<int>,           // mediaID assigned by the server
    remoteUrl: Option<string>,
    uploadId: string,                // correlation id of the classic editor
    gutenbergUploadId: int,          // correlation id of the block editor
    width: Option<int>,
    height: Option<int>,
    videoPressId: Option<string>,
    thumbnailLocalUrl: Option<string>)

  /** Publication status of a post; the coordinator only reads it. */
  datatype PostStatus = Draft | Pending | Publish | PublishPrivate | Scheduled | Trash

  /** Upload state of a post; this is the field `change(post:status:)` writes. */
  datatype RemoteStatus = Pushing | Failed | Local | Sync | PushingMedia

  /** A post object. `managed` says whether it still belongs to a managed
      object context: status writes to a post without one are dropped. */
  datatype Post = Post(
    status: PostStatus,
    remoteStatus: RemoteStatus,
    hasRemote: bool,
    isRevision: bool,
    original: Option<PostId>,
    managed: bool,
    content: Option<string>,
    media: seq<Media>)

  /** How a status write reached the post: assigned directly, or delegated to
      the post service's mark-as-failed routine. */
  datatype StatusWrite = Assigned(to: RemoteStatus) | MarkedFailed

  /** One observable call the coordinator makes. */
  datatype Event =
    | MediaRetried(media: Media, automated: bool)
    | StatusWritten(post: PostId, write: StatusWrite)
    | Subscribed(post: PostId, token: Token)
    | Unsubscribed(token: Token)
    | Uploaded(post: PostId)
    | RevisionMerged(revision: PostId, original: PostId)

  /** The coordinator and the part of the world it acts on. `observers` is the
      map from post to observer receipt; `nextToken` is the next receipt the
      media coordinator will hand out. */
  datatype Coordinator = Coordinator(
    posts: map<PostId, Post>,
    observers: map<PostId, Token>,
    nextToken: Token,
    log: seq<Event>)

  /** What the media collaborators answer during one save: the media the media
      service offers for an automated retry, whether the media coordinator is
      still uploading media of the post, and whether the post has failed media. */
  datatype Answers = Answers(retryable: seq<Media>, uploading: bool, failedMedia: bool)

  /** The post can be handed to the coordinator: it is in the store and so is
      the original it refers to, if any. */
  predicate Known(st: Coordinator, id: PostId)
  {
    id in st.posts &&
    (st.posts[id].original.Some? ==> st.posts[id].original.value in st.posts)
  }

  /** Every original reference in the store resolves. */
  predicate Closed(st: Coordinator)
  {
    forall p :: p in st.posts ==> Known(st, p)
  }

  /** Status writes to the post take effect. */
  predicate Managed(st: Coordinator, id: PostId)
  {
    id in st.posts && st.posts[id].managed
  }

  /** Effect of one logged call on the set of live subscriptions. */
  function Step(live: set<Token>, e: Event): set<Token>
  {
    match e
    case Subscribed(_, t) => live + {t}
    case Unsubscribed(t) => live - {t}
    case _ => live
  }

  /** Subscriptions made and not yet dropped, replaying the log. */
  function Live(log: seq<Event>): set<Token>
    decreases |log|
  {
    if log == [] then {} else Step(Live(log[..|log| - 1]), log[|log| - 1])
  }

  /** The event neither adds nor drops a subscription. */
  predicate Neutral(e: Event)
  {
    !e.Subscribed? && !e.Unsubscribed?
  }

  predicate Injective(m: map<PostId, Token>)
  {
    forall p, q :: p in m && q in m && p != q ==> m[p] != m[q]
  }

  /** The registry invariant: the observer map holds exactly the live
      subscriptions, one receipt per post and no receipt for two posts; every
      receipt ever subscribed was issued before `nextToken`; and a live
      receipt is the one the map holds for the post that subscribed it. */
  predicate Inv(st: Coordinator)
  {
    && Live(st.log) == st.observers.Values
    && Injective(st.observers)
    && (forall t :: t in Live(st.log) ==> t < st.nextToken)
    && (forall i :: 0 <= i < |st.log| && st.log[i].Subscribed? ==> st.log[i].token < st.nextToken)
    && (forall i :: 0 <= i < |st.log| && st.log[i].Subscribed? && st.log[i].token in Live(st.log) ==>
          st.log[i].post in st.observers && st.observers[st.log[i].post] == st.log[i].token)
  }

  /** Under the registry invariant a post has at most one live subscription:
      two live subscriptions made for the same post carry the same receipt. */
  lemma OneLiveSubscriptionPerPost(st: Coordinator, i: nat, j: nat)
    requires Inv(st)
    requires i < |st.log| && j < |st.log| && st.log[i].Subscribed? && st.log[j].Subscribed?
    requires st.log[i].post == st.log[j].post
    requires st.log[i].token in Live(st.log) && st.log[j].token in Live(st.log)
    ensures st.log[i].token == st.log[j].token
  {
  }

  lemma LiveAppend(log: seq<Event>, e: Event)
    ensures Live(log + [e]) == Step(Live(log), e)
  {
  }

  /** Appending calls that neither subscribe nor unsubscribe keeps the live set. */
  lemma {:induction false} LiveAppendNeutral(log: seq<Event>, es: seq<Event>)
    requires forall i :: 0 <= i < |es| ==> Neutral(es[i])
    ensures Live(log + es) == Live(log)
    decreases |es|
  {
    if es != [] {
      var init, last := es[..|es| - 1], es[|es| - 1];
      assert log + es == (log + init) + [last];
      assert Neutral(last);
      LiveAppend(log + init, last);
      assert forall i :: 0 <= i < |init| ==> init[i] == es[i];
      LiveAppendNeutral(log, init);
    } else {
      assert log + es == log;
    }
  }
}

/** Status writes on a post: `change(post:status:)` and `isUploading(post:)`. */
module Status {
  import opened Model

  /** The log entries a status write leaves: one, when the post has a context. */
  function Writes(st: Coordinator, id: PostId, w: StatusWrite): seq<Event>
  {
    if Managed(st, id) then [StatusWritten(id, w)] else []
  }

  /** The upload state a status write leaves on the post. Marking as failed is
      delegated to the post service, which records the failure. */
  function Effect(w: StatusWrite): RemoteStatus
  {
    match w
    case Assigned(s) => s
    case MarkedFailed => RemoteStatus.Failed
  }

  /** Sets the post's upload state. A post without a context is left alone;
      `failed` is never assigned directly but handed to the post service. */
  function Change(st: Coordinator, id: PostId, s: RemoteStatus): (st': Coordinator)
    ensures var w := if s == RemoteStatus.Failed then MarkedFailed else Assigned(s);
            st'.log == st.log + Writes(st, id, w)
    ensures st'.posts.Keys == st.posts.Keys
    ensures Managed(st, id) ==> st'.posts[id].remoteStatus == s
    ensures !Managed(st, id) ==> st' == st
    ensures forall q :: q in st.posts && q != id ==> st'.posts[q] == st.posts[q]
    ensures id in st.posts ==> st'.posts[id] == st.posts[id].(remoteStatus := st'.posts[id].remoteStatus)
    ensures st'.observers == st.observers && st'.nextToken == st.nextToken
  {
    if !Managed(st, id) then st
    else
      var w := if s == RemoteStatus.Failed then MarkedFailed else Assigned(s);
      st.(posts := st.posts[id := st.posts[id].(remoteStatus := Effect(w))],
          log := st.log + [StatusWritten(id, w)])
  }

  /** A post counts as uploading exactly while its upload state is `pushing`. */
  function IsUploading(p: Post): bool
  {
    p.remoteStatus == Pushing
  }

  /** After a write to a post with a context, the post reads as uploading
      exactly when the write was `pushing`; without a context it reads as before. */
  lemma ChangeSetsUploading(st: Coordinator, id: PostId, s: RemoteStatus)
    requires id in st.posts
    ensures Managed(st, id) ==> (IsUploading(Change(st, id, s).posts[id]) <==> s == Pushing)
    ensures !Managed(st, id) ==> IsUploading(Change(st, id, s).posts[id]) == IsUploading(st.posts[id])
  {
  }

  /** Any number of status writes keep the registry invariant. */
  lemma ChangePreservesInv(st: Coordinator, id: PostId, s: RemoteStatus)
    requires Inv(st)
    ensures Inv(Change(st, id, s))
  {
  }
}

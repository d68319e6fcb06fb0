/** Recovery after the app was killed mid-upload: `resume()` saves again, as
    automated retries, the failed posts that are drafts without a remote copy. */
module Recovery {
  import opened Model
  import opened PostCoordinator

  /** A fetched failed post is saved again when it is a draft that does not
      exist remotely. */
  predicate ShouldRetry(p: Post)
  {
    p.status == Draft && !p.hasRemote
  }

  predicate AllKnown(st: Coordinator, ids: seq<PostId>)
  {
    forall i :: 0 <= i < |ids| ==> ids[i] in st.posts
  }

  /** The fetched posts that qualify, in fetch order. */
  function Retryable(st: Coordinator, fetched: seq<PostId>): (r: seq<PostId>)
    requires AllKnown(st, fetched)
    ensures forall p :: p in r <==> p in fetched && ShouldRetry(st.posts[p])
    ensures |r| <= |fetched| && AllKnown(st, r)
    decreases |fetched|
  {
    if fetched == [] then []
    else
      var init, last := fetched[..|fetched| - 1], fetched[|fetched| - 1];
      assert forall p :: p in fetched <==> p in init || p == last;
      Retryable(st, init) + (if ShouldRetry(st.posts[last]) then [last] else [])
  }

  /** Saves the posts one after another as automated retries; `ask` gives what
      the media collaborators answer for each post. */
  function SaveAll(st: Coordinator, ids: seq<PostId>, ask: PostId -> Answers): (st': Coordinator)
    requires Closed(st) && AllKnown(st, ids)
    ensures Closed(st') && st'.posts.Keys == st.posts.Keys
    ensures forall q :: q in st.posts ==>
      st'.posts[q].status == st.posts[q].status && st'.posts[q].hasRemote == st.posts[q].hasRemote
    decreases |ids|
  {
    if ids == [] then st
    else
      var before := SaveAll(st, ids[..|ids| - 1], ask);
      var last := ids[|ids| - 1];
      SavePreservesClosed(before, last, true, ask(last));
      Save(before, last, true, ask(last))
  }

  lemma RetryableSnoc(st: Coordinator, fetched: seq<PostId>, id: PostId)
    requires AllKnown(st, fetched) && id in st.posts
    ensures AllKnown(st, fetched + [id])
    ensures Retryable(st, fetched + [id]) ==
            Retryable(st, fetched) + (if ShouldRetry(st.posts[id]) then [id] else [])
  {
  }

  lemma SaveAllSnoc(st: Coordinator, ids: seq<PostId>, id: PostId, ask: PostId -> Answers)
    requires Closed(st) && AllKnown(st, ids) && id in st.posts
    ensures AllKnown(st, ids + [id])
    ensures Known(SaveAll(st, ids, ask), id)
    ensures SaveAll(st, ids + [id], ask) == Save(SaveAll(st, ids, ask), id, true, ask(id))
  {
  }

  /** Saving one more post after a round of retries: the post is still in
      the store with the same publication state, and saving it extends the round. */
  lemma ResumeStep(st: Coordinator, retried: seq<PostId>, id: PostId, ask: PostId -> Answers)
    requires Closed(st) && AllKnown(st, retried) && id in st.posts
    ensures id in SaveAll(st, retried, ask).posts
    ensures ShouldRetry(SaveAll(st, retried, ask).posts[id]) <==> ShouldRetry(st.posts[id])
    ensures Known(SaveAll(st, retried, ask), id) && AllKnown(st, retried + [id])
    ensures Save(SaveAll(st, retried, ask), id, true, ask(id)) == SaveAll(st, retried + [id], ask)
  {
    SaveAllSnoc(st, retried, id, ask);
  }

  lemma RetryableStep(st: Coordinator, fetched: seq<PostId>, i: nat)
    requires AllKnown(st, fetched) && i < |fetched|
    ensures AllKnown(st, fetched[..i]) && AllKnown(st, fetched[..i + 1])
    ensures Retryable(st, fetched[..i + 1]) ==
            Retryable(st, fetched[..i]) + (if ShouldRetry(st.posts[fetched[i]]) then [fetched[i]] else [])
  {
    assert fetched[..i + 1] == fetched[..i] + [fetched[i]];
    RetryableSnoc(st, fetched[..i], fetched[i]);
  }

  /** Visits the fetched posts in order and saves, as an automated retry,
      exactly those that are drafts without a remote copy. */
  method Resume(st: Coordinator, fetched: seq<PostId>, ask: PostId -> Answers)
      returns (st': Coordinator, retried: seq<PostId>)
    requires Closed(st) && AllKnown(st, fetched)
    ensures forall p :: p in retried <==> p in fetched && ShouldRetry(st.posts[p])
    ensures retried == Retryable(st, fetched)
    ensures st' == SaveAll(st, retried, ask)
  {
    st', retried := st, [];
    var i := 0;
    while i < |fetched|
      invariant 0 <= i <= |fetched|
      invariant AllKnown(st, retried)
      invariant retried == Retryable(st, fetched[..i])
      invariant st' == SaveAll(st, retried, ask)
    {
      var id := fetched[i];
      RetryableStep(st, fetched, i);
      ResumeStep(st, retried, id, ask);
      if st'.posts[id].status == Draft && !st'.posts[id].hasRemote {
        st', retried := Save(st', id, true, ask(id)), retried + [id];
      }
      i := i + 1;
    }
    assert fetched[..i] == fetched;
  }

  /** The store keeps its posts and their drafts-and-remote flags through a
      round of retries, so the choice of posts does not depend on the order
      in which they are saved. */
  lemma ResumeKeepsPublicationState(st: Coordinator, ids: seq<PostId>, ask: PostId -> Answers)
    requires Closed(st) && AllKnown(st, ids)
    ensures var st' := SaveAll(st, ids, ask);
      forall q :: q in st.posts ==> (ShouldRetry(st'.posts[q]) <==> ShouldRetry(st.posts[q]))
  {
  }

  /** A round of retries keeps the registry invariant. */
  lemma {:induction false} SaveAllPreservesInv(st: Coordinator, ids: seq<PostId>, ask: PostId -> Answers)
    requires Closed(st) && AllKnown(st, ids)
    requires Inv(st)
    ensures Inv(SaveAll(st, ids, ask))
    decreases |ids|
  {
    if ids != [] {
      var init := ids[..|ids| - 1];
      SaveAllPreservesInv(st, init, ask);
      SavePreservesInv(SaveAll(st, init, ask), ids[|ids| - 1], true, ask(ids[|ids| - 1]));
    }
  }
}

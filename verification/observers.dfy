/** The observer registry: the coordinator's map from post to the receipt of
    the media-completion observer it added for that post. */
module Observers {
  import opened Model

  /** Whether an observer is tracked for the post. */
  function IsObserving(st: Coordinator, p: PostId): bool
  {
    p in st.observers
  }

  /** The media coordinator adds an observer for the post's media and hands
      back a receipt it has never handed out before. */
  function AddObserver(st: Coordinator, p: PostId): (st': Coordinator)
    ensures st'.nextToken > st.nextToken
    ensures st'.log == st.log + [Subscribed(p, st.nextToken)]
    ensures Inv(st) ==> st.nextToken !in st.observers.Values
    ensures st'.posts == st.posts && st'.observers == st.observers
  {
    st.(nextToken := st.nextToken + 1, log := st.log + [Subscribed(p, st.nextToken)])
  }

  /** Records the receipt of the observer added for the post. */
  function TrackObserver(st: Coordinator, p: PostId, t: Token): (st': Coordinator)
    ensures p in st'.observers && st'.observers[p] == t
    ensures forall q :: q != p ==> (q in st'.observers <==> q in st.observers)
    ensures forall q :: q != p && q in st.observers ==> st'.observers[q] == st.observers[q]
    ensures st'.posts == st.posts && st'.log == st.log && st'.nextToken == st.nextToken
  {
    st.(observers := st.observers[p := t])
  }

  /** Drops the post's entry and, only when there was one, tells the media
      coordinator to remove that observer. */
  function RemoveObserver(st: Coordinator, p: PostId): (st': Coordinator)
    ensures p !in st'.observers
    ensures forall q :: q != p ==> (q in st'.observers <==> q in st.observers)
    ensures forall q :: q != p && q in st.observers ==> st'.observers[q] == st.observers[q]
    ensures p in st.observers ==> st'.log == st.log + [Unsubscribed(st.observers[p])]
    ensures p !in st.observers ==> st' == st
    ensures st'.posts == st.posts && st'.nextToken == st.nextToken
  {
    if p in st.observers then
      st.(observers := st.observers - {p}, log := st.log + [Unsubscribed(st.observers[p])])
    else st
  }

  /** Tracking a receipt makes the post observed; removing makes it
      unobserved and leaves whether any other post is observed unchanged. */
  lemma ObservingFollowsTrackAndRemove(st: Coordinator, p: PostId, t: Token)
    ensures IsObserving(TrackObserver(st, p, t), p)
    ensures !IsObserving(RemoveObserver(st, p), p)
    ensures forall q :: q != p ==>
      IsObserving(TrackObserver(st, p, t), q) == IsObserving(st, q) &&
      IsObserving(RemoveObserver(st, p), q) == IsObserving(st, q)
  {
  }

  /** Removing twice is the same as removing once: the second call neither
      changes the map nor unsubscribes anything. */
  lemma RemoveObserverIdempotent(st: Coordinator, p: PostId)
    ensures RemoveObserver(RemoveObserver(st, p), p) == RemoveObserver(st, p)
    ensures |RemoveObserver(st, p).log| == |st.log| + (if p in st.observers then 1 else 0)
  {
  }

  /** Adding an observer for an unobserved post and tracking its receipt
      keeps the registry invariant. */
  lemma SubscribePreservesInv(st: Coordinator, p: PostId)
    requires Inv(st)
    requires p !in st.observers
    ensures Inv(TrackObserver(AddObserver(st, p), p, st.nextToken))
  {
  }

  /** Removing an observer keeps the registry invariant: the receipt dropped
      from the map is exactly the subscription dropped at the media
      coordinator. */
  lemma RemovePreservesInv(st: Coordinator, p: PostId)
    requires Inv(st)
    ensures Inv(RemoveObserver(st, p))
  {
  }
}

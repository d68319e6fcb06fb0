/** Choosing which of a post's media to retry before saving it:
    `uploadMedia(for:automatedRetry:)`. */
module MediaUpload {
  import opened Model

  predicate Distinct<T(==)>(s: seq<T>)
  {
    forall i, j :: 0 <= i < j < |s| ==> s[i] != s[j]
  }

  /** The media whose upload failed, in the order the post lists them. */
  function FailedMedia(media: seq<Media>): (r: seq<Media>)
    ensures forall m :: m in r <==> m in media && m.remoteStatus == MediaStatus.Failed
    ensures |r| <= |media|
  {
    if media == [] then []
    else (if media[0].remoteStatus == MediaStatus.Failed then [media[0]] else []) + FailedMedia(media[1..])
  }

  /** The media a save retries, and whether that covers all of the post's media. */
  datatype MediaPush = MediaPush(retried: seq<Media>, pushingAll: bool)

  /** A user-initiated save retries the post's failed media and always counts
      as covering everything; an automated retry takes what the media service
      offers and covers everything only if that is as many media as the post has. */
  function UploadMedia(post: Post, automated: bool, retryable: seq<Media>): (r: MediaPush)
    ensures !automated ==> r.pushingAll
    ensures !automated ==> forall m :: m in r.retried <==> m in post.media && m.remoteStatus == MediaStatus.Failed
    ensures automated ==> r.retried == retryable
    ensures automated ==> (r.pushingAll <==> |retryable| == |post.media|)
  {
    if automated then MediaPush(retryable, |retryable| == |post.media|)
    else MediaPush(FailedMedia(post.media), true)
  }

  /** One `retryMedia` call per selected media, in selection order. */
  function RetryEvents(media: seq<Media>, automated: bool): (es: seq<Event>)
    ensures |es| == |media|
    ensures forall i :: 0 <= i < |es| ==> es[i].MediaRetried? && es[i].automated == automated
    ensures forall i :: 0 <= i < |es| ==> es[i] == MediaRetried(media[i], automated)
  {
    if media == [] then [] else [MediaRetried(media[0], automated)] + RetryEvents(media[1..], automated)
  }

  /** With the post's media listed once each, every failed media is selected
      exactly once and no other media is selected. */
  lemma {:induction false} FailedMediaOnce(media: seq<Media>)
    requires Distinct(media)
    ensures forall m :: multiset(FailedMedia(media))[m] ==
                        (if m in media && m.remoteStatus == MediaStatus.Failed then 1 else 0)
    decreases |media|
  {
    if media != [] {
      var h, t := media[0], media[1..];
      assert Distinct(t) by {
        forall i, j | 0 <= i < j < |t| ensures t[i] != t[j] {
          assert t[i] == media[i + 1] && t[j] == media[j + 1];
        }
      }
      assert h !in t by {
        forall i | 0 <= i < |t| ensures t[i] != h {
          assert t[i] == media[i + 1];
        }
      }
      FailedMediaOnce(t);
      assert media == [h] + t;
      forall m
        ensures multiset(FailedMedia(media))[m] ==
                (if m in media && m.remoteStatus == MediaStatus.Failed then 1 else 0)
      {
        assert m in media <==> m == h || m in t;
      }
    }
  }

  /** Each selected media is retried as many times as it is selected. */
  lemma {:induction false} RetryEventsCount(sel: seq<Media>, automated: bool)
    ensures forall m :: multiset(RetryEvents(sel, automated))[MediaRetried(m, automated)] == multiset(sel)[m]
    decreases |sel|
  {
    if sel != [] {
      RetryEventsCount(sel[1..], automated);
      assert sel == [sel[0]] + sel[1..];
    }
  }

  /** Retry calls neither add nor drop observers. */
  lemma RetryEventsNeutral(sel: seq<Media>, automated: bool)
    ensures forall i :: 0 <= i < |RetryEvents(sel, automated)| ==> Neutral(RetryEvents(sel, automated)[i])
  {
  }
}

/**
 * The home dashboard's derived values: the greeting for the hour, the unread
 * announcements and unwatched videos, how many of each list is shown, and
 * which home-store action a photo tap dispatches. The home store itself is
 * not part of this model; the hour of `new Date()` is a parameter.
 */
module HomeScreen {
  import opened Seqs

  datatype Announcement = Announcement(id: string, title: string, isRead: bool)
  datatype Video = Video(id: string, title: string, isWatched: bool)
  datatype Photo = Photo(id: string, isLiked: bool)

  /** `getGreeting` for an hour of the day. */
  function Greeting(hour: int): (g: string)
    ensures hour < 12 <==> g == "Good morning"
    ensures 12 <= hour < 18 <==> g == "Good afternoon"
    ensures hour >= 18 <==> g == "Good evening"
  {
    if hour < 12 then "Good morning"
    else if hour < 18 then "Good afternoon"
    else "Good evening"
  }

  function IsUnread(): Announcement -> bool {
    (a: Announcement) => !a.isRead
  }

  function IsUnwatched(): Video -> bool {
    (v: Video) => !v.isWatched
  }

  /** `announcements.filter(a => !a.isRead)`: exactly the unread ones, in order. */
  function UnreadAnnouncements(announcements: seq<Announcement>): (r: seq<Announcement>)
    ensures forall i :: 0 <= i < |r| ==> !r[i].isRead && r[i] in announcements
    ensures forall i :: 0 <= i < |announcements| && !announcements[i].isRead ==> announcements[i] in r
    ensures forall i :: 0 <= i < |announcements| ==>
      multiset(r)[announcements[i]] == if !announcements[i].isRead then multiset(announcements)[announcements[i]] else 0
    ensures IsSubsequence(r, announcements)
  {
    Filter(announcements, IsUnread())
  }

  /** `videos.filter(v => !v.isWatched)`: exactly the unwatched ones, in order. */
  function UnwatchedVideos(videos: seq<Video>): (r: seq<Video>)
    ensures forall i :: 0 <= i < |r| ==> !r[i].isWatched && r[i] in videos
    ensures forall i :: 0 <= i < |videos| && !videos[i].isWatched ==> videos[i] in r
    ensures forall i :: 0 <= i < |videos| ==>
      multiset(r)[videos[i]] == if !videos[i].isWatched then multiset(videos)[videos[i]] else 0
    ensures IsSubsequence(r, videos)
  {
    Filter(videos, IsUnwatched())
  }

  /** The unread list is the whole list exactly when nothing has been read. */
  lemma AllUnreadIffNoneRead(announcements: seq<Announcement>)
    ensures |UnreadAnnouncements(announcements)| == |announcements|
            <==> forall i :: 0 <= i < |announcements| ==> !announcements[i].isRead
  {
    FilterKeepsAllIff(announcements, IsUnread());
  }

  /** The badge next to "Latest Updates" shows when something is unread. */
  predicate ShowUnreadBadge(announcements: seq<Announcement>) {
    |UnreadAnnouncements(announcements)| > 0
  }

  lemma BadgeIffSomethingUnread(announcements: seq<Announcement>)
    ensures ShowUnreadBadge(announcements) <==> exists i :: 0 <= i < |announcements| && !announcements[i].isRead
  {
    if i :| 0 <= i < |announcements| && !announcements[i].isRead {
      assert announcements[i] in UnreadAnnouncements(announcements);
    }
  }

  /** `s.slice(0, n)`: the first `n` elements, or all of a shorter list. */
  function FirstN<T>(s: seq<T>, n: nat): (r: seq<T>)
    ensures |r| == if |s| < n then |s| else n
    ensures r == s[..|r|]
  {
    if |s| < n then s else s[..n]
  }

  const AnnouncementsShown: nat := 3
  const PhotosShown: nat := 6

  /** The announcements listed on the dashboard: a prefix of at most three. */
  function ShownAnnouncements(announcements: seq<Announcement>): (r: seq<Announcement>)
    ensures |r| <= AnnouncementsShown && |r| <= |announcements| && r == announcements[..|r|]
    ensures |announcements| >= AnnouncementsShown ==> |r| == AnnouncementsShown
  {
    FirstN(announcements, AnnouncementsShown)
  }

  /** The photos in the gallery grid: a prefix of at most six. */
  function ShownPhotos(photos: seq<Photo>): (r: seq<Photo>)
    ensures |r| <= PhotosShown && |r| <= |photos| && r == photos[..|r|]
    ensures |photos| >= PhotosShown ==> |r| == PhotosShown
  {
    FirstN(photos, PhotosShown)
  }

  /** The two home-store actions a photo tap can dispatch. */
  datatype PhotoAction = LikePhoto(photoId: string) | UnlikePhoto(photoId: string)

  /** `handlePhotoLike`: unlike a liked photo, like any other. */
  function PhotoTap(photo: Photo): (a: PhotoAction)
    ensures a.photoId == photo.id
    ensures a.UnlikePhoto? <==> photo.isLiked
  {
    if photo.isLiked then UnlikePhoto(photo.id) else LikePhoto(photo.id)
  }
}

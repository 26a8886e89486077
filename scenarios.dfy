/** End-to-end flows proved from the operations' contracts alone: one
    category name used twice; a stranger's, the author's and an admin's
    update of a post; the author refused by the ownership check as written;
    a double like; a user's notification listing; a double approval; a
    subscription update that creates a duplicate; the view `findBySlug`
    counts on the wrong document. */
module Scenarios {
  import opened Common
  import opened Tables
  import Posts
  import Categories
  import Comments
  import Likes
  import Subscriptions
  import Notifications

  /** Two categories named "Tech News": the first gets slug "tech-news", the
      second is refused with Conflict. */
  method SameCategoryTwice(slugify: string -> string)
    returns (first: Outcome<(Id, Categories.Category)>, second: Outcome<(Id, Categories.Category)>)
    requires slugify("Tech News") == "tech-news"
    ensures first.Ok? && first.value.1.slug == "tech-news"
    ensures second == Conflict
  {
    var t := new Categories.CategoryTable();
    first := t.Create(Categories.CategoryDraft("Tech News", None), slugify);
    second := t.Create(Categories.CategoryDraft("Tech News", None), slugify);
    assert Categories.SlugOf(t.categories[first.value.0]) == "tech-news";
  }

  /** User 1 writes a post; user 2 may not update it, user 1 and an admin
      may. */
  method UpdateByStrangerOwnerAdmin()
    returns (byStranger: Outcome<Posts.Post>, byOwner: Outcome<Posts.Post>, byAdmin: Outcome<Posts.Post>)
    ensures byStranger == Forbidden
    ensures byOwner.Ok? && byOwner.value.title == "Edited"
    ensures byAdmin.Ok? && byAdmin.value.isPublished
  {
    var t := new Posts.PostTable();
    var author := Principal(1, User);
    var draft := Posts.PostDraft("Hello", Some("hello"), "Body", None, None, None, None);
    var created := t.HandleCreate(author, draft, s => s);
    var id := created.value.0;
    var noChange := Posts.PostPatch(None, None, None, None, None, None, None);
    byStranger := t.HandleUpdate(Principal(2, User), id, noChange.(title := Some("Taken")));
    byOwner := t.HandleUpdate(author, id, noChange.(title := Some("Edited")));
    byAdmin := t.HandleUpdate(Principal(9, Admin), id, noChange.(isPublished := Some(true)));
  }

  /** Liking a post twice: the second like is a Conflict and the post has
      one like. */
  method LikeTwice() returns (first: Outcome<(Id, Likes.Like)>, second: Outcome<(Id, Likes.Like)>, count: nat)
    ensures first.Ok? && second == Conflict && count == 1
  {
    var t := new Likes.LikeTable();
    var reader := Principal(1, User);
    first := t.HandleLike(reader, 5);
    second := t.HandleLike(reader, 5);
    count := t.CountLikes(5);
    assert Likes.LikersOf(t.likes, 5) == {first.value.0};
  }

  /** A non-admin listing notifications sees its own and not another
      user's. */
  method ListOwnNotifications()
    returns (mine: Outcome<(Id, Notifications.Notification)>, theirs: Outcome<(Id, Notifications.Notification)>,
             seen: seq<(Id, Notifications.Notification)>)
    ensures mine.Ok? && theirs.Ok?
    ensures mine.value in seen && theirs.value !in seen
    ensures forall k :: 0 <= k < |seen| ==> seen[k].1.userId == 1
  {
    var t := new Notifications.NotificationTable();
    mine := t.HandleCreate(Principal(1, User), Notifications.NotificationDraft(1, "for 1", None));
    theirs := t.HandleCreate(Principal(9, Admin), Notifications.NotificationDraft(2, "for 2", None));
    seen := t.HandleFindAll(Principal(1, User));
    assert t.notifications == map[mine.value.0 := mine.value.1, theirs.value.0 := theirs.value.1];
    forall k | 0 <= k < |seen|
      ensures seen[k].1.userId == 1
    {
      assert seen[k] in seen;
    }
  }

  /** Approving a comment twice succeeds both times and leaves it approved;
      a non-admin's request to start approved is turned into pending. */
  method ApproveTwice() returns (created: Outcome<(Id, Comments.Comment)>, once: Outcome<Comments.Comment>,
                                 twice: Outcome<Comments.Comment>)
    ensures created.Ok? && !created.value.1.isApproved
    ensures once.Ok? && once.value.isApproved && twice == once
  {
    var t := new Comments.CommentTable();
    created := t.HandleCreate(Principal(1, User), Comments.CommentDraft(5, None, "Nice", Some(true)));
    once := t.HandleApprove(Principal(9, Admin), created.value.0);
    twice := t.HandleApprove(Principal(9, Admin), created.value.0);
  }

  /** The subscriptions service checks for duplicates only on create: an
      update can make two subscriptions identical. */
  method UpdateMakesDuplicate() returns (first: Outcome<(Id, Subscriptions.Subscription)>,
                                         second: Outcome<(Id, Subscriptions.Subscription)>,
                                         updated: Outcome<Subscriptions.Subscription>, unique: bool)
    ensures first.Ok? && second.Ok? && updated.Ok?
    ensures !unique
  {
    var t := new Subscriptions.SubscriptionTable();
    var reader := Principal(1, User);
    first := t.HandleCreate(reader, Subscriptions.SubscriptionDraft(None, Some(2), Some(3)));
    assert t.subscriptions == map[first.value.0 := Subscriptions.Subscription(1, Some(2), Some(3))];
    second := t.HandleCreate(reader, Subscriptions.SubscriptionDraft(None, Some(4), Some(3)));
    assert second.value.0 != first.value.0;
    updated := t.HandleUpdate(reader, second.value.0, Subscriptions.SubscriptionPatch(None, Some(2), None));
    unique := Unique(t.subscriptions, Subscriptions.TupleOf);
    assert t.subscriptions[first.value.0] == t.subscriptions[second.value.0];
  }

  /** `findBySlug` as written, with author references read as ids: the only
      post (id 0, written by user 7) is found, yet the request fails with
      NotFound because no post has id 7, and its view count stays 0. The
      intended handler counts the view. */
  method FindBySlugCountsNoView()
    returns (asWritten: Outcome<Posts.Post>, viewsAfter: nat, intended: Outcome<Posts.Post>, viewsIntended: nat)
    ensures asWritten == NotFound && viewsAfter == 0
    ensures intended.Ok? && viewsIntended == 1
  {
    var t := new Posts.PostTable();
    var draft := Posts.PostDraft("Hello", Some("hello"), "Body", None, Some(7), None, Some(true));
    var created := t.Create(draft, s => s);
    var id := created.value.0;
    assert id == 0;
    asWritten := t.HandleFindBySlug("hello");
    viewsAfter := t.posts[id].viewsCount;
    intended := t.HandleFindBySlugIntended("hello");
    viewsIntended := t.posts[id].viewsCount;
  }

  /** The ownership check as written refuses the author of a post, where the
      intended check lets the author through. */
  method OwnerRefusedAsWritten() returns (asWritten: Outcome<Posts.Post>, intended: Outcome<Posts.Post>)
    ensures asWritten == Forbidden
    ensures intended.Ok? && intended.value.title == "Edited"
  {
    var t := new Posts.PostTable();
    var author := Principal(1, User);
    var draft := Posts.PostDraft("Hello", Some("hello"), "Body", None, None, None, None);
    var created := t.HandleCreate(author, draft, s => s);
    var edit := Posts.PostPatch(Some("Edited"), None, None, None, None, None, None);
    asWritten := t.HandleUpdateAsWritten(author, created.value.0, edit);
    intended := t.HandleUpdate(author, created.value.0, edit);
  }
}

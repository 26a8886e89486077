# Blog API core in Dafny

This project models the core of a NestJS/Mongoose blog back end. It covers six collections: posts, categories, comments, likes, subscriptions and notifications. Each collection is a class that owns a map from document id to record, plus the next id to hand out. The methods of that class are the operations of the collection's service. Methods named `Handle...` model the controller routes wrapped around the service. Those routes:

- stamp the authenticated caller onto payloads;
- apply the owner-or-admin gate;
- scope listings to the caller's role.

Every operation ends in one outcome (`Common.Outcome`):

- `Ok(value)`;
- `NotFound` (HTTP 404);
- `Conflict` (409);
- `Forbidden` (403);
- `Rejected`, meaning the database itself refused the write. That happens when a schema `required` validator fails on create, or when the unique index refuses an update.

Document ids are handed out in increasing order, so "newest first" (a sort on `createdAt: -1`) is modelled as "highest id first". The generic `Tables.Select` produces every filtered listing. Its lemmas say three things:

- a listing holds exactly the matching documents;
- it is in the stated order;
- its length is the number of matches.

Three unique indexes are modelled as class invariants (`Valid`), and every write is proved to preserve them:

- the slug indexes of posts and categories;
- the compound (userId, postId) index of likes.

The module `Scenarios` proves end-to-end flows from the operations' contracts alone:

- one category name used twice;
- a stranger's, the author's and an admin's update of a post;
- the author refused by the ownership check as written;
- a double like;
- a user's notification listing;
- a double approval;
- a subscription update that creates a duplicate;
- the view `findBySlug` counts on the wrong document.

The `slugify` library function is a parameter of the create methods and is left uninterpreted. An empty string counts as "not supplied" (JavaScript truthiness) wherever the source tests a field with `if (x)`.

## Model

| member | source | states |
|---|---|---|
| Common.OwnerOrAdminTable | src/posts/posts.controller.ts:66-69 | Intended ownership rule: an admin always passes; a user passes exactly when they own the document |
| Common.PopulatedGateRefusesOwners | src/posts/posts.controller.ts:66-69 | The ownership check as written, on a populated owner document, admits no one the intended rule refuses, and refuses every non-admin owner the intended rule admits |
| Tables.SelectMembers | src/posts/posts.service.ts:31-36 | A filtered listing contains a document exactly when it is stored and satisfies the filter |
| Tables.SelectOrdered | src/comments/comments.service.ts:27-32 | A filtered listing is sorted newest first, by strictly decreasing id |
| Tables.SelectCount | src/likes/likes.service.ts:91-93 | The length of a filtered listing is the number of stored documents satisfying the filter |
| Tables.WriteKeepsUnique | src/posts/schema/posts.schema.ts:12-13 | Writing a document whose key no other document holds keeps a unique index unique |
| Tables.RemoveKeepsUnique | src/posts/schema/posts.schema.ts:12-13 | Deleting documents keeps a unique index unique |
| Posts.WithAuthor | src/posts/posts.controller.ts:24-31 | The create handler's payload names the caller as author exactly when the request names no author; every other field is unchanged |
| Posts.KeepOwnSlug | src/posts/posts.service.ts:82-93 | Under a unique slug index, a post's own current slug is never "held by another post", so re-sending it cannot conflict |
| Posts.PostTable.constructor | src/posts/schema/posts.schema.ts:1-37 | An empty collection satisfies the slug invariant |
| Posts.PostTable.Insert | src/posts/posts.service.ts:24-28 | `save()` stores the post under a fresh id and keeps the slug index unique |
| Posts.PostTable.Create | src/posts/posts.service.ts:15-29 | The slug is the payload's if non-empty, else derived from the title; Conflict iff a post holds it; else Rejected iff a required field is empty; else exactly one new post with `isPublished` defaulting to false and `viewsCount` 0 |
| Posts.PostTable.FindAll | src/posts/posts.service.ts:31-36 | Exactly the stored posts |
| Posts.PostTable.FindPublished | src/posts/posts.service.ts:38-40 | Exactly the published posts |
| Posts.PostTable.FindOne | src/posts/posts.service.ts:42-53 | The post under the id, or NotFound iff there is none |
| Posts.PostTable.FindBySlug | src/posts/posts.service.ts:55-66 | Ok iff some post holds the slug, and then that post; otherwise NotFound |
| Posts.PostTable.IncrementViews | src/posts/posts.service.ts:68-80 | One more view on that post and no other change; NotFound and no change when the id is absent |
| Posts.PostTable.Update | src/posts/posts.service.ts:82-104 | Conflict when a non-empty new slug is held by another post, checked before the id is looked up; then NotFound; then Rejected when the unique index refuses the resulting slug; otherwise the patched post, with `authorId` patchable and `viewsCount` kept |
| Posts.PostTable.Remove | src/posts/posts.service.ts:106-112 | Only that post is deleted; NotFound when absent |
| Posts.PostTable.HandleCreate | src/posts/posts.controller.ts:24-31 | The service create of the payload, with the caller as author when none is named |
| Posts.PostTable.HandleFindAll | src/posts/posts.controller.ts:33-36 | Any non-empty `published` query value, "false" included, yields only published posts; otherwise every post |
| Posts.PostTable.HandleFindOne | src/posts/posts.controller.ts:51-56 | The post as it was before the call, and its view count is one higher afterwards; NotFound and no change otherwise |
| Posts.PostTable.HandleFindBySlug | src/posts/posts.controller.ts:38-48 | As written: the found post is returned only when its `authorId` is also a post id; the view is counted on that other document; otherwise NotFound |
| Posts.PostTable.HandleFindBySlugIntended | src/posts/posts.controller.ts:38-48 | Corrected: the post holding the slug is returned and its own view count goes up by one |
| Posts.PostTable.HandleUpdate | src/posts/posts.controller.ts:59-72 | NotFound for an absent post, Forbidden unless the caller owns it or is admin, and otherwise the service update |
| Posts.PostTable.HandleUpdateAsWritten | src/posts/posts.controller.ts:59-72 | As written: NotFound for an absent post, Forbidden for every non-admin (the author included), and the service update for an admin |
| Posts.PostTable.HandleRemove | src/posts/posts.controller.ts:75-84 | NotFound, then the ownership gate, then deletion of that post alone |
| Categories.CategoryTable.constructor | src/category/category.service.ts:11-13 | An empty collection satisfies the slug invariant |
| Categories.CategoryTable.Create | src/category/category.service.ts:15-29 | The slug is the payload's if non-empty, else derived from the name; Conflict iff a category holds it; else exactly one new category |
| Categories.CategoryTable.FindAll | src/category/category.service.ts:31-33 | Exactly the stored categories |
| Categories.CategoryTable.FindOne | src/category/category.service.ts:35-43 | The category, or NotFound iff there is none |
| Categories.CategoryTable.FindBySlug | src/category/category.service.ts:45-53 | Ok iff some category holds the slug, and then that category |
| Categories.CategoryTable.Update | src/category/category.service.ts:55-77 | Conflict when a non-empty new slug is held by another category, before the id is looked up; then NotFound; then Rejected when the unique index refuses the result; otherwise the patched category |
| Categories.CategoryTable.Remove | src/category/category.service.ts:79-85 | Only that category is deleted; NotFound when absent |
| Comments.TextOnly | src/comments/comments.service.ts:56-65 | A non-admin owner's update changes the comment text and nothing else; it equals the full patch restricted to the text |
| Comments.Stamped | src/comments/comments.controller.ts:26-36 | The payload's author becomes the caller; a non-admin's comment is never created approved; an admin's approval flag is kept |
| Comments.CommentTable.constructor | src/comments/comments.service.ts:11-13 | An empty collection is valid |
| Comments.CommentTable.Create | src/comments/comments.service.ts:15-18 | Rejected when the author or text is missing; else exactly one new comment, pending unless the payload says otherwise |
| Comments.CommentTable.FindAll | src/comments/comments.service.ts:20-25 | Exactly the stored comments, approved or not |
| Comments.CommentTable.FindByPostId | src/comments/comments.service.ts:27-32 | Exactly the approved comments of the post, newest first |
| Comments.CommentTable.GetPendingComments | src/comments/comments.service.ts:104-110 | Exactly the unapproved comments, newest first |
| Comments.CommentTable.FindOne | src/comments/comments.service.ts:34-45 | The comment, or NotFound iff there is none |
| Comments.CommentTable.Update | src/comments/comments.service.ts:47-75 | NotFound; Forbidden unless owner or admin; an admin applies the whole patch, an owner changes only the text |
| Comments.CommentTable.Remove | src/comments/comments.service.ts:77-90 | NotFound; Forbidden unless owner or admin; else only that comment is deleted |
| Comments.CommentTable.ApproveComment | src/comments/comments.service.ts:92-102 | The comment becomes approved and nothing else changes; approving an approved comment leaves the collection as it was |
| Comments.CommentTable.HandleCreate | src/comments/comments.controller.ts:25-36 | Ok iff the text is non-empty; the author is the caller; a user's comment starts pending; an admin's keeps its requested flag |
| Comments.CommentTable.HandleFindAll | src/comments/comments.controller.ts:38-44 | With a post id, that post's approved comments; without one, every comment |
| Comments.CommentTable.HandleGetPending | src/comments/comments.controller.ts:46-54 | Forbidden iff the caller is not admin; otherwise the pending comments |
| Comments.CommentTable.HandleApprove | src/comments/comments.controller.ts:77-84 | Forbidden and no change for a non-admin; otherwise the service approval |
| Likes.LikeTable.constructor | src/likes/schema/likes.schema.ts:20-23 | An empty collection satisfies the (userId, postId) unique index |
| Likes.LikeTable.Create | src/likes/likes.service.ts:14-25 | Conflict iff the user already likes the post; otherwise exactly one new like, keeping the pair index unique |
| Likes.LikeTable.FindAll | src/likes/likes.service.ts:27-32 | Exactly the stored likes |
| Likes.LikeTable.FindByPostId | src/likes/likes.service.ts:34-38 | Exactly the likes of the post |
| Likes.LikeTable.FindByUserId | src/likes/likes.service.ts:40-44 | Exactly the likes by the user |
| Likes.LikeTable.FindOne | src/likes/likes.service.ts:46-57 | The like, or NotFound iff there is none |
| Likes.LikeTable.FindUserLike | src/likes/likes.service.ts:79-81 | Some iff the user likes the post, and then that like |
| Likes.LikeTable.Remove | src/likes/likes.service.ts:71-77 | Only that like is deleted; NotFound when absent |
| Likes.LikeTable.RemoveLike | src/likes/likes.service.ts:83-89 | NotFound iff the user does not like the post; otherwise exactly that one like is deleted and the user no longer likes the post |
| Likes.LikeTable.CountLikes | src/likes/likes.service.ts:91-93 | The number of likes stored for the post |
| Likes.LikeTable.HandleLike | src/likes/likes.controller.ts:23-34 | The caller's like of the post; Conflict iff the caller already likes it |
| Likes.LikeTable.HandleFindAll | src/likes/likes.controller.ts:36-45 | Filter by post when given, else by user when given, else every like |
| Likes.LikeTable.HandleCheckUserLike | src/likes/likes.controller.ts:54-59 | True iff a stored like pairs the caller with the post |
| Likes.LikeTable.HandleUnlike | src/likes/likes.controller.ts:62-67 | Removes the caller's own like of the post and no other; NotFound when there is none |
| Likes.LikeTable.HandleRemove | src/likes/likes.controller.ts:70-81 | NotFound, then the ownership gate, then deletion of that like alone |
| Subscriptions.MatchesItself | src/subscription/subscription.service.ts:102-115 | A subscription matches the probe built from its own fields |
| Subscriptions.SubscriptionTable.constructor | src/subscription/subscription.service.ts:11-13 | An empty collection is valid |
| Subscriptions.SubscriptionTable.CheckSubscription | src/subscription/subscription.service.ts:102-115 | True iff some stored subscription of the subscriber matches each target that is given |
| Subscriptions.SubscriptionTable.Create | src/subscription/subscription.service.ts:15-34 | Conflict iff neither author nor category is given, or a matching subscription exists; else exactly one new subscription; create preserves uniqueness of whole subscriptions |
| Subscriptions.SubscriptionTable.FindAll | src/subscription/subscription.service.ts:36-42 | Exactly the stored subscriptions |
| Subscriptions.SubscriptionTable.FindBySubscriber | src/subscription/subscription.service.ts:58-64 | Exactly that subscriber's subscriptions |
| Subscriptions.SubscriptionTable.FindByAuthor | src/subscription/subscription.service.ts:66-72 | Exactly the subscriptions to that author |
| Subscriptions.SubscriptionTable.FindByCategory | src/subscription/subscription.service.ts:74-80 | Exactly the subscriptions to that category |
| Subscriptions.SubscriptionTable.FindOne | src/subscription/subscription.service.ts:44-56 | The subscription, or NotFound iff there is none |
| Subscriptions.SubscriptionTable.Update | src/subscription/subscription.service.ts:82-92 | The patched subscription with no duplicate check; NotFound when absent |
| Subscriptions.SubscriptionTable.Remove | src/subscription/subscription.service.ts:94-100 | Only that subscription is deleted; NotFound when absent |
| Subscriptions.SubscriptionTable.HandleCreate | src/subscription/subscription.controller.ts:25-36 | Forbidden when a non-admin names another subscriber; a missing subscriber is the caller; otherwise the service create |
| Subscriptions.SubscriptionTable.HandleFindAll | src/subscription/subscription.controller.ts:39-58 | A user sees exactly their own subscriptions; an admin filters by subscriber, else author, else category, else sees all |
| Subscriptions.SubscriptionTable.HandleFindOne | src/subscription/subscription.controller.ts:61-72 | NotFound, then Forbidden unless owner or admin, else the subscription |
| Subscriptions.SubscriptionTable.HandleCheckSubscription | src/subscription/subscription.controller.ts:75-86 | True iff the caller has a matching subscription |
| Subscriptions.SubscriptionTable.HandleUpdate | src/subscription/subscription.controller.ts:89-111 | NotFound; Forbidden unless the caller owns it or is admin; Forbidden when a non-admin moves it to another subscriber; else the service update |
| Subscriptions.SubscriptionTable.HandleRemove | src/subscription/subscription.controller.ts:114-125 | NotFound, then the ownership gate, then deletion of that subscription alone |
| Notifications.AllRead | src/notifications/notifications.service.ts:89-93 | Marking all read keeps every id, user and message; a notification is read afterwards iff it was read before or belongs to the user |
| Notifications.AllReadIdempotent | src/notifications/notifications.service.ts:89-93 | Marking all read twice is the same as once |
| Notifications.AllReadWithoutUnread | src/notifications/notifications.service.ts:89-93 | With no unread notification for the user, marking all read changes nothing |
| Notifications.NotificationTable.constructor | src/notifications/notifications.service.ts:11-13 | An empty collection is valid |
| Notifications.NotificationTable.Create | src/notifications/notifications.service.ts:15-18 | Rejected when the message is empty; else exactly one new notification, unread unless the payload says otherwise |
| Notifications.NotificationTable.FindAll | src/notifications/notifications.service.ts:20-25 | Exactly the stored notifications, newest first |
| Notifications.NotificationTable.FindByUserId | src/notifications/notifications.service.ts:27-31 | Exactly the user's notifications, newest first |
| Notifications.NotificationTable.FindUnreadByUserId | src/notifications/notifications.service.ts:33-37 | Exactly the user's unread notifications, newest first |
| Notifications.NotificationTable.FindOne | src/notifications/notifications.service.ts:39-49 | The notification, or NotFound iff there is none; no ownership gate |
| Notifications.NotificationTable.Update | src/notifications/notifications.service.ts:51-68 | NotFound; Forbidden unless owner or admin; else the patched notification |
| Notifications.NotificationTable.MarkAsRead | src/notifications/notifications.service.ts:70-87 | NotFound; Forbidden unless owner or admin; else only `isRead` becomes true |
| Notifications.NotificationTable.MarkAllAsRead | src/notifications/notifications.service.ts:89-93 | The collection becomes `AllRead` of the old one for that user |
| Notifications.NotificationTable.Remove | src/notifications/notifications.service.ts:95-108 | NotFound; Forbidden unless owner or admin; else only that notification is deleted |
| Notifications.NotificationTable.HandleCreate | src/notifications/notifications.controller.ts:24-31 | Forbidden and nothing written when a non-admin addresses another user; otherwise the service create |
| Notifications.NotificationTable.HandleFindAll | src/notifications/notifications.controller.ts:34-41 | An admin sees every notification; anyone else exactly their own; newest first |
| Notifications.NotificationTable.HandleFindUnread | src/notifications/notifications.controller.ts:44-47 | Exactly the caller's unread notifications |
| Notifications.NotificationTable.HandleMarkAllAsRead | src/notifications/notifications.controller.ts:77-80 | Marks the caller's notifications read and no one else's |
| Scenarios.SameCategoryTwice | src/category/category.service.ts:15-29 | Creating "Tech News" twice gives slug "tech-news" and then Conflict |
| Scenarios.UpdateByStrangerOwnerAdmin | src/posts/posts.controller.ts:59-72 | Another user is Forbidden to update a post; its author and an admin succeed |
| Scenarios.LikeTwice | src/likes/likes.service.ts:14-25 | A second like of the same post by the same user is Conflict, and the post has one like |
| Scenarios.ListOwnNotifications | src/notifications/notifications.controller.ts:34-41 | A non-admin's listing holds their own notification and not another user's |
| Scenarios.ApproveTwice | src/comments/comments.service.ts:92-102 | A user's comment asking to be approved is created pending; approving it twice gives the same approved comment both times |
| Scenarios.UpdateMakesDuplicate | src/subscription/subscription.service.ts:82-92 | Updating a subscription can make it identical to another one, which create would have refused |
| Scenarios.FindBySlugCountsNoView | src/posts/posts.controller.ts:38-48 | With author references read as ids: when no post's id equals the found post's author id, the handler as written answers NotFound and counts no view; the corrected handler returns the post and counts one view |
| Scenarios.OwnerRefusedAsWritten | src/posts/posts.controller.ts:66-69 | The author of a post is Forbidden to update it under the check as written, and succeeds under the intended check |

## Left out

- Database plumbing is not modelled: connections, ObjectId casting, exceptions other than the four HTTP outcomes, and the `{ new: true }` flag. A malformed id string (a cast error, HTTP 500) is not a case of the model, because ids are natural numbers.
- `populate` is not modelled. Every ownership check in the source converts the populated owner document to a string and compares that with the caller's id. Those checks are at src/posts/posts.controller.ts:66-69 and 78-81, src/comments/comments.service.ts:51 and 81, src/likes/likes.controller.ts:73, src/subscription/subscription.controller.ts:66, 98 and 119, and src/notifications/notifications.service.ts:55, 74 and 99. Such a string is never an id, so as written every non-admin owner is Forbidden, and a dangling owner reference fails with a server error. The gate contracts of the `Handle...` methods and of the comments and notifications services use the intended rule, `Common.OwnerOrAdmin`. The check as written is `Common.PopulatedGate`, modelled for post update in `Posts.PostTable.HandleUpdateAsWritten`; see "## Findings". As written, the non-admin branch of comment update (`Comments.TextOnly`) is therefore unreachable.
- `createdAt` and `updatedAt` timestamps are modelled by id order. The order of unsorted listings, which MongoDB does not specify, is also given as id order.
- `slugify` is a parameter. Its lower-casing and dash rules are not modelled.
- Authentication is not modelled: the JWT guards and the login service. The caller reaches each handler as a `Principal` (user id and role).
- Concurrency is not modelled. Two requests racing between the duplicate probe and the write, and what the unique index then does, fall outside the model.
- HTTP routing is not modelled. Three handlers are shadowed by an earlier route of the same shape and are unreachable in practice. Each is modelled as a separate handler:
  - the likes controller's `DELETE /:id` (`Likes.LikeTable.HandleRemove`), shadowed by `DELETE :postId`;
  - the notifications controller's `PATCH mark-all-read` (`Notifications.NotificationTable.HandleMarkAllAsRead`), declared after `PATCH :id` (src/notifications/notifications.controller.ts:56 and 77);
  - the subscriptions controller's `GET check` (`Subscriptions.SubscriptionTable.HandleCheckSubscription`), declared after `GET :id` (src/subscription/subscription.controller.ts:61 and 75).
- DTO validation decorators (class-validator) are not modelled. Payloads are taken as typed records.
- The likes service's `update` is not modelled. No route calls it, and a like has no field that could be changed without meeting the pair index.
- The category controller (src/category/category.controller.ts) is not modelled. It applies only the JWT guard, to create, update and remove, and forwards to the service, so any authenticated user can write categories.
- The comments and notifications controllers' `findOne`, `update`, `markAsRead` and `remove` routes are not modelled separately. They only pass the caller's id and role to the service methods, which take the `Principal` directly.
- The category schema file is not part of this model. Category create therefore has no `required`-validator rejection; only the unique slug index is modelled, as the service's own check implies.
- The likes controller's `countLikes` route is not modelled separately. It wraps the service count in an object.
- Posts.PostTable.HandleFindBySlug does not model a post whose populated author is null, which the source's guard would skip. The model always has an author id.

## Findings

| source | as written | input that shows it | evidently intended | confidence | as-written member | corrected member |
|---|---|---|---|---|---|---|
| src/posts/posts.controller.ts:38-48 | after finding the post by slug, the handler counts the view on the document whose id is the post's author id, and that increment's NotFound fails the request. Under `populate`, line 44 passes the author document's string form to `incrementViews`. The source then fails with a cast error (HTTP 500) when the author exists, and returns the post uncounted when the author reference is dangling. "NotFound" is the outcome with author references read as ids | one post with slug "hello" and author 7, and no post with id 7: `GET /posts/slug/hello` answers NotFound and the view count stays 0 | count the view on the post that was found and return it | not executed | Posts.PostTable.HandleFindBySlug, Scenarios.FindBySlugCountsNoView | Posts.PostTable.HandleFindBySlugIntended |
| src/posts/posts.controller.ts:66-69 | every ownership check converts the populated owner document to a string and compares it with the caller's id; that string is never an id, so only admins pass. The same pattern is at posts.controller.ts:78-81, comments.service.ts:51 and 81, likes.controller.ts:73, subscription.controller.ts:66, 98 and 119, and notifications.service.ts:55, 74 and 99 | user 1, not an admin, updates post 0 whose author is user 1: Forbidden | the owner or an admin passes | not executed | Common.PopulatedGate, Posts.PostTable.HandleUpdateAsWritten, Scenarios.OwnerRefusedAsWritten | Common.OwnerOrAdmin, Posts.PostTable.HandleUpdate |

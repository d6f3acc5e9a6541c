# Social-Media-App, modelled in Dafny

This project models the rules at the heart of a small social network. The
back end is an Express server backed by MongoDB. The front end is a set of
React pages. The model covers:

- **Accounts** (`AuthRoutes`, `UserModel`, `AuthMiddleware`): registering,
  logging in, the session check and the session gates.
- **Posts** (`PostRoutes`, `PostModel`): the paginated listings, creating,
  editing and deleting a post, the strict like and unlike, and comments.
- **The HEAD side of the post routes** (`HeadPostRoutes`). `backend/routes/posts.js`
  still holds an unresolved merge conflict, and each side is modelled on
  its own. This side has the public and personal feeds, the like toggle,
  comments, deletion and its own "time ago" helper.
- **Profiles** (`ProfileRoutes`): the profile reads, the partial update, the
  follow graph, the followers and following lists, and the statistics.
- **Client pages**:
  - `Notifications`: list updates, the tab filter, the unread badge and
    grouping by date.
  - `HomeFeed`: the optimistic like and the composer.
  - `MessagesPage`: sending a message and searching conversations, with
    both sides of that file's merge conflict.

The database is modelled as a class `Store.Db` holding one map per
collection. Route handlers are methods that modify it.

Several things the code reaches for are not modelled directly; they become
parameters or functions instead:

- the clock: `now`/`nowMs` integers;
- bcrypt: a hash function `hash` and a comparison `matches`;
- fresh ObjectIds: a `newId` parameter (a clash with an existing id is the
  duplicate-key error, answered with 500);
- the sort order of a query result: the ordered sequence `newest` or `matching`.

Mongoose behaviour that changes what a handler returns is written out:

- setters (trim, lowercase) run on saved values and on query filters;
- a validator that fails on `save()` gives the handler's 500;
- `populate` drops references to missing documents;
- strict mode drops an update of an undeclared path;
- `minlength` and `maxlength`, like JavaScript's `length`, count UTF-16 code
  units (`Common.Utf16Length`), so a character beyond U+FFFF counts twice;
- replacing a whole array makes `save()` check the document's version, which
  decides the self-unfollow case below.

Client pages are classes whose fields are the component state. Each handler
is a method that replaces that state with a value computed by a function.

## Model

| member | source | states |
|---|---|---|
| Common.Utf16Length | backend/models/Post.js:9-13 | the length `maxlength` measures lies between the number of characters and twice that |
| Common.Utf16LengthAppend | backend/models/Post.js:9-13 | the length of a concatenation is the sum of the lengths |
| Common.Utf16LengthBmp | backend/models/Post.js:9-13 | a text without characters beyond U+FFFF has as many code units as characters |
| Common.AstralCountsTwice | backend/models/Post.js:9-13 | a character beyond U+FFFF, such as an emoji, counts as two |
| AuthMiddleware.IsAuthenticated | backend/middleware/auth.js:7-15 | the handler runs exactly when the session holds a truthy user id; otherwise 401 with the fixed message and `authenticated: false` |
| AuthMiddleware.OptionalAuth | backend/middleware/auth.js:21-24 | always hands the request on |
| PostModel.ParseVisibility | backend/models/Post.js:47-51 | only `public`, `friends` and `private` pass the enum check |
| PostModel.NewPost | backend/models/Post.js:4-55 | a new post has no likes, comments or shares and is public; with content of at most 5000 UTF-16 code units it is schema-valid exactly when the content is non-empty |
| PostModel.IsLikedByMeansMember | backend/models/Post.js:72-74 | `isLikedBy(u)` holds exactly when `u` is in `likes` |
| PostModel.GetTimeAgo | backend/models/Post.js:77-87 | under 60 s "Just now"; the first threshold the elapsed seconds fall under picks minutes, hours, days or weeks; from 30 days on the date; the count is the floor quotient and lies in 1..59, 1..23, 1..6 or 1..4 |
| UserModel.NewUser | backend/models/User.js:4-63 | username and email are stored trimmed and lower-cased; name is trimmed; avatar is the upper-cased initials of the name's words; bio, location and website are empty; no followers, following or posts |
| UserModel.ViewOf | backend/models/User.js:69-81 | the three counts are the lengths of the arrays; no password is sent |
| UserModel.NormalizeLower | backend/models/User.js:9-22 | lower-casing before the setters changes nothing, and the setters are idempotent |
| AuthRoutes.AddKeepsUnique | backend/models/User.js:9-22 | an account whose email and username nobody holds keeps all accounts distinct |
| AuthRoutes.RegisteredUser | backend/routes/auth.js:26-35 | stores the hash of the password, not the password, and the normalized username and email |
| AuthRoutes.Register | backend/routes/auth.js:10-68 | missing field gives 400; existing email or username gives 400; otherwise the user is added, the session is set and 201 carries the view; accounts stay unique |
| AuthRoutes.Login | backend/routes/auth.js:71-120 | missing field gives 400; unknown email and wrong password give the same 401 "Invalid credentials"; a matching password logs in the account with that email |
| AuthRoutes.Check | backend/routes/auth.js:137-172 | authenticated exactly when the session names an existing user; otherwise 401 `authenticated: false` |
| PostRoutes.PageParam | backend/routes/posts.js:133-134 | `parseInt(q) \|\| d`: a given non-zero number is kept, otherwise the default |
| PostRoutes.PageCountBounds | backend/routes/posts.js:165-170 | for a positive limit, `pages` is the least page count that holds `total` items |
| PostRoutes.PagesCoverAll | backend/routes/posts.js:133-141 | reading pages 1..`pages` in turn returns every matching post once, in order |
| PostRoutes.PageSlice | backend/routes/posts.js:140-141 | `.skip(skip).limit(limit)`: the items from position `skip` on, at most `limit` (its absolute value) of them, in order |
| PostRoutes.ListPage | backend/routes/posts.js:131-176 | Ok exactly when the skip is not negative and every author on the page exists, 500 otherwise; the pagination block; each listed post is the view of the post at position skip+i of the sorted matches: id, author fields, content, images, counts, time ago and `liked` flag |
| PostRoutes.WhereAppend | backend/routes/posts.js:137-139 | the query's selection distributes over concatenation, so matching posts keep the order of the sort |
| PostRoutes.ListPublic | backend/routes/posts.js:131-176 | every listed post is a public post |
| PostRoutes.ListByAuthor | backend/routes/posts.js:181-232 | every listed post is a public post by the requested author |
| PostRoutes.ListLikedBy | backend/routes/posts.js:266-317 | every listed post carries `liked: true` |
| PostRoutes.AnonymousListingsUnliked | backend/routes/posts.js:181-232 | with no session, no post in the public or per-author listing is marked liked |
| PostRoutes.LikedListingTruthful | backend/routes/posts.js:266-317 | every post in the likes listing is public and liked by that user |
| PostRoutes.PushPost | backend/routes/posts.js:476-479 | the author's `posts` gains the id at its end and the author's other fields stay; every other user is unchanged |
| PostRoutes.PullPost | backend/routes/posts.js:593-597 | every occurrence of the id leaves the author's `posts`, every other id stays, and so do the author's other fields; every other user is unchanged |
| PostRoutes.PullUndoesPush | backend/routes/posts.js:476-597 | deleting a post just created restores the author's document |
| PostRoutes.VisibilityOr | backend/routes/posts.js:471 | a missing visibility means public; a given one goes through the enum check |
| PostRoutes.CreatePost | backend/routes/posts.js:466-508 | no session gives 401; blank content gives 400; a bad visibility, a taken id or content over 5000 gives 500; otherwise the post is stored with no likes, the author's `posts` gains it and 201 answers |
| PostRoutes.Updated | backend/routes/posts.js:541-543 | content is replaced only when truthy, images whenever given, visibility only when truthy and valid; every other field is kept |
| PostRoutes.UpdatePost | backend/routes/posts.js:514-573 | no session gives 401; missing post 404; not the author 403 with the post unchanged; otherwise the update is saved when valid |
| PostRoutes.DeletePost | backend/routes/posts.js:579-633 | missing post 404; not the author 403 with nothing changed; otherwise the post is removed and pulled from the author's `posts` |
| PostRoutes.LikeUnlikeFacts | backend/routes/posts.js:638-690 | like adds the user, so the count grows by one; unlike removes every occurrence and no one else; unliking after liking restores the post |
| PostRoutes.LikePost | backend/routes/posts.js:638-662 | already liked gives 400 with likes unchanged; otherwise the user is appended once and the new count is returned |
| PostRoutes.UnlikePost | backend/routes/posts.js:667-691 | not liked gives 400; otherwise every occurrence of the user is removed |
| PostRoutes.AddComment | backend/routes/posts.js:696-727 | blank content gives 400 before any lookup; missing post 404; content over 1000 gives 500; otherwise exactly one comment is appended and 201 answers |
| HeadPostRoutes.RequireAuth | backend/routes/posts.js:36-41 | the same decision as `isAuthenticated`, with its own message |
| HeadPostRoutes.Toggled | backend/routes/posts.js:402-410 | no entry other than the user's changes; a user not in the list is appended at the end |
| HeadPostRoutes.IndexOf | backend/routes/posts.js:402 | `indexOf`: -1 exactly when absent, otherwise the first position |
| HeadPostRoutes.ToggledChangesOne | backend/routes/posts.js:402-410 | the like toggle removes one occurrence when present and appends one otherwise; the length changes by exactly one |
| HeadPostRoutes.ToggledMembership | backend/routes/posts.js:402-418 | after toggling, an absent user is present; a user present once is absent |
| HeadPostRoutes.ToggledTwiceRestores | backend/routes/posts.js:402-410 | toggling twice from not-liked restores the list |
| HeadPostRoutes.ToggledTwiceSameEntries | backend/routes/posts.js:402-410 | toggling twice from liked-once restores the same entries (the user moves to the end) |
| HeadPostRoutes.HeadGetTimeAgo | backend/routes/posts.js:609-628 | the largest of year, month, day, hour and minute with quotient at least 1, with its floor quotient; under 60 s "Just now" |
| HeadPostRoutes.TimeAgoHelpersAgree | backend/routes/posts.js:609-628 | under a week the HEAD helper and the model's `getTimeAgo` give the same answer |
| HeadPostRoutes.FormatFeed | backend/routes/posts.js:53-67 | one item per post, with the author's name and username, the upper-cased initials as avatar, the time ago, content, image and counts; the public shape adds feeling, activity and location, the personal shape (posts.js:100-113) adds `liked`, exactly when the viewer is in `likes` |
| HeadPostRoutes.PublicFeed | backend/routes/posts.js:44-74 | Ok exactly when the authors of the 50 newest posts exist, else 500; the body is the public shape of the formatted 50 newest posts: one item per post, in order, with the author's name, username and initials, time ago, content, image, counts, feeling, activity and location, and no `liked` |
| HeadPostRoutes.ByFollowed | backend/routes/posts.js:87-92 | keeps exactly the posts by followed users or by the user |
| HeadPostRoutes.ByFollowedAppend | backend/routes/posts.js:87-93 | the selection distributes over concatenation, so the feed keeps the newest-first order |
| HeadPostRoutes.PersonalFeed | backend/routes/posts.js:77-116 | no session gives 401; Ok exactly when the user and the authors of the page exist, else 500; the items are the formatted first 50 selected posts, each `liked` exactly when the user is in its likes |
| HeadPostRoutes.PersonalFeedFromFollowed | backend/routes/posts.js:84-93 | every item of the personal feed is a post by a followed user or by the user |
| HeadPostRoutes.NewHeadPost | backend/routes/posts.js:331-355 | content trimmed; image path only with an upload; feeling, activity and location only when truthy; no likes, comments or shares |
| HeadPostRoutes.HeadPostStore.ToggleLike | backend/routes/posts.js:391-423 | 404 for a missing post; otherwise the likes list is toggled and the reply says whether it is now liked and the new count |
| HeadPostRoutes.HeadPostStore.AddComment | backend/routes/posts.js:426-457 | blank text 400; missing post 404; otherwise one trimmed comment is appended |
| HeadPostRoutes.HeadPostStore.Delete | backend/routes/posts.js:520-534 | missing post 404; not the author 403 with the post kept; otherwise the post is removed |
| HeadPostRoutes.HeadPostStore.Create | backend/routes/posts.js:326-388 | blank content 400; otherwise the post is stored; 201 answers with the author's name, or 500 when the author is gone |
| ProfileRoutes.ProfileGate | backend/routes/profile.js:6-11 | the handler runs exactly when the session holds a user id |
| ProfileRoutes.OwnProfile | backend/routes/profile.js:16-43 | 401 without a session; 404 when the user is gone; otherwise the user's view |
| ProfileRoutes.ProfileByUsername | backend/routes/profile.js:48-75 | 404 exactly when no account has the normalized username; otherwise that account's view |
| ProfileRoutes.ProfileUpdated | backend/routes/profile.js:90-98 | name only when truthy, then the avatar is recomputed from it; bio, location and website whenever given; every other field kept |
| ProfileRoutes.UpdateProfile | backend/routes/profile.js:80-125 | 401, 404, or the updated user saved when valid |
| ProfileRoutes.Followed | backend/routes/profile.js:145-149 | the two saves change only the two users involved |
| ProfileRoutes.Unfollowed | backend/routes/profile.js:171-175 | the two saves change only the two users involved |
| ProfileRoutes.FollowingDropped | backend/routes/profile.js:171-174 | the first save alone: the user's `following` is filtered, nothing else changes |
| ProfileRoutes.SelfUnfollowBreaksSymmetry | backend/routes/profile.js:163-175 | as written: when only the first save of a self-unfollow lands, the user follows nobody new but still lists themself as a follower, so the graph is out of step |
| ProfileRoutes.SelfFollowThenUnfollowFails | backend/routes/profile.js:140-175 | as written: a first self-follow leads straight to the failing self-unfollow and the out-of-step graph |
| ProfileRoutes.FollowFacts | backend/routes/profile.js:145-146 | `following` gains the target and the target's `followers` gains the user, each by one; the follow graph stays symmetric |
| ProfileRoutes.UnfollowFacts | backend/routes/profile.js:171-172 | every occurrence of the target leaves `following`, and of the user the target's `followers`; the graph stays symmetric |
| ProfileRoutes.UnfollowIdempotent | backend/routes/profile.js:161-182 | unfollowing twice is unfollowing once |
| ProfileRoutes.Follow | backend/routes/profile.js:130-156 | 404 when either user is missing and 400 when already following, both with nothing changed; otherwise both lists are extended |
| ProfileRoutes.Unfollow | backend/routes/profile.js:161-182 | 404 when either user is missing; a self-unfollow whose two saves both change the document answers 500 after writing only `following`; otherwise no membership check, both lists filtered |
| ProfileRoutes.Present | backend/routes/profile.js:189-190 | `populate` keeps exactly the ids whose documents exist |
| ProfileRoutes.FollowingList | backend/routes/profile.js:215-238 | one entry per existing followed user, each with `isFollowing: true` |
| ProfileRoutes.FollowersListAsWritten | backend/routes/profile.js:187-210 | as written: with a session and at least one follower the handler fails with 500; without a session every entry has `isFollowing: false` |
| ProfileRoutes.FollowersListFailsForLoggedInViewer | backend/routes/profile.js:189-202 | a concrete store where the handler as written answers 500 and the corrected list answers one entry |
| ProfileRoutes.FollowersList | backend/routes/profile.js:187-210 | corrected: one entry per existing follower, `isFollowing` exactly when that follower follows the session user |
| ProfileRoutes.FollowersListsAgreeAnonymously | backend/routes/profile.js:202 | with no session both versions answer alike, every entry `isFollowing: false` |
| ProfileRoutes.FollowersMarkedIffViewerFollowedBack | backend/routes/profile.js:202 | in a symmetric graph, a follower is marked exactly when the viewer is among its followers |
| ProfileRoutes.SumsAppend | backend/routes/profile.js:254-257 | the sums of likes, comments and shares, and the media count, add up over concatenation |
| ProfileRoutes.SumsRemove | backend/routes/profile.js:254-257 | a post's counts are part of the sums exactly once |
| ProfileRoutes.SumsIgnoreOrder | backend/routes/profile.js:254-257 | the sums do not depend on the order the query returns the posts in |
| ProfileRoutes.AuthoredBy | backend/routes/profile.js:254 | keeps exactly the posts by that author |
| ProfileRoutes.UserStats | backend/routes/profile.js:243-280 | 404 exactly when the user is missing; otherwise the array counts, the sums over the user's posts and the media count |
| ProfileRoutes.MediaAtMostPosts | backend/routes/profile.js:260-263 | the number of posts with images never exceeds the number of posts |
| Notifications.Flip | frontend/src/pages/Notifications.jsx:159 | `!isFollowing`: a missing value becomes `true` |
| Notifications.Deleted | frontend/src/pages/Notifications.jsx:153-155 | keeps exactly the notifications whose id differs |
| Notifications.MarkAsReadFacts | frontend/src/pages/Notifications.jsx:143-147 | exactly the notifications with the id become read, nothing else changes, and marking twice is marking once |
| Notifications.MarkAllLeavesNothingUnread | frontend/src/pages/Notifications.jsx:149-151 | after marking all read the unread count is 0 and only `read` changed |
| Notifications.DeleteKeepsOrder | frontend/src/pages/Notifications.jsx:153-155 | deletion distributes over concatenation, so the rest keep their relative order |
| Notifications.DeleteAbsent | frontend/src/pages/Notifications.jsx:153-155 | deleting an id nobody carries changes nothing |
| Notifications.ToggleFollowTwice | frontend/src/pages/Notifications.jsx:157-161 | only the matching ids change; toggling twice restores them when they carry a follow state |
| Notifications.UnreadCount | frontend/src/pages/Notifications.jsx:227 | the badge is at most the list's length, and 0 exactly when every notification is read |
| Notifications.Unread | frontend/src/pages/Notifications.jsx:222 | keeps exactly the unread notifications |
| Notifications.OfKind | frontend/src/pages/Notifications.jsx:223 | keeps exactly the notifications of that type |
| Notifications.FilterNotifications | frontend/src/pages/Notifications.jsx:220-224 | the whole list for "all", the unread ones for "unread", otherwise those of the tab's type |
| Notifications.UnreadAppend | frontend/src/pages/Notifications.jsx:227 | the unread filter distributes over concatenation |
| Notifications.MarkedReadUnreadCount | frontend/src/pages/Notifications.jsx:143-147 | marking an id read lowers the badge by exactly its unread notifications |
| Notifications.Bucket | frontend/src/pages/Notifications.jsx:236-247 | today exactly when the lower-cased text holds "m ago" or "h ago" or is "today"; otherwise yesterday exactly when it holds "yesterday"; otherwise this week exactly when it holds "d ago" but not "10d ago"; older in every remaining case |
| Notifications.InGroupMembers | frontend/src/pages/Notifications.jsx:236-247 | a date group holds only input notifications whose timestamp picks that group |
| Notifications.PickedPartition | frontend/src/pages/Notifications.jsx:236-247 | for any classification, the four groups together hold each notification exactly as often as the input |
| Notifications.GroupsPartition | frontend/src/pages/Notifications.jsx:230-250 | every notification lands in exactly one of today, yesterday, this week and older |
| Notifications.GroupByDate | frontend/src/pages/Notifications.jsx:230-250 | each group is the input's notifications of that group in input order, and the four partition the input |
| Notifications.MinutesOrHoursAgoAreToday | frontend/src/pages/Notifications.jsx:237-239 | every "<n>m ago" and "<n>h ago" timestamp goes to today, whatever precedes the unit |
| Notifications.TodayIsToday | frontend/src/pages/Notifications.jsx:237-239 | "today" in any letter case goes to today |
| Notifications.YesterdayIsYesterday | frontend/src/pages/Notifications.jsx:240-241 | "yesterday" in any letter case goes to yesterday |
| Notifications.ThreeDaysIsThisWeek | frontend/src/pages/Notifications.jsx:242-243 | "3d ago" goes to this week |
| Notifications.TenDaysIsOlder | frontend/src/pages/Notifications.jsx:242-245 | "10d ago" is excluded from this week and goes to older |
| Notifications.ElevenDaysIsThisWeek | frontend/src/pages/Notifications.jsx:242-243 | "11d ago" still goes to this week, since only the text "10d ago" is excluded |
| Notifications.NotificationsPage.MarkAsRead | frontend/src/pages/Notifications.jsx:143-147 | the list becomes the marked list and the badge drops by the unread notifications with that id |
| Notifications.NotificationsPage.MarkAllAsRead | frontend/src/pages/Notifications.jsx:149-151 | every notification is read and the badge is 0 |
| Notifications.NotificationsPage.DeleteNotification | frontend/src/pages/Notifications.jsx:153-155 | the list becomes the list without that id; the tab stays |
| Notifications.NotificationsPage.ToggleFollow | frontend/src/pages/Notifications.jsx:157-161 | the list becomes the list with that id's follow state flipped; the tab stays |
| Notifications.NotificationsPage.SelectTab | frontend/src/pages/Notifications.jsx:442 | the tab becomes the chosen one; the list stays |
| Notifications.NotificationsPage.Visible | frontend/src/pages/Notifications.jsx:220-226 | the "all" tab shows the whole list |
| HomeFeed.LikeToggledEffect | frontend/src/pages/Home.jsx:49-55 | the card with the id changes only in `liked` and `likes`, by one in the new direction; every other card stays |
| HomeFeed.LikeToggledTwice | frontend/src/pages/Home.jsx:49-55 | liking the same card twice gives the feed back |
| HomeFeed.LikeToggledValid | frontend/src/pages/Home.jsx:49-55 | the toggle keeps the ids and keeps a liked card's count at least 1 |
| HomeFeed.CreatedEffect | frontend/src/pages/Home.jsx:57-74 | blank input leaves the feed alone; other input puts exactly one card in front with id length+1, zero counts, unliked, holding the text as typed |
| HomeFeed.PrependValid | frontend/src/pages/Home.jsx:59-72 | a consistent card numbered one past the length can be put in front of a valid feed and the feed stays valid |
| HomeFeed.CreatedValid | frontend/src/pages/Home.jsx:59-72 | the new id is unused, so ids stay 1..n without repetition |
| HomeFeed.HomePage.HandleLike | frontend/src/pages/Home.jsx:49-55 | the feed becomes the toggled feed; the composer keeps its text |
| HomeFeed.HomePage.HandleCreatePost | frontend/src/pages/Home.jsx:57-74 | blank input changes nothing; otherwise one card is prepended and the composer cleared |
| MessagesPage.Filter | frontend/src/pages/Messages.jsx:293 | `filter` keeps exactly the conversations the test accepts |
| MessagesPage.Search | frontend/src/pages/Messages.jsx:541-542 | keeps a conversation exactly when the lower-cased query occurs in its lower-cased name or username |
| MessagesPage.SearchEmptyKeepsAll | frontend/src/pages/Messages.jsx:541-542 | an empty query lists every conversation, in order |
| MessagesPage.SearchIdempotent | frontend/src/pages/Messages.jsx:541-542 | searching the results again changes nothing |
| MessagesPage.HeadSearch | frontend/src/pages/Messages.jsx:295 | HEAD: keeps a conversation exactly when the query occurs in its name |
| MessagesPage.HeadSearchWithinSearch | frontend/src/pages/Messages.jsx:293-297 | every conversation HEAD's search keeps, the main side's keeps too |
| MessagesPage.Sent | frontend/src/pages/Messages.jsx:266-283 | only the selected conversation can change and no conversation disappears |
| MessagesPage.SentEffect | frontend/src/pages/Messages.jsx:266-283 | blank input changes nothing; otherwise the selected chat, created if absent, gains exactly one own message at its end with id length+1, and no other chat changes |
| MessagesPage.SentKeepsNumbered | frontend/src/pages/Messages.jsx:268-280 | every chat's messages stay numbered 1, 2, 3, ... |
| MessagesPage.ChatPage.HandleSendMessage | frontend/src/pages/Messages.jsx:266-283 | the chats become the sent chats and the input is cleared after a send |
| MessagesPage.ChatPage.HandleKeyPress | frontend/src/pages/Messages.jsx:285-291 | Enter without Shift sends and clears the input after a send; any other key changes nothing |
| MessagesPage.HeadSentEffect | frontend/src/pages/Messages.jsx:133-144 | HEAD: blank input changes nothing; otherwise one message from "me" is appended with id length+1 |
| MessagesPage.HeadSentKeepsNumbered | frontend/src/pages/Messages.jsx:135-140 | HEAD: the single list stays numbered 1, 2, 3, ... |
| MessagesPage.HeadChatPage.HandleSendMessage | frontend/src/pages/Messages.jsx:133-144 | HEAD: the list becomes the sent list and the input is cleared after a send |

## Left out

- PostRoutes.CreatePost, PostRoutes.UpdatePost, PostRoutes.DeletePost, PostRoutes.LikePost, PostRoutes.UnlikePost, PostRoutes.AddComment: their 401 replies carry the gate's status and message, but the `authenticated: false` field of that body is modelled only at `AuthMiddleware.IsAuthenticated`, because the reply type has no room for it.
- Logging out (`POST /logout`) and `GET /user/:userId/media`: neither is modelled.
- Sessions, cookies, `multer` uploads (only the stored path is modelled), the `bcrypt` algorithm and `console.error` logging are not modelled. The hash is a function parameter.
- Dates: `toLocaleDateString`, `toLocaleTimeString` and the joined date are not modelled. A date past the last threshold is kept as the raw creation time, and the message clock is a string parameter.
- Case folding maps only the ASCII letters; Unicode case mapping is not modelled.
- Text.Initials: `n[0]` takes a word's first UTF-16 code unit, which for a character beyond U+FFFF is half a surrogate pair. The model takes the whole character, since a lone surrogate is not a Dafny `char`.
- Invalid ObjectId strings, which make `findById` throw a cast error (500), are not modelled: ids are plain strings, and an unknown id is simply absent.
- Each handler's writes are modelled as one atomic step; interleaving of concurrent requests is not modelled.
- HeadPostRoutes.HeadPostStore.Create: the HEAD side saves into a Post schema that is not part of this model. Its validators are not checked, and the store keeps no schema invariant. The `$inc: { postsCount }` on the user is dropped by strict mode, so users do not change.
- HeadPostRoutes.FormatFeed: `shares` is the stored number; the schema default that would give 0 is not modelled.
- PostRoutes.UpdatePost: whitespace-only new content is accepted as written (only an empty string is falsy).
- Notifications.NotificationsPage.Visible: the grouping of the visible list happens in `GroupByDate`; the page's rendering is not modelled.
- MessagesPage.ChatPage.constructor: takes the initial conversations as a parameter instead of repeating the sample messages.
- HomeFeed: the random "trending" counts drawn in the sidebar are not modelled.

## Findings

| source | as written | input that shows it | evidently intended | confidence | as-written member | corrected member |
|---|---|---|---|---|---|---|
| backend/routes/profile.js:189-202 | `populate('followers', 'name username avatar bio')` leaves each follower without `following`, so `follower.following.includes(...)` throws whenever a session exists | user "a" followed by "b", viewer logged in as "a": the handler answers 500 | `isFollowing` tells whether the follower follows the viewer | medium, not executed | ProfileRoutes.FollowersListAsWritten, ProfileRoutes.FollowersListFailsForLoggedInViewer | ProfileRoutes.FollowersList |
| backend/routes/profile.js:163-175 | unfollow loads the two users separately and assigns both filtered arrays; with `userId` equal to the session user (a self-follow is accepted at profile.js:140-149) the second save holds a stale copy, and Mongoose's version check for whole-array assignment refuses it | user "a" who follows themself unfollows themself: `following` loses "a", the second save fails, the handler answers 500 and "a" still lists itself as a follower | unfollowing oneself removes both entries, or following oneself is refused | medium, not executed (rests on Mongoose's versioning of array assignment) | ProfileRoutes.Unfollow, ProfileRoutes.SelfFollowThenUnfollowFails | ProfileRoutes.Unfollowed |

# snsapp store model

A Dafny model of the views of the `snsapp` Django application, a small social network.
Users write posts, list other people's posts and their own, like posts, and follow a
post's author to get a feed of followed users' posts. Without the framework, the views
work on two tables:

- **posts**: a map from post key to `Post(user, title, content, like)`. `like` is the set
  of users who like the post.
- **connections**: a map from user to that user's `following` set. There is at most one
  connection per user. It is created the first time a view needs it (`get_or_create`).

The database also hands out the next post key (`nextId`). Keys are never reused.

Files:

- `social.dfy` (module `Social`): the store as a value. It holds every view as a
  function, and the lemmas about those functions. The lemmas cover:
  - the partition of "mine" and "others"
  - toggle pairs
  - the parity of repeated like requests, and so their order-independence
  - follow-then-list
  - get-or-create idempotence
  - a whole session
- `views.dfy` (module `Views`): class `Site` holds the same tables as fields that its
  methods update in place. Each method mirrors one view handler. Its `ensures` ties the
  new state to the matching `Social` function applied to the old state.

The requesting user is a parameter of every operation. The model follows the code in
two places:

- A missing post key (`Post.objects.get` raising) becomes `Err(NotFound)`, in the guards
  and in the toggles alike. The state is left unchanged.
- `FollowBase.get` looks up the post before it calls get-or-create. A follow request for
  a missing post therefore creates no connection.

## Model

| member | source | states |
|---|---|---|
| Social.Toggle | snsapp/views.py:100-103 | the user's membership flips; every other user's membership is unchanged |
| Social.ToggleTwice | snsapp/views.py:100-103 | toggling the same user twice gives back the original set |
| Social.Others | snsapp/views.py:16-18 | Home lists unchanged rows, and a post is listed iff its owner is not the requester |
| Social.Mine | snsapp/views.py:32-33 | MyPost lists unchanged rows, and a post is listed iff its owner is the requester |
| Social.Followed | snsapp/views.py:159-163 | FollowList lists unchanged rows, and a post is listed iff its owner is in the following set |
| Social.MineOthersPartition | snsapp/views.py:16-33 | the "mine" and "others" lists are disjoint and together make up the whole posts table |
| Social.CanMutate | snsapp/views.py:72-76 | the owner test reports NotFound iff the post is missing; otherwise it is true iff the stored owner is the requester |
| Social.CreatePost | snsapp/views.py:43-46 | the new row is under the next key, owned by the requester, with the form's title and content and no likes; existing rows and connections are unchanged; the key invariant is kept |
| Social.CreatedPostListed | snsapp/views.py:43-46 | a created post joins the author's own list; it is not in the author's Home list, which is unchanged; it is in every other user's Home list |
| Social.UpdatePost | snsapp/views.py:60-76 | an update succeeds iff the owner test passes; a missing post gives NotFound and a post owned by someone else gives Forbidden; only that row's title and content change |
| Social.DeletePost | snsapp/views.py:79-89 | a delete succeeds iff the owner test passes, with the same NotFound and Forbidden cases; exactly that row is removed and nothing else changes |
| Social.Like | snsapp/views.py:96-104 | the result is NotFound iff the post is missing; otherwise only that post's like set changes, toggled for the requester; other rows, other fields and connections are unchanged |
| Social.LikeTwice | snsapp/views.py:96-104 | two like requests in a row restore the whole store |
| Social.LikeClicks | snsapp/views.py:96-104 | a series of like requests on one post fails iff there is a request and the post is missing; otherwise it keeps the post keys, the connections and the key counter |
| Social.LikeClicksParity | snsapp/views.py:96-104 | after any series of like requests, a user likes the post iff (they liked it before) XOR (they sent an odd number of requests); no other row or field changes |
| Social.LikeClicksOrderFree | snsapp/views.py:96-104 | two series of like requests with the same requests in a different order give the same store |
| Social.GetOrCreate | snsapp/views.py:131 | an existing connection is returned untouched and nothing is created; otherwise exactly one row is added for the requester, with an empty following set, and other rows are unchanged |
| Social.GetOrCreateTwice | snsapp/views.py:161-167 | a second get-or-create creates nothing and returns the same following set |
| Social.Follow | snsapp/views.py:127-137 | the result is NotFound iff the post is missing; otherwise the post owner's membership in the requester's (possibly new) following set flips; posts and other users' connections are unchanged |
| Social.FollowTwice | snsapp/views.py:127-137 | two follow requests restore the following set; if the requester already had a connection, the whole store is restored |
| Social.FollowThenList | snsapp/views.py:127-163 | after following a post's author, every post by that author is in the requester's follow list; after unfollowing, none is; posts by other authors keep their place |
| Social.HelloWorldSession | snsapp/views.py:16-163 | in the create / list / like / unlike / follow / unfollow session, the like set is {B} and then {}, and the follow list holds the post and then is empty |
| Views.Site.GetOrCreateConnection | snsapp/views.py:131 | the new table, the returned following set and the created flag are exactly those of get-or-create |
| Views.Site.Home | snsapp/views.py:16-24 | returns the Home list; its page get-or-creates the requester's connection |
| Views.Site.MyPost | snsapp/views.py:32-33 | returns exactly the requester's own posts |
| Views.Site.CreatePost | snsapp/views.py:43-46 | returns the new key, whose row is owned by the requester; the new state is that of the CreatePost function; the key invariant is kept |
| Views.Site.Detail | snsapp/views.py:49-57 | returns the stored post, or NotFound without touching connections; on success the requester's connection is get-or-created |
| Views.Site.UpdatePost | snsapp/views.py:60-76 | the outcome and new state agree with the UpdatePost function; a refused request leaves the state unchanged |
| Views.Site.DeletePost | snsapp/views.py:79-89 | the outcome and new state agree with the DeletePost function; a refused request leaves the state unchanged |
| Views.Site.Like | snsapp/views.py:96-104 | the in-place add or remove gives the state of the Like function; NotFound leaves the state unchanged |
| Views.Site.Follow | snsapp/views.py:127-137 | the in-place add or remove gives the state of the Follow function; NotFound leaves the state unchanged |
| Views.Site.FollowList | snsapp/views.py:159-168 | after two get-or-creates the table equals a single get-or-create; returns exactly the posts whose owner is in the requester's following set |

## Left out

- URL routing (`snsapp/urls.py`) and redirect targets. LikeHome, LikeDetail, FollowHome and FollowDetail differ from their base classes only in where they redirect, so they are the same operation here.
- Authentication (`LoginRequiredMixin`): every operation receives an already authenticated requester.
- Template rendering and context assembly. Only the state change of their `get_or_create` calls is modelled.
- Form validation and the GET requests that render the create, update and delete forms. Update and delete are modelled as the submitted request, which runs the owner test first.
- Post timestamps and list ordering. The lists are maps from key to row.
- The concurrent get-or-create race and database-level duplicate rows. Connections are keyed by user, so a second row for one user cannot be represented. Concurrent toggles are covered only as a series of requests in some order (LikeClicksOrderFree).
- Connection row ids: a connection's identity is its user.
- The `User` entity beyond its id, and the unseen `models.py`. The field names `user`, `like` and `following` come from how the views use them.
- Cascade deletion: a post's likes live inside its row and disappear with it. Deleting a user is not part of these views.
- A missing post in the owner test raises in the code, so the request fails instead of reaching a "not found" page. Here it is the `NotFound` error.

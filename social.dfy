/**
  The store behind the snsapp views, as values: the posts table (each post with its
  `like` relation folded in), the connections table (one `following` set per user)
  and the next primary key the database hands out. Every view of the application
  is a function here; the class in views.dfy updates the same state in place and is
  proved against these functions.
 */
module Social {

  type UserId = nat
  type PostId = nat

  /** A post row: its owner, its two form fields and the users who like it. */
  datatype Post = Post(user: UserId, title: string, content: string, like: set<UserId>)

  /** The whole database: posts by primary key, each user's following set, next post key. */
  datatype Store = Store(posts: map<PostId, Post>, connections: map<UserId, set<UserId>>, nextId: PostId)

  /** NotFound: `Post.objects.get` finds no row. Forbidden: the owner test fails. */
  datatype Error = NotFound | Forbidden

  datatype Result<T> = Ok(value: T) | Err(error: Error)

  /** The result of `Connection.objects.get_or_create`: the new table, the row's following set, and whether it was inserted. */
  datatype Fetched = Fetched(connections: map<UserId, set<UserId>>, following: set<UserId>, created: bool)

  /** Every post key lies below the next key to be handed out, so creating a post never overwrites one. */
  ghost predicate Valid(s: Store)
  {
    forall id :: id in s.posts ==> id < s.nextId
  }

  /** `r` holds some rows of `posts`, each unchanged. */
  ghost predicate Selects(r: map<PostId, Post>, posts: map<PostId, Post>)
  {
    forall id :: id in r ==> id in posts && r[id] == posts[id]
  }

  /** `b` has the same keys as `a` and the same row under every key except `pid`. */
  ghost predicate OnlyRowChanged(a: map<PostId, Post>, b: map<PostId, Post>, pid: PostId)
  {
    a.Keys == b.Keys && forall id :: id in a && id != pid ==> b[id] == a[id]
  }

  // ---------------------------------------------------------------------------
  // Toggle: the membership flip shared by like and follow

  /** Removes `u` from `s` if it is there, adds it otherwise. */
  function Toggle(s: set<UserId>, u: UserId): (r: set<UserId>)
    ensures u in r <==> u !in s
    ensures forall v :: v != u ==> (v in r <==> v in s)
  {
    if u in s then s - {u} else s + {u}
  }

  lemma ToggleTwice(s: set<UserId>, u: UserId)
    ensures Toggle(Toggle(s, u), u) == s
  {
  }

  // ---------------------------------------------------------------------------
  // The three list queries

  /** Home: every post except the requester's own. */
  function Others(posts: map<PostId, Post>, me: UserId): (r: map<PostId, Post>)
    ensures Selects(r, posts)
    ensures forall id :: id in posts ==> (id in r <==> posts[id].user != me)
  {
    map id | id in posts && posts[id].user != me :: posts[id]
  }

  /** MyPost: the requester's own posts. */
  function Mine(posts: map<PostId, Post>, me: UserId): (r: map<PostId, Post>)
    ensures Selects(r, posts)
    ensures forall id :: id in posts ==> (id in r <==> posts[id].user == me)
  {
    map id | id in posts && posts[id].user == me :: posts[id]
  }

  /** FollowList: the posts whose owner is in `following`. */
  function Followed(posts: map<PostId, Post>, following: set<UserId>): (r: map<PostId, Post>)
    ensures Selects(r, posts)
    ensures forall id :: id in posts ==> (id in r <==> posts[id].user in following)
  {
    map id | id in posts && posts[id].user in following :: posts[id]
  }

  /** The "mine" and "others" lists split the posts table between them. */
  lemma MineOthersPartition(posts: map<PostId, Post>, me: UserId)
    ensures Mine(posts, me).Keys !! Others(posts, me).Keys
    ensures Mine(posts, me) + Others(posts, me) == posts
  {
  }

  // ---------------------------------------------------------------------------
  // Ownership guard, create, update, delete

  /** test_func of UpdatePost and DeletePost: the owner of post `pid` is the requester. */
  function CanMutate(posts: map<PostId, Post>, me: UserId, pid: PostId): (r: Result<bool>)
    ensures r.Err? <==> pid !in posts
    ensures r.Err? ==> r.error == NotFound
    ensures r.Ok? ==> (r.value <==> posts[pid].user == me)
  {
    if pid !in posts then Err(NotFound) else Ok(posts[pid].user == me)
  }

  /** CreatePost: a new row under the next key, owned by the requester, liked by nobody. */
  function CreatePost(s: Store, me: UserId, title: string, content: string): (r: Store)
    ensures s.nextId in r.posts && r.posts[s.nextId] == Post(me, title, content, {})
    ensures r.nextId > s.nextId && r.connections == s.connections
    ensures Valid(s) ==> Valid(r)
    ensures Valid(s) ==> r.posts.Keys == s.posts.Keys + {s.nextId}
    ensures Valid(s) ==> forall id :: id in s.posts ==> r.posts[id] == s.posts[id]
  {
    Store(s.posts[s.nextId := Post(me, title, content, {})], s.connections, s.nextId + 1)
  }

  /** A created post is in its author's own list and in no-one else's exclusion: every other user sees it on Home. */
  lemma CreatedPostListed(s: Store, me: UserId, title: string, content: string, other: UserId)
    requires Valid(s)
    ensures var r := CreatePost(s, me, title, content);
      && s.nextId in Mine(r.posts, me)
      && s.nextId !in Others(r.posts, me)
      && (other != me ==> s.nextId in Others(r.posts, other))
      && Mine(r.posts, me).Keys == Mine(s.posts, me).Keys + {s.nextId}
      && Others(r.posts, me) == Others(s.posts, me)
  {
  }

  /** UpdatePost: only the owner may replace the title and content of an existing post. */
  function UpdatePost(s: Store, me: UserId, pid: PostId, title: string, content: string): (r: Result<Store>)
    ensures r.Ok? <==> CanMutate(s.posts, me, pid) == Ok(true)
    ensures r == Err(NotFound) <==> pid !in s.posts
    ensures r == Err(Forbidden) <==> pid in s.posts && s.posts[pid].user != me
    ensures r.Ok? ==> OnlyRowChanged(s.posts, r.value.posts, pid)
    ensures r.Ok? ==> var p, q := s.posts[pid], r.value.posts[pid];
      q.title == title && q.content == content
      && q.user == p.user && q.like == p.like
      && r.value.connections == s.connections && r.value.nextId == s.nextId
  {
    match CanMutate(s.posts, me, pid)
    case Err(e) => Err(e)
    case Ok(allowed) =>
      if !allowed then Err(Forbidden)
      else
        var p := s.posts[pid];
        Ok(s.(posts := s.posts[pid := p.(title := title, content := content)]))
  }

  /** DeletePost: only the owner may remove an existing post; nothing else changes. */
  function DeletePost(s: Store, me: UserId, pid: PostId): (r: Result<Store>)
    ensures r.Ok? <==> CanMutate(s.posts, me, pid) == Ok(true)
    ensures r == Err(NotFound) <==> pid !in s.posts
    ensures r == Err(Forbidden) <==> pid in s.posts && s.posts[pid].user != me
    ensures r.Ok? ==> && r.value.posts.Keys == s.posts.Keys - {pid}
                      && Selects(r.value.posts, s.posts)
                      && r.value.connections == s.connections && r.value.nextId == s.nextId
  {
    match CanMutate(s.posts, me, pid)
    case Err(e) => Err(e)
    case Ok(allowed) =>
      if !allowed then Err(Forbidden) else Ok(s.(posts := s.posts - {pid}))
  }

  // ---------------------------------------------------------------------------
  // Like toggle

  /** LikeBase.get: flips the requester's membership in the like set of post `pid`, and touches nothing else. */
  function Like(s: Store, me: UserId, pid: PostId): (r: Result<Store>)
    ensures r.Err? <==> pid !in s.posts
    ensures r.Err? ==> r.error == NotFound
    ensures r.Ok? ==> OnlyRowChanged(s.posts, r.value.posts, pid)
    ensures r.Ok? ==> var p, q := s.posts[pid], r.value.posts[pid];
      q.user == p.user && q.title == p.title && q.content == p.content
      && q.like == Toggle(p.like, me)
      && r.value.connections == s.connections && r.value.nextId == s.nextId
  {
    if pid !in s.posts then Err(NotFound)
    else
      var p := s.posts[pid];
      Ok(s.(posts := s.posts[pid := p.(like := Toggle(p.like, me))]))
  }

  /** Two like requests in a row restore the store exactly. */
  lemma LikeTwice(s: Store, me: UserId, pid: PostId)
    ensures Like(s, me, pid).Ok? ==> Like(Like(s, me, pid).value, me, pid) == Ok(s)
  {
    if pid in s.posts {
      var p := s.posts[pid];
      var s1 := Like(s, me, pid).value;
      var s2 := Like(s1, me, pid).value;
      ToggleTwice(p.like, me);
      assert s2.posts[pid] == p;
      assert s2.posts == s.posts;
    }
  }

  /** The store after the like requests of `users`, in that order, all on post `pid`. */
  function LikeClicks(s: Store, pid: PostId, users: seq<UserId>): (r: Result<Store>)
    ensures r.Err? <==> users != [] && pid !in s.posts
    ensures r.Ok? ==> r.value.posts.Keys == s.posts.Keys && r.value.connections == s.connections && r.value.nextId == s.nextId
    decreases |users|
  {
    if users == [] then Ok(s)
    else
      match Like(s, users[0], pid)
      case Err(e) => Err(e)
      case Ok(s1) => LikeClicks(s1, pid, users[1..])
  }

  /** Each like request flips once: after any sequence of requests, a user likes the post
      iff they liked it before XOR they sent an odd number of requests; other rows are untouched. */
  lemma {:induction false} LikeClicksParity(s: Store, pid: PostId, users: seq<UserId>)
    requires pid in s.posts
    ensures LikeClicks(s, pid, users).Ok?
    ensures var p, q := s.posts[pid], LikeClicks(s, pid, users).value.posts[pid];
      && OnlyRowChanged(s.posts, LikeClicks(s, pid, users).value.posts, pid)
      && q.user == p.user && q.title == p.title && q.content == p.content
      && forall u :: u in q.like <==> (u in p.like <==> multiset(users)[u] % 2 == 0)
    decreases |users|
  {
    if users == [] {
      assert multiset(users) == multiset{};
    } else {
      var s1 := Like(s, users[0], pid).value;
      LikeClicksParity(s1, pid, users[1..]);
      var r := LikeClicks(s1, pid, users[1..]).value;
      assert LikeClicks(s, pid, users) == Ok(r);
      var p, p1, q := s.posts[pid], s1.posts[pid], r.posts[pid];
      assert users == [users[0]] + users[1..];
      assert multiset(users) == multiset{users[0]} + multiset(users[1..]);
      forall u
        ensures u in q.like <==> (u in p.like <==> multiset(users)[u] % 2 == 0)
      {
        if u == users[0] {
          assert multiset(users)[u] == multiset(users[1..])[u] + 1;
        } else {
          assert multiset(users)[u] == multiset(users[1..])[u];
        }
      }
    }
  }

  /** Concurrent like requests may be applied in any order: the outcome depends only on how often each user clicked. */
  lemma LikeClicksOrderFree(s: Store, pid: PostId, a: seq<UserId>, b: seq<UserId>)
    requires multiset(a) == multiset(b)
    ensures LikeClicks(s, pid, a) == LikeClicks(s, pid, b)
  {
    if pid !in s.posts {
      assert |a| == |multiset(a)| == |multiset(b)| == |b|;
    } else {
      LikeClicksParity(s, pid, a);
      LikeClicksParity(s, pid, b);
      var ra, rb := LikeClicks(s, pid, a).value, LikeClicks(s, pid, b).value;
      assert ra.posts[pid].like == rb.posts[pid].like;
      assert ra.posts[pid] == rb.posts[pid];
      assert ra.posts == rb.posts;
      assert ra == rb;
    }
  }

  // ---------------------------------------------------------------------------
  // Connections: get-or-create and the follow toggle

  /** Connection.objects.get_or_create(user=me): the existing row untouched, or one new row with an empty following set. */
  function GetOrCreate(conns: map<UserId, set<UserId>>, me: UserId): (r: Fetched)
    ensures r.created <==> me !in conns
    ensures me in r.connections && r.connections[me] == r.following
    ensures r.connections.Keys == conns.Keys + {me}
    ensures forall u :: u in conns ==> r.connections[u] == conns[u]
    ensures r.created ==> r.following == {}
  {
    if me in conns then Fetched(conns, conns[me], false)
    else Fetched(conns[me := {}], {}, true)
  }

  /** A second get-or-create finds the row the first one returned and inserts nothing. */
  lemma GetOrCreateTwice(conns: map<UserId, set<UserId>>, me: UserId)
    ensures var first := GetOrCreate(conns, me);
      var second := GetOrCreate(first.connections, me);
      && !second.created
      && second.connections == first.connections
      && second.following == first.following
  {
  }

  /** FollowBase.get: finds the owner of post `pid`, then get-or-creates the requester's
      connection and flips the owner's membership in its following set. */
  function Follow(s: Store, me: UserId, pid: PostId): (r: Result<Store>)
    ensures r.Err? <==> pid !in s.posts
    ensures r.Err? ==> r.error == NotFound
    ensures r.Ok? ==>
      && r.value.posts == s.posts && r.value.nextId == s.nextId
      && r.value.connections.Keys == s.connections.Keys + {me}
      && r.value.connections[me] == Toggle(GetOrCreate(s.connections, me).following, s.posts[pid].user)
      && forall u :: u in s.connections && u != me ==> r.value.connections[u] == s.connections[u]
  {
    if pid !in s.posts then Err(NotFound)
    else
      var target := s.posts[pid].user;
      var fetched := GetOrCreate(s.connections, me);
      Ok(s.(connections := fetched.connections[me := Toggle(fetched.following, target)]))
  }

  /** Two follow requests in a row restore the following set; the only trace left is the connection row they may have created. */
  lemma FollowTwice(s: Store, me: UserId, pid: PostId)
    ensures Follow(s, me, pid).Ok? ==>
      Follow(Follow(s, me, pid).value, me, pid) == Ok(s.(connections := GetOrCreate(s.connections, me).connections))
    ensures Follow(s, me, pid).Ok? && me in s.connections ==>
      Follow(Follow(s, me, pid).value, me, pid) == Ok(s)
  {
    if pid in s.posts {
      var target := s.posts[pid].user;
      var fetched := GetOrCreate(s.connections, me);
      var s1 := Follow(s, me, pid).value;
      var again := GetOrCreate(s1.connections, me);
      assert !again.created && again.following == Toggle(fetched.following, target);
      ToggleTwice(fetched.following, target);
      var s2 := Follow(s1, me, pid).value;
      assert s2.connections[me] == fetched.following;
      assert s2.connections == fetched.connections;
      assert s2 == s.(connections := fetched.connections);
    }
  }

  /** After following the author of post `pid`, all the author's posts are in the requester's
      follow list; after unfollowing, none are; other authors' posts keep their place. */
  lemma FollowThenList(s: Store, me: UserId, pid: PostId)
    requires pid in s.posts
    ensures var s1, o := Follow(s, me, pid).value, s.posts[pid].user;
      var before := Followed(s.posts, GetOrCreate(s.connections, me).following);
      var after := Followed(s1.posts, GetOrCreate(s1.connections, me).following);
      && (o !in GetOrCreate(s.connections, me).following ==>
            pid in after && forall id :: id in s.posts && s.posts[id].user == o ==> id in after)
      && (o in GetOrCreate(s.connections, me).following ==>
            forall id :: id in s.posts && s.posts[id].user == o ==> id !in after)
      && forall id :: id in s.posts && s.posts[id].user != o ==> (id in after <==> id in before)
  {
  }

  // ---------------------------------------------------------------------------
  // A whole session

  /** User 1 posts "Hello"/"World"; user 2 sees it on Home, likes and unlikes it,
      then follows and unfollows its author from the post. */
  lemma HelloWorldSession()
    ensures var a, b := 1, 2;
      var s1 := CreatePost(Store(map[], map[], 1), a, "Hello", "World");
      var liked := Like(s1, b, 1);
      var unliked := Like(liked.value, b, 1);
      var followed := Follow(unliked.value, b, 1);
      var unfollowed := Follow(followed.value, b, 1);
      && 1 in Others(s1.posts, b) && Others(s1.posts, b)[1].title == "Hello"
      && liked.Ok? && liked.value.posts[1].like == {b}
      && unliked.Ok? && unliked.value.posts[1].like == {}
      && followed.Ok? && 1 in Followed(followed.value.posts, followed.value.connections[b])
      && unfollowed.Ok? && Followed(unfollowed.value.posts, unfollowed.value.connections[b]) == map[]
  {
  }
}

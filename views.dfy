/**
  The view handlers of snsapp, acting on one database object whose posts and
  connections tables they update in place. Each handler is proved against the
  function of module Social that specifies it.
 */
module Views {
  import opened Social

  /** What a mutating view reports: done, or refused with the error of the lookup or guard. */
  datatype Outcome = Done | Failed(error: Error)

  /** The database: posts by primary key, following sets by user, and the key counter. */
  class Site {
    var posts: map<PostId, Post>
    var connections: map<UserId, set<UserId>>
    var nextId: PostId

    function State(): Store
      reads this
    {
      Store(posts, connections, nextId)
    }

    ghost predicate Valid()
      reads this
    {
      Social.Valid(State())
    }

    /** An empty database; the first post gets key 1. */
    constructor ()
      ensures Valid()
      ensures posts == map[] && connections == map[] && nextId == 1
    {
      posts := map[];
      connections := map[];
      nextId := 1;
    }

    /** Connection.objects.get_or_create(user=me). */
    method GetOrCreateConnection(me: UserId) returns (following: set<UserId>, created: bool)
      modifies this`connections
      ensures GetOrCreate(old(connections), me) == Fetched(connections, following, created)
    {
      if me in connections {
        following, created := connections[me], false;
      } else {
        connections := connections[me := {}];
        following, created := {}, true;
      }
    }

    /** Home: others' posts; building its page also get-or-creates the requester's connection. */
    method Home(me: UserId) returns (list: map<PostId, Post>)
      modifies this`connections
      ensures list == Others(posts, me)
      ensures connections == GetOrCreate(old(connections), me).connections
    {
      list := Others(posts, me);
      var following, created := GetOrCreateConnection(me);
    }

    /** MyPost: the requester's own posts. */
    method MyPost(me: UserId) returns (list: map<PostId, Post>)
      ensures list == Mine(posts, me)
    {
      list := Mine(posts, me);
    }

    /** CreatePost.form_valid: stamps the requester as owner and saves under the next key. */
    method CreatePost(me: UserId, title: string, content: string) returns (id: PostId)
      requires Valid()
      modifies this`posts, this`nextId
      ensures Valid()
      ensures id == old(nextId) && id in posts && posts[id].user == me
      ensures State() == Social.CreatePost(old(State()), me, title, content)
    {
      id := nextId;
      posts := posts[id := Post(me, title, content, {})];
      nextId := nextId + 1;
    }

    /** DetailPost: the post under `pid` (404 otherwise); its page get-or-creates the requester's connection. */
    method Detail(me: UserId, pid: PostId) returns (r: Result<Post>)
      modifies this`connections
      ensures r.Ok? <==> pid in posts
      ensures r.Ok? ==> r.value == posts[pid] && connections == GetOrCreate(old(connections), me).connections
      ensures r.Err? ==> r.error == NotFound && connections == old(connections)
    {
      if pid !in posts {
        return Err(NotFound);
      }
      r := Ok(posts[pid]);
      var following, created := GetOrCreateConnection(me);
    }

    /** UpdatePost: test_func, then the new title and content are saved. */
    method UpdatePost(me: UserId, pid: PostId, title: string, content: string) returns (r: Outcome)
      requires Valid()
      modifies this`posts
      ensures Valid()
      ensures match Social.UpdatePost(old(State()), me, pid, title, content)
        case Ok(s) => r == Done && State() == s
        case Err(e) => r == Failed(e) && State() == old(State())
    {
      match CanMutate(posts, me, pid)
      case Err(e) =>
        r := Failed(e);
      case Ok(allowed) =>
        if !allowed {
          r := Failed(Forbidden);
        } else {
          var post := posts[pid];
          posts := posts[pid := post.(title := title, content := content)];
          r := Done;
        }
    }

    /** DeletePost: test_func, then the row is removed. */
    method DeletePost(me: UserId, pid: PostId) returns (r: Outcome)
      requires Valid()
      modifies this`posts
      ensures Valid()
      ensures match Social.DeletePost(old(State()), me, pid)
        case Ok(s) => r == Done && State() == s
        case Err(e) => r == Failed(e) && State() == old(State())
    {
      match CanMutate(posts, me, pid)
      case Err(e) =>
        r := Failed(e);
      case Ok(allowed) =>
        if !allowed {
          r := Failed(Forbidden);
        } else {
          posts := posts - {pid};
          r := Done;
        }
    }

    /** LikeBase.get: removes the requester from the post's like set if there, adds them otherwise. */
    method Like(me: UserId, pid: PostId) returns (r: Outcome)
      requires Valid()
      modifies this`posts
      ensures Valid()
      ensures match Social.Like(old(State()), me, pid)
        case Ok(s) => r == Done && State() == s
        case Err(e) => r == Failed(e) && State() == old(State())
    {
      if pid !in posts {
        return Failed(NotFound);
      }
      var post := posts[pid];
      if me in post.like {
        posts := posts[pid := post.(like := post.like - {me})];
      } else {
        posts := posts[pid := post.(like := post.like + {me})];
      }
      r := Done;
    }

    /** FollowBase.get: the post's owner is removed from, or added to, the requester's following set. */
    method Follow(me: UserId, pid: PostId) returns (r: Outcome)
      requires Valid()
      modifies this`connections
      ensures Valid()
      ensures match Social.Follow(old(State()), me, pid)
        case Ok(s) => r == Done && State() == s
        case Err(e) => r == Failed(e) && State() == old(State())
    {
      if pid !in posts {
        return Failed(NotFound);
      }
      var target := posts[pid].user;
      var following, created := GetOrCreateConnection(me);
      if target in following {
        connections := connections[me := following - {target}];
      } else {
        connections := connections[me := following + {target}];
      }
      r := Done;
    }

    /** FollowList: get-or-creates the requester's connection (for the query and again for
        the page) and lists the posts of the users it follows. */
    method FollowList(me: UserId) returns (list: map<PostId, Post>)
      modifies this`connections
      ensures connections == GetOrCreate(old(connections), me).connections
      ensures list == Followed(posts, connections[me])
    {
      var following, created := GetOrCreateConnection(me);
      list := Followed(posts, following);
      var again, createdAgain := GetOrCreateConnection(me);
    }
  }
}

// The administration page of src/pages/Admin.tsx.
//
// On mount the page loads the blog posts (newest first) and, for an
// administrator, the user profiles, and computes four figures from them.
// Publishing, unpublishing and deleting a post ask the database first and
// then patch the page's own copy of the list.  Each database answer is a
// parameter (a query that failed, or the rows it returned); the
// confirmation dialog's answer is a parameter too.  The toasts the page
// raises are recorded in `toasts`.

module AdminPage {
  import opened Common

  datatype Post = Post(
    id: string, title: string, slug: string, excerpt: string, category: string,
    isPublished: bool, createdAt: string, viewCount: Option<int>, authorName: string)

  /** A row of `profiles` as the page selects it. */
  datatype Profile = Profile(userId: string, displayName: string, createdAt: string)

  datatype User = User(id: string, email: string, createdAt: string, displayNames: seq<string>, roles: seq<string>)

  datatype Stats = Stats(totalPosts: nat, publishedPosts: nat, totalUsers: nat, totalViews: int)

  /** What a query returns: an error, or data that may be null. */
  datatype Query<T> = Failed | Rows(data: Option<T>)

  datatype Toast = Toast(title: string, description: string, destructive: bool)

  const AdminRole: string := "admin"
  const DefaultUserRole: string := "user"

  // ---------------------------------------------------------------------
  // The figures

  predicate Published(p: Post) { p.isPublished }

  /** `post.view_count || 0`. */
  function Views(p: Post): int
  {
    if p.viewCount.Some? then p.viewCount.value else 0
  }

  /** The `reduce` that sums the view counts. */
  function TotalViews(posts: seq<Post>): int
  {
    if posts == [] then 0 else TotalViews(posts[..|posts| - 1]) + Views(posts[|posts| - 1])
  }

  lemma {:induction false} TotalViewsAppend(a: seq<Post>, b: seq<Post>)
    ensures TotalViews(a + b) == TotalViews(a) + TotalViews(b)
    decreases |b|
  {
    if b == [] {
      assert a + b == a;
    } else {
      assert (a + b)[..|a + b| - 1] == a + b[..|b| - 1];
      TotalViewsAppend(a, b[..|b| - 1]);
    }
  }

  /** Posts without a view count add nothing, and the total is never negative
    * when no count is. */
  lemma {:induction false} TotalViewsBounds(posts: seq<Post>)
    requires forall i :: 0 <= i < |posts| ==> Views(posts[i]) >= 0
    ensures TotalViews(posts) >= 0
    ensures (forall i :: 0 <= i < |posts| ==> posts[i].viewCount.None?) ==> TotalViews(posts) == 0
  {
    if posts != [] {
      TotalViewsBounds(posts[..|posts| - 1]);
    }
  }

  /** The stats as written: totalUsers reads the `users` state the page had
    * when fetchData was created, not the users it has just loaded. */
  function StatsAsWritten(posts: seq<Post>, role: Option<string>, usersBefore: seq<User>): (st: Stats)
    ensures st.totalPosts == |posts| && st.publishedPosts <= st.totalPosts
    ensures st.publishedPosts == |Filter(posts, Published)| && st.totalViews == TotalViews(posts)
    ensures role != Some(AdminRole) ==> st.totalUsers == 0
    ensures role == Some(AdminRole) ==> st.totalUsers == |usersBefore|
  {
    Stats(|posts|, |Filter(posts, Published)|,
          if role == Some(AdminRole) then |usersBefore| else 0, TotalViews(posts))
  }

  /** The stats with totalUsers counting the users just loaded. */
  function StatsOf(posts: seq<Post>, role: Option<string>, loaded: seq<User>): (st: Stats)
    ensures st.totalPosts == |posts| && st.publishedPosts <= st.totalPosts
    ensures st.publishedPosts == |Filter(posts, Published)| && st.totalViews == TotalViews(posts)
    ensures role != Some(AdminRole) ==> st.totalUsers == 0
    ensures role == Some(AdminRole) ==> st.totalUsers == |loaded|
  {
    Stats(|posts|, |Filter(posts, Published)|,
          if role == Some(AdminRole) then |loaded| else 0, TotalViews(posts))
  }

  /** The page fetches once, on mount, while `users` is still empty: as
    * written an administrator always sees 0 users, however many profiles
    * the query returned. */
  lemma TotalUsersAlwaysZeroOnMount(posts: seq<Post>, profiles: seq<Profile>)
    requires |profiles| > 0
    ensures StatsAsWritten(posts, Some(AdminRole), []).totalUsers == 0
    ensures StatsOf(posts, Some(AdminRole), Transform(Some(profiles))).totalUsers == |profiles| > 0
  {
  }

  /** Published and unpublished posts make up all posts. */
  lemma PublishedAndDrafts(posts: seq<Post>)
    ensures |Filter(posts, Published)| + |Filter(posts, (p: Post) => !p.isPublished)| == |posts|
  {
    FilterComplement(posts, Published, (p: Post) => !p.isPublished);
  }

  // ---------------------------------------------------------------------
  // Users

  function TransformProfile(p: Profile): User
  {
    User(p.userId, "", p.createdAt, [p.displayName], [DefaultUserRole])
  }

  /** `userData?.map(...) || []`. */
  function Transform(profiles: Option<seq<Profile>>): (us: seq<User>)
    ensures profiles.None? ==> us == []
    ensures profiles.Some? ==> |us| == |profiles.value|
    ensures profiles.Some? ==> forall i :: 0 <= i < |us| ==>
              us[i].id == profiles.value[i].userId && us[i].createdAt == profiles.value[i].createdAt
              && us[i].displayNames == [profiles.value[i].displayName]
    ensures forall u :: u in us ==> u.email == "" && u.roles == [DefaultUserRole]
  {
    if profiles.None? then [] else seq(|profiles.value|, i requires 0 <= i < |profiles.value| => TransformProfile(profiles.value[i]))
  }

  // ---------------------------------------------------------------------
  // Local list updates

  /** The `map` of togglePostPublish: the posts with that id get the new status. */
  function SetPublished(posts: seq<Post>, id: string, status: bool): (r: seq<Post>)
    ensures |r| == |posts|
    ensures forall i :: 0 <= i < |posts| ==>
              r[i] == (if posts[i].id == id then posts[i].(isPublished := status) else posts[i])
  {
    seq(|posts|, i requires 0 <= i < |posts| => if posts[i].id == id then posts[i].(isPublished := status) else posts[i])
  }

  /** The `filter` of deletePost. */
  function Without(posts: seq<Post>, id: string): (r: seq<Post>)
    ensures forall p :: p in r <==> p in posts && p.id != id
    ensures |r| <= |posts|
  {
    Filter(posts, (p: Post) => p.id != id)
  }

  /** Putting the old status back restores the list. */
  lemma ToggleBackRestores(posts: seq<Post>, id: string, status: bool)
    requires forall p :: p in posts && p.id == id ==> p.isPublished == !status
    ensures SetPublished(SetPublished(posts, id, status), id, !status) == posts
  {
  }

  /** Deleting a post makes an earlier status change to it irrelevant. */
  lemma {:induction false} DeleteAfterToggle(posts: seq<Post>, id: string, status: bool)
    ensures Without(SetPublished(posts, id, status), id) == Without(posts, id)
  {
    if posts != [] {
      var t := SetPublished(posts, id, status);
      assert t[1..] == SetPublished(posts[1..], id, status);
      DeleteAfterToggle(posts[1..], id, status);
    }
  }

  /** Deleting keeps every other post, in order: an id not in the list
    * leaves it alone, and deletion works piece by piece. */
  lemma DeleteKeepsOthers(a: seq<Post>, b: seq<Post>, id: string)
    ensures Without(a + b, id) == Without(a, id) + Without(b, id)
    ensures (forall p :: p in a ==> p.id != id) ==> Without(a, id) == a
  {
    FilterAppend(a, b, (p: Post) => p.id != id);
    if forall p :: p in a ==> p.id != id {
      FilterAll(a, (p: Post) => p.id != id);
    }
  }

  /** Publishing changes the published figure by the posts with that id. */
  lemma {:induction false} PublishedAfterSet(posts: seq<Post>, id: string, status: bool)
    ensures |Filter(SetPublished(posts, id, status), Published)|
            == |Filter(Without(posts, id), Published)| + (if status then |posts| - |Without(posts, id)| else 0)
  {
    if posts != [] {
      var t := SetPublished(posts, id, status);
      assert t[1..] == SetPublished(posts[1..], id, status);
      PublishedAfterSet(posts[1..], id, status);
    }
  }

  // ---------------------------------------------------------------------
  // The page

  datatype Page = Page(
    blogPosts: seq<Post>, users: seq<User>, loading: bool, stats: Stats, userRole: Option<string>, toasts: seq<Toast>)

  const LoadFailed: Toast := Toast("Error", "Failed to load admin data", true)
  const UpdateFailed: Toast := Toast("Error", "Failed to update post", true)
  const DeleteFailed: Toast := Toast("Error", "Failed to delete post", true)
  const Deleted: Toast := Toast("Success", "Post deleted successfully", false)

  function UpdatedToast(published: bool): Toast
  {
    Toast("Success", if published then "Post published successfully" else "Post unpublished successfully", false)
  }

  /** Whether fetchData stops at a failed query: the posts query, or the
    * profiles query when the page is an administrator's. */
  predicate FetchFails(role: Option<string>, posts: Query<seq<Post>>, profiles: Query<seq<Profile>>)
  {
    posts.Failed? || (role == Some(AdminRole) && profiles.Failed?)
  }

  /** `posts || []`. */
  function PostsOf(posts: Query<seq<Post>>): seq<Post>
  {
    if posts.Rows? && posts.data.Some? then posts.data.value else []
  }

  /** fetchData as written, once its queries have answered.  A failed query
    * stops the sequence where it fails; loading always ends.  The stats read
    * the `users` the page held when fetchData was created (`s.users`), not
    * the users it has just loaded. */
  function AfterFetch(s: Page, posts: Query<seq<Post>>, profiles: Query<seq<Profile>>): (r: Page)
    ensures !r.loading && r.userRole == s.userRole
    ensures FetchFails(s.userRole, posts, profiles) ==>
              r.stats == s.stats && r.users == s.users && r.toasts == s.toasts + [LoadFailed]
    ensures !FetchFails(s.userRole, posts, profiles) ==>
              r.stats == StatsAsWritten(r.blogPosts, s.userRole, s.users) && r.toasts == s.toasts
    ensures r.blogPosts == if posts.Failed? then s.blogPosts else PostsOf(posts)
    ensures r.users == if s.userRole == Some(AdminRole) && !FetchFails(s.userRole, posts, profiles)
                       then Transform(profiles.data) else s.users
  {
    if posts.Failed? then s.(loading := false, toasts := s.toasts + [LoadFailed])
    else
      var ps := PostsOf(posts);
      if s.userRole == Some(AdminRole) && profiles.Failed? then
        s.(blogPosts := ps, loading := false, toasts := s.toasts + [LoadFailed])
      else
        var us := if s.userRole == Some(AdminRole) then Transform(profiles.data) else s.users;
        s.(blogPosts := ps, users := us, loading := false, stats := StatsAsWritten(ps, s.userRole, s.users))
  }

  /** fetchData as evidently intended: totalUsers counts the users just loaded. */
  function AfterFetchCorrected(s: Page, posts: Query<seq<Post>>, profiles: Query<seq<Profile>>): (r: Page)
    ensures r.blogPosts == AfterFetch(s, posts, profiles).blogPosts
    ensures r.users == AfterFetch(s, posts, profiles).users
    ensures !FetchFails(s.userRole, posts, profiles) ==> r.stats == StatsOf(r.blogPosts, s.userRole, r.users)
  {
    var w := AfterFetch(s, posts, profiles);
    if FetchFails(s.userRole, posts, profiles) then w
    else w.(stats := StatsOf(w.blogPosts, s.userRole, w.users))
  }

  function AfterToggle(s: Page, id: string, currentStatus: bool, succeeded: bool): Page
  {
    if succeeded then s.(blogPosts := SetPublished(s.blogPosts, id, !currentStatus), toasts := s.toasts + [UpdatedToast(!currentStatus)])
    else s.(toasts := s.toasts + [UpdateFailed])
  }

  function AfterDelete(s: Page, id: string, confirmed: bool, succeeded: bool): Page
  {
    if !confirmed then s
    else if succeeded then s.(blogPosts := Without(s.blogPosts, id), toasts := s.toasts + [Deleted])
    else s.(toasts := s.toasts + [DeleteFailed])
  }

  /** A failed update or delete, or a declined confirmation, leaves the list
    * as it was; the stats are never recomputed by either. */
  lemma FailuresKeepList(s: Page, id: string, currentStatus: bool, confirmed: bool, succeeded: bool)
    ensures !succeeded ==> AfterToggle(s, id, currentStatus, succeeded).blogPosts == s.blogPosts
    ensures !succeeded || !confirmed ==> AfterDelete(s, id, confirmed, succeeded).blogPosts == s.blogPosts
    ensures !confirmed ==> AfterDelete(s, id, confirmed, succeeded) == s
    ensures AfterToggle(s, id, currentStatus, succeeded).stats == s.stats
    ensures AfterDelete(s, id, confirmed, succeeded).stats == s.stats
  {
  }

  /** A successful delete leaves no post with that id. */
  lemma DeleteRemovesId(s: Page, id: string)
    ensures forall p :: p in AfterDelete(s, id, true, true).blogPosts ==> p.id != id
    ensures |AfterDelete(s, id, true, true).toasts| == |s.toasts| + 1
  {
  }

  /** As written, the mount load of an administrator's page counts no users,
    * however many profiles it loaded, while it does load them all. */
  lemma FetchOnMountCountsNoUsers(ps: seq<Post>, profiles: seq<Profile>)
    ensures var s := Page([], [], true, Stats(0, 0, 0, 0), Some(AdminRole), []);
      var r := AfterFetch(s, Rows(Some(ps)), Rows(Some(profiles)));
      r.stats.totalUsers == 0 && |r.users| == |profiles| && r.stats.totalPosts == |ps|
  {
  }

  /** With the correction, a load whose queries both answer shows the stats
    * of what it loaded; without the admin role no users are counted. */
  lemma FetchFacts(s: Page, ps: seq<Post>, profiles: seq<Profile>)
    ensures var r := AfterFetchCorrected(s, Rows(Some(ps)), Rows(Some(profiles)));
      r.blogPosts == ps && !r.loading && r.stats.totalPosts == |ps|
      && (s.userRole == Some(AdminRole) ==> r.stats.totalUsers == |profiles| && r.users == Transform(Some(profiles)))
      && (s.userRole != Some(AdminRole) ==> r.stats.totalUsers == 0 && r.users == s.users)
    ensures AfterFetchCorrected(s, Failed, Rows(Some(profiles))).blogPosts == s.blogPosts
    ensures AfterFetchCorrected(s, Rows(None), Rows(Some(profiles))).blogPosts == []
  {
  }

  class AdminPanel {
    var blogPosts: seq<Post>
    var users: seq<User>
    var loading: bool
    var stats: Stats
    const userRole: Option<string>
    var toasts: seq<Toast>

    function State(): Page
      reads this
    {
      Page(blogPosts, users, loading, stats, userRole, toasts)
    }

    constructor (userRole: Option<string>)
      ensures State() == Page([], [], true, Stats(0, 0, 0, 0), userRole, [])
    {
      blogPosts := [];
      users := [];
      loading := true;
      stats := Stats(0, 0, 0, 0);
      this.userRole := userRole;
      toasts := [];
    }

    method FetchData(posts: Query<seq<Post>>, profiles: Query<seq<Profile>>)
      modifies this
      ensures State() == AfterFetch(old(State()), posts, profiles)
    {
      var usersBefore := users;
      loading := true;
      if posts.Failed? {
        toasts := toasts + [LoadFailed];
        loading := false;
        return;
      }
      var ps := if posts.data.Some? then posts.data.value else [];
      blogPosts := ps;
      if userRole == Some(AdminRole) {
        if profiles.Failed? {
          toasts := toasts + [LoadFailed];
          loading := false;
          return;
        }
        users := Transform(profiles.data);
      }
      stats := StatsAsWritten(ps, userRole, usersBefore);
      loading := false;
    }

    method TogglePostPublish(postId: string, currentStatus: bool, succeeded: bool)
      modifies this
      ensures State() == AfterToggle(old(State()), postId, currentStatus, succeeded)
    {
      if !succeeded {
        toasts := toasts + [UpdateFailed];
        return;
      }
      blogPosts := SetPublished(blogPosts, postId, !currentStatus);
      toasts := toasts + [UpdatedToast(!currentStatus)];
    }

    method DeletePost(postId: string, confirmed: bool, succeeded: bool)
      modifies this
      ensures State() == AfterDelete(old(State()), postId, confirmed, succeeded)
    {
      if !confirmed {
        return;
      }
      if !succeeded {
        toasts := toasts + [DeleteFailed];
        return;
      }
      blogPosts := Without(blogPosts, postId);
      toasts := toasts + [Deleted];
    }
  }
}

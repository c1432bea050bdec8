/** The resources section: a fixed list of posts, category tabs, and the
    filter that decides which posts are listed for the active tab. */
module Blog {

  /** A post, reduced to the fields that identify and classify it. */
  datatype Post = Post(id: nat, title: string, category: string, kind: string, featured: bool)

  const BlogPosts: seq<Post> := [
    Post(1, "10 Analytics Metrics Every Business Should Track", "analytics", "article", true),
    Post(2, "Advanced Data Visualization Techniques", "tutorials", "video", false),
    Post(3, "Marketing ROI: How to Measure Success", "marketing", "article", false),
    Post(4, "Real-time Analytics Implementation", "tutorials", "article", false),
    Post(5, "Customer Journey Analytics", "analytics", "video", false),
    Post(6, "Social Media Analytics Deep Dive", "marketing", "article", false)
  ]

  /** The tab id that lists every post. */
  const All: string := "all"

  /** A category tab as declared: its id, caption and the count printed beside it. */
  datatype CategoryTab = CategoryTab(id: string, name: string, count: nat)

  const Categories: seq<CategoryTab> := [
    CategoryTab("all", "All", 8),
    CategoryTab("analytics", "Analytics", 3),
    CategoryTab("marketing", "Marketing", 2),
    CategoryTab("tutorials", "Tutorials", 3)
  ]

  /** `a` is `b` with some elements left out, the rest kept in order. */
  predicate IsSubsequence<T(==)>(a: seq<T>, b: seq<T>)
    decreases |b|
  {
    if |a| == 0 then true
    else if |b| == 0 then false
    else if a[0] == b[0] then IsSubsequence(a[1..], b[1..])
    else IsSubsequence(a, b[1..])
  }

  /** `posts.filter(post => post.category === c)`: every post of category `c`,
      each as often as in `posts`, nothing else, in the original order. */
  function FilterCategory(posts: seq<Post>, c: string): (r: seq<Post>)
    ensures forall p :: multiset(r)[p] == if p.category == c then multiset(posts)[p] else 0
    ensures IsSubsequence(r, posts)
    decreases |posts|
  {
    if |posts| == 0 then []
    else
      var rest := FilterCategory(posts[1..], c);
      assert posts == [posts[0]] + posts[1..];
      if posts[0].category == c then [posts[0]] + rest
      else
        assert multiset(rest)[posts[0]] == 0;
        assert |rest| > 0 ==> rest[0] != posts[0] by {
          if |rest| > 0 {
            assert rest[0] in multiset(rest);
          }
        }
        rest
  }

  /** The posts listed for the active tab: all of them for "all", otherwise
      the category filter. */
  function FilteredPosts(posts: seq<Post>, active: string): (r: seq<Post>)
    ensures active == All ==> r == posts
    ensures active != All ==> forall p :: multiset(r)[p] == if p.category == active then multiset(posts)[p] else 0
    ensures IsSubsequence(r, posts)
    ensures |r| <= |posts|
  {
    if active == All then
      SubsequenceOfSelf(posts);
      posts
    else
      var r := FilterCategory(posts, active);
      SubsequenceNoLonger(r, posts);
      r
  }

  lemma {:induction false} SubsequenceOfSelf<T>(s: seq<T>)
    ensures IsSubsequence(s, s)
    decreases |s|
  {
    if |s| > 0 {
      SubsequenceOfSelf(s[1..]);
    }
  }

  lemma {:induction false} SubsequenceNoLonger<T>(a: seq<T>, b: seq<T>)
    requires IsSubsequence(a, b)
    ensures |a| <= |b|
    decreases |b|
  {
    if |a| > 0 {
      if a[0] == b[0] {
        SubsequenceNoLonger(a[1..], b[1..]);
      } else {
        SubsequenceNoLonger(a, b[1..]);
      }
    }
  }

  /** A category no post carries lists nothing. */
  lemma UnknownCategoryIsEmpty(posts: seq<Post>, c: string)
    requires c != All
    requires forall j :: 0 <= j < |posts| ==> posts[j].category != c
    ensures FilteredPosts(posts, c) == []
  {
  }

  /** When every post carries one of three distinct categories, the three
      tabs together list every post exactly once. */
  lemma ThreeCategoriesPartition(posts: seq<Post>, a: string, b: string, c: string)
    requires a != b && b != c && a != c
    requires forall j :: 0 <= j < |posts| ==> posts[j].category in {a, b, c}
    ensures multiset(FilterCategory(posts, a)) + multiset(FilterCategory(posts, b))
            + multiset(FilterCategory(posts, c)) == multiset(posts)
  {
    var ma, mb, mc := multiset(FilterCategory(posts, a)), multiset(FilterCategory(posts, b)),
                      multiset(FilterCategory(posts, c));
    forall x
      ensures (ma + mb + mc)[x] == multiset(posts)[x]
    {
      var n := multiset(posts)[x];
      assert ma[x] == if x.category == a then n else 0;
      assert mb[x] == if x.category == b then n else 0;
      assert mc[x] == if x.category == c then n else 0;
      if x in posts {
        var j :| 0 <= j < |posts| && posts[j] == x;
        assert x.category == a || x.category == b || x.category == c;
      } else {
        assert n == 0;
      }
    }
    assert ma + mb + mc == multiset(posts);
  }

  /** The three content tabs split the six posts two, two and two. */
  lemma BlogPartition()
    ensures |FilteredPosts(BlogPosts, "analytics")| == 2
    ensures |FilteredPosts(BlogPosts, "marketing")| == 2
    ensures |FilteredPosts(BlogPosts, "tutorials")| == 2
    ensures multiset(FilteredPosts(BlogPosts, "analytics")) + multiset(FilteredPosts(BlogPosts, "marketing"))
            + multiset(FilteredPosts(BlogPosts, "tutorials")) == multiset(BlogPosts)
  {
    ThreeCategoriesPartition(BlogPosts, "analytics", "marketing", "tutorials");
    BlogCounts();
    CountMatchesFilter(BlogPosts, "analytics");
    CountMatchesFilter(BlogPosts, "marketing");
    CountMatchesFilter(BlogPosts, "tutorials");
  }

  lemma BlogCounts()
    ensures CountCategory(BlogPosts, "analytics") == 2
    ensures CountCategory(BlogPosts, "marketing") == 2
    ensures CountCategory(BlogPosts, "tutorials") == 2
  {
    var s := BlogPosts;
    assert s[1..][1..][1..][1..][1..][1..] == [];
    assert s[5..] == s[1..][1..][1..][1..][1..];
  }

  // ---------------------------------------------------------------------------
  // Tab counts

  /** How many posts carry category `c`. */
  function CountCategory(posts: seq<Post>, c: string): nat
    decreases |posts|
  {
    if |posts| == 0 then 0
    else (if posts[0].category == c then 1 else 0) + CountCategory(posts[1..], c)
  }

  lemma {:induction false} CountMatchesFilter(posts: seq<Post>, c: string)
    ensures CountCategory(posts, c) == |FilterCategory(posts, c)|
    decreases |posts|
  {
    if |posts| > 0 {
      CountMatchesFilter(posts[1..], c);
    }
  }

  /** The number a tab should print: how many posts it lists. */
  function DerivedCount(posts: seq<Post>, id: string): (n: nat)
    ensures n == |FilteredPosts(posts, id)|
  {
    if id == All then |posts|
    else
      CountMatchesFilter(posts, id);
      CountCategory(posts, id)
  }

  /** The tabs with each count computed from the posts instead of written in. */
  function CountedTabs(posts: seq<Post>): (tabs: seq<CategoryTab>)
    ensures |tabs| == |Categories|
    ensures forall j :: 0 <= j < |tabs| ==>
              tabs[j].id == Categories[j].id && tabs[j].name == Categories[j].name
              && tabs[j].count == |FilteredPosts(posts, tabs[j].id)|
  {
    seq(|Categories|, j requires 0 <= j < |Categories| =>
      Categories[j].(count := DerivedCount(posts, Categories[j].id)))
  }

  /** The declared counts 8, 3, 2, 3 do not match the 6, 2, 2, 2 posts listed. */
  lemma DeclaredCountsDisagree()
    ensures Categories[0].count == 8 && |FilteredPosts(BlogPosts, Categories[0].id)| == 6
    ensures Categories[1].count == 3 && |FilteredPosts(BlogPosts, Categories[1].id)| == 2
    ensures Categories[3].count == 3 && |FilteredPosts(BlogPosts, Categories[3].id)| == 2
    ensures CountedTabs(BlogPosts)[0].count == 6
  {
    BlogPartition();
  }
}

/** The community board: the category tab filter, the badge and label of a
    category, and where the links lead with and without a session. */
module Community {
  import opened JsValues
  import opened Session
  import Text
  import Seqs
  import MockStore

  type Post = MockStore.Post

  /** `filteredPosts` for the selected tab. */
  function FilteredPosts(posts: seq<Post>, activeTab: string): (r: seq<Post>)
    ensures activeTab == "all" ==> r == posts
    ensures activeTab != "all" ==> forall p :: p in r <==> p in posts && p.category == activeTab
    ensures |r| <= |posts|
  {
    if activeTab == "all" then posts
    else Seqs.Filter(posts, (p: Post) => p.category == activeTab)
  }

  /** The filter keeps the posts of a tab in the order the list has them. */
  lemma FilteredAppend(a: seq<Post>, b: seq<Post>, activeTab: string)
    ensures FilteredPosts(a + b, activeTab) == FilteredPosts(a, activeTab) + FilteredPosts(b, activeTab)
  {
    if activeTab != "all" {
      Seqs.FilterAppend(a, b, (p: Post) => p.category == activeTab);
    }
  }

  /** A post added at the head of the list shows at the top of "all" and of
      its own tab, and nowhere else. */
  lemma NewPostOnTop(p: Post, posts: seq<Post>, activeTab: string)
    ensures FilteredPosts([p] + posts, activeTab) ==
      (if activeTab == "all" || p.category == activeTab then [p] else []) + FilteredPosts(posts, activeTab)
  {
    FilteredAppend([p], posts, activeTab);
    if activeTab != "all" {
      assert [p][1..] == [];
    }
  }

  /** `getBadgeType(category)`: one of four badges, the default "warning"
      going with the default label. */
  function BadgeType(category: string): (b: string)
    ensures b in ["emergency", "normal", "secret", "warning"]
    ensures b == "warning" <==> KoreanCategory(category) == "자유"
  {
    match category
    case "urgent" => "emergency"
    case "question" => "normal"
    case "secret" => "secret"
    case _ => "warning"
  }

  /** `getKoreanCategory(category)`: one of four labels; any label but the
      default 자유 names one of the codes the write form offers. */
  function KoreanCategory(category: string): (l: string)
    ensures l in ["긴급", "질문", "비밀", "자유"]
    ensures l != "자유" ==> category in CATEGORY_CODES
  {
    match category
    case "urgent" => "긴급"
    case "question" => "질문"
    case "secret" => "비밀"
    case _ => "자유"
  }

  /** The codes the write form offers. */
  const CATEGORY_CODES: seq<string> := ["free", "question", "urgent", "secret"]

  /** Badge and label fall back together: a post gets the "warning" badge
      exactly when it is labelled 자유, which is every code other than
      urgent, question and secret (so "free" and unknown codes alike). */
  lemma DefaultBadgeIffFreeLabel(category: string)
    ensures BadgeType(category) == "warning" <==> KoreanCategory(category) == "자유"
    ensures KoreanCategory(category) == "자유" <==> category !in ["urgent", "question", "secret"]
  {
  }

  /** The four codes get four different labels and four different badges. */
  lemma CodesDistinguished(i: nat, j: nat)
    requires i < |CATEGORY_CODES| && j < |CATEGORY_CODES| && i != j
    ensures KoreanCategory(CATEGORY_CODES[i]) != KoreanCategory(CATEGORY_CODES[j])
    ensures BadgeType(CATEGORY_CODES[i]) != BadgeType(CATEGORY_CODES[j])
  {
  }

  /** Where the write button leads: the form only with a session. */
  function WriteHref(session: Option<SessionUser>): (h: string)
    ensures h == "/login" <==> session.None?
  {
    if session.Some? then "/write" else "/login"
  }

  /** Where a post title leads: the post's page only with a session. */
  function PostHref(session: Option<SessionUser>, id: int): (h: string)
    ensures h == "/login" <==> session.None?
    ensures session.Some? ==> Text.StartsWith(h, "/community/")
  {
    var h := if session.Some? then "/community/" + Text.IntToDecimal(id) else "/login";
    assert session.Some? ==> h[..|"/community/"|] == "/community/";
    h
  }

  /** Without a session every link leads to the login page; with one, the
      write button leads to the form and each post to its own page, distinct
      posts to distinct pages. */
  lemma LinkTargets(session: Option<SessionUser>, id: int, other: int)
    ensures session.None? ==> WriteHref(session) == "/login" && PostHref(session, id) == "/login"
    ensures session.Some? ==> WriteHref(session) == "/write"
    ensures session.Some? ==> Text.StartsWith(PostHref(session, id), "/community/")
    ensures session.Some? && id != other ==> PostHref(session, id) != PostHref(session, other)
  {
    if session.Some? {
      var prefix := "/community/";
      assert PostHref(session, id)[..|prefix|] == prefix;
      if id != other && PostHref(session, id) == PostHref(session, other) {
        var a, b := Text.IntToDecimal(id), Text.IntToDecimal(other);
        assert a == PostHref(session, id)[|prefix|..];
        assert b == PostHref(session, other)[|prefix|..];
        Text.IntToDecimalInjective(id, other);
      }
    }
  }
}

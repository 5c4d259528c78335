/** The home page's list of popular posts: how many are shown, which one is
    locked for visitors without a session, and what each row shows. */
module Home {
  import opened JsValues
  import opened Session
  import Seqs
  import Community

  /** A fetched post as the list reads it; the counters may be missing. */
  datatype HotPost = HotPost(
    id: string,
    title: string,
    category: string,
    commentCount: Option<int>,
    views: Option<int>)

  /** `visibleLimit`: one more row with a session than without. */
  function VisibleLimit(session: Option<SessionUser>): (n: nat)
    ensures n == 5 <==> session.Some?
    ensures n == 4 <==> session.None?
  {
    if session.Some? then 5 else 4
  }

  function Min(a: nat, b: nat): nat {
    if a <= b then a else b
  }

  /** `posts.slice(0, visibleLimit)`. */
  function DisplayedPosts(posts: seq<HotPost>, session: Option<SessionUser>): (r: seq<HotPost>)
    ensures |r| == Min(|posts|, VisibleLimit(session))
    ensures r == posts[..|r|]
  {
    posts[..Min(|posts|, VisibleLimit(session))]
  }

  /** `isLocked` for the row at `index`: only a visitor's last row. */
  predicate IsLocked(session: Option<SessionUser>, index: nat)
    ensures IsLocked(session, index) ==> session.None? && index == VisibleLimit(session) - 1
  {
    session.None? && index == 3
  }

  /** One row of the list as rendered. A locked row shows the comment count
      but not the views, and leads to the login page. */
  datatype Row =
    | LockedRow(badge: string, name: string, title: string, comments: int, href: string)
    | OpenRow(badge: string, name: string, title: string, comments: int, views: int, href: string)

  predicate IsOpen(row: Row) {
    row.OpenRow?
  }

  function RenderRow(post: HotPost, session: Option<SessionUser>, index: nat): (row: Row)
    ensures row.LockedRow? <==> IsLocked(session, index)
    ensures row.title == post.title && row.comments == post.commentCount.GetOr(0)
    ensures row.badge == Community.BadgeType(post.category)
    ensures row.name == Community.KoreanCategory(post.category)
    ensures row.OpenRow? ==> row.views == post.views.GetOr(0)
    ensures row.href == if session.Some? then "/community/" + post.id else "/login"
  {
    NumberOrZero(post.commentCount);
    NumberOrZero(post.views);
    var badge := Community.BadgeType(post.category);
    var name := Community.KoreanCategory(post.category);
    if IsLocked(session, index) then
      LockedRow(badge, name, post.title, NumberOr(post.commentCount, 0), "/login")
    else
      OpenRow(badge, name, post.title, NumberOr(post.commentCount, 0), NumberOr(post.views, 0),
        if session.Some? then "/community/" + post.id else "/login")
  }

  /** The rows of the list, one per displayed post, in order. */
  function Rows(posts: seq<HotPost>, session: Option<SessionUser>): (rows: seq<Row>)
    ensures |rows| == Min(|posts|, VisibleLimit(session))
    ensures forall i :: 0 <= i < |rows| ==> rows[i] == RenderRow(posts[i], session, i)
  {
    var shown := DisplayedPosts(posts, session);
    seq(|shown|, i requires 0 <= i < |shown| => RenderRow(shown[i], session, i))
  }

  /** With a session up to five rows show and none is locked. */
  lemma SignedInSeesAllOpen(posts: seq<HotPost>, user: SessionUser)
    ensures |Rows(posts, Some(user))| == Min(|posts|, 5)
    ensures forall i :: 0 <= i < |Rows(posts, Some(user))| ==> Rows(posts, Some(user))[i].OpenRow?
  {
  }

  /** Without a session at most four rows show, the fourth one locked, so at
      most three posts can be opened. */
  lemma VisitorSeesAtMostThreeOpen(posts: seq<HotPost>)
    ensures |Rows(posts, None)| <= 4
    ensures |Seqs.Filter(Rows(posts, None), IsOpen)| <= 3
    ensures forall i :: 0 <= i < |Rows(posts, None)| ==> Rows(posts, None)[i].href == "/login"
  {
    var rows := Rows(posts, None);
    if |rows| == 4 {
      assert rows == rows[..3] + rows[3..];
      Seqs.FilterAppend(rows[..3], rows[3..], IsOpen);
      assert !IsOpen(rows[3..][0]);
      Seqs.FilterDropsAll(rows[3..], IsOpen);
    }
  }
}

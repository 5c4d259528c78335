/** The admin post table: the records fetched from the `posts` collection,
    normalised for display, deletion by id and the category names. */
module AdminPosts {
  import opened JsValues
  import Seqs
  import Community

  /** The fields of a stored post the table reads; the author and the view
      count may be missing. The time stamp is left out. */
  datatype PostFields = PostFields(
    title: string,
    category: string,
    authorName: Option<string>,
    views: Option<int>)

  datatype PostDoc = PostDoc(docId: string, data: PostFields)

  /** A row of the table. */
  datatype PostData = PostData(id: string, title: string, category: string, authorName: string, views: int)

  /** The record pushed for one document: a falsy author reads "익명" and a
      falsy view count 0. */
  function Normalize(doc: PostDoc): (p: PostData)
    ensures p.id == doc.docId && p.title == doc.data.title && p.category == doc.data.category
    ensures IsFalsyString(doc.data.authorName) ==> p.authorName == "익명"
    ensures !IsFalsyString(doc.data.authorName) ==> p.authorName == doc.data.authorName.value
    ensures p.views == doc.data.views.GetOr(0)
    ensures p.authorName != ""
  {
    NumberOrZero(doc.data.views);
    PostData(doc.docId, doc.data.title, doc.data.category,
      StringOr(doc.data.authorName, "익명"), NumberOr(doc.data.views, 0))
  }

  /** The `forEach` loop of `fetchPosts`: one normalised row per document, in
      the snapshot's order. */
  method CollectPosts(docs: seq<PostDoc>) returns (postList: seq<PostData>)
    ensures |postList| == |docs|
    ensures forall i :: 0 <= i < |docs| ==> postList[i] == Normalize(docs[i])
  {
    postList := [];
    var k := 0;
    while k < |docs|
      invariant 0 <= k <= |docs|
      invariant |postList| == k
      invariant forall i :: 0 <= i < k ==> postList[i] == Normalize(docs[i])
    {
      postList := postList + [Normalize(docs[k])];
      k := k + 1;
    }
  }

  /** `prev.filter(p => p.id !== postId)`. */
  function WithoutPostId(posts: seq<PostData>, postId: string): (r: seq<PostData>)
    ensures |r| <= |posts|
    ensures forall p :: p in r <==> p in posts && p.id != postId
  {
    Seqs.Filter(posts, (p: PostData) => p.id != postId)
  }

  /** The deletion works piece by piece, so the remaining rows keep their
      order. */
  lemma WithoutPostIdAppend(a: seq<PostData>, b: seq<PostData>, postId: string)
    ensures WithoutPostId(a + b, postId) == WithoutPostId(a, postId) + WithoutPostId(b, postId)
  {
    Seqs.FilterAppend(a, b, (p: PostData) => p.id != postId);
  }

  /** Deleting a row takes exactly the rows with that id out: they and the
      rows kept make up the whole table. */
  lemma WithoutPostIdCount(posts: seq<PostData>, postId: string)
    ensures |WithoutPostId(posts, postId)| + |Seqs.Filter(posts, (p: PostData) => p.id == postId)| == |posts|
  {
    Seqs.FilterPartition(posts, (p: PostData) => p.id != postId, (p: PostData) => p.id == postId);
  }

  /** `getCategoryName`: a known code gets its Korean name, and any other
      code is shown as it is. */
  function GetCategoryName(category: string): (n: string)
    ensures n == category <==> category !in ["urgent", "free", "question", "secret"]
  {
    match category
    case "urgent" => "긴급"
    case "free" => "자유"
    case "question" => "질문"
    case "secret" => "비밀"
    case _ => category
  }

  /** The admin table and the community board name the four known codes
      alike; an unknown code is shown as it is here, but as 자유 on the
      board. */
  lemma CategoryNamesAgreeOnKnownCodes(category: string)
    ensures category in Community.CATEGORY_CODES ==>
      GetCategoryName(category) == Community.KoreanCategory(category)
    ensures category !in Community.CATEGORY_CODES ==>
      GetCategoryName(category) == category && Community.KoreanCategory(category) == "자유"
  {
  }

  /** The alerts `handleDelete` can show. */
  datatype DeleteAlert = NoAlert | DeletedAlert | DeleteFailedAlert

  /** The page's state: the `posts` table and the `loading` flag. */
  class PostManagement {
    var posts: seq<PostData>
    var loading: bool

    constructor ()
      ensures posts == [] && loading
    {
      posts := [];
      loading := true;
    }

    /** `fetchPosts`: `snapshot` is the query's result, `None` when it
        throws, in which case an alert shows and the table stays. */
    method FetchPosts(snapshot: Option<seq<PostDoc>>) returns (alerted: bool)
      modifies this
      ensures !loading
      ensures alerted <==> snapshot.None?
      ensures snapshot.None? ==> posts == old(posts)
      ensures snapshot.Some? ==> |posts| == |snapshot.value|
      ensures snapshot.Some? ==> forall i :: 0 <= i < |posts| ==> posts[i] == Normalize(snapshot.value[i])
    {
      loading := true;
      alerted := false;
      if snapshot.Some? {
        var postList := CollectPosts(snapshot.value);
        posts := postList;
      } else {
        alerted := true;
      }
      loading := false;
    }

    /** `handleDelete`: `confirmed` is the answer to the prompt and
        `remoteOk` whether the stored document was deleted. */
    method HandleDelete(postId: string, confirmed: bool, remoteOk: bool) returns (alert: DeleteAlert)
      modifies this`posts
      ensures confirmed && remoteOk ==> posts == WithoutPostId(old(posts), postId) && alert == DeletedAlert
      ensures !(confirmed && remoteOk) ==> posts == old(posts)
      ensures !confirmed ==> alert == NoAlert
      ensures confirmed && !remoteOk ==> alert == DeleteFailedAlert
    {
      if !confirmed {
        return NoAlert;
      }
      if remoteOk {
        alert := DeletedAlert;
        posts := WithoutPostId(posts, postId);
      } else {
        alert := DeleteFailedAlert;
      }
    }
  }

  /** Loading a snapshot and deleting the k-th row: nothing with that id is
      left, and every other row is still there. */
  method LoadThenDelete(docs: seq<PostDoc>, k: nat) returns (before: seq<PostData>, after: seq<PostData>)
    requires k < |docs|
    ensures |before| == |docs| && |after| < |before|
    ensures forall p :: p in after ==> p.id != docs[k].docId
    ensures forall p :: p in before && p.id != docs[k].docId ==> p in after
  {
    var page := new PostManagement();
    var _ := page.FetchPosts(Some(docs));
    before := page.posts;
    var _ := page.HandleDelete(before[k].id, true, true);
    after := page.posts;
    WithoutPostIdCount(before, before[k].id);
    assert before[k] in Seqs.Filter(before, (p: PostData) => p.id == before[k].id);
  }
}

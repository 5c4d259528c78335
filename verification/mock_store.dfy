/** `useMockStore`: the community's post list, kept in memory and mirrored
    into one browser-storage slot. */
module MockStore {
  import opened JsValues
  import Seqs

  datatype Post = Post(
    id: int,
    title: string,
    content: string,
    author: string,
    category: string,
    createdAt: string,
    views: int,
    comments: int,
    likes: int)

  /** What a caller of `addPost` supplies: a post without id, counters and date. */
  datatype PostDraft = PostDraft(title: string, content: string, author: string, category: string)

  const INITIAL_POSTS: seq<Post> := [
    Post(1, "와이프가 300만 원짜리 명품백 샀는데 저도 플스5 사도 될까요? (급)",
      "제목 그대로입니다. 와이프가 이번에 보너스 받았다고 가방을 질렀는데...",
      "익명의유부1", "urgent", "2024-05-20", 1200, 52, 15),
    Post(2, "비상금 들켰습니다... 베란다 타일 밑이었는데... 하...",
      "진짜 완벽하다고 생각했는데 청소하다가 걸렸네요. 어떻게 대처해야 할까요?",
      "비상금털림", "free", "2024-05-21", 3400, 89, 42),
    Post(3, "[후기] 로봇청소기인 척 하고 하루 종일 누워있었던 썰 푼다",
      "주말에 너무 피곤해서 로봇청소기 동선 방해 안 되게 굴러다녔더니...",
      "게으른남편", "free", "2024-05-19", 5120, 120, 330)
  ]

  /** The post `addPost` builds; `id` is `Date.now()` and `today` the date
      part of the current ISO time stamp, both supplied by the caller. */
  function NewPost(draft: PostDraft, id: int, today: string): (p: Post)
    ensures p.views == 0 && p.comments == 0 && p.likes == 0
    ensures p.title == draft.title && p.content == draft.content
    ensures p.author == draft.author && p.category == draft.category
    ensures p.id == id && p.createdAt == today
  {
    Post(id, draft.title, draft.content, draft.author, draft.category, today, 0, 0, 0)
  }

  /** `posts.filter(p => p.id !== id)`. */
  function WithoutId(posts: seq<Post>, id: int): (r: seq<Post>)
    ensures |r| <= |posts|
    ensures forall p :: p in r <==> p in posts && p.id != id
  {
    Seqs.Filter(posts, (p: Post) => p.id != id)
  }

  /** Deleting works piece by piece, so the posts kept stay in their order. */
  lemma WithoutIdAppend(a: seq<Post>, b: seq<Post>, id: int)
    ensures WithoutId(a + b, id) == WithoutId(a, id) + WithoutId(b, id)
  {
    Seqs.FilterAppend(a, b, (p: Post) => p.id != id);
  }

  /** Deleting an id no post has leaves the list as it is. */
  lemma WithoutAbsentId(posts: seq<Post>, id: int)
    requires forall i :: 0 <= i < |posts| ==> posts[i].id != id
    ensures WithoutId(posts, id) == posts
  {
    Seqs.FilterKeepsAll(posts, (p: Post) => p.id != id);
  }

  /** Deleting the same id twice is deleting it once. */
  lemma WithoutIdTwice(posts: seq<Post>, id: int)
    ensures WithoutId(WithoutId(posts, id), id) == WithoutId(posts, id)
  {
    var r := WithoutId(posts, id);
    forall i | 0 <= i < |r| ensures r[i].id != id {
      assert r[i] in r;
    }
    WithoutAbsentId(r, id);
  }

  /** Deleting the post just added takes the list back to what it was, less
      any older post that happened to share its id. */
  lemma DeleteUndoesAdd(draft: PostDraft, id: int, today: string, posts: seq<Post>)
    ensures WithoutId([NewPost(draft, id, today)] + posts, id) == WithoutId(posts, id)
  {
    WithoutIdAppend([NewPost(draft, id, today)], posts, id);
    assert WithoutId([NewPost(draft, id, today)], id) == [];
  }

  /** The hook's state: `posts`, `isLoaded`, and the storage slot
      `husband_er_posts` (absent until something is saved). */
  class Store {
    var posts: seq<Post>
    var isLoaded: bool
    var stored: Option<seq<Post>>

    /** The stored copy is the list in memory. */
    predicate Synced()
      reads this
    {
      stored == Some(posts)
    }

    /** First render: nothing loaded yet; the slot holds whatever an earlier
        visit left there. */
    constructor (slot: Option<seq<Post>>)
      ensures posts == [] && !isLoaded && stored == slot
    {
      posts := [];
      isLoaded := false;
      stored := slot;
    }

    /** The load effect: take the stored list, or seed the slot with the
        initial posts when it is empty. */
    method Load()
      modifies this
      ensures isLoaded && Synced()
      ensures old(stored).Some? ==> posts == old(stored).value
      ensures old(stored).None? ==> posts == INITIAL_POSTS
    {
      if stored.Some? {
        posts := stored.value;
      } else {
        posts := INITIAL_POSTS;
        stored := Some(INITIAL_POSTS);
      }
      isLoaded := true;
    }

    /** `savePosts(newPosts)`. */
    method SavePosts(newPosts: seq<Post>)
      modifies this
      ensures posts == newPosts && Synced()
      ensures isLoaded == old(isLoaded)
    {
      posts := newPosts;
      stored := Some(newPosts);
    }

    /** `addPost(post)`: the new post goes first. */
    method AddPost(draft: PostDraft, now: int, today: string)
      modifies this
      ensures posts == [NewPost(draft, now, today)] + old(posts) && Synced()
      ensures isLoaded == old(isLoaded)
    {
      var newPost := NewPost(draft, now, today);
      var updatedPosts := [newPost] + posts;
      SavePosts(updatedPosts);
    }

    /** `deletePost(id)`. */
    method DeletePost(id: int)
      modifies this
      ensures posts == WithoutId(old(posts), id) && Synced()
      ensures isLoaded == old(isLoaded)
    {
      var updatedPosts := WithoutId(posts, id);
      SavePosts(updatedPosts);
    }
  }

  /** The list a visit starts from once the load effect has run. */
  function LoadedPosts(slot: Option<seq<Post>>): seq<Post> {
    slot.GetOr(INITIAL_POSTS)
  }

  /** A visit that loads, adds one post and then deletes it by its id: the
      addition puts the new post in front of the loaded list, and the
      deletion leaves the loaded list less the posts with that id; the
      stored copy follows every step. */
  method AddThenDelete(slot: Option<seq<Post>>, draft: PostDraft, now: int, today: string)
    returns (afterAdd: seq<Post>, afterDelete: seq<Post>, storedAtEnd: Option<seq<Post>>)
    ensures |afterAdd| == |LoadedPosts(slot)| + 1
    ensures afterAdd[0] == NewPost(draft, now, today) && afterAdd[1..] == LoadedPosts(slot)
    ensures afterDelete == WithoutId(LoadedPosts(slot), now)
    ensures storedAtEnd == Some(afterDelete)
  {
    var store := new Store(slot);
    store.Load();
    store.AddPost(draft, now, today);
    afterAdd := store.posts;
    store.DeletePost(now);
    afterDelete := store.posts;
    storedAtEnd := store.stored;
    DeleteUndoesAdd(draft, now, today, LoadedPosts(slot));
  }
}

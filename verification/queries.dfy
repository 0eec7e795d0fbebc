/** The read paths over the two tables: the board listing of `index` and the
    single-post view of `view_post` (postify.py). Each is a selection over
    the table contents; rows come back in table order, which is what a plain
    scan yields, though the SQL has no ORDER BY and promises no order. */
module Queries {
  import opened Schema

  /** A row of `SELECT id, name, author FROM posts`. */
  datatype PostSummary = PostSummary(id: string, name: string, author: string)

  /** A row of `SELECT author, content FROM replies WHERE post_id = ?`. */
  datatype ReplyLine = ReplyLine(author: string, content: string)

  /** What the detail view renders, or the 404 it aborts with. */
  datatype PostView = NotFound | Found(post: Post, lines: seq<ReplyLine>)

  function SummaryOf(p: Post): PostSummary {
    PostSummary(p.id, p.name, p.author)
  }

  function LineOf(r: Reply): ReplyLine {
    ReplyLine(r.author, r.content)
  }

  /** `SELECT id, name, author, content FROM posts WHERE id = ?` with `fetchone`:
      the first row whose id matches, if any. */
  function FindPost(posts: seq<Post>, id: string): (r: Option<Post>)
    ensures r.None? <==> id !in PostIds(posts)
    ensures r.Some? ==> r.value in posts && r.value.id == id
  {
    if posts == [] then None
    else if posts[0].id == id then Some(posts[0])
    else
      var rest := FindPost(posts[1..], id);
      assert PostIds(posts) == {posts[0].id} + PostIds(posts[1..]) by {
        forall x | x in PostIds(posts) ensures x in {posts[0].id} + PostIds(posts[1..]) {
          var k :| 0 <= k < |posts| && posts[k].id == x;
          if k > 0 { assert posts[1..][k - 1].id == x; }
        }
      }
      rest
  }

  /** `index`: one summary `(id, name, author)` for every post. */
  function Index(posts: seq<Post>): (r: seq<PostSummary>)
    ensures |r| == |posts|
    ensures forall k :: 0 <= k < |posts| ==> r[k] == SummaryOf(posts[k])
  {
    if posts == [] then [] else [SummaryOf(posts[0])] + Index(posts[1..])
  }

  /** The reply lines of `view_post`: `(author, content)` of exactly the
      replies whose `postId` is `id`. */
  function RepliesOf(replies: seq<Reply>, id: string): (r: seq<ReplyLine>)
    ensures forall line :: line in r <==>
      exists k :: 0 <= k < |replies| && replies[k].postId == id && LineOf(replies[k]) == line
  {
    if replies == [] then []
    else
      var rest := RepliesOf(replies[1..], id);
      assert forall k :: 0 < k < |replies| ==> replies[k] == replies[1..][k - 1];
      if replies[0].postId == id then [LineOf(replies[0])] + rest else rest
  }

  /** `view_post`: NotFound when no post has the id; otherwise that post and
      the lines of its replies. */
  function ViewPost(posts: seq<Post>, replies: seq<Reply>, id: string): (v: PostView)
    ensures v.NotFound? <==> id !in PostIds(posts)
    ensures v.Found? ==> v.post in posts && v.post.id == id && v.lines == RepliesOf(replies, id)
  {
    match FindPost(posts, id)
    case None => NotFound
    case Some(p) => Found(p, RepliesOf(replies, id))
  }

  /** With distinct primary keys the lookup finds THE post with that id. */
  lemma FindPostUnique(posts: seq<Post>, p: Post)
    requires forall j, k :: 0 <= j < k < |posts| ==> posts[j].id != posts[k].id
    requires p in posts
    ensures FindPost(posts, p.id) == Some(p)
  {
  }

  /** Appending a post never changes what an already-present id finds, and
      a fresh id finds the appended post. */
  lemma {:induction false} FindPostAppend(posts: seq<Post>, p: Post, id: string)
    ensures FindPost(posts + [p], id) ==
      if id in PostIds(posts) then FindPost(posts, id)
      else if p.id == id then Some(p)
      else None
  {
    if posts != [] {
      assert (posts + [p])[1..] == posts[1..] + [p];
      if posts[0].id != id {
        FindPostAppend(posts[1..], p, id);
      }
    }
  }

  /** Appending a reply appends its line to the view of its own post and
      leaves every other post's lines as they were. */
  lemma {:induction false} RepliesOfAppend(replies: seq<Reply>, r: Reply, id: string)
    ensures RepliesOf(replies + [r], id) ==
      RepliesOf(replies, id) + (if r.postId == id then [LineOf(r)] else [])
  {
    if replies != [] {
      assert (replies + [r])[1..] == replies[1..] + [r];
      RepliesOfAppend(replies[1..], r, id);
    }
  }

  /** After a post with a fresh id is appended, its detail view shows the
      stored fields, every other detail view is unchanged, and the listing
      gains its summary at the end. */
  lemma ViewAfterCreatePost(posts: seq<Post>, replies: seq<Reply>, p: Post, id: string)
    requires p.id !in PostIds(posts)
    ensures ViewPost(posts + [p], replies, p.id) == Found(p, RepliesOf(replies, p.id))
    ensures id != p.id ==> ViewPost(posts + [p], replies, id) == ViewPost(posts, replies, id)
    ensures Index(posts + [p]) == Index(posts) + [SummaryOf(p)]
  {
    FindPostAppend(posts, p, p.id);
    FindPostAppend(posts, p, id);
  }

  /** After a reply is appended, the detail view of its post (when that post
      exists) ends with the reply's line; a reply to a missing post is not
      shown while no post has that id, since that view is NotFound. */
  lemma ViewAfterReply(posts: seq<Post>, replies: seq<Reply>, r: Reply)
    ensures r.postId !in PostIds(posts) ==> ViewPost(posts, replies + [r], r.postId) == NotFound
    ensures r.postId in PostIds(posts) ==>
      ViewPost(posts, replies + [r], r.postId) ==
        Found(FindPost(posts, r.postId).value, RepliesOf(replies, r.postId) + [LineOf(r)])
  {
    RepliesOfAppend(replies, r, r.postId);
  }
}

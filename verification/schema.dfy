/** The persisted shape of the bulletin board: the `posts` and `replies`
    tables as rows, the form-field values that feed them, and the integrity
    constraints the tables carry (postify.py, init_db). The `users` table is
    not part of this model: no operation reads or writes it. */
module Schema {

  /** A form field as `request.form.get` yields it: absent, or present with
      a (possibly empty) text. */
  datatype Option<T> = None | Some(value: T)

  /** A row of the `posts` table: `(id, name, author, content)`. */
  datatype Post = Post(id: string, name: string, author: string, content: string)

  /** A row of the `replies` table: `(id, post_id, author, content)`. */
  datatype Reply = Reply(id: string, postId: string, author: string, content: string)

  /** The largest code point US-ASCII can encode, plus one. */
  const AsciiLimit := 128

  /** `CHECK(LENGTH(name) < 50)` on the posts table. */
  const NameLimit := 50

  /** `CHECK(LENGTH(content) < 5000)` on the posts table. */
  const ContentLimit := 5000

  /** The reference meaning of "encodable as US-ASCII": every character has
      a code point below 128. */
  ghost predicate IsAscii(text: string) {
    forall i :: 0 <= i < |text| ==> text[i] as int < AsciiLimit
  }

  /** Python truthiness of a form field: present and non-empty. */
  predicate Filled(field: Option<string>) {
    field.Some? && field.value != ""
  }

  function PostIds(posts: seq<Post>): set<string> {
    set k | 0 <= k < |posts| :: posts[k].id
  }

  function ReplyIds(replies: seq<Reply>): set<string> {
    set k | 0 <= k < |replies| :: replies[k].id
  }

  /** A post row as the create-post path admits it: every field non-empty,
      the table's two length checks, and ASCII content. */
  ghost predicate GoodPost(p: Post) {
    && p.name != "" && p.author != "" && p.content != ""
    && |p.name| < NameLimit
    && |p.content| < ContentLimit
    && IsAscii(p.content)
  }

  /** A reply row as the reply path admits it: every field non-empty and
      ASCII content; no length bound and no check that `postId` names a
      stored post. */
  ghost predicate GoodReply(r: Reply) {
    r.postId != "" && r.author != "" && r.content != "" && IsAscii(r.content)
  }

  /** What the table definitions themselves enforce: the two LENGTH checks
      on posts and the PRIMARY KEY of each table. (NOT NULL holds of every
      row by construction: a field is a string, never absent.) */
  ghost predicate SchemaHolds(posts: seq<Post>, replies: seq<Reply>) {
    && (forall k :: 0 <= k < |posts| ==> |posts[k].name| < NameLimit && |posts[k].content| < ContentLimit)
    && (forall j, k :: 0 <= j < k < |posts| ==> posts[j].id != posts[k].id)
    && (forall j, k :: 0 <= j < k < |replies| ==> replies[j].id != replies[k].id)
  }

  /** The invariant of the two tables: every row as the write guards admit
      it, and primary keys pairwise distinct within each table. The
      non-empty name, author, post_id and content and the ASCII content
      come from the guards alone; ids are not checked by the guards and may
      be empty. The guards already imply the two LENGTH checks, so those
      never reject a guarded write; the guards never look at ids, so the
      PRIMARY KEY does reject a guarded write whose id is taken. */
  ghost predicate TablesValid(posts: seq<Post>, replies: seq<Reply>) {
    && (forall k :: 0 <= k < |posts| ==> GoodPost(posts[k]))
    && (forall j, k :: 0 <= j < k < |posts| ==> posts[j].id != posts[k].id)
    && (forall k :: 0 <= k < |replies| ==> GoodReply(replies[k]))
    && (forall j, k :: 0 <= j < k < |replies| ==> replies[j].id != replies[k].id)
  }

  /** Tables that keep the invariant satisfy every constraint of the table
      definitions, and every row also carries what only the guards check:
      non-empty name, author, post_id and content, and ASCII content. */
  lemma TablesValidMeetsSchema(posts: seq<Post>, replies: seq<Reply>)
    requires TablesValid(posts, replies)
    ensures SchemaHolds(posts, replies)
    ensures forall k :: 0 <= k < |posts| ==>
      posts[k].name != "" && posts[k].author != "" && posts[k].content != "" && IsAscii(posts[k].content)
    ensures forall k :: 0 <= k < |replies| ==>
      replies[k].postId != "" && replies[k].author != "" && replies[k].content != "" && IsAscii(replies[k].content)
  {
  }
}

# Postify post/reply store — a Dafny model

Postify is a small public bulletin board. Anonymous visitors create named
posts, others attach replies to them, and any post can be reported to a
moderation webhook. This project models the core of `postify.py`:

- the two tables `posts (id, name, author, content)` and
  `replies (id, post_id, author, content)`, as sequences of rows held by the
  class `Board.Store`;
- the invariant the stored rows keep, `Schema.TablesValid`. Part of it is
  what the table definitions enforce (`Schema.SchemaHolds`): a post's name
  shorter than 50 characters and its content shorter than 5000, and
  pairwise distinct primary keys in each table. The rest comes only from
  the write guards: every name, author, post_id and content non-empty and
  every content ASCII. Ids are not checked by the guards. The guards
  already imply the two LENGTH checks, so those never reject a guarded
  write (`Validation.CreatePostGuard`). The primary key does: a guarded
  write whose `newId` is already taken ends in `DuplicateKey`;
- the ASCII check `validate_ascii` and the two write guards (module
  `Validation`);
- the writes `create_post` and `reply_post` (`Board.Store.CreatePost`,
  `Board.Store.ReplyPost`). Each leaves both tables unchanged or appends
  exactly one row;
- the reads `index` and `view_post` (module `Queries`);
- the payload `report_post` would send to the webhook (module `Report`).

A form field is an `Option<string>`, as `request.form.get` returns it:
`None` when absent. "Filled" is Python truthiness: present and non-empty.
The identifier `uuid.uuid4()` would produce is a parameter `newId` of each
write. The tables' PRIMARY KEY is kept: a `newId` already in use gives
`DuplicateKey` and no row, as SQLite's `IntegrityError` would. With a fresh
`newId`, as `uuid4` provides, an accepted write always inserts.

Behaviour of `postify.py` the model keeps on purpose:

- Only `content` is checked for ASCII. `name` and `author` are not
  (`Validation.NameAndAuthorNotAsciiChecked`).
- Reply content has no length ceiling (`Validation.ReplyContentUnbounded`).
- A reply's `post_id` need not name a stored post. SQLite does not enforce
  the declared FOREIGN KEY unless foreign keys are switched on, and the code
  does not switch them on (`Board.BoundarySession`). Such a reply is not
  shown while no post has that id, because the detail view of a missing
  post is NotFound (`Queries.ViewAfterReply`).
- The reply query has no ORDER BY. The contract of `Queries.RepliesOf`
  promises only which lines are shown. The model itself returns them in
  table order.

## Model

| member | source | states |
|---|---|---|
| `Validation.ValidateAscii` | postify.py:64-69 | true exactly when every character of the text has a code point below 128 |
| `Validation.CreatePostGuard` | postify.py:120-125 | a post request passes exactly when name, author and content are all present and non-empty, content is ASCII, name is shorter than 50 and content shorter than 5000 characters; a passing request satisfies the posts table's row constraints for any id |
| `Validation.ReplyGuard` | postify.py:138-143 | a reply request passes exactly when post_id, author and content are all present and non-empty and content is ASCII; a passing request satisfies the reply row constraints for any id |
| `Validation.NonAsciiContentRejected` | postify.py:124-142 | one non-ASCII character in the content makes both the post guard and the reply guard reject |
| `Validation.NameLengthBoundary` | postify.py:124 | for author "a" and content "b", a name passes exactly when it has 1 to 49 characters (49 passes, 50 is rejected) |
| `Validation.NameAndAuthorNotAsciiChecked` | postify.py:124 | a non-ASCII name or author does not stop a post or a reply |
| `Validation.ReplyContentUnbounded` | postify.py:142 | any filled ASCII reply content passes however long; the same content of 5000 or more characters is rejected for a post |
| `Queries.FindPost` | postify.py:84-87 | the lookup by id is None exactly when no stored post has that id; otherwise it is a stored post with that id |
| `Queries.Index` | postify.py:75-76 | the listing has one `(id, name, author)` summary per post, position by position |
| `Queries.RepliesOf` | postify.py:88-89 | a `(author, content)` line is shown exactly when some stored reply with that post_id has that author and content |
| `Queries.ViewPost` | postify.py:81-91 | the detail view is NotFound exactly when no post has the id; otherwise it holds a stored post with that id and the reply lines for that id |
| `Queries.FindPostUnique` | postify.py:84-85 | with distinct primary keys, looking up a stored post's id returns that very post |
| `Queries.FindPostAppend` | postify.py:84-85 | appending a post leaves the lookup of every present id unchanged, and a fresh id then finds the appended post |
| `Queries.RepliesOfAppend` | postify.py:88-89 | appending a reply adds its line at the end of its own post's lines and leaves every other post's lines unchanged |
| `Queries.ViewAfterCreatePost` | postify.py:127-130 | after a post with a fresh id is stored, its view shows exactly its fields, every other view is unchanged, and the listing gains its summary |
| `Queries.ViewAfterReply` | postify.py:145-148 | after a reply is stored, its post's view ends with the reply's line; a reply to a missing post is not shown while no post has that id |
| `Report.ReportPost` | postify.py:94-111 | nothing is sent when post_id is absent or names no post; otherwise the payload carries post_id, name, author and content of a stored row with that id, and the reason, which is "No reason provided" only when the field is absent |
| `Report.ReportMatchesStored` | postify.py:100-111 | with distinct post ids, reporting a stored post sends exactly its four stored fields plus the given or default reason |
| `Schema.TablesValidMeetsSchema` | postify.py:45-59 | tables that keep the invariant `TablesValid` satisfy the table definitions' LENGTH checks and both primary keys; every row also has a non-empty name, author, post_id and content and ASCII content, which only the guards at lines 124 and 142 enforce |
| `Board.Store.constructor` | postify.py:44-60 | fresh tables are empty and satisfy the table invariant |
| `Board.Store.CreatePost` | postify.py:118-134 | keeps the table invariant; never touches replies; a rejected request or a clashing id leaves posts unchanged; an accepted one with a fresh id appends exactly one post with the given fields and that id |
| `Board.Store.ReplyPost` | postify.py:136-152 | keeps the table invariant; never touches posts; a rejected request or a clashing id leaves replies unchanged; an accepted one with a fresh id appends exactly one reply with the given fields and that id, whether or not its post exists |
| `Board.HelloWorldSession` | postify.py:71-152 | creating post "Hello"/"alice"/"World" and replying "bob"/"Hi!" gives a listing of that one summary, a view of that post with that one reply, and a report payload with the default reason |
| `Board.BoundarySession` | postify.py:118-152 | a 50-character name is rejected, a 49-character one is accepted, and a reply to a missing post is stored |

## Left out

- Flask routing, `render_template`, `redirect`/`url_for`, `abort(404)` and
  the session and `logout` route are web plumbing. A redirect is modelled
  only as "no state change". `abort(404)` is the `NotFound` view.
- The SQLite connection, cursor and commit lifecycle and `init_db`'s
  table creation are replaced by the in-memory `Board.Store`. The tables'
  constraints are kept as `Schema.SchemaHolds`, which the invariant
  `Schema.TablesValid` implies.
- The `users` table and the password-hash imports: no operation touches them.
- `load_secret_key`, its file I/O and `os.urandom` are configuration I/O.
- `uuid.uuid4()` randomness: the id is the parameter `newId`. The model
  asks only that it differ from the ids already in the same table. It may
  equal a `post_id` an earlier reply already names, and then that orphan
  reply becomes visible under the new post; in the program only the
  unguessability of a `uuid4` keeps this from happening.
- The webhook call `requests.post`, JSON serialisation and `print` logging
  are network and console I/O. Only the payload value is modelled
  (`Report.ReportPost`), and whether it is sent at all.
- A storage error other than a duplicate primary key (disk failure, a locked
  database) is not modelled.
- Concurrent requests: every request is one sequential step.
- Python strings may hold unpaired surrogate code points. A Dafny `char` is
  a Unicode scalar value, so such strings are not represented. Content
  holding one fails `validate_ascii`; in a name or author it passes the
  guard and the INSERT would then fail on encoding to UTF-8. Either way no
  row is stored.
- `Queries.Index` and `Queries.RepliesOf` return rows in table order, as a
  plain scan does. The SQL has no ORDER BY, so this order is the model's
  choice and not a promise of the source.

/**
 * The `post` table and the SQL statements the post handlers run on it, with
 * PostgreSQL's semantics. The table is held in ascending `id` order (`id` is
 * the primary key), so `ORDER BY id` is the order of the sequence.
 */
module PostTable {
  import opened Wrappers

  /** One row of `post`. */
  datatype Post = Post(id: int, title: string, content: string)

  /**
   * What a failed query reports: sqlx's `RowNotFound`, or any other failure,
   * with the texts its `Display` (`to_string`) and `Debug` (`{:?}`) give.
   */
  datatype DbError = RowNotFound | QueryFailed(message: string, debug: string)

  /** The text sqlx gives `RowNotFound`. */
  const RowNotFoundText: string := "no rows returned by a query that expected to return at least one row"

  /** The text of an error, as `err.to_string()` gives it. */
  function ErrorText(e: DbError): string {
    match e
    case RowNotFound => RowNotFoundText
    case QueryFailed(m, _) => m
  }

  /** The text of an error, as `format!("{:?}", e)` gives it. */
  function DebugText(e: DbError): string {
    match e
    case RowNotFound => "RowNotFound"
    case QueryFailed(_, d) => d
  }

  /**
   * An error raised by PostgreSQL itself, with its SQLSTATE code, as sqlx
   * reports it (the `Debug` form shows only the code and the message of the
   * fields sqlx prints).
   */
  function PgError(code: string, message: string): DbError {
    QueryFailed("error returned from database: " + message,
                "Database(PgDatabaseError { code: \"" + code + "\", message: \"" + message + "\" })")
  }

  /** Ids strictly ascend along the table: it is in `ORDER BY id` order and ids are unique. */
  ghost predicate SortedById(posts: seq<Post>) {
    forall i, j :: 0 <= i < j < |posts| ==> posts[i].id < posts[j].id
  }

  predicate HasId(posts: seq<Post>, id: int) {
    exists i :: 0 <= i < |posts| && posts[i].id == id
  }

  function Min(a: int, b: int): int {
    if a <= b then a else b
  }

  function Max(a: int, b: int): int {
    if a <= b then b else a
  }

  /** `SELECT * FROM post WHERE id = $1`, read with `fetch_one`. */
  function FetchOne(posts: seq<Post>, id: int): (r: Result<Post, DbError>)
    ensures r.Success? <==> HasId(posts, id)
    ensures r.Success? ==> r.value in posts && r.value.id == id
    ensures r.Failure? ==> r.error == RowNotFound
  {
    if posts == [] then Failure(RowNotFound)
    else if posts[0].id == id then Success(posts[0])
    else
      HasIdSplit(posts, id);
      FetchOne(posts[1..], id)
  }

  /**
   * `SELECT * FROM post ORDER BY id LIMIT $1 OFFSET $2`, read with `fetch_all`.
   * PostgreSQL refuses a negative OFFSET or LIMIT with an error.
   */
  function SelectPage(posts: seq<Post>, limit: int, offset: int): (r: Result<seq<Post>, DbError>)
    ensures r.Success? <==> 0 <= offset && 0 <= limit
    ensures r.Success? ==> |r.value| == Min(limit, Max(0, |posts| - offset))
    ensures r.Success? ==> forall i :: 0 <= i < |r.value| ==> r.value[i] == posts[offset + i]
  {
    if offset < 0 then Failure(PgError("2201X", "OFFSET must not be negative"))
    else if limit < 0 then Failure(PgError("2201W", "LIMIT must not be negative"))
    else if |posts| <= offset then Success([])
    else Success(posts[offset..Min(offset + limit, |posts|)])
  }

  /** A page of the listing is itself in ascending id order. */
  lemma SelectPageSorted(posts: seq<Post>, limit: int, offset: int)
    requires SortedById(posts)
    ensures SelectPage(posts, limit, offset).Success? ==> SortedById(SelectPage(posts, limit, offset).value)
  {
    var r := SelectPage(posts, limit, offset);
    if r.Success? {
      forall i, j | 0 <= i < j < |r.value| ensures r.value[i].id < r.value[j].id {
        assert r.value[i] == posts[offset + i] && r.value[j] == posts[offset + j];
      }
    }
  }

  /** `DELETE FROM post WHERE id = $1`. */
  function DeleteWhereId(posts: seq<Post>, id: int): (r: seq<Post>)
    ensures forall p :: p in r <==> p in posts && p.id != id
  {
    if posts == [] then []
    else if posts[0].id == id then DeleteWhereId(posts[1..], id)
    else [posts[0]] + DeleteWhereId(posts[1..], id)
  }

  lemma HasIdSplit(posts: seq<Post>, id: int)
    requires posts != []
    ensures HasId(posts, id) <==> posts[0].id == id || HasId(posts[1..], id)
  {
    if HasId(posts, id) && posts[0].id != id {
      var i :| 0 <= i < |posts| && posts[i].id == id;
      assert posts[1..][i - 1].id == id;
    }
    if HasId(posts[1..], id) {
      var i :| 0 <= i < |posts| - 1 && posts[1..][i].id == id;
      assert posts[i + 1].id == id;
    }
  }

  /** The delete keeps the table in id order and, ids being unique, removes one row exactly when the id is present. */
  lemma {:induction false} DeleteWhereIdSorted(posts: seq<Post>, id: int)
    requires SortedById(posts)
    ensures SortedById(DeleteWhereId(posts, id))
    ensures |DeleteWhereId(posts, id)| == if HasId(posts, id) then |posts| - 1 else |posts|
  {
    if posts != [] {
      var rest := DeleteWhereId(posts[1..], id);
      DeleteWhereIdSorted(posts[1..], id);
      HasIdSplit(posts, id);
      if posts[0].id == id {
        assert !HasId(posts[1..], id);
      } else {
        forall j | 0 <= j < |rest| ensures posts[0].id < rest[j].id {
          assert rest[j] in posts[1..];
        }
      }
    }
  }

  /** `UPDATE post SET title = $1, content = $2`: with no WHERE clause, every row is rewritten. */
  function SetAll(posts: seq<Post>, title: string, content: string): (r: seq<Post>)
    ensures |r| == |posts|
    ensures forall i :: 0 <= i < |r| ==> r[i] == Post(posts[i].id, title, content)
  {
    if posts == [] then [] else [Post(posts[0].id, title, content)] + SetAll(posts[1..], title, content)
  }

  /** `UPDATE post SET title = $1, content = $2 WHERE id = $3`: the statement the handler evidently means. */
  function SetWhere(posts: seq<Post>, id: int, title: string, content: string): (r: seq<Post>)
    ensures |r| == |posts|
    ensures forall i :: 0 <= i < |r| ==> r[i] == if posts[i].id == id then Post(id, title, content) else posts[i]
  {
    if posts == [] then []
    else
      var head := if posts[0].id == id then Post(id, title, content) else posts[0];
      [head] + SetWhere(posts[1..], id, title, content)
  }

  /** Both updates keep every id in place, so the table stays in id order. */
  lemma UpdatesKeepOrder(posts: seq<Post>, id: int, title: string, content: string)
    requires SortedById(posts)
    ensures SortedById(SetAll(posts, title, content))
    ensures SortedById(SetWhere(posts, id, title, content))
  {
  }

  /**
   * As written, the update of one post rewrites another: on a two-row table,
   * patching post 1 also overwrites the title of post 2, which the
   * WHERE-restricted statement leaves alone.
   */
  lemma UpdateWithoutWhereRewritesOtherRows()
    ensures var posts := [Post(1, "first", "a"), Post(2, "second", "b")];
            && SetAll(posts, "patched", "a")[1].title == "patched"
            && SetWhere(posts, 1, "patched", "a")[1] == posts[1]
  {
    var posts := [Post(1, "first", "a"), Post(2, "second", "b")];
    assert SetAll(posts, "patched", "a")[1] == Post(2, "patched", "a");
  }

  /** The WHERE-restricted update changes exactly the row with the given id. */
  lemma SetWhereTouchesOnlyThatRow(posts: seq<Post>, id: int, title: string, content: string)
    ensures forall p :: p in SetWhere(posts, id, title, content) && p.id != id ==> p in posts
    ensures forall p :: p in posts && p.id != id ==> p in SetWhere(posts, id, title, content)
    ensures HasId(posts, id) ==> Post(id, title, content) in SetWhere(posts, id, title, content)
  {
    var r := SetWhere(posts, id, title, content);
    forall p | p in r && p.id != id ensures p in posts {
      var i :| 0 <= i < |r| && r[i] == p;
      assert posts[i].id != id;
    }
    forall p | p in posts && p.id != id ensures p in r {
      var i :| 0 <= i < |posts| && posts[i] == p;
      assert r[i] == p;
    }
    if HasId(posts, id) {
      var i :| 0 <= i < |posts| && posts[i].id == id;
      assert r[i] == Post(id, title, content);
    }
  }
}

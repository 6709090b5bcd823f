/**
 * The post handlers: the cache-aside listing `get_all_post` and the
 * single-row handlers `get_one_post`, `delete_post_by_id` and
 * `update_post_by_id`. `AppState` holds the state they change, the `post`
 * table and the key-value cache; what the outside services do on a call
 * (pool checkout, a Redis round trip, a database failure) is a parameter.
 */
module PostHandler {
  import opened Wrappers
  import opened Decimal
  import opened PostTable
  import opened Text
  import opened Codec

  /** Rust's `i64`, the type of the `{page}` path segment. */
  newtype i64 = x: int | -0x8000_0000_0000_0000 <= x < 0x8000_0000_0000_0000

  /** Rows per page. */
  const Limit: int := 10
  /** Expiry of a cached page, in seconds (`60 * 5`). */
  const CacheTtl: int := 60 * 5
  const KeyPrefix: string := "posts_page_"
  const FetchFailed: string := "Something bad happened when fetching all posts"
  const DataNotFound: string := "data not found"
  const DeleteSuccess: string := "post delete success"
  const DuplicateKeyText: string := "duplicate key value violates unique constraint"
  const TitleTaken: string := "Post with that title already exists"
  /** The provenance tags of a listing. */
  const FromCache: string := "cache"
  const FromDatabase: string := "database"

  /** The first and last pages whose offset `(page - 1) * 10` fits in an `i64`. */
  const MinPage: int := -922_337_203_685_477_579
  const MaxPage: int := 922_337_203_685_477_581

  /** A cache entry: the stored string and the expiry it was set with, in seconds. */
  datatype Entry = Entry(value: CacheValue, ttl: int)

  /** The body of a PATCH request: each field may be left out. */
  datatype UpdatePost = UpdatePost(title: Option<string>, content: Option<string>)

  /** The JSON body of a reply, by shape. */
  datatype Body =
    | Listing(data: Json, source: string)   // {"status":"ok","data":…,"source":…}
    | One(post: Post)                       // {"status":"ok","data":post}
    | Failed(message: string)               // {"status":"failed","messsage":…}
    | Rejected(message: string)             // {"status":"failed","message":…}
    | Error(message: string)                // {"status":"error","message":…}
    | Deleted(message: string)              // {"status":"ok","message":…}
    | Updated(patch: UpdatePost)            // {"message":"update success","status":"success","data":body}

  /** What a handler does: reply with a status and a body, or panic. */
  datatype Outcome = Reply(status: int, body: Body) | Panic(reason: string)

  /** How the outside services behave during one listing request. */
  datatype Services = Services(
    redisPool: bool,          // `data.redis.get()` hands out a connection
    redisGet: bool,           // the GET round trip succeeds (an absent key is an error in any case)
    db: Option<DbError>,      // `Some(e)`: the query fails with e
    redisSet: bool)           // SETEX succeeds

  // ---------------------------------------------------------------------
  // Key and offset derivation

  /** `format!("posts_page_{}", page)`. */
  function CacheKey(page: i64): (key: string)
    ensures |KeyPrefix| < |key| && key[..|KeyPrefix|] == KeyPrefix
    ensures IsNumeral(key[|KeyPrefix|..]) && Read(key[|KeyPrefix|..]) == page as int
  {
    var key := KeyPrefix + Show(page as int);
    assert key[|KeyPrefix|..] == Show(page as int);
    ReadShow(page as int);
    key
  }

  /** Distinct pages are cached under distinct keys. */
  lemma CacheKeyInjective(p: i64, q: i64)
    ensures CacheKey(p) == CacheKey(q) ==> p == q
  {
  }

  /**
   * `(page - 1) * limit` under Rust's overflow checks: `None` when the
   * arithmetic leaves the `i64` range, which panics.
   */
  function Offset(page: i64): (r: Option<int>)
    ensures r.Some? <==> MinPage <= page as int <= MaxPage
    ensures r.Some? ==> r.value == (page as int - 1) * Limit
  {
    var n := (page as int - 1) * Limit;
    if -0x8000_0000_0000_0000 <= n < 0x8000_0000_0000_0000 then Some(n) else None
  }

  /** The panic message of the overflow-checked offset: `page - 1` overflows first for `i64::MIN`. */
  function OverflowReason(page: i64): string
  {
    if page as int == -0x8000_0000_0000_0000 then "attempt to subtract with overflow"
    else "attempt to multiply with overflow"
  }

  /** Page `page + 1` starts where page `page` ends, and page 1 starts at the first row. */
  lemma OffsetsTile(page: i64)
    requires MinPage <= page as int < MaxPage
    ensures Offset(page + 1).value == Offset(page).value + Limit
    ensures Offset(page).value >= 0 <==> page >= 1
    ensures Offset(page).value == 0 <==> page == 1
  {
  }

  /** The rows a client sees by reading pages 1 to n from the database in turn. */
  function PagesUpTo(posts: seq<Post>, n: nat): seq<Post>
  {
    if n == 0 then [] else PagesUpTo(posts, n - 1) + SelectPage(posts, Limit, (n - 1) * Limit).value
  }

  /** Pages 1 to n hold the first 10·n rows in id order: no row is skipped or repeated. */
  lemma {:induction false} PagesUpToIsPrefix(posts: seq<Post>, n: nat)
    requires SortedById(posts)
    ensures PagesUpTo(posts, n) == posts[..Min(n * Limit, |posts|)]
  {
    if n > 0 {
      PagesUpToIsPrefix(posts, n - 1);
      var page := SelectPage(posts, Limit, (n - 1) * Limit).value;
      var lo, hi := Min((n - 1) * Limit, |posts|), Min(n * Limit, |posts|);
      assert page == posts[lo..hi];
      assert posts[..lo] + posts[lo..hi] == posts[..hi];
    }
  }

  // ---------------------------------------------------------------------
  // The cache-aside listing

  /** `Ok(posts) if !posts.is_empty()`: the value a GET hands back, if it counts as a hit. */
  function Probe(cache: map<string, Entry>, key: string, getOk: bool): Option<CacheValue>
  {
    if getOk && key in cache && cache[key].value != Empty then Some(cache[key].value) else None
  }

  /**
   * `get_all_post` over the table `posts` and the cache `cache`: the reply,
   * and the cache afterwards. The table is only read.
   */
  function GetAll(posts: seq<Post>, cache: map<string, Entry>, page: i64, s: Services)
    : (r: (Outcome, map<string, Entry>))
    ensures r.1 == cache || (CacheKey(page) in r.1 && r.1 == cache[CacheKey(page) := Entry(r.1[CacheKey(page)].value, CacheTtl)])
    ensures r.1 != cache ==> r.0.Reply? && r.0.body.Listing? && r.0.body.source == FromDatabase
                             && r.0.body.data.Array?
                             && r.1[CacheKey(page)].value == Serialize(r.0.body.data.items)
    ensures r.0.Reply? && r.0.body.Listing? && r.0.body.source == FromCache ==> r.1 == cache
    ensures r.0.Reply? && r.0.body.Listing? && r.0.body.source == FromDatabase ==>
              r.0.body.data.Array? && CacheKey(page) in r.1
              && r.1[CacheKey(page)] == Entry(Serialize(r.0.body.data.items), CacheTtl)
    ensures r.0.Reply? ==> r.0.status == 200 || r.0 == Reply(500, Error(FetchFailed))
    ensures r.0.Reply? && r.0.status == 500 ==> r.1 == cache
    ensures r.0.Panic? ==> r.1 == cache
  {
    match Offset(page)
    case None => (Panic(OverflowReason(page)), cache)
    case Some(offset) =>
      if !s.redisPool then (Panic("cant connect to redis"), cache)
      else
        var key := CacheKey(page);
        match Probe(cache, key, s.redisGet)
        case Some(v) => (Reply(200, Listing(Deserialize(v), FromCache)), cache)
        case None =>
          var fetched := if s.db.Some? then Failure(s.db.value) else SelectPage(posts, Limit, offset);
          match fetched
          case Failure(_) => (Reply(500, Error(FetchFailed)), cache)
          case Success(rows) =>
            if !s.redisSet then (Panic("called `Result::unwrap()` on an `Err` value"), cache)
            else (Reply(200, Listing(Array(rows), FromDatabase)), cache[key := Entry(Serialize(rows), CacheTtl)])
  }

  /**
   * A hit answers with the parsed cached value tagged "cache", changes
   * nothing, and does not depend on the table or the database.
   */
  lemma HitServesCache(posts: seq<Post>, other: seq<Post>, cache: map<string, Entry>, page: i64, s: Services, db: Option<DbError>)
    requires MinPage <= page as int <= MaxPage && s.redisPool && s.redisGet
    requires CacheKey(page) in cache && cache[CacheKey(page)].value != Empty
    ensures GetAll(posts, cache, page, s) == (Reply(200, Listing(Deserialize(cache[CacheKey(page)].value), FromCache)), cache)
    ensures GetAll(posts, cache, page, s) == GetAll(other, cache, page, s.(db := db))
  {
  }

  /** A cached string that does not parse is still a hit: `null`, tagged "cache". */
  lemma UnparsableHitIsNull(posts: seq<Post>, cache: map<string, Entry>, page: i64, s: Services)
    requires MinPage <= page as int <= MaxPage && s.redisPool && s.redisGet
    requires CacheKey(page) in cache && cache[CacheKey(page)].value == Garbage
    ensures GetAll(posts, cache, page, s) == (Reply(200, Listing(Null, FromCache)), cache)
  {
  }

  /**
   * A miss on a page from 1 on, with the database and the cache working,
   * answers with that page's rows tagged "database" and writes exactly one
   * entry: those rows under the page's key, with a 300-second expiry.
   */
  lemma MissFetchesAndCaches(posts: seq<Post>, cache: map<string, Entry>, page: i64, s: Services)
    requires SortedById(posts)
    requires 1 <= page as int <= MaxPage && s.redisPool && s.db.None? && s.redisSet
    requires !s.redisGet || CacheKey(page) !in cache || cache[CacheKey(page)].value == Empty
    ensures var o := (page as int - 1) * Limit;
            var rows := posts[Min(o, |posts|)..Min(o + Limit, |posts|)];
            GetAll(posts, cache, page, s)
            == (Reply(200, Listing(Array(rows), FromDatabase)), cache[CacheKey(page) := Entry(Serialize(rows), CacheTtl)])
  {
    var o := (page as int - 1) * Limit;
    if |posts| <= o {
      assert posts[Min(o, |posts|)..Min(o + Limit, |posts|)] == [];
    }
  }

  /** A miss whose query fails answers 500 with the fixed message and leaves the cache as it was. */
  lemma FailedMissWritesNothing(posts: seq<Post>, cache: map<string, Entry>, page: i64, s: Services)
    requires MinPage <= page as int <= MaxPage && s.redisPool
    requires !s.redisGet || CacheKey(page) !in cache || cache[CacheKey(page)].value == Empty
    requires s.db.Some? || page < 1
    ensures GetAll(posts, cache, page, s) == (Reply(500, Error(FetchFailed)), cache)
  {
  }

  /** A failed cache write after a successful query is not ignored: `unwrap` panics, and nothing is cached. */
  lemma SetexFailurePanics(posts: seq<Post>, cache: map<string, Entry>, page: i64, s: Services)
    requires 1 <= page as int <= MaxPage && s.redisPool && s.db.None? && !s.redisSet
    requires !s.redisGet || CacheKey(page) !in cache || cache[CacheKey(page)].value == Empty
    ensures GetAll(posts, cache, page, s).0.Panic? && GetAll(posts, cache, page, s).1 == cache
  {
  }

  /** A pool that hands out no Redis connection panics through `expect`, before the cache or the table is read. */
  lemma PoolFailurePanics(posts: seq<Post>, cache: map<string, Entry>, page: i64, s: Services)
    requires !s.redisPool
    ensures GetAll(posts, cache, page, s).0.Panic? && GetAll(posts, cache, page, s).1 == cache
  {
  }

  /** A page past the last row is a success with no rows, and its `[]` is cached. */
  lemma PageBeyondEndIsEmpty(posts: seq<Post>, cache: map<string, Entry>, page: i64, s: Services)
    requires 1 <= page as int <= MaxPage && |posts| <= (page as int - 1) * Limit
    requires s.redisPool && s.db.None? && s.redisSet
    requires !s.redisGet || CacheKey(page) !in cache || cache[CacheKey(page)].value == Empty
    ensures GetAll(posts, cache, page, s).0 == Reply(200, Listing(Array([]), FromDatabase))
    ensures GetAll(posts, cache, page, s).1[CacheKey(page)] == Entry(Serialize([]), CacheTtl)
  {
  }

  /**
   * After a reply from the database, the same page asked again over a
   * working cache is a hit with the same rows, whatever the table or the
   * database do meanwhile; an empty page is no exception.
   */
  lemma RepeatIsHit(posts: seq<Post>, later: seq<Post>, cache: map<string, Entry>, page: i64, s: Services, t: Services)
    requires GetAll(posts, cache, page, s).0.Reply?
    requires GetAll(posts, cache, page, s).0.body.Listing?
    requires GetAll(posts, cache, page, s).0.body.source == FromDatabase
    requires t.redisPool && t.redisGet
    ensures var (first, after) := GetAll(posts, cache, page, s);
            GetAll(later, after, page, t) == (Reply(200, Listing(first.body.data, FromCache)), after)
  {
  }

  /** A page below 1 is never cached: its offset is negative, which the database refuses. */
  lemma NonPositivePageNotCached(posts: seq<Post>, cache: map<string, Entry>, page: i64, s: Services)
    requires page < 1
    ensures GetAll(posts, cache, page, s).1 == cache
  {
  }

  // ---------------------------------------------------------------------
  // Error classification of the single-row handlers

  /** The reply to a failed `SELECT … WHERE id = $1`: 404 when the error text says no row came back, else 500. */
  function SingleRowError(e: DbError): (out: Outcome)
    ensures out == Reply(404, Failed(DataNotFound)) || out == Reply(500, Error(FetchFailed))
    ensures out.status == 404 <==> exists i :: OccursAt(ErrorText(e), RowNotFoundText, i)
  {
    ContainsIff(ErrorText(e), RowNotFoundText);
    if Contains(ErrorText(e), RowNotFoundText) then Reply(404, Failed(DataNotFound))
    else Reply(500, Error(FetchFailed))
  }

  /** A missing row gives 404. */
  lemma RowNotFoundIs404()
    ensures SingleRowError(RowNotFound) == Reply(404, Failed(DataNotFound))
  {
    assert OccursAt(RowNotFoundText, RowNotFoundText, 0);
  }

  /**
   * The reply to a failed INSERT: 400 when the error text reports a duplicate
   * key, else 500 carrying the error's `Debug` text.
   */
  function InsertError(e: DbError): (out: Outcome)
    ensures out == Reply(400, Rejected(TitleTaken)) || out == Reply(500, Error(DebugText(e)))
    ensures out.status == 400 <==> exists i :: OccursAt(ErrorText(e), DuplicateKeyText, i)
  {
    ContainsIff(ErrorText(e), DuplicateKeyText);
    if Contains(ErrorText(e), DuplicateKeyText) then Reply(400, Rejected(TitleTaken))
    else Reply(500, Error(DebugText(e)))
  }

  /** `SELECT * FROM post WHERE id = $1` when the database may fail with a given error. */
  function Select(posts: seq<Post>, id: int, fault: Option<DbError>): (r: Result<Post, DbError>)
    ensures r.Success? <==> fault.None? && HasId(posts, id)
    ensures r.Success? ==> r.value in posts && r.value.id == id
    ensures r.Failure? ==> r.error == if fault.Some? then fault.value else RowNotFound
  {
    if fault.Some? then Failure(fault.value) else FetchOne(posts, id)
  }

  /** `field.unwrap_or_else(|| stored)`: a field absent from the body keeps the stored value. */
  function Merge(field: Option<string>, stored: string): (r: string)
    ensures field.None? ==> r == stored
    ensures field.Some? ==> r == field.value
  {
    if field.Some? then field.value else stored
  }

  // ---------------------------------------------------------------------
  // The state the handlers work on

  class AppState {
    /** The `post` table, in id order. */
    var posts: seq<Post>
    /** The key-value cache. */
    var cache: map<string, Entry>

    ghost predicate Valid()
      reads this
    {
      SortedById(posts)
    }

    constructor (posts: seq<Post>, cache: map<string, Entry>)
      requires SortedById(posts)
      ensures Valid() && this.posts == posts && this.cache == cache
    {
      this.posts := posts;
      this.cache := cache;
    }

    /** `GET /post/getall/{page}`. */
    method GetAllPost(page: i64, s: Services) returns (out: Outcome)
      requires Valid()
      modifies this
      ensures Valid() && posts == old(posts)
      ensures (out, cache) == GetAll(old(posts), old(cache), page, s)
    {
      var offset := Offset(page);
      if offset.None? {
        return Panic(OverflowReason(page));
      }
      if !s.redisPool {
        return Panic("cant connect to redis");
      }
      var key := CacheKey(page);
      var hit := Probe(cache, key, s.redisGet);
      if hit.Some? {
        return Reply(200, Listing(Deserialize(hit.value), FromCache));
      }
      var fetched := if s.db.Some? then Failure(s.db.value) else SelectPage(posts, Limit, offset.value);
      if fetched.Failure? {
        return Reply(500, Error(FetchFailed));
      }
      if !s.redisSet {
        return Panic("called `Result::unwrap()` on an `Err` value");
      }
      cache := cache[key := Entry(Serialize(fetched.value), CacheTtl)];
      out := Reply(200, Listing(Array(fetched.value), FromDatabase));
    }

    /** `GET /post/detail/{id}`: reads only. */
    method GetOnePost(id: int, fault: Option<DbError>) returns (out: Outcome)
      requires Valid()
      ensures fault.None? && HasId(posts, id) ==>
                out.Reply? && out.status == 200 && out.body.One? && out.body.post in posts && out.body.post.id == id
      ensures fault.None? && !HasId(posts, id) ==> out == Reply(404, Failed(DataNotFound))
      ensures fault.Some? ==> out == SingleRowError(fault.value)
    {
      var found := Select(posts, id, fault);
      if found.Success? {
        out := Reply(200, One(found.value));
      } else {
        if found.error == RowNotFound {
          RowNotFoundIs404();
        }
        out := SingleRowError(found.error);
      }
    }

    /**
     * `DELETE /post/{id}`: look the row up, then delete it; a failing DELETE
     * panics through `unwrap`. The cache is not touched.
     */
    method DeletePostById(id: int, selectFault: Option<DbError>, deleteFails: bool) returns (out: Outcome)
      requires Valid()
      modifies this
      ensures Valid() && cache == old(cache)
      ensures var found := Select(old(posts), id, selectFault);
              && (found.Failure? ==> out == SingleRowError(found.error) && posts == old(posts))
              && (found.Success? && deleteFails ==> out.Panic? && posts == old(posts))
              && (found.Success? && !deleteFails ==> out == Reply(200, Deleted(DeleteSuccess))
                                                     && posts == DeleteWhereId(old(posts), id)
                                                     && |posts| == |old(posts)| - 1)
    {
      var found := Select(posts, id, selectFault);
      if found.Failure? {
        return SingleRowError(found.error);
      }
      if deleteFails {
        return Panic("called `Result::unwrap()` on an `Err` value");
      }
      DeleteWhereIdSorted(posts, id);
      posts := DeleteWhereId(posts, found.value.id);
      out := Reply(200, Deleted(DeleteSuccess));
    }

    /**
     * `PATCH /post/{id}`: look the row up, merge the body's fields over it,
     * and run the UPDATE, which has no WHERE clause and so rewrites every
     * row. The cache is not touched.
     */
    method UpdatePostById(id: int, patch: UpdatePost, selectFault: Option<DbError>, updateFault: Option<DbError>)
      returns (out: Outcome)
      requires Valid()
      modifies this
      ensures Valid() && cache == old(cache)
      ensures var found := Select(old(posts), id, selectFault);
              && (found.Failure? ==> out == SingleRowError(found.error) && posts == old(posts))
              && (found.Success? && updateFault.Some? ==> out == Reply(500, Error(ErrorText(updateFault.value)))
                                                          && posts == old(posts))
              && (found.Success? && updateFault.None? ==>
                    out == Reply(200, Updated(patch))
                    && |posts| == |old(posts)|
                    && forall i :: 0 <= i < |posts| ==>
                         && posts[i].id == old(posts)[i].id
                         && posts[i].title == Merge(patch.title, found.value.title)
                         && posts[i].content == Merge(patch.content, found.value.content))
    {
      var found := Select(posts, id, selectFault);
      if found.Failure? {
        return SingleRowError(found.error);
      }
      if updateFault.Some? {
        return Reply(500, Error(ErrorText(updateFault.value)));
      }
      var title := Merge(patch.title, found.value.title);
      var content := Merge(patch.content, found.value.content);
      UpdatesKeepOrder(posts, id, title, content);
      posts := SetAll(posts, title, content);
      out := Reply(200, Updated(patch));
    }
  }
}

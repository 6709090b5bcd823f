# Post handlers: cache-aside listing and single-row updates

This project models the post handlers of a small actix-web service backed by PostgreSQL and Redis.

The centre of the model is `get_all_post`, a cache-aside read of one page of posts:

1. The offset `(page - 1) * 10` is computed under Rust's overflow checks.
2. The key `posts_page_<page>` is derived.
3. Redis is probed. A non-empty stored string is a hit. It is parsed and returned tagged `"cache"`.
4. Otherwise `SELECT * FROM post ORDER BY id LIMIT 10 OFFSET …` runs. Its rows are stored under the key with `SETEX` and a 300-second expiry, and returned tagged `"database"`.
5. A failed query answers 500 with a fixed message and writes nothing.

The single-row handlers share the same table. `get_one_post`, `delete_post_by_id` and `update_post_by_id` are modelled. So is their common error classification: a "no rows returned" error text gives 404, any other gives 500.

Layout:

- `wrappers.dfy`: `Option` and `Result`.
- `decimal.dfy`: Rust's integer `Display`, with a reading function and the proof that reading the text gives the number back.
- `post_table.dfy`: the `post` table as a sequence kept in ascending id order, and the SQL statements the handlers run, with PostgreSQL's semantics.
- `text.dfy`: `str::contains`, proved equal to "occurs at some index".
- `codec.dfy`: the cached JSON text, as far as the handler tells texts apart: empty, the encoding of some rows, or unparsable.
- `post_handler.dfy`:
  - the constants;
  - `CacheKey` and `Offset`;
  - `GetAll`, the listing as a function from (table, cache, page, service behaviour) to (reply, new cache), with lemmas for each outcome;
  - class `AppState`, whose fields `posts` and `cache` the handler methods update in place.

What the outside services do on one call is a parameter:

- whether the Redis pool hands out a connection;
- whether GET succeeds;
- whether the database fails, and with what error;
- whether SETEX succeeds.

A Rust panic (`expect`, `unwrap`, overflow) is the outcome `Panic`.

Points where the code departs from a textbook cache-aside read. The model follows the code in each case:

- The cache key prefix is `posts_page_`, and a reply from the database is tagged `"database"`.
- A cached string that does not parse is not a miss. `unwrap_or_default` turns it into JSON `null`, which is returned tagged `"cache"` (`UnparsableHitIsNull`).
- A failed cache write is not ignored. `.unwrap()` panics, and the cache is unchanged (`SetexFailurePanics`).
- The page number is not range-checked. For a page below 1 the offset is negative, and PostgreSQL rejects a negative OFFSET. So on a miss such a page answers 500 and is never cached (`NonPositivePageNotCached`).
- Redis reports an absent key to `get::<_, String>` as an error. That takes the same branch as an empty value or a failed GET: a miss.

## Model

| member | source | states |
|---|---|---|
| Decimal.Digits | src/modules/post/post_handler.rs:18 | the decimal text of a natural number is non-empty, all digits, and starts with '0' only for zero |
| Decimal.Show | src/modules/post/post_handler.rs:18 | the text of an integer is a canonical numeral (no leading zero, no "-0"), with a leading '-' exactly when the number is negative |
| Decimal.ReadShow | src/modules/post/post_handler.rs:18 | reading the text of an integer gives the integer back |
| Decimal.ShowInjective | src/modules/post/post_handler.rs:18 | distinct integers have distinct texts |
| PostHandler.CacheKey | src/modules/post/post_handler.rs:18 | the key is `posts_page_` followed by a canonical numeral that reads back as the page |
| PostHandler.CacheKeyInjective | src/modules/post/post_handler.rs:18 | distinct pages get distinct cache keys |
| PostHandler.Offset | src/modules/post/post_handler.rs:13-15 | the offset exists exactly for pages in [-922337203685477579, 922337203685477581], where `(page - 1) * 10` fits in an i64, and then equals it |
| PostHandler.OffsetsTile | src/modules/post/post_handler.rs:14-15 | consecutive pages start 10 rows apart; the offset is non-negative exactly from page 1 and zero exactly at page 1 |
| PostTable.SelectPage | src/modules/post/post_handler.rs:36-43 | the query succeeds exactly when LIMIT and OFFSET are non-negative, and then returns min(limit, rows left after offset) rows, the i-th being the row at rank offset + i in id order |
| PostTable.SelectPageSorted | src/modules/post/post_handler.rs:38 | a page of the listing is in ascending id order |
| PostHandler.PagesUpToIsPrefix | src/modules/post/post_handler.rs:14-43 | over a table in id order, reading pages 1..n from the database yields exactly its first 10·n rows, none skipped or repeated |
| Codec.Serialize | src/modules/post/post_handler.rs:47 | encoded rows are never the empty string, even for no rows, and parse back to the same rows |
| Codec.Deserialize | src/modules/post/post_handler.rs:27 | a stored string parses to an array exactly when it is the encoding of some rows; otherwise to null |
| PostHandler.GetAll | src/modules/post/post_handler.rs:8-68 | the cache is either unchanged or gets one write, at the page's key, with expiry 300 and the encoding of the rows the reply carries tagged "database"; every "database" reply comes with that write; a "cache" reply, a 500 and a panic leave the cache unchanged; a reply is 200 or the 500 with the fixed message |
| PostHandler.HitServesCache | src/modules/post/post_handler.rs:24-32 | on a hit the reply is the parsed cached value tagged "cache", the cache is unchanged, and the result does not depend on the table or on database failures |
| PostHandler.UnparsableHitIsNull | src/modules/post/post_handler.rs:27-31 | a cached string that does not parse is returned as null tagged "cache" and does not reach the database |
| PostHandler.MissFetchesAndCaches | src/modules/post/post_handler.rs:34-56 | on a miss for page ≥ 1 over a table in id order, with working services, the reply is the page's rows tagged "database" and the cache gains exactly those rows under the page's key with expiry 300 |
| PostHandler.FailedMissWritesNothing | src/modules/post/post_handler.rs:58-64 | on a miss whose query fails (database error or page below 1), the reply is 500 with "Something bad happened when fetching all posts" and the cache is unchanged |
| PostHandler.SetexFailurePanics | src/modules/post/post_handler.rs:46-50 | on a miss for page ≥ 1 whose query succeeds, a failed SETEX panics and the cache is unchanged |
| PostHandler.PoolFailurePanics | src/modules/post/post_handler.rs:21 | when the pool hands out no Redis connection, the handler panics and the cache is unchanged |
| PostHandler.PageBeyondEndIsEmpty | src/modules/post/post_handler.rs:45-56 | a page past the last row is a 200 with no rows, and its non-empty encoding is cached |
| PostHandler.RepeatIsHit | src/modules/post/post_handler.rs:24-56 | after a reply from the database, asking for the same page over a working cache is a hit with the same data, whatever the table and database do meanwhile |
| PostHandler.NonPositivePageNotCached | src/modules/post/post_handler.rs:13-64 | a page below 1 never changes the cache |
| PostHandler.AppState.GetAllPost | src/modules/post/post_handler.rs:8-68 | the reply and the new cache are those of `GetAll` on the old state; the table is unchanged |
| PostHandler.Select | src/modules/post/post_handler.rs:184-188 | the lookup succeeds exactly when the database works and a row has the id, and returns a row of the table with that id; otherwise the database's error, or RowNotFound |
| PostTable.FetchOne | src/modules/post/post_handler.rs:76-80 | the lookup succeeds exactly when a row has the id, and returns a row of the table with that id; otherwise the error is RowNotFound |
| Text.ContainsIff | src/modules/post/post_handler.rs:90 | the substring test is true exactly when the needle occurs at some index |
| PostHandler.SingleRowError | src/modules/post/post_handler.rs:89-99 | a failed lookup answers 404 "data not found" exactly when the error text contains the no-rows message, else 500 with the fixed message |
| PostHandler.RowNotFoundIs404 | src/modules/post/post_handler.rs:90-94 | a missing row answers 404 |
| PostHandler.InsertError | src/modules/post/post_handler.rs:126-136 | a failed insert answers 400 with message "Post with that title already exists" exactly when the error text reports a duplicate key, else 500 with the error's `Debug` text |
| PostHandler.AppState.GetOnePost | src/modules/post/post_handler.rs:70-102 | with a working database: 200 with the table's row of that id if there is one, else 404; a failing database goes through the shared classification |
| PostTable.DeleteWhereId | src/modules/post/post_handler.rs:154 | the rows kept are exactly those whose id differs |
| PostTable.DeleteWhereIdSorted | src/modules/post/post_handler.rs:154 | in a table in id order the delete keeps the order, and exactly one row goes when the id is present, none otherwise |
| PostHandler.AppState.DeletePostById | src/modules/post/post_handler.rs:140-175 | a failed lookup answers by the shared classification and changes nothing; a failing DELETE panics and changes nothing; otherwise the row is removed, the table shrinks by one and the reply is 200; the cache is never touched |
| PostTable.SetAll | src/modules/post/post_handler.rs:191-196 | every row keeps its id and receives the given title and content |
| PostTable.UpdatesKeepOrder | src/modules/post/post_handler.rs:193 | both forms of the UPDATE keep the table in id order |
| PostHandler.Merge | src/modules/post/post_handler.rs:194-195 | a field absent from the body keeps the stored value; a present field replaces it |
| PostHandler.AppState.UpdatePostById | src/modules/post/post_handler.rs:177-227 | a failed lookup answers by the shared classification and changes nothing; a failing UPDATE answers 500 with its text and changes nothing; otherwise every row keeps its id and gets the title and content merged from the body over the looked-up row; the cache is never touched |
| PostTable.UpdateWithoutWhereRewritesOtherRows | src/modules/post/post_handler.rs:193 | patching post 1 of a two-row table rewrites post 2 as written, but not under the WHERE-restricted statement |
| PostTable.SetWhere | src/modules/post/post_handler.rs:191-196 | the WHERE-restricted update replaces the row with the given id and leaves every other row as it was |
| PostTable.SetWhereTouchesOnlyThatRow | src/modules/post/post_handler.rs:191-196 | after the WHERE-restricted update, the rows with other ids are exactly those before, and the row with the id carries the new title and content |

## Findings

| source | as written | input that shows it | evidently intended | confidence | as-written member | corrected member |
|---|---|---|---|---|---|---|
| src/modules/post/post_handler.rs:193 | `UPDATE post SET title=$1,content=$2 RETURNING *` has no WHERE clause, so a PATCH of one post rewrites the title and content of every post | table {(1, "first", "a"), (2, "second", "b")}, `PATCH /post/1` with title "patched": if titles are not unique, post 2's title becomes "patched"; if they are (the insert handler's duplicate-key reply suggests so), the UPDATE fails with a duplicate key and the PATCH answers 500. Either way no PATCH changes only its own row on a table of two or more rows | `… WHERE id=$3`, changing only the looked-up row | high that the statement lacks a WHERE clause; which of the two outcomes occurs depends on the schema, which is not part of this model; not executed | PostTable.UpdateWithoutWhereRewritesOtherRows | PostTable.SetWhere |

`AppState.UpdatePostById` models the handler as it runs, with the statement as written (`SetAll`); a unique-title violation is its failing-UPDATE branch. `SetWhere` and its lemma state what the restricted statement would do.

## Left out

- Connection pools and start-up (`src/main.rs`, `src/service/redis.rs`, `src/service/rabbitmq.rs`): sizing, checkout timeouts and exhaustion live in the pool libraries. A pool that hands out no connection is a parameter leading to a panic.
- Authentication (`src/modules/auth/`): password hashing, tokens and validation rules are calls into foreign crates.
- `create_post_handlers`: only its error classification is modelled (`InsertError`). The insert itself is a single statement whose unique constraints live in a schema this model does not include.
- Redis's enforcement of the 300-second expiry and wall-clock time: the expiry is recorded in each entry as data; entries do not lapse.
- PostHandler.Offset: in a release build without overflow checks the arithmetic wraps instead of panicking. Only the checked build is modelled.
- JSON: serde_json's encoder and parser are abstract. A cached string that is valid JSON but not an array of posts is not told apart from one that does not parse. The source would return that value as it is, tagged "cache".
- Concurrency: interleavings of requests, last-write-wins on a cache key, and a row changing between a handler's SELECT and its DELETE or UPDATE.
- Ids are `i32` in the source; the model uses unbounded integers for them and parses nothing. Path segments that are not numbers are refused by the routing layer, outside this code.
- PostgreSQL's own errors (a negative LIMIT or OFFSET) carry an abbreviated `Debug` text, with only their SQLSTATE code and message; nothing the handlers send depends on it.
- HTTP framing beyond status and JSON body shape. A panic is an outcome of its own; what the server does after it is not modelled.

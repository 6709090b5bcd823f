/**
 * The JSON text stored in the cache, as far as the listing handler tells texts
 * apart. serde_json's encoder and parser are not part of this model: the one
 * link between them it relies on is that parsing the encoding of some rows
 * gives those rows back.
 */
module Codec {
  import opened PostTable

  /** A cached string: the empty string, the encoding of some rows, or text that does not parse. */
  datatype CacheValue = Empty | Page(rows: seq<Post>) | Garbage

  /** A parsed JSON value: `null` or an array of posts. */
  datatype Json = Null | Array(items: seq<Post>)

  /**
   * `serde_json::to_string(&posts).unwrap_or_default()`; encoding a `Vec<Post>`
   * does not fail, and even no rows encode to the non-empty text `[]`.
   */
  function Serialize(rows: seq<Post>): (v: CacheValue)
    ensures v != Empty
    ensures Deserialize(v) == Array(rows)
  {
    Page(rows)
  }

  /** `serde_json::from_str(&text).unwrap_or_default()`: text that does not parse becomes `null`. */
  function Deserialize(v: CacheValue): (j: Json)
    ensures j.Array? <==> v.Page?
  {
    match v
    case Page(rows) => Array(rows)
    case _ => Null
  }
}

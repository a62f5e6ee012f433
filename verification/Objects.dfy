/** Cached objects, HTTP responses, and the values Go code passes around them. */
module Objects {
  import opened Basics

  newtype Octet = x: int | 0 <= x < 256

  type Bytes = seq<Octet>

  type Headers = map<string, seq<string>>

  /** cache.Object; data is a pointer to a byte slice, None when the pointer is nil. */
  datatype Object = Object(key: string, data: Option<Bytes>, headers: Headers)

  datatype Response = Response(status: int, headers: Headers, body: Bytes)

  const STATUS_OK := 200

  /** Encoding an object with gob and decoding it again. gob omits a field whose value is empty,
      also behind a pointer, so an empty body comes back as a nil pointer. */
  function ThroughGob(o: Object): Object {
    if o.data.Some? && o.data.value == [] then o.(data := None) else o
  }

  /** How often k occurs among keys. */
  function Times(keys: seq<string>, k: string): nat {
    if keys == [] then 0 else (if keys[0] == k then 1 else 0) + Times(keys[1..], k)
  }

  /** What an Initializer returns if it is called. */
  type Fetched = Result<Object>
}

/** `_extract_user_id`: which user a request belongs to.  The first truthy value
    among four header spellings (read only when `metadata` and
    `metadata.headers` are dictionaries) and the body's `user` field wins;
    with none, the fixed default identity. */
module UserIdentity {
  import opened Wrappers
  import opened PyValue

  const DefaultUserId: string := "default_user_id"

  /** The header names tried, in order. */
  const HeaderNames: seq<string> := ["x-user-id", "X-User-ID", "user-id", "User-ID"]

  /** `data['metadata']['headers']`, when `metadata` is a dict that holds a
      dict under `headers`. */
  function Headers(data: map<string, Value>): (h: Option<map<string, Value>>)
    ensures h.Some? <==> "metadata" in data && data["metadata"].PyDict?
                         && "headers" in data["metadata"].entries
                         && data["metadata"].entries["headers"].PyDict?
  {
    if "metadata" in data && data["metadata"].PyDict? then
      var metadata := data["metadata"].entries;
      if "headers" in metadata && metadata["headers"].PyDict? then Some(metadata["headers"].entries)
      else None
    else None
  }

  /** The user id, found as the code does it: an `or` chain over the headers,
      then the `user` field, then the default. */
  function ExtractUserId(data: map<string, Value>): (r: string)
    ensures |r| > 0
  {
    var fromHeaders :=
      match Headers(data)
      case Some(h) =>
        Or(Or(Or(Get(h, "x-user-id", PyNone), Get(h, "X-User-ID", PyNone)),
              Get(h, "user-id", PyNone)),
           Get(h, "User-ID", PyNone))
      case None => PyNone;
    if Truthy(fromHeaders) then Text(fromHeaders)
    else if Truthy(Get(data, "user", PyNone)) then Text(Get(data, "user", PyNone))
    else DefaultUserId
  }

  /** Reference definition: the values consulted, in priority order. */
  function Candidates(data: map<string, Value>): (c: seq<Value>)
    ensures |c| == (if Headers(data).Some? then 5 else 1)
    ensures c[|c| - 1] == Get(data, "user", PyNone)
  {
    var fromHeaders :=
      match Headers(data)
      case Some(h) => seq(|HeaderNames|, i requires 0 <= i < |HeaderNames| => Get(h, HeaderNames[i], PyNone))
      case None => [];
    fromHeaders + [Get(data, "user", PyNone)]
  }

  /** Priority: the user id is the text of the first truthy candidate, and the
      default identity when no candidate is truthy. */
  lemma ExtractUserIdPriority(data: map<string, Value>)
    ensures var c := Candidates(data);
      forall i :: 0 <= i < |c| && Truthy(c[i]) && (forall j :: 0 <= j < i ==> !Truthy(c[j])) ==>
        ExtractUserId(data) == Text(c[i])
    ensures (forall v :: v in Candidates(data) ==> !Truthy(v)) ==> ExtractUserId(data) == DefaultUserId
  {
    var c := Candidates(data);
    match Headers(data)
    case Some(h) =>
      assert c[0] == Get(h, "x-user-id", PyNone);
      assert c[1] == Get(h, "X-User-ID", PyNone);
      assert c[2] == Get(h, "user-id", PyNone);
      assert c[3] == Get(h, "User-ID", PyNone);
    case None =>
  }

  /** Headers are ignored unless `metadata` and `metadata.headers` are both
      dictionaries: then only the `user` field can name the user. */
  lemma HeadersNeedDicts(data: map<string, Value>)
    requires Headers(data).None?
    ensures ExtractUserId(data) == if Truthy(Get(data, "user", PyNone)) then Text(data["user"]) else DefaultUserId
  {
  }

  /** Only `metadata` and `user` matter: keys the pre-call hook adds, such as
      `_layer_session_id`, do not change who the request belongs to. */
  lemma UserIdDependsOnMetadataAndUser(data: map<string, Value>, other: map<string, Value>)
    requires ("metadata" in data <==> "metadata" in other) && ("user" in data <==> "user" in other)
    requires "metadata" in data ==> data["metadata"] == other["metadata"]
    requires "user" in data ==> data["user"] == other["user"]
    ensures ExtractUserId(data) == ExtractUserId(other)
  {
  }
}

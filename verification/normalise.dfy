/**
 * What `get_profile_details`, `get_page_details` and `get_posts_details`
 * do with the parsed response once `rapidapi_get` has returned it:
 * sort it by shape into a record or `None`.
 */
module Normalise {
  import opened Wrappers
  import opened Json

  /** The wrapper some profile responses put around the payload: `{"data": {...}}`. */
  function Wrapped(payload: map<string, Json>): Json {
    JObj(map["data" := JObj(payload)])
  }

  /** A dict whose "data" entry is itself a dict. */
  predicate HasDataObject(m: map<string, Json>) {
    "data" in m && m["data"].JObj?
  }

  /** `get_profile_details`: peel one `"data"` wrapper off a dict; anything but a dict is `None`. */
  function NormaliseProfile(data: Json): Option<map<string, Json>> {
    if data.JObj? && HasDataObject(data.fields) then Some(data.fields["data"].fields)
    else if data.JObj? then Some(data.fields)
    else None
  }

  /**
   * The profile normaliser yields a record exactly for dicts: the inner
   * dict of a `"data"` wrapper, or else the dict itself.
   */
  lemma ProfileShapes(data: Json)
    ensures NormaliseProfile(data).Some? <==> data.JObj?
    ensures data.JObj? && HasDataObject(data.fields) ==> NormaliseProfile(data) == Some(data.fields["data"].fields)
    ensures data.JObj? && !HasDataObject(data.fields) ==> NormaliseProfile(data) == Some(data.fields)
  {
  }

  /** Whatever the provider wraps in `{"data": ...}` comes back out unchanged. */
  lemma ProfileUnwraps(payload: map<string, Json>)
    ensures NormaliseProfile(Wrapped(payload)) == Some(payload)
  {
  }

  /**
   * Peeling is not idempotent: a payload that itself holds a "data" dict
   * loses one more layer when normalised again.
   */
  lemma ProfileNotIdempotent()
    ensures var once := NormaliseProfile(Wrapped(map["data" := EmptyObj]));
      && once == Some(map["data" := EmptyObj])
      && NormaliseProfile(JObj(once.value)) == Some(map[])
      && once != NormaliseProfile(JObj(once.value))
  {
    var inner: map<string, Json> := map["data" := EmptyObj];
    assert HasDataObject(inner);
  }

  /** The worked example: a wrapped NASA profile normalises to its inner record. */
  lemma ProfileExample()
    ensures var payload := map["name" := JStr("NASA"), "id" := JStr("123")];
      NormaliseProfile(JObj(map["data" := JObj(payload)])) == Some(payload)
  {
  }

  /**
   * `get_page_details`: the first element of a non-empty list (of any
   * type: it is not checked to be a dict), a dict as it is, else `None`.
   */
  function NormalisePage(data: Json): Option<Json> {
    if data.JList? && data.items != [] then Some(data.items[0])
    else if data.JObj? then Some(data)
    else None
  }

  /** The page normaliser yields `None` exactly for empty lists and non-containers. */
  lemma PageShapes(data: Json)
    ensures NormalisePage(data).None? <==> data == EmptyList || !(data.JList? || data.JObj?)
    ensures data.JList? && data.items != [] ==> NormalisePage(data) == Some(data.items[0])
    ensures data.JObj? ==> NormalisePage(data) == Some(data)
  {
  }

  /** A list whose first element is a string yields that string, not a dict. */
  lemma PageFirstElementUnchecked(s: string, rest: seq<Json>)
    ensures NormalisePage(JList([JStr(s)] + rest)) == Some(JStr(s))
  {
  }

  /**
   * `get_posts_details`: a dict that has a "data" key (holding anything)
   * is kept; a bare list is wrapped as `{"data": {"posts": list}}`;
   * anything else is `None`.
   */
  function NormalisePosts(data: Json): (r: Option<map<string, Json>>)
    ensures r.Some? ==> "data" in r.value
  {
    if data.JObj? && "data" in data.fields then Some(data.fields)
    else if data.JList? then Some(map["data" := JObj(map["posts" := data])])
    else None
  }

  /** The posts normaliser's three cases. */
  lemma PostsShapes(data: Json)
    ensures NormalisePosts(data).Some? <==> data.JList? || (data.JObj? && "data" in data.fields)
    ensures data.JObj? && "data" in data.fields ==> NormalisePosts(data) == Some(data.fields)
    ensures data.JList? ==> NormalisePosts(data) == Some(map["data" := JObj(map["posts" := data])])
  {
  }

  /** Normalising a normalised posts record again returns it unchanged. */
  lemma PostsIdempotent(data: Json)
    ensures NormalisePosts(data).Some? ==>
      NormalisePosts(JObj(NormalisePosts(data).value)) == NormalisePosts(data)
  {
  }
}

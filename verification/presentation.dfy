/**
 * The decisions the console display makes on a normalised record:
 * which posts and photo attachments `show_posts` walks and what it shows
 * for each, and which intro cards and photos `show_profile` lists and
 * under which labels. Colours and text formatting are not modelled; a
 * line is its label and the JSON value it shows.
 */
module Presentation {
  import opened Wrappers
  import opened Json
  import opened PyStr
  import opened Normalise

  // ---------------------------------------------------------------------
  // show_posts

  datatype Label = PostId | Text | TotalReactions | Comments | Shares | Image

  datatype Line =
    | NoPostsNotice              // "No posts found (or your plan doesn't include them)."
    | PostsHeader                // "Posts details:"
    | Field(kind: Label, value: Json)

  /**
   * The lines a display routine prints, and whether it then stopped by
   * raising an exception (`AttributeError` or `TypeError` on an unexpected
   * shape). Lines printed before the exception stay printed.
   */
  datatype Emitted = Emitted(lines: seq<Line>, raised: bool)

  function Done(lines: seq<Line>): Emitted {
    Emitted(lines, false)
  }

  const Raised: Emitted := Emitted([], true)

  /** Run `a`, then `b` unless `a` raised. */
  function Then(a: Emitted, b: Emitted): Emitted {
    if a.raised then a else Emitted(a.lines + b.lines, b.raised)
  }

  /** `for x in xs: f(x)` over a list. */
  function Each(xs: seq<Json>, f: Json -> Emitted): Emitted
    decreases |xs|
  {
    if xs == [] then Done([]) else Then(f(xs[0]), Each(xs[1..], f))
  }

  /**
   * `for x in v: ... x.get(...)` over a value `v` of any type: a list is
   * walked; a string or dict yields strings (so the first `.get` raises),
   * and an empty one yields nothing; `None`, booleans and numbers are not
   * iterable.
   */
  function Loop(v: Json, f: Json -> Emitted): Emitted {
    // Both loops in `show_posts` iterate over a value already made truthy by
    // `or []` (or tested truthy), so the empty-string/empty-dict case below
    // does not arise there; it is kept so that `Loop` is Python's `for`.
    if v.JList? then Each(v.items, f)
    else if (v.JStr? || v.JObj?) && !Truthy(v) then Done([])
    else Raised
  }

  /** `((posts_data or {}).get('data') or {}).get('posts') or []`. */
  function PostList(postsData: Json): Result<Json, PyError> {
    match Attr(Or(postsData, EmptyObj), "data")
    case Failure(e) => Failure(e)
    case Success(data) =>
      match Attr(Or(data, EmptyObj), "posts")
      case Failure(e) => Failure(e)
      case Success(posts) => Success(Or(posts, EmptyList))
  }

  /** `show_posts`. */
  function ShowPosts(postsData: Json): Emitted {
    match PostList(postsData)
    case Failure(_) => Raised
    case Success(posts) =>
      if !Truthy(posts) then Done([NoPostsNotice])
      else Then(Done([PostsHeader]), Loop(posts, PostLines))
  }

  /** `print(f"...: {obj.get(key, 'N/A')}")`: a missing key shows "N/A", a present one its value, even a falsy one. */
  function FieldLine(kind: Label, obj: Json, key: string): Emitted {
    if obj.JObj? then Done([Field(kind, GetOr(obj.fields, key, NA))]) else Raised
  }

  /** `post.get('attachments') or []`. */
  function AttachmentsOf(post: map<string, Json>): Json {
    Or(Get(post, "attachments"), EmptyList)
  }

  /** One iteration of the loop over posts: the five field lines, then the loop over its attachments. */
  function PostLines(post: Json): Emitted {
    if !post.JObj? then Raised
    else Then(PostFields(post.fields), Loop(AttachmentsOf(post.fields), AttachmentLines))
  }

  /** The five field lines of a post; `post.get('details', {})` keeps a present value even when it is not a dict. */
  function PostFields(post: map<string, Json>): Emitted {
    var details := GetOr(post, "details", EmptyObj);
    var reactions := GetOr(post, "reactions", EmptyObj);
    var values := GetOr(post, "values", EmptyObj);
    Then(FieldLine(PostId, details, "post_id"),
    Then(FieldLine(Text, values, "text"),
    Then(FieldLine(TotalReactions, reactions, "total_reaction_count"),
    Then(FieldLine(Comments, details, "comments_count"),
         FieldLine(Shares, details, "share_count")))))
  }

  predicate IsPhoto(att: map<string, Json>) {
    Get(att, "__typename") == JStr("Photo")
  }

  /** `att.get('photo_image') or {}`. */
  function PhotoImage(att: map<string, Json>): Json {
    Or(Get(att, "photo_image"), EmptyObj)
  }

  /** One iteration of the loop over a post's attachments: an image line for a photo, nothing otherwise. */
  function AttachmentLines(att: Json): Emitted {
    if !att.JObj? then Raised
    else if !IsPhoto(att.fields) then Done([])
    else
      var image := PhotoImage(att.fields);
      if image.JObj? then Done([Field(Image, Or(Get(image.fields, "uri"), NA))]) else Raised
  }

  // Reference definitions: what `show_posts` is meant to select, with no error handling.

  /** An attachment `show_posts` can handle: a dict, whose photo image (for a photo) is a dict. */
  predicate WellFormedAttachment(att: Json) {
    att.JObj? && (IsPhoto(att.fields) ==> PhotoImage(att.fields).JObj?)
  }

  /** A post `show_posts` can handle: a dict whose sub-records are dicts and whose attachments are a list of handled attachments. */
  predicate WellFormedPost(post: Json) {
    && post.JObj?
    && GetOr(post.fields, "details", EmptyObj).JObj?
    && GetOr(post.fields, "reactions", EmptyObj).JObj?
    && GetOr(post.fields, "values", EmptyObj).JObj?
    && AttachmentsOf(post.fields).JList?
    && forall i :: 0 <= i < |AttachmentsOf(post.fields).items| ==> WellFormedAttachment(AttachmentsOf(post.fields).items[i])
  }

  /** The posts data `show_posts` displays without raising. */
  predicate Renderable(postsData: Json) {
    && PostList(postsData).Success?
    && var posts := PostList(postsData).value;
       !Truthy(posts) || (posts.JList? && forall i :: 0 <= i < |posts.items| ==> WellFormedPost(posts.items[i]))
  }

  /** The image shown for a photo attachment: its photo image's uri, or "N/A" when that is missing or falsy. */
  function ImageUri(att: map<string, Json>): (uri: Json)
    requires PhotoImage(att).JObj?
    ensures Truthy(uri)
    ensures Truthy(Get(PhotoImage(att).fields, "uri")) ==> uri == Get(PhotoImage(att).fields, "uri")
    ensures !Truthy(Get(PhotoImage(att).fields, "uri")) ==> uri == NA
  {
    Or(Get(PhotoImage(att).fields, "uri"), NA)
  }

  /** The image URIs of the photo attachments, in order. */
  function PhotoUris(atts: seq<Json>): seq<Json>
    requires forall i :: 0 <= i < |atts| ==> WellFormedAttachment(atts[i])
  {
    if atts == [] then []
    else
      assert WellFormedAttachment(atts[0]);
      (if IsPhoto(atts[0].fields) then [ImageUri(atts[0].fields)] else []) + PhotoUris(atts[1..])
  }

  /** The image URIs of all posts, post by post. */
  function PostImages(posts: seq<Json>): seq<Json>
    requires forall i :: 0 <= i < |posts| ==> WellFormedPost(posts[i])
  {
    if posts == [] then []
    else
      assert WellFormedPost(posts[0]);
      PhotoUris(AttachmentsOf(posts[0].fields).items) + PostImages(posts[1..])
  }

  /** Reference output of the loop over handled posts: each post's five field lines, then its image lines, post by post. */
  function PostsLines(posts: seq<Json>): seq<Line>
    requires forall i :: 0 <= i < |posts| ==> WellFormedPost(posts[i])
  {
    if posts == [] then []
    else
      assert WellFormedPost(posts[0]);
      PostFields(posts[0].fields).lines + ImageLines(PhotoUris(AttachmentsOf(posts[0].fields).items)) + PostsLines(posts[1..])
  }

  /** The values of the image lines among `lines`. */
  function ImageValues(lines: seq<Line>): seq<Json> {
    if lines == [] then []
    else (if lines[0].Field? && lines[0].kind == Image then [lines[0].value] else []) + ImageValues(lines[1..])
  }

  /** One image line per uri, in order. */
  function ImageLines(uris: seq<Json>): seq<Line> {
    if uris == [] then [] else [Field(Image, uris[0])] + ImageLines(uris[1..])
  }

  // Properties of show_posts.

  lemma {:induction false} ImageLinesAppend(a: seq<Json>, b: seq<Json>)
    ensures ImageLines(a + b) == ImageLines(a) + ImageLines(b)
    decreases |a|
  {
    if a == [] {
      assert a + b == b;
    } else {
      assert (a + b)[1..] == a[1..] + b;
      ImageLinesAppend(a[1..], b);
    }
  }

  lemma {:induction false} ImageValuesAppend(a: seq<Line>, b: seq<Line>)
    ensures ImageValues(a + b) == ImageValues(a) + ImageValues(b)
    decreases |a|
  {
    if a == [] {
      assert a + b == b;
    } else {
      assert (a + b)[1..] == a[1..] + b;
      ImageValuesAppend(a[1..], b);
    }
  }

  lemma {:induction false} NoImageValues(lines: seq<Line>)
    requires forall i :: 0 <= i < |lines| ==> !(lines[i].Field? && lines[i].kind == Image)
    ensures ImageValues(lines) == []
    decreases |lines|
  {
    if lines != [] {
      assert forall i :: 0 <= i < |lines[1..]| ==> lines[1..][i] == lines[i + 1];
      NoImageValues(lines[1..]);
    }
  }

  /** A loop over a list raises exactly when one of its iterations does. */
  lemma {:induction false} EachRaised(xs: seq<Json>, f: Json -> Emitted)
    ensures Each(xs, f).raised <==> exists i :: 0 <= i < |xs| && f(xs[i]).raised
    decreases |xs|
  {
    if xs != [] {
      EachRaised(xs[1..], f);
      if exists i :: 0 <= i < |xs| && f(xs[i]).raised {
        var i :| 0 <= i < |xs| && f(xs[i]).raised;
        if i > 0 {
          assert xs[1..][i - 1] == xs[i];
        }
      }
      if exists j :: 0 <= j < |xs| - 1 && f(xs[1..][j]).raised {
        var j :| 0 <= j < |xs| - 1 && f(xs[1..][j]).raised;
        assert xs[j + 1] == xs[1..][j];
      }
    }
  }

  /** An attachment raises exactly when it is malformed; a handled one shows one image line if it is a photo and none otherwise. */
  lemma AttachmentRenders(att: Json)
    ensures AttachmentLines(att).raised <==> !WellFormedAttachment(att)
    ensures WellFormedAttachment(att) ==>
      AttachmentLines(att).lines == if IsPhoto(att.fields) then [Field(Image, ImageUri(att.fields))] else []
  {
  }

  lemma {:induction false} AttachmentsRender(atts: seq<Json>)
    requires forall i :: 0 <= i < |atts| ==> WellFormedAttachment(atts[i])
    ensures !Each(atts, AttachmentLines).raised
    ensures Each(atts, AttachmentLines).lines == ImageLines(PhotoUris(atts))
    ensures ImageValues(Each(atts, AttachmentLines).lines) == PhotoUris(atts)
    ensures |Each(atts, AttachmentLines).lines| == |PhotoUris(atts)|
    decreases |atts|
  {
    if atts != [] {
      AttachmentRenders(atts[0]);
      assert forall i :: 0 <= i < |atts[1..]| ==> atts[1..][i] == atts[i + 1];
      AttachmentsRender(atts[1..]);
      var h := AttachmentLines(atts[0]);
      var t := Each(atts[1..], AttachmentLines);
      assert Each(atts, AttachmentLines) == Emitted(h.lines + t.lines, t.raised);
      ImageValuesAppend(h.lines, t.lines);
      var head := if IsPhoto(atts[0].fields) then [ImageUri(atts[0].fields)] else [];
      assert h.lines == ImageLines(head);
      ImageLinesAppend(head, PhotoUris(atts[1..]));
    }
  }

  /** A post raises exactly when it is malformed. */
  lemma PostRaised(post: Json)
    ensures PostLines(post).raised <==> !WellFormedPost(post)
  {
    if post.JObj? {
      PostFieldsRender(post.fields);
      var atts := AttachmentsOf(post.fields);
      if atts.JList? {
        EachRaised(atts.items, AttachmentLines);
        forall i | 0 <= i < |atts.items|
          ensures AttachmentLines(atts.items[i]).raised <==> !WellFormedAttachment(atts.items[i])
        {
          AttachmentRenders(atts.items[i]);
        }
      }
    }
  }

  /** A handled post shows its five fields and then one image line per photo attachment. */
  lemma PostRenders(post: Json)
    requires WellFormedPost(post)
    ensures !PostLines(post).raised
    ensures ImageValues(PostLines(post).lines) == PhotoUris(AttachmentsOf(post.fields).items)
    ensures |PostLines(post).lines| == 5 + |PhotoUris(AttachmentsOf(post.fields).items)|
    ensures PostLines(post).lines == PostFields(post.fields).lines + ImageLines(PhotoUris(AttachmentsOf(post.fields).items))
  {
    var atts := AttachmentsOf(post.fields).items;
    AttachmentsRender(atts);
    PostFieldsRender(post.fields);
    var fields := PostFields(post.fields);
    var rest := Each(atts, AttachmentLines);
    assert PostLines(post) == Emitted(fields.lines + rest.lines, false);
    ImageValuesAppend(fields.lines, rest.lines);
  }

  /** `line` shows `obj[key]` under `kind`, or "N/A" when `obj` has no `key`. */
  predicate Shows(line: Line, kind: Label, obj: map<string, Json>, key: string) {
    && line.Field?
    && line.kind == kind
    && (key in obj ==> line.value == obj[key])
    && (key !in obj ==> line.value == NA)
  }

  /**
   * The field lines raise exactly when a present `details`, `reactions` or
   * `values` is not a dict; otherwise they are Post ID, Text, Total
   * reactions, Comments and Shares in that order, each the field or "N/A",
   * and none is an image line.
   */
  lemma PostFieldsRender(post: map<string, Json>)
    ensures PostFields(post).raised <==>
      !(GetOr(post, "details", EmptyObj).JObj? && GetOr(post, "reactions", EmptyObj).JObj? && GetOr(post, "values", EmptyObj).JObj?)
    ensures !PostFields(post).raised ==>
      var lines := PostFields(post).lines;
      var details := GetOr(post, "details", EmptyObj).fields;
      var reactions := GetOr(post, "reactions", EmptyObj).fields;
      var values := GetOr(post, "values", EmptyObj).fields;
      && |lines| == 5
      && Shows(lines[0], PostId, details, "post_id")
      && Shows(lines[1], Text, values, "text")
      && Shows(lines[2], TotalReactions, reactions, "total_reaction_count")
      && Shows(lines[3], Comments, details, "comments_count")
      && Shows(lines[4], Shares, details, "share_count")
      && ImageValues(lines) == []
  {
    var f := PostFields(post);
    if !f.raised {
      NoImageValues(f.lines);
    }
  }

  lemma {:induction false} PostsRender(posts: seq<Json>)
    requires forall i :: 0 <= i < |posts| ==> WellFormedPost(posts[i])
    ensures Each(posts, PostLines) == Emitted(PostsLines(posts), false)
    ensures ImageValues(Each(posts, PostLines).lines) == PostImages(posts)
    ensures |Each(posts, PostLines).lines| == 5 * |posts| + |PostImages(posts)|
    decreases |posts|
  {
    if posts != [] {
      PostRenders(posts[0]);
      assert forall i :: 0 <= i < |posts[1..]| ==> posts[1..][i] == posts[i + 1];
      PostsRender(posts[1..]);
      var h := PostLines(posts[0]);
      var t := Each(posts[1..], PostLines);
      assert Each(posts, PostLines) == Emitted(h.lines + t.lines, t.raised);
      ImageValuesAppend(h.lines, t.lines);
    }
  }

  /** `show_posts` raises exactly on posts data that is not renderable. */
  lemma ShowPostsRaisedIff(postsData: Json)
    ensures ShowPosts(postsData).raised <==> !Renderable(postsData)
  {
    var r := PostList(postsData);
    if r.Success? && Truthy(r.value) && r.value.JList? {
      var posts := r.value.items;
      EachRaised(posts, PostLines);
      forall i | 0 <= i < |posts|
        ensures PostLines(posts[i]).raised <==> !WellFormedPost(posts[i])
      {
        PostRaised(posts[i]);
      }
    }
  }

  /**
   * On renderable, non-empty posts data `show_posts` prints the header,
   * five lines per post, and an image line exactly for each photo
   * attachment, showing that photo's uri or "N/A".
   */
  lemma ShowPostsImages(postsData: Json)
    requires Renderable(postsData) && Truthy(PostList(postsData).value)
    ensures PostList(postsData).value.JList?
    ensures var posts := PostList(postsData).value.items;
      && var out := ShowPosts(postsData);
      && !out.raised
      && |out.lines| == 1 + 5 * |posts| + |PostImages(posts)|
      && out == Emitted([PostsHeader] + PostsLines(posts), false)
      && out.lines[0] == PostsHeader
      && ImageValues(out.lines) == PostImages(posts)
  {
    var posts := PostList(postsData).value.items;
    PostsRender(posts);
    var rest := Each(posts, PostLines);
    assert ShowPosts(postsData) == Emitted([PostsHeader] + rest.lines, false);
    ImageValuesAppend([PostsHeader], rest.lines);
  }

  /** The "No posts found" notice is all `show_posts` prints, exactly when the post list is empty. */
  lemma ShowPostsNotice(postsData: Json)
    ensures ShowPosts(postsData) == Done([NoPostsNotice]) <==>
      PostList(postsData).Success? && !Truthy(PostList(postsData).value)
    ensures NoPostsNotice in ShowPosts(postsData).lines ==> ShowPosts(postsData) == Done([NoPostsNotice])
  {
    var r := PostList(postsData);
    if r.Success? && Truthy(r.value) {
      var out := ShowPosts(postsData);
      var rest := Loop(r.value, PostLines);
      assert out.lines == [PostsHeader] + rest.lines || out.raised;
      if NoPostsNotice in out.lines {
        NoNoticeInLoop(r.value);
        assert false;
      }
    }
  }

  /** The loop over posts never prints the notice. */
  lemma NoNoticeInLoop(posts: Json)
    ensures NoPostsNotice !in Loop(posts, PostLines).lines
  {
    if posts.JList? {
      NoNoticeInEach(posts.items);
    }
  }

  lemma {:induction false} NoNoticeInEach(posts: seq<Json>)
    ensures NoPostsNotice !in Each(posts, PostLines).lines
    decreases |posts|
  {
    if posts != [] {
      NoNoticeInEach(posts[1..]);
      NoNoticeInPost(posts[0]);
    }
  }

  lemma NoNoticeInPost(post: Json)
    ensures NoPostsNotice !in PostLines(post).lines
  {
    if post.JObj? {
      var atts := AttachmentsOf(post.fields);
      if atts.JList? {
        NoNoticeInAttachments(atts.items);
      }
    }
  }

  lemma {:induction false} NoNoticeInAttachments(atts: seq<Json>)
    ensures NoPostsNotice !in Each(atts, AttachmentLines).lines
    decreases |atts|
  {
    if atts != [] {
      NoNoticeInAttachments(atts[1..]);
    }
  }

  /**
   * Where the post list comes from: `posts_data["data"]["posts"]` when
   * every level is a dict and the list is truthy; `[]` as soon as a level
   * is missing or falsy; an `AttributeError` when a truthy level is not a dict.
   */
  lemma PostListPath(postsData: Json)
    ensures !Truthy(postsData) ==> PostList(postsData) == Success(EmptyList)
    ensures Truthy(postsData) && !postsData.JObj? ==> PostList(postsData) == Failure(AttributeError)
    ensures postsData.JObj? && !Truthy(Get(postsData.fields, "data")) ==> PostList(postsData) == Success(EmptyList)
    ensures postsData.JObj? && Truthy(Get(postsData.fields, "data")) && !Get(postsData.fields, "data").JObj? ==>
      PostList(postsData) == Failure(AttributeError)
    ensures postsData.JObj? && Get(postsData.fields, "data").JObj? ==>
      var posts := Get(Get(postsData.fields, "data").fields, "posts");
      PostList(postsData) == Success(if Truthy(posts) then posts else EmptyList)
  {
  }

  /** A bare list of posts, once normalised, is exactly the list `show_posts` walks. */
  lemma WrappedListIsWalked(posts: seq<Json>)
    ensures var normalised := NormalisePosts(JList(posts));
      && normalised.Some?
      && PostList(JObj(normalised.value)) == Success(JList(posts))
  {
  }

  /** An empty posts response yields only the "No posts found" notice, not an error. */
  lemma EmptyPostsResponse()
    ensures ShowPosts(JObj(NormalisePosts(EmptyList).value)) == Done([NoPostsNotice])
  {
  }

  // ---------------------------------------------------------------------
  // show_profile

  /** The intro cards `show_profile` lists: `INTRO_CARDS`, else `intro_cards`, when that is a non-empty dict. */
  function IntroCards(profile: map<string, Json>): Option<map<string, Json>> {
    var cards := Or(Or(Get(profile, "INTRO_CARDS"), Get(profile, "intro_cards")), EmptyObj);
    if cards.JObj? && cards.fields != map[] then Some(cards.fields) else None
  }

  /**
   * Intro cards are listed only from a non-empty dict, taken from the first
   * of the two keys that holds a truthy value: a truthy `INTRO_CARDS` that
   * is not a dict hides the `intro_cards` entry.
   */
  lemma IntroCardsSource(profile: map<string, Json>)
    ensures IntroCards(profile).Some? ==> IntroCards(profile).value != map[]
    ensures Truthy(Get(profile, "INTRO_CARDS")) ==>
      IntroCards(profile) == if Get(profile, "INTRO_CARDS").JObj? then Some(Get(profile, "INTRO_CARDS").fields) else None
    ensures !Truthy(Get(profile, "INTRO_CARDS")) ==>
      var lower := Get(profile, "intro_cards");
      IntroCards(profile) == if lower.JObj? && Truthy(lower) then Some(lower.fields) else None
  {
  }

  const IntroCardPrefix: string := "INTRO_CARD_"

  /**
   * The label of an intro card: every `INTRO_CARD_` removed, every `_`
   * turned into a space, then title-cased. No underscore survives.
   */
  function IntroLabel(key: string): (title: string)
    ensures '_' !in title
  {
    var unprefixed := Replace(key, IntroCardPrefix, "");
    var spaced := Replace(unprefixed, "_", " ");
    ReplaceCharRemoves(unprefixed, '_', ' ');
    TitleKeepsNonLetters(spaced, '_');
    Title(spaced)
  }

  /** A leading `INTRO_CARD_` makes no difference to the label. */
  lemma IntroLabelDropsPrefix(key: string)
    ensures IntroLabel(IntroCardPrefix + key) == IntroLabel(key)
  {
    ReplaceLeading(IntroCardPrefix, key, "");
    assert "" + Replace(key, IntroCardPrefix, "") == Replace(key, IntroCardPrefix, "");
  }

  /** The label of `INTRO_CARD_CURRENT_CITY` is `Current City`. */
  lemma IntroLabelExample()
    ensures IntroLabel("INTRO_CARD_CURRENT_CITY") == "Current City"
  {
    var key := "CURRENT_CITY";
    assert IntroCardPrefix + key == "INTRO_CARD_CURRENT_CITY";
    IntroLabelDropsPrefix(key);
    ExampleUnprefixed();
    ExampleSpaced();
    ExampleTitled("CURRENT CITY");
  }

  lemma ExampleUnprefixed()
    ensures Replace("CURRENT_CITY", IntroCardPrefix, "") == "CURRENT_CITY"
  {
    var key := "CURRENT_CITY";
    forall i: nat
      ensures !OccursAt(key, IntroCardPrefix, i)
    {
      if i + |IntroCardPrefix| <= |key| {
        assert key[i..i + |IntroCardPrefix|][0] == key[i];
        assert key[i] != 'I';
      }
    }
    ReplaceAbsent(key, IntroCardPrefix, "");
  }

  lemma ExampleSpaced()
    ensures Replace("CURRENT_CITY", "_", " ") == "CURRENT CITY"
  {
    ReplaceCharAt("CURRENT_CITY", '_', ' ');
  }

  // The string comes in as a parameter: stated on the literal, the solver unfolds `TitleFrom` on it eagerly and runs out of budget.
  lemma ExampleTitled(s: string)
    requires s == "CURRENT CITY"
    ensures Title(s) == "Current City"
  {
    TitleAt(s);
    var t := Title(s);
    assert t[0] == Upper('C') == 'C';
    assert t[1] == Lower('U') == 'u';
    assert t[8] == Upper('C');
    assert t[9] == Lower('I') == 'i';
  }

  datatype PhotoEntry = PhotoEntry(uri: Json, id: Json)

  /** The photo lines `show_profile` printed, and whether the loop stopped by raising. */
  datatype PhotoListing = PhotoListing(entries: seq<PhotoEntry>, raised: bool)

  const MaxPhotos: nat := 20

  /** The photos `show_profile` lists: `PHOTOS`, else `photos`, when that is a non-empty list. */
  function PhotoList(profile: map<string, Json>): Option<seq<Json>> {
    var photos := Or(Get(profile, "PHOTOS"), Get(profile, "photos"));
    if photos.JList? && photos.items != [] then Some(photos.items) else None
  }

  /** One photo line: `p.get('uri') or p.get('url') or 'N/A'` and `p.get('id', 'N/A')`. */
  function EntryOf(p: map<string, Json>): (e: PhotoEntry)
    ensures Truthy(e.uri)
    ensures Truthy(Get(p, "uri")) ==> e.uri == Get(p, "uri")
    ensures !Truthy(Get(p, "uri")) && Truthy(Get(p, "url")) ==> e.uri == Get(p, "url")
    ensures !Truthy(Get(p, "uri")) && !Truthy(Get(p, "url")) ==> e.uri == NA
    ensures "id" in p ==> e.id == p["id"]
    ensures "id" !in p ==> e.id == NA
  {
    PhotoEntry(Or(Or(Get(p, "uri"), Get(p, "url")), NA), GetOr(p, "id", NA))
  }

  /** The loop over photos: a photo that is not a dict raises `AttributeError` and ends the listing. */
  function PhotoEntries(photos: seq<Json>): PhotoListing
    decreases |photos|
  {
    if photos == [] then PhotoListing([], false)
    else if !photos[0].JObj? then PhotoListing([], true)
    else
      var rest := PhotoEntries(photos[1..]);
      PhotoListing([EntryOf(photos[0].fields)] + rest.entries, rest.raised)
  }

  function Min(a: nat, b: nat): nat {
    if a <= b then a else b
  }

  /** `for p in photos[:20]`. */
  function ListPhotos(photos: seq<Json>): PhotoListing {
    PhotoEntries(photos[..Min(MaxPhotos, |photos|)])
  }

  /**
   * The photo loop lists the photos in order, one entry per dict, and
   * stops at the first photo that is not a dict.
   */
  lemma {:induction false} PhotoEntriesInOrder(photos: seq<Json>)
    ensures var l := PhotoEntries(photos);
      && |l.entries| <= |photos|
      && (forall i :: 0 <= i < |l.entries| ==> photos[i].JObj? && l.entries[i] == EntryOf(photos[i].fields))
      && (l.raised <==> exists i :: 0 <= i < |photos| && !photos[i].JObj?)
      && (l.raised ==> !photos[|l.entries|].JObj?)
      && (!l.raised ==> |l.entries| == |photos|)
    decreases |photos|
  {
    if photos != [] && photos[0].JObj? {
      var tail := photos[1..];
      PhotoEntriesInOrder(tail);
      var l := PhotoEntries(photos);
      var rest := PhotoEntries(tail);
      assert l.entries == [EntryOf(photos[0].fields)] + rest.entries;
      forall i | 0 < i < |l.entries|
        ensures photos[i].JObj? && l.entries[i] == EntryOf(photos[i].fields)
      {
        assert tail[i - 1] == photos[i];
      }
      if exists i :: 0 <= i < |photos| && !photos[i].JObj? {
        var i :| 0 <= i < |photos| && !photos[i].JObj?;
        assert tail[i - 1] == photos[i];
      }
      if l.raised {
        assert tail[|rest.entries|] == photos[|l.entries|];
      }
    }
  }

  /**
   * At most 20 photos are listed: exactly the first `min(20, n)` when they
   * are all dicts, and the listing raises exactly when one of them is not.
   */
  lemma AtMostTwentyPhotos(photos: seq<Json>)
    ensures |ListPhotos(photos).entries| <= Min(MaxPhotos, |photos|) <= MaxPhotos
    ensures !ListPhotos(photos).raised ==> |ListPhotos(photos).entries| == Min(MaxPhotos, |photos|)
    ensures ListPhotos(photos).raised <==> exists i :: 0 <= i < Min(MaxPhotos, |photos|) && !photos[i].JObj?
    ensures forall i :: 0 <= i < |ListPhotos(photos).entries| ==>
      photos[i].JObj? && ListPhotos(photos).entries[i] == EntryOf(photos[i].fields)
  {
    var shown := photos[..Min(MaxPhotos, |photos|)];
    PhotoEntriesInOrder(shown);
    assert forall i :: 0 <= i < |shown| ==> shown[i] == photos[i];
  }

  /** Whether `show_profile` raises: only the photo loop can. */
  function ShowProfileRaises(profile: map<string, Json>): (r: bool)
    ensures r <==> (PhotoList(profile).Some? &&
      exists i :: 0 <= i < Min(MaxPhotos, |PhotoList(profile).value|) && !PhotoList(profile).value[i].JObj?)
  {
    match PhotoList(profile)
    case None => false
    case Some(photos) =>
      AtMostTwentyPhotos(photos);
      ListPhotos(photos).raised
  }
}

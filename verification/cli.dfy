/**
 * `main` as a function of its inputs: the parsed flags, the line typed at
 * the prompt, the environment variables, and the response each request
 * would get. It decides the exit status, the requests sent, what becomes
 * of each lookup, and what is saved.
 */
module Cli {
  import opened Wrappers
  import opened Json
  import opened PyStr
  import opened Keys
  import opened Endpoints
  import opened Normalise
  import opened Presentation
  import opened Output

  /** The flags that steer the run (`--connect-timeout`, `--read-timeout` and `--no-open` change nothing modelled here). */
  datatype Args = Args(username: Option<string>, noPage: bool, noPosts: bool, outJson: Option<string>)

  /** The three environment variables, `None` when unset. */
  datatype Env = Env(common: Option<string>, fbKey: Option<string>, socialKey: Option<string>)

  /**
   * What each lookup's request would get: the parsed JSON body, or the
   * message of the `RuntimeError` `rapidapi_get` raises (a timeout, a
   * connection failure, a non-2xx status, or a body that is not JSON).
   */
  datatype Responses = Responses(profile: Result<Json, string>, page: Result<Json, string>, posts: Result<Json, string>)

  /** What the console reports for one lookup. */
  datatype Outcome =
    | Skipped   // "[Skipped] ... via --no-page / --no-posts"
    | Failed    // "Error getting ... details": the request failed or the display raised
    | Empty     // "No profile obtained" / "Could not fetch ...": the normalised value is falsy
    | Shown     // displayed

  /** A lookup's result: the value kept for the JSON file (`JNull` for None) and its outcome. */
  datatype Lookup = Lookup(kept: Json, outcome: Outcome)

  datatype Run =
    | NoUsername    // "Empty username. Exiting.", status 1
    | NoKeys        // "[Config] No RAPIDAPI_KEY found ...", status 1
    | Completed(requests: seq<Request>, profile: Lookup, page: Lookup, posts: Lookup, saved: Option<SavedFile>)

  function ExitStatus(run: Run): nat {
    if run.Completed? then 0 else 1
  }

  /** `args.username or input(...).strip()`: a username given as a flag is not stripped, a typed one is. */
  function Username(flag: Option<string>, typed: string): string {
    if Given(flag) then flag.value else Strip(typed)
  }

  /** The username is empty exactly when no non-empty flag was given and the typed line is all whitespace. */
  lemma UsernameEmpty(flag: Option<string>, typed: string)
    ensures Username(flag, typed) == "" <==> !Given(flag) && AllSpace(typed)
  {
  }

  /** The profile lookup: the record is displayed when it is non-empty, and only its photo loop can raise. */
  function ProfileLookup(response: Result<Json, string>): Lookup {
    match response
    case Failure(_) => Lookup(JNull, Failed)
    case Success(data) =>
      match NormaliseProfile(data)
      case None => Lookup(JNull, Empty)
      case Some(profile) =>
        Lookup(JObj(profile),
          if profile == map[] then Empty
          else if ShowProfileRaises(profile) then Failed
          else Shown)
  }

  /** The page lookup: `show_page` calls `.get` on the value, so a truthy value that is not a dict raises. */
  function PageLookup(response: Result<Json, string>): Lookup {
    match response
    case Failure(_) => Lookup(JNull, Failed)
    case Success(data) =>
      match NormalisePage(data)
      case None => Lookup(JNull, Empty)
      case Some(page) =>
        Lookup(page,
          if !Truthy(page) then Empty
          else if page.JObj? then Shown
          else Failed)
  }

  /** The posts lookup. */
  function PostsLookup(response: Result<Json, string>): Lookup {
    match response
    case Failure(_) => Lookup(JNull, Failed)
    case Success(data) =>
      match NormalisePosts(data)
      case None => Lookup(JNull, Empty)
      case Some(posts) =>
        // `posts` always holds "data", so the empty case is never taken here.
        Lookup(JObj(posts),
          if posts == map[] then Empty
          else if ShowPosts(JObj(posts)).raised then Failed
          else Shown)
  }

  const SkippedLookup: Lookup := Lookup(JNull, Skipped)

  /** `main`. */
  function Main(args: Args, typed: string, env: Env, responses: Responses): Run {
    var username := Username(args.username, typed);
    if username == "" then NoUsername
    else
      match GetEnvKeys(env.common, env.fbKey, env.socialKey)
      case Failure(_) => NoKeys
      case Success(keys) =>
        var fbKey := ChooseKey(keys.common, keys.fbKey);
        var socialKey := ChooseKey(keys.common, keys.socialKey);
        var profile := ProfileLookup(responses.profile);
        var page := if args.noPage then SkippedLookup else PageLookup(responses.page);
        var posts := if args.noPosts then SkippedLookup else PostsLookup(responses.posts);
        var requests :=
          [ProfileRequest(username, fbKey)]
          + (if args.noPage then [] else [PageRequest(username, socialKey)])
          + (if args.noPosts then [] else [PostsRequest(username, socialKey)]);
        Completed(requests, profile, page, posts, SaveJson(args.outJson, username, profile.kept, page.kept, posts.kept))
  }

  /**
   * The run exits with status 1, before any request, exactly when the
   * username is empty or no key is configured; the username is checked first.
   */
  lemma ExitStatusIff(args: Args, typed: string, env: Env, responses: Responses)
    ensures var run := Main(args, typed, env, responses);
      && (ExitStatus(run) == 1 <==>
          Username(args.username, typed) == "" || GetEnvKeys(env.common, env.fbKey, env.socialKey).Failure?)
      && (run == NoUsername <==> Username(args.username, typed) == "")
      && (run == NoKeys <==>
          Username(args.username, typed) != "" && !Given(env.common) && !Given(env.fbKey) && !Given(env.socialKey))
  {
  }

  /**
   * The requests a completed run sends do not depend on any response:
   * the profile request with the profile key, then the page and posts
   * requests with the social key unless skipped.
   */
  lemma RequestsPlanned(args: Args, typed: string, env: Env, responses: Responses, others: Responses)
    requires Main(args, typed, env, responses).Completed?
    ensures Main(args, typed, env, others).Completed?
    ensures Main(args, typed, env, others).requests == Main(args, typed, env, responses).requests
    ensures var requests := Main(args, typed, env, responses).requests;
      var keys := GetEnvKeys(env.common, env.fbKey, env.socialKey).value;
      var username := Username(args.username, typed);
      && |requests| == 1 + (if args.noPage then 0 else 1) + (if args.noPosts then 0 else 1)
      && requests[0] == ProfileRequest(username, ChooseKey(keys.common, keys.fbKey))
      && (!args.noPage ==> requests[1] == PageRequest(username, ChooseKey(keys.common, keys.socialKey)))
      && (!args.noPosts ==> requests[|requests| - 1] == PostsRequest(username, ChooseKey(keys.common, keys.socialKey)))
  {
  }

  /**
   * Best effort: each lookup's result depends only on its own response
   * and flag, so a failing lookup never changes another one.
   */
  lemma LookupsIndependent(args: Args, typed: string, env: Env, responses: Responses, others: Responses)
    requires Main(args, typed, env, responses).Completed?
    ensures var run := Main(args, typed, env, responses);
      var other := Main(args, typed, env, others);
      && (others.profile == responses.profile ==> other.profile == run.profile)
      && (others.page == responses.page ==> other.page == run.page)
      && (others.posts == responses.posts ==> other.posts == run.posts)
  {
    CompletedLookups(args, typed, env, responses);
    CompletedLookups(args, typed, env, others);
  }

  /** A page or posts lookup is reported as skipped exactly when its flag was given. */
  lemma SkippedIff(args: Args, typed: string, env: Env, responses: Responses)
    requires Main(args, typed, env, responses).Completed?
    ensures Main(args, typed, env, responses).page.outcome == Skipped <==> args.noPage
    ensures Main(args, typed, env, responses).posts.outcome == Skipped <==> args.noPosts
  {
    CompletedLookups(args, typed, env, responses);
    NeverSkipped(responses.page);
    NeverSkipped(responses.posts);
  }

  /** Only a flag skips a lookup: whatever the response, the lookup itself is failed, empty or shown. */
  lemma NeverSkipped(response: Result<Json, string>)
    ensures ProfileLookup(response).outcome != Skipped
    ensures PageLookup(response).outcome != Skipped
    ensures PostsLookup(response).outcome != Skipped
  {
    if response.Success? {
      var posts := NormalisePosts(response.value);
      if posts.Some? && posts.value != map[] {
        var raised := ShowPosts(JObj(posts.value)).raised;
        assert PostsLookup(response).outcome == if raised then Failed else Shown;
      }
    }
  }

  /** Where each lookup of a completed run comes from. */
  lemma CompletedLookups(args: Args, typed: string, env: Env, responses: Responses)
    requires Main(args, typed, env, responses).Completed?
    ensures var run := Main(args, typed, env, responses);
      && run.profile == ProfileLookup(responses.profile)
      && run.page == (if args.noPage then SkippedLookup else PageLookup(responses.page))
      && run.posts == (if args.noPosts then SkippedLookup else PostsLookup(responses.posts))
  {
  }

  /** A failed request leaves `None` in the saved file, while a record whose display raised is still saved. */
  lemma SavedValues(args: Args, typed: string, env: Env, responses: Responses)
    requires Main(args, typed, env, responses).Completed?
    requires Given(args.outJson)
    ensures var run := Main(args, typed, env, responses);
      && run.saved.Some?
      && run.saved.value.payload.JObj?
      && run.saved.value.payload.fields["profile"] == run.profile.kept
      && run.saved.value.payload.fields["page"] == run.page.kept
      && run.saved.value.payload.fields["posts"] == run.posts.kept
      && (responses.profile.Failure? ==> run.profile.kept == JNull)
      && (responses.profile.Success? && responses.profile.value.JObj? ==> run.profile.kept.JObj?)
      && (args.noPage || responses.page.Failure? ==> run.saved.value.payload.fields["page"] == JNull)
      && (args.noPosts || responses.posts.Failure? ==> run.saved.value.payload.fields["posts"] == JNull)
  {
    var run := Main(args, typed, env, responses);
    CompletedLookups(args, typed, env, responses);
    SaveJsonWhen(args.outJson, Username(args.username, typed), run.profile.kept, run.page.kept, run.posts.kept);
  }

  /**
   * The profile lookup fails exactly when the request fails or one of the
   * first 20 listed photos of a non-empty record is not a dict; it is empty
   * when the response is not a dict or its record is empty; the record is
   * kept whenever there is one.
   */
  lemma ProfileOutcome(response: Result<Json, string>)
    ensures response.Failure? ==> ProfileLookup(response) == Lookup(JNull, Failed)
    ensures response.Success? && !response.value.JObj? ==> ProfileLookup(response) == Lookup(JNull, Empty)
    ensures response.Success? && response.value.JObj? ==>
      var profile := NormaliseProfile(response.value).value;
      var l := ProfileLookup(response);
      && l.kept == JObj(profile)
      && (l.outcome == Empty <==> profile == map[])
      && (l.outcome == Failed <==> (profile != map[] && PhotoList(profile).Some? &&
            exists i :: 0 <= i < Min(MaxPhotos, |PhotoList(profile).value|) && !PhotoList(profile).value[i].JObj?))
      && (l.outcome == Shown <==> profile != map[] && !ShowProfileRaises(profile))
  {
    if response.Success? {
      ProfileShapes(response.value);
    }
  }

  /**
   * The page lookup, in terms of the response: it fails when the request
   * fails or the response is a list whose first element is truthy but not
   * a dict; it is shown when that element, or the response itself, is a
   * non-empty dict; anything else is empty.
   */
  lemma PageOutcome(response: Result<Json, string>)
    ensures response.Failure? ==> PageLookup(response) == Lookup(JNull, Failed)
    ensures response.Success? ==>
      var d := response.value;
      var l := PageLookup(response);
      && (l.outcome == Failed <==> d.JList? && d.items != [] && Truthy(d.items[0]) && !d.items[0].JObj?)
      && (l.outcome == Shown <==>
            (d.JObj? && d.fields != map[]) || (d.JList? && d.items != [] && d.items[0].JObj? && d.items[0].fields != map[]))
      && (l.outcome == Empty <==>
            !(d.JList? && d.items != [] && Truthy(d.items[0])) && !(d.JObj? && d.fields != map[]))
      && l.kept == (if NormalisePage(d).Some? then NormalisePage(d).value else JNull)
  {
    if response.Success? {
      PageShapes(response.value);
    }
  }

  /**
   * The posts lookup: it is empty exactly when the response is neither a
   * list nor a dict with a "data" key, fails when the request fails or the
   * normalised record is not renderable, and is shown otherwise.
   */
  lemma PostsOutcome(response: Result<Json, string>)
    ensures response.Failure? ==> PostsLookup(response) == Lookup(JNull, Failed)
    ensures response.Success? ==>
      var d := response.value;
      var l := PostsLookup(response);
      && (l.outcome == Empty <==> !(d.JList? || (d.JObj? && "data" in d.fields)))
      && (l.outcome == Empty ==> l.kept == JNull)
      && (l.outcome != Empty ==>
            && l.kept == JObj(NormalisePosts(d).value)
            && (l.outcome == Failed <==> !Renderable(l.kept))
            && (l.outcome == Shown <==> Renderable(l.kept)))
  {
    if response.Success? {
      var d := response.value;
      PostsShapes(d);
      if NormalisePosts(d).Some? {
        ShowPostsRaisedIff(JObj(NormalisePosts(d).value));
      }
    }
  }

  /** The NASA example: the wrapped profile is displayed, and it is its inner record that is kept. */
  lemma NasaProfile()
    ensures var payload := map["name" := JStr("NASA"), "id" := JStr("123")];
      ProfileLookup(Success(JObj(map["data" := JObj(payload)]))) == Lookup(JObj(payload), Shown)
  {
    var payload := map["name" := JStr("NASA"), "id" := JStr("123")];
    assert "name" in payload;
    assert PhotoList(payload) == None;
  }

  /** An empty posts list is displayed as the notice, not reported as an error. */
  lemma EmptyPostsShown()
    ensures PostsLookup(Success(EmptyList)) == Lookup(JObj(map["data" := JObj(map["posts" := EmptyList])]), Shown)
  {
    EmptyPostsResponse();
  }

  /** A posts record whose "data" is a non-empty list is kept but its display raises. */
  lemma PostsDataListFails(items: seq<Json>)
    requires items != []
    ensures PostsLookup(Success(JObj(map["data" := JList(items)]))) == Lookup(JObj(map["data" := JList(items)]), Failed)
  {
    var posts := map["data" := JList(items)];
    assert Truthy(JList(items));
    assert Attr(JObj(posts), "data") == Success(JList(items));
  }
}

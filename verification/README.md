# Facebook profile/page lookup — decision core

`facebook-profile-page-info-collect-by-darkboss1bd.py` is a command-line
tool that looks a Facebook username up through three RapidAPI providers:
one for the profile, two premium ones for the page details and the posts.
It prints what comes back and can save it as one JSON file.

This project models the decisions that tool takes on values it already has:

- which API key each lookup uses;
- which requests it sends;
- how each parsed response is sorted by shape into a record or `None`;
- what the console display walks and selects, and when it raises;
- where the JSON file goes;
- how `main` strings the lookups together, best effort.

HTTP, the environment, the prompt and the file system are parameters.

Modules, one per concern of the script:

- `Json`: parsed JSON values with Python truthiness, `or` and `dict.get`. `JNull` is also Python's `None`.
- `PyStr`: the string methods used: `strip()`, `replace()` and `title()`.
- `Keys`: `get_env_keys` and `choose_key`.
- `Endpoints`: the request URL, the RapidAPI headers and the Facebook URL for each lookup.
- `Normalise`: the shape tests at the end of `get_profile_details`, `get_page_details` and `get_posts_details`.
- `Presentation`: the selections made by `show_posts` and `show_profile`. A display is modelled as the lines it prints plus whether it then raised.
- `Output`: the file name and content of `save_json_if_requested`.
- `Cli`: `main` as a function of its flags, the typed username, the environment and the three responses.

Behaviour of the code that the model follows:

- The username is checked before the keys are loaded. An empty username exits with status 1 even when no key is configured.
- There is no special case for HTTP 403 or a "not subscribed" body. Every non-2xx status raises the same error, which is one `Failure` of a response here.
- The page normaliser returns the first element of a non-empty list, whatever its type. A truthy non-dict page then makes `show_page` raise, and the lookup is reported as an error.
- The posts normaliser keeps any dict that has a `"data"` key, whatever that key holds. `show_posts` then raises `AttributeError` when `"data"` is truthy and not a dict.
- Inside `main`, the username is never empty when the file name is built, so the `"output"` fallback of the file name is never taken there; likewise a normalised posts record always holds `"data"`, so `main`'s "Could not fetch posts" branch is reached only for a `None` record.
- The key presence check uses truthiness, but `choose_key` strips. So a key made only of whitespace passes the check and still resolves to the empty key (`Keys.BlankKeyPassesCheck`).

## Model

| member | source | states |
|---|---|---|
| PyStr.Strip | facebook-profile-page-info-collect-by-darkboss1bd.py:92 | `strip()` returns an empty string exactly when the input is all whitespace, and otherwise a string that starts and ends with a non-whitespace character |
| PyStr.StripSlice | facebook-profile-page-info-collect-by-darkboss1bd.py:92 | what `strip()` returns is a slice of the input with only whitespace before and after it |
| PyStr.StripIdempotent | facebook-profile-page-info-collect-by-darkboss1bd.py:92 | stripping a stripped string changes nothing |
| PyStr.Replace | facebook-profile-page-info-collect-by-darkboss1bd.py:213 | `str.replace` scanning left to right for non-overlapping occurrences; stated by `PyStr.ReplaceCharAt`, `PyStr.ReplaceCharRemoves`, `PyStr.ReplaceAbsent` and `PyStr.ReplaceLeading` |
| PyStr.ReplaceCharAt | facebook-profile-page-info-collect-by-darkboss1bd.py:272 | replacing one character by another keeps the length and maps every position on its own |
| PyStr.ReplaceCharRemoves | facebook-profile-page-info-collect-by-darkboss1bd.py:213 | after replacing every `a` by a different `b`, no `a` is left |
| PyStr.ReplaceAbsent | facebook-profile-page-info-collect-by-darkboss1bd.py:213 | `replace` leaves a string in which the pattern never occurs unchanged |
| PyStr.ReplaceLeading | facebook-profile-page-info-collect-by-darkboss1bd.py:213 | a leading occurrence is replaced and the scan resumes after it |
| PyStr.Title | facebook-profile-page-info-collect-by-darkboss1bd.py:213 | `str.title()` on ASCII letters; stated position by position against the reference `TitleChar` by `PyStr.TitleAt` |
| PyStr.TitleAt | facebook-profile-page-info-collect-by-darkboss1bd.py:213 | `title()` keeps the length, upper-cases a letter that does not follow a letter, lower-cases one that does, and keeps every other character |
| PyStr.TitleKeepsNonLetters | facebook-profile-page-info-collect-by-darkboss1bd.py:213 | a non-letter occurs in `title()`'s result exactly when it occurs in the input |
| Keys.GetEnvKeys | facebook-profile-page-info-collect-by-darkboss1bd.py:72-87 | configuration fails exactly when none of the three variables has a non-empty value; otherwise the common key (or "" when unset) and the two overrides are returned unchanged |
| Keys.ChooseKey | facebook-profile-page-info-collect-by-darkboss1bd.py:90-92 | the override key, stripped and non-empty, when it has a non-whitespace character; otherwise the common key unchanged |
| Keys.ChooseKeyStripped | facebook-profile-page-info-collect-by-darkboss1bd.py:90-92 | a chosen override key carries no surrounding whitespace |
| Keys.OnlyFbKeyConfigured | facebook-profile-page-info-collect-by-darkboss1bd.py:83-92 | with only the profile-provider key set, configuration passes, the profile lookup uses that key stripped and the page and posts lookups get "" |
| Keys.BlankKeyPassesCheck | facebook-profile-page-info-collect-by-darkboss1bd.py:83-92 | a whitespace-only key passes the presence check yet both lookups resolve to "" |
| Keys.ResolvedKeyNonEmpty | facebook-profile-page-info-collect-by-darkboss1bd.py:83-92 | when the check passes and every set key has a non-whitespace character, at least one resolved key is non-empty |
| Endpoints.FacebookUrl | facebook-profile-page-info-collect-by-darkboss1bd.py:148 | the Facebook URL of a username; its inverse is `Endpoints.UsernameOf`, stated by `Endpoints.FacebookUrlRoundTrip` |
| Endpoints.RequestUrl | facebook-profile-page-info-collect-by-darkboss1bd.py:104 | the request URL `https://{host}{path}`; its inverse is `Endpoints.SplitUrl`, stated by `Endpoints.RequestUrlRoundTrip` |
| Endpoints.RapidApiRequest | facebook-profile-page-info-collect-by-darkboss1bd.py:104-111 | the request `rapidapi_get` sends; stated by `Endpoints.RapidApiTargets` |
| Endpoints.ProfileRequest | facebook-profile-page-info-collect-by-darkboss1bd.py:148-150 | the profile lookup's request: the Facebook URL in both `urlSupplier` and `url`, sent to the profile host and path; stated by `Endpoints.ProfileRequestTargets` |
| Endpoints.PageRequest | facebook-profile-page-info-collect-by-darkboss1bd.py:158-160 | the page lookup's request: the Facebook URL in `link`, sent to the page host and details path; stated by `Endpoints.PageRequestTargets` |
| Endpoints.PostsRequest | facebook-profile-page-info-collect-by-darkboss1bd.py:170-172 | the posts lookup's request: the Facebook URL in `link`, sent to the page host and posts path; stated by `Endpoints.PostsRequestTargets` |
| Endpoints.FacebookUrlRoundTrip | facebook-profile-page-info-collect-by-darkboss1bd.py:148 | the Facebook URL `https://www.facebook.com/` + username gives the username back, and every such URL is the URL of the username read from it |
| Endpoints.RequestUrlRoundTrip | facebook-profile-page-info-collect-by-darkboss1bd.py:104 | `https://` + host + path splits back into that host and path when the host has no '/' and the path is empty or absolute |
| Endpoints.ConstantsWellFormed | facebook-profile-page-info-collect-by-darkboss1bd.py:39-44 | the two hosts contain no '/' and the three paths are absolute |
| Endpoints.RapidApiTargets | facebook-profile-page-info-collect-by-darkboss1bd.py:104-111 | the request URL splits back into exactly the host and path given, the `x-rapidapi-host` header is the host, the `x-rapidapi-key` header is the key, and the parameters are passed unchanged |
| Endpoints.ProfileRequestTargets | facebook-profile-page-info-collect-by-darkboss1bd.py:147-150 | the profile lookup targets the profile host and path, and its parameters are exactly `urlSupplier` and `url`, both the Facebook URL of the username |
| Endpoints.PageRequestTargets | facebook-profile-page-info-collect-by-darkboss1bd.py:158-161 | the page lookup targets the page host and details path, and its one parameter `link` is the Facebook URL of the username |
| Endpoints.PostsRequestTargets | facebook-profile-page-info-collect-by-darkboss1bd.py:170-173 | the posts lookup targets the page host and posts path, and its one parameter `link` is the Facebook URL of the username |
| Normalise.NormaliseProfile | facebook-profile-page-info-collect-by-darkboss1bd.py:152-154 | `get_profile_details` after the request: the inner dict of a `"data"` dict entry, else the dict itself, else `None`; its properties are stated by `Normalise.ProfileShapes` and `Normalise.ProfileUnwraps` |
| Normalise.ProfileShapes | facebook-profile-page-info-collect-by-darkboss1bd.py:152-154 | a record exactly for dicts: the inner dict of a `"data"` dict entry, else the dict itself; `None` for lists, strings, numbers, booleans and null |
| Normalise.ProfileUnwraps | facebook-profile-page-info-collect-by-darkboss1bd.py:152-153 | whatever is wrapped as `{"data": {...}}` comes back out unchanged |
| Normalise.ProfileNotIdempotent | facebook-profile-page-info-collect-by-darkboss1bd.py:152-154 | normalising a profile twice can peel a second `"data"` layer |
| Normalise.ProfileExample | facebook-profile-page-info-collect-by-darkboss1bd.py:152-154 | `{"data": {"name": "NASA", "id": "123"}}` normalises to `{"name": "NASA", "id": "123"}` |
| Normalise.NormalisePage | facebook-profile-page-info-collect-by-darkboss1bd.py:162-166 | `get_page_details` after the request: the first element of a non-empty list, a dict as it is, else `None`; its properties are stated by `Normalise.PageShapes` |
| Normalise.PageShapes | facebook-profile-page-info-collect-by-darkboss1bd.py:162-166 | `None` exactly for an empty list or a non-container; the first element of a non-empty list; a dict as it is |
| Normalise.PageFirstElementUnchecked | facebook-profile-page-info-collect-by-darkboss1bd.py:162-163 | the first element is returned even when it is not a dict |
| Normalise.NormalisePosts | facebook-profile-page-info-collect-by-darkboss1bd.py:174-178 | every posts record has a `"data"` key |
| Normalise.PostsShapes | facebook-profile-page-info-collect-by-darkboss1bd.py:174-178 | a dict with `"data"` is kept whatever `"data"` holds; a list L becomes `{"data": {"posts": L}}`; anything else is `None` |
| Normalise.PostsIdempotent | facebook-profile-page-info-collect-by-darkboss1bd.py:174-178 | normalising a normalised posts record again returns it unchanged |
| Presentation.PostList | facebook-profile-page-info-collect-by-darkboss1bd.py:236 | the post list `show_posts` walks, or the `AttributeError` its `.get` chain raises; its cases are stated by `Presentation.PostListPath` |
| Presentation.ShowPosts | facebook-profile-page-info-collect-by-darkboss1bd.py:235-258 | `show_posts`: the notice for an empty post list, else the header and then, post by post, each post's five field lines followed by its image lines; stated by `Presentation.ShowPostsImages`, `Presentation.ShowPostsRaisedIff` and `Presentation.ShowPostsNotice` |
| Presentation.PostLines | facebook-profile-page-info-collect-by-darkboss1bd.py:242-258 | one post: its field lines, then its attachment loop; stated by `Presentation.PostRaised` and `Presentation.PostRenders` |
| Presentation.PostFields | facebook-profile-page-info-collect-by-darkboss1bd.py:243-251 | the five field lines of a post; stated by `Presentation.PostFieldsRender` |
| Presentation.AttachmentLines | facebook-profile-page-info-collect-by-darkboss1bd.py:254-258 | one attachment: an image line for a photo, nothing otherwise; stated by `Presentation.AttachmentRenders` |
| Presentation.PostListPath | facebook-profile-page-info-collect-by-darkboss1bd.py:236 | the post list is `data.posts` when every level is a dict and the list is truthy; `[]` when a level is missing or falsy; `AttributeError` when a truthy level is not a dict |
| Presentation.WrappedListIsWalked | facebook-profile-page-info-collect-by-darkboss1bd.py:176-177 | after a bare list is normalised, `show_posts` walks exactly that list |
| Presentation.ShowPostsNotice | facebook-profile-page-info-collect-by-darkboss1bd.py:236-239 | the "No posts found" notice is the whole output exactly when the post list is empty, and it never appears otherwise |
| Presentation.EmptyPostsResponse | facebook-profile-page-info-collect-by-darkboss1bd.py:236-239 | an empty posts response prints only the notice, without raising |
| Presentation.EachRaised | facebook-profile-page-info-collect-by-darkboss1bd.py:242 | a loop over a list raises exactly when one of its iterations raises |
| Presentation.ImageUri | facebook-profile-page-info-collect-by-darkboss1bd.py:257 | the image shown for a photo is its photo image's `uri` when that is truthy, and 'N/A' when it is missing or falsy |
| Presentation.AttachmentRenders | facebook-profile-page-info-collect-by-darkboss1bd.py:254-258 | an attachment raises exactly when it is not a dict, or is a photo whose truthy `photo_image` is not a dict; otherwise it prints one image line if `__typename` is `Photo` and nothing else |
| Presentation.AttachmentsRender | facebook-profile-page-info-collect-by-darkboss1bd.py:253-258 | a list of handled attachments prints exactly one image line per photo attachment, holding its image URI, in order, and nothing else |
| Presentation.PostFieldsRender | facebook-profile-page-info-collect-by-darkboss1bd.py:243-251 | the field lines of a post raise exactly when a present `details`, `reactions` or `values` is not a dict; otherwise they are Post ID, Text, Total reactions, Comments and Shares in that order, each showing its field or 'N/A' when the field is missing, and none is an image line |
| Presentation.PostRaised | facebook-profile-page-info-collect-by-darkboss1bd.py:242-258 | a post raises exactly when it is not a dict, a present `details`/`reactions`/`values` is not a dict, or its attachments are not a list of handled attachments |
| Presentation.PostRenders | facebook-profile-page-info-collect-by-darkboss1bd.py:243-258 | a handled post prints its five field lines and then, after them, one image line per photo attachment, with that photo's URI, in order |
| Presentation.PostsRender | facebook-profile-page-info-collect-by-darkboss1bd.py:242-258 | handled posts print, post by post, each post's five field lines and then its image lines (the reference `PostsLines`), without raising: 5 lines per post plus their photo URIs |
| Presentation.ShowPostsRaisedIff | facebook-profile-page-info-collect-by-darkboss1bd.py:235-258 | `show_posts` raises exactly on posts data that is not renderable |
| Presentation.ShowPostsImages | facebook-profile-page-info-collect-by-darkboss1bd.py:235-258 | on renderable non-empty posts the output is exactly the header followed by `PostsLines` of the posts: each post's five field lines then its image lines, post by post; so 1 + 5n + k lines whose image values are the photo URIs in order |
| Presentation.IntroCards | facebook-profile-page-info-collect-by-darkboss1bd.py:209-210 | the intro cards `show_profile` lists; stated by `Presentation.IntroCardsSource` |
| Presentation.IntroCardsSource | facebook-profile-page-info-collect-by-darkboss1bd.py:209-210 | intro cards come from `INTRO_CARDS` when truthy, else from `intro_cards`, and are listed only when that is a non-empty dict |
| Presentation.IntroLabel | facebook-profile-page-info-collect-by-darkboss1bd.py:213 | an intro-card label never contains '_' |
| Presentation.IntroLabelDropsPrefix | facebook-profile-page-info-collect-by-darkboss1bd.py:213 | a leading `INTRO_CARD_` does not change the label |
| Presentation.IntroLabelExample | facebook-profile-page-info-collect-by-darkboss1bd.py:213 | `INTRO_CARD_CURRENT_CITY` is labelled `Current City` |
| Presentation.PhotoList | facebook-profile-page-info-collect-by-darkboss1bd.py:216-217 | the photos `show_profile` lists: `PHOTOS`, else `photos`, when that is a non-empty list |
| Presentation.PhotoEntries | facebook-profile-page-info-collect-by-darkboss1bd.py:219-222 | the photo loop; stated by `Presentation.PhotoEntriesInOrder` |
| Presentation.ListPhotos | facebook-profile-page-info-collect-by-darkboss1bd.py:219 | the loop over `photos[:20]`; stated by `Presentation.AtMostTwentyPhotos` |
| Presentation.EntryOf | facebook-profile-page-info-collect-by-darkboss1bd.py:220-221 | a photo line shows `uri` when truthy, else `url` when truthy, else 'N/A'; its ID is the photo's `id`, or 'N/A' when the photo has none |
| Presentation.PhotoEntriesInOrder | facebook-profile-page-info-collect-by-darkboss1bd.py:219-222 | the photo loop lists the photos in order and stops, raising, at the first photo that is not a dict |
| Presentation.AtMostTwentyPhotos | facebook-profile-page-info-collect-by-darkboss1bd.py:216-222 | at most 20 photos are listed: exactly the first min(20, n) when they are dicts; it raises exactly when one of those is not |
| Presentation.ShowProfileRaises | facebook-profile-page-info-collect-by-darkboss1bd.py:199-222 | `show_profile` raises exactly when the photo list is present and one of its first 20 photos is not a dict |
| Output.JoinPath | facebook-profile-page-info-collect-by-darkboss1bd.py:272 | POSIX `os.path.join` of two components; stated through `Output.OutPathInDirectory` |
| Output.OutPath | facebook-profile-page-info-collect-by-darkboss1bd.py:272-277 | the path of the JSON file; stated by `Output.OutPathInDirectory` |
| Output.SaveJson | facebook-profile-page-info-collect-by-darkboss1bd.py:264-280 | `save_json_if_requested`'s file; stated by `Output.SaveJsonWhen` |
| Output.OutBase | facebook-profile-page-info-collect-by-darkboss1bd.py:272 | the base name is non-empty and has no '/': each '/' of the username becomes '_', and an empty username gives "output" |
| Output.OutPathInDirectory | facebook-profile-page-info-collect-by-darkboss1bd.py:272-277 | with POSIX `os.path.join`, the file is `<base>.json` directly inside the output directory |
| Output.SlashAndUnderscoreCollide | facebook-profile-page-info-collect-by-darkboss1bd.py:272 | `a/b` and `a_b` are saved to the same file |
| Output.SaveJsonWhen | facebook-profile-page-info-collect-by-darkboss1bd.py:264-280 | a file is written exactly when the output directory is non-empty, holding the username and the three results under their names |
| Cli.Main | facebook-profile-page-info-collect-by-darkboss1bd.py:291-360 | `main`; stated by the `Cli` lemmas below |
| Cli.Username | facebook-profile-page-info-collect-by-darkboss1bd.py:307 | `args.username or input().strip()`: a flag value is kept as it is, a typed one is stripped; stated by `Cli.UsernameEmpty` |
| Cli.UsernameEmpty | facebook-profile-page-info-collect-by-darkboss1bd.py:307-310 | the username is empty, and the run exits, exactly when no non-empty `--username` was given and the typed line is all whitespace |
| Cli.ProfileLookup | facebook-profile-page-info-collect-by-darkboss1bd.py:324-332 | the profile lookup; stated by `Cli.ProfileOutcome` |
| Cli.PageLookup | facebook-profile-page-info-collect-by-darkboss1bd.py:335-343 | the page lookup; stated by `Cli.PageOutcome` |
| Cli.PostsLookup | facebook-profile-page-info-collect-by-darkboss1bd.py:347-355 | the posts lookup; stated by `Cli.PostsOutcome` |
| Cli.ExitStatusIff | facebook-profile-page-info-collect-by-darkboss1bd.py:307-316 | the run exits with status 1, before any request, exactly when the username is empty or no key is configured; the username is checked first |
| Cli.RequestsPlanned | facebook-profile-page-info-collect-by-darkboss1bd.py:324-358 | the requests sent do not depend on any response: profile with the profile key, then page and posts with the social key unless skipped |
| Cli.CompletedLookups | facebook-profile-page-info-collect-by-darkboss1bd.py:324-358 | each lookup's result is that of its own response, or skipped by its flag |
| Cli.LookupsIndependent | facebook-profile-page-info-collect-by-darkboss1bd.py:324-358 | best effort: changing the other lookups' responses never changes a lookup's result |
| Cli.SkippedIff | facebook-profile-page-info-collect-by-darkboss1bd.py:334-358 | the page and posts lookups are reported as skipped exactly when `--no-page` / `--no-posts` was given |
| Cli.NeverSkipped | facebook-profile-page-info-collect-by-darkboss1bd.py:324-355 | whatever the response, a lookup that runs is reported as failed, empty or shown, never as skipped |
| Cli.ProfileOutcome | facebook-profile-page-info-collect-by-darkboss1bd.py:324-332 | the profile lookup is an error exactly when the request fails or a non-empty record has a photo list one of whose first 20 photos is not a dict; it is empty when the response is not a dict or its record is empty; otherwise it is shown; the record is kept whenever the response is a dict |
| Cli.PageOutcome | facebook-profile-page-info-collect-by-darkboss1bd.py:335-343 | the page lookup is an error exactly when the request fails or the response is a list whose first element is truthy but not a dict; it is shown exactly when the response, or its first element, is a non-empty dict; otherwise it is empty; the normalised value is kept |
| Cli.PostsOutcome | facebook-profile-page-info-collect-by-darkboss1bd.py:347-355 | the posts lookup is empty exactly when the response is neither a list nor a dict with a `"data"` key; otherwise the normalised record is kept, and the lookup is an error exactly when that record is not renderable and shown exactly when it is; a failed request is an error with nothing kept |
| Cli.SavedValues | facebook-profile-page-info-collect-by-darkboss1bd.py:320-360 | the saved file holds the three kept results; a failed request or a skipped lookup leaves null under its name; a record whose display raised is still saved |
| Cli.NasaProfile | facebook-profile-page-info-collect-by-darkboss1bd.py:324-332 | a wrapped NASA profile is displayed, and its inner record is what is kept |
| Cli.EmptyPostsShown | facebook-profile-page-info-collect-by-darkboss1bd.py:347-358 | an empty posts list is displayed as the notice, not reported as an error |
| Cli.PostsDataListFails | facebook-profile-page-info-collect-by-darkboss1bd.py:347-356 | a posts record whose `"data"` is a non-empty list is kept as it is, but its display raises and the lookup is reported as an error |

## Left out

- `build_session`: the retry and backoff policy of `urllib3` (3 retries, factor 0.6, statuses 429/500/502/503/504) and the User-Agent header are foreign library configuration. Floating-point backoff is not modelled.
- Sending a request in `rapidapi_get`, and turning transport exceptions into messages: this is network I/O. Each response is a parameter, either a parsed body or an error message. The text of the messages, including the first 300 characters of a failed body, is not modelled.
- `--connect-timeout` and `--read-timeout`: `main` rebinds the global default, but `rapidapi_get`'s default argument was bound at definition time and callers never pass a timeout. So the flags change nothing, and the model has no timeouts.
- `load_dotenv`, `os.getenv` and `input()` are environment and console I/O. Their results are parameters.
- Console text: `print_banner`, colours, message wording, and the `str()` rendering of values. The fixed field lines of `show_profile` and `show_page` (each `get(key, 'N/A')`) are left out too; only whether `show_page` raises is modelled.
- The order in which intro cards are listed follows the dict's insertion order. Objects here are maps, so that order is not modelled; each card is identified by its key and labelled by `Presentation.IntroLabel`.
- `Presentation.IntroLabel`: `title()` is modelled for ASCII letters only. Other characters are kept and count as non-letters.
- `PyStr.Replace` requires a non-empty pattern. Python's insertion behaviour for an empty pattern is not modelled; the program never uses one.
- JSON numbers are reals, so `int` and `float` are not told apart. Key order and duplicate keys in objects are not modelled.
- Output.OutPathInDirectory: paths follow POSIX `os.path.join`, with '/' as the only separator. On Windows `os.path.join` uses `\` and only '/' is replaced in the username, so a username such as `..\x` would name a file outside the output directory there; that platform is not modelled.
- `save_json_if_requested`'s directory creation, file writing, its JSON formatting, and the reporting of a write failure are file-system I/O.
- `webbrowser.open` of the two fixed links, and `--no-open`, are a side effect with nothing to state.

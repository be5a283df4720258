/**
 * `save_json_if_requested`: where the combined result would be written
 * and what it holds. Creating the directory and writing the file are not
 * modelled.
 */
module Output {
  import opened Wrappers
  import opened Json
  import opened PyStr

  /** The file's base name: the username with every '/' turned into '_', or "output" when that is empty. */
  function OutBase(username: string): (base: string)
    ensures base != [] && '/' !in base
    ensures username == [] ==> base == "output"
    ensures username != [] ==> |base| == |username|
    ensures username != [] ==>
      forall i :: 0 <= i < |username| ==> base[i] == if username[i] == '/' then '_' else username[i]
  {
    var sanitised := Replace(username, "/", "_");
    ReplaceCharAt(username, '/', '_');
    ReplaceCharRemoves(username, '/', '_');
    if sanitised == "" then "output" else sanitised
  }

  /** `os.path.join(a, b)` on POSIX for two components. */
  function JoinPath(a: string, b: string): string {
    if b != [] && b[0] == '/' then b
    else if a == [] || a[|a| - 1] == '/' then a + b
    else a + "/" + b
  }

  /** The part of a path after its last '/' (`os.path.basename`). */
  function BaseName(path: string): string
    decreases |path|
  {
    if path == [] || path[|path| - 1] == '/' then []
    else BaseName(path[..|path| - 1]) + [path[|path| - 1]]
  }

  /** The path of the JSON file, or `None` when no output directory was given. */
  function OutPath(outDir: Option<string>, username: string): Option<string> {
    if !Given(outDir) then None else Some(JoinPath(outDir.value, OutBase(username)) + ".json")
  }

  /** A file the program would write: its path and its JSON content. */
  datatype SavedFile = SavedFile(path: string, payload: Json)

  /** `save_json_if_requested`: nothing without an output directory, else the four results under their names. */
  function SaveJson(outDir: Option<string>, username: string, profile: Json, page: Json, posts: Json): Option<SavedFile> {
    match OutPath(outDir, username)
    case None => None
    case Some(path) =>
      Some(SavedFile(path, JObj(map["username" := JStr(username), "profile" := profile, "page" := page, "posts" := posts])))
  }

  lemma {:induction false} BaseNameAfterSlash(dir: string, name: string)
    requires dir != [] && dir[|dir| - 1] == '/'
    requires '/' !in name
    ensures BaseName(dir + name) == name
    decreases |name|
  {
    if name == [] {
      assert dir + name == dir;
    } else {
      var init := name[..|name| - 1];
      assert (dir + name)[..|dir + name| - 1] == dir + init;
      assert forall c :: c in init ==> c in name;
      BaseNameAfterSlash(dir, init);
      assert init + [name[|name| - 1]] == name;
    }
  }

  /**
   * With a non-empty output directory the file is `<base>.json` directly
   * inside that directory: the path is the directory, a separating '/'
   * unless it already ends in one, and the base name.
   */
  lemma OutPathInDirectory(outDir: string, username: string)
    requires outDir != ""
    ensures OutPath(Some(outDir), username).Some?
    ensures var path := OutPath(Some(outDir), username).value;
      var name := OutBase(username) + ".json";
      && BaseName(path) == name
      && |name| <= |path|
      && (path[..|path| - |name|] == outDir || path[..|path| - |name|] == outDir + "/")
  {
    var base := OutBase(username);
    var name := base + ".json";
    var dir := if outDir[|outDir| - 1] == '/' then outDir else outDir + "/";
    var path := OutPath(Some(outDir), username).value;
    assert path == dir + name;
    assert forall c :: c in name ==> c in base || c in ".json";
    BaseNameAfterSlash(dir, name);
    assert path[..|path| - |name|] == dir;
  }

  /** Usernames that differ only in '/' against '_' are written to the same file. */
  lemma SlashAndUnderscoreCollide()
    ensures OutBase("a/b") == OutBase("a_b") == "a_b"
  {
    ReplaceCharAt("a/b", '/', '_');
    ReplaceCharAt("a_b", '/', '_');
  }

  /** A file is written exactly when the output directory is given and non-empty, and it records the username. */
  lemma SaveJsonWhen(outDir: Option<string>, username: string, profile: Json, page: Json, posts: Json)
    ensures SaveJson(outDir, username, profile, page, posts).Some? <==> Given(outDir)
    ensures var saved := SaveJson(outDir, username, profile, page, posts);
      saved.Some? ==>
        && saved.value.payload.JObj?
        && saved.value.payload.fields.Keys == {"username", "profile", "page", "posts"}
        && saved.value.payload.fields["username"] == JStr(username)
        && saved.value.payload.fields["profile"] == profile
        && saved.value.payload.fields["page"] == page
        && saved.value.payload.fields["posts"] == posts
  {
  }
}

/**
 * API-key configuration: the presence check of `get_env_keys` and the
 * per-provider resolution of `choose_key`. The values `os.getenv` returns
 * are parameters (`None` when a variable is unset).
 */
module Keys {
  import opened Wrappers
  import opened PyStr

  /** The raised `RuntimeError` when no key is configured at all. */
  datatype ConfigError = NoKeyConfigured

  /** The triple `get_env_keys` returns: the common key (never missing) and the two optional overrides. */
  datatype EnvKeys = EnvKeys(common: string, fbKey: Option<string>, socialKey: Option<string>)

  /**
   * `get_env_keys` after reading the environment: fails exactly when no
   * variable holds a non-empty value, and otherwise returns the common key
   * (or "" when it is unset) beside the two overrides, unchanged.
   */
  function GetEnvKeys(common: Option<string>, fbKey: Option<string>, socialKey: Option<string>)
    : (r: Result<EnvKeys, ConfigError>)
    ensures r.Failure? <==> !Given(common) && !Given(fbKey) && !Given(socialKey)
    ensures r.Success? ==> r.value.fbKey == fbKey && r.value.socialKey == socialKey
    ensures r.Success? ==> (common.Some? ==> r.value.common == common.value) && (common.None? ==> r.value.common == "")
  {
    if !Given(common) && !(Given(fbKey) || Given(socialKey)) then
      Failure(NoKeyConfigured)
    else
      Success(EnvKeys(if Given(common) then common.value else "", fbKey, socialKey))
  }

  /**
   * `choose_key`: the provider-specific key, stripped, when it has a
   * non-whitespace character; otherwise the common key, unchanged.
   */
  function ChooseKey(common: string, specific: Option<string>): (r: string)
    ensures specific.Some? && !AllSpace(specific.value) ==> r == Strip(specific.value) && r != ""
    ensures specific.None? || AllSpace(specific.value) ==> r == common
  {
    if Given(specific) && Strip(specific.value) != "" then Strip(specific.value) else common
  }

  /** A chosen override key carries no surrounding whitespace: stripping it again changes nothing. */
  lemma ChooseKeyStripped(common: string, specific: string)
    requires !AllSpace(specific)
    ensures Strip(ChooseKey(common, Some(specific))) == ChooseKey(common, Some(specific))
  {
    StripIdempotent(specific);
  }

  /**
   * With only the profile-provider key set, the profile lookup uses that
   * key and the page and posts lookups are sent the empty common key.
   */
  lemma OnlyFbKeyConfigured(fbKey: string)
    requires !AllSpace(fbKey)
    ensures var r := GetEnvKeys(None, Some(fbKey), None);
      && r.Success?
      && ChooseKey(r.value.common, r.value.fbKey) == Strip(fbKey)
      && ChooseKey(r.value.common, r.value.socialKey) == ""
  {
  }

  /**
   * The presence check looks at truthiness while `choose_key` strips: a
   * key made only of whitespace passes the check and still resolves to an
   * empty key for every lookup.
   */
  lemma BlankKeyPassesCheck(blank: string)
    requires blank != "" && AllSpace(blank)
    ensures var r := GetEnvKeys(None, Some(blank), None);
      && r.Success?
      && ChooseKey(r.value.common, r.value.fbKey) == ""
      && ChooseKey(r.value.common, r.value.socialKey) == ""
  {
  }

  /**
   * When every configured value has a non-whitespace character and the
   * check passes, at least one of the two resolved keys is non-empty.
   */
  lemma ResolvedKeyNonEmpty(common: Option<string>, fbKey: Option<string>, socialKey: Option<string>)
    requires common.Some? ==> !AllSpace(common.value)
    requires fbKey.Some? ==> !AllSpace(fbKey.value)
    requires socialKey.Some? ==> !AllSpace(socialKey.value)
    requires GetEnvKeys(common, fbKey, socialKey).Success?
    ensures var k := GetEnvKeys(common, fbKey, socialKey).value;
      ChooseKey(k.common, k.fbKey) != "" || ChooseKey(k.common, k.socialKey) != ""
  {
    var k := GetEnvKeys(common, fbKey, socialKey).value;
    if common.Some? {
      assert common.value != "";
    } else if fbKey.Some? {
      assert ChooseKey(k.common, k.fbKey) != "";
    } else {
      assert socialKey.Some?;
      assert ChooseKey(k.common, k.socialKey) != "";
    }
  }
}

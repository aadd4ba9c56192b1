/** The Google API key: its format check, the two ways the application picks a key, and
    the sidebar messages that report on it. Where a Python attribute may be missing
    (`config.GOOGLE_API_KEY`, a session-state entry), the value is an `Option`. */
module ApiKey {
  import opened Text
  import opened Wrappers

  const KeyPrefix: string := "AIza"
  const KeyLength: nat := 39

  /** `validate_api_key`: a missing or blank key is refused, and otherwise the key must
      start with "AIza" and be exactly 39 characters long. */
  function ValidateApiKey(k: string): (ok: bool)
    ensures ok <==> KeyPrefix <= k && |k| == KeyLength
  {
    WellFormedKeyNotBlank(k);
    if |k| == 0 || Strip(k) == "" then false
    else KeyPrefix <= k && |k| == KeyLength
  }

  /** The blank test is subsumed by the format test: a key of the right shape is never
      blank, so `ValidateApiKey` is exactly the prefix-and-length test. */
  lemma WellFormedKeyNotBlank(k: string)
    ensures KeyPrefix <= k ==> Strip(k) != ""
  {
    if KeyPrefix <= k {
      assert k[0] == 'A';
      StripEmptyIff(k);
    }
  }

  /** Keys made only of white space, and keys of any other length, are refused. */
  lemma BadKeysRejected(k: string)
    ensures AllSpace(k) ==> !ValidateApiKey(k)
    ensures |k| != KeyLength ==> !ValidateApiKey(k)
    ensures !ValidateApiKey("") && !ValidateApiKey("AIza")
  {
    if AllSpace(k) && |k| > 0 {
      assert !IsSpace(k[0]) ==> !AllSpace(k);
    }
  }

  /** `get_api_key`: the configured key when there is one and it is not blank, otherwise
      the key kept in the session (`''` when the session has none). The configured key is
      returned without checking its format. */
  function GetApiKey(config: Option<string>, sessionKey: Option<string>): (k: string)
    ensures config.Some? && Strip(config.value) != "" ==> k == config.value
    ensures config.None? || Strip(config.value) == "" ==> k == sessionKey.GetOr("")
  {
    match config
    case Some(c) => if |c| > 0 && Strip(c) != "" then c else sessionKey.GetOr("")
    case None => sessionKey.GetOr("")
  }

  /** The configured key as `run_chatbot` keeps it: itself when it passes
      `validate_api_key`, the empty string when it fails or is missing. */
  function ConfigKey(config: Option<string>): (k: string)
    ensures k == "" || (config == Some(k) && ValidateApiKey(k))
    ensures config.Some? && ValidateApiKey(config.value) ==> k == config.value
  {
    match config
    case Some(c) => if ValidateApiKey(c) then c else ""
    case None => ""
  }

  /** The key `run_chatbot` hands to `user_input`: the configured key when it is valid,
      otherwise the key typed in the sidebar. */
  function SelectApiKey(config: Option<string>, typed: string): (k: string)
    ensures config.Some? && ValidateApiKey(config.value) ==> k == config.value
    ensures !(config.Some? && ValidateApiKey(config.value)) ==> k == typed
  {
    var c := ConfigKey(config);
    if c != "" then c else typed
  }

  /** A configured key made only of white space, ASCII or not, is passed over for the
      session's key. */
  lemma BlankConfigPassedOver(config: string, sessionKey: Option<string>)
    requires AllSpace(config)
    ensures GetApiKey(Some(config), sessionKey) == sessionKey.GetOr("")
    ensures GetApiKey(Some("\U{001C}"), sessionKey) == sessionKey.GetOr("")
    ensures GetApiKey(Some("\U{3000}\t"), sessionKey) == sessionKey.GetOr("")
  {
    StripEmptyIff(config);
    StripEmptyIff("\U{001C}");
    StripEmptyIff("\U{3000}\t");
  }

  /** The chosen key is usable exactly when the configured key or the typed key is. */
  lemma SelectedKeyReadyIff(config: Option<string>, typed: string)
    ensures ValidateApiKey(SelectApiKey(config, typed))
        <==> (config.Some? && ValidateApiKey(config.value)) || ValidateApiKey(typed)
  {
  }

  /** The two selections differ: a configured key that is not blank but malformed is what
      `get_api_key` returns, while `run_chatbot` discards it for the typed key. */
  lemma GetApiKeyKeepsMalformedConfig(typed: string)
    ensures GetApiKey(Some("short"), Some(typed)) == "short"
    ensures SelectApiKey(Some("short"), typed) == typed
  {
    assert "short"[0] == 's';
    assert !AllSpace("short");
    StripEmptyIff("short");
  }

  const ConfigValidBadge: string := "✅ API key is valid"
  const InvalidKeyWarning: string := "⚠️ API key is invalid.\nPlease enter your API key below."
  const KeyReadyBadge: string := "✅ API key is ready"
  const EnterKeyError: string := "❌ Please enter a valid Google API key"
  const GetKeyInfo: string := "💡 Get your API key from: https://console.cloud.google.com/"

  /** The messages of the sidebar's key section, in order, given the configured key, the key
      stored in the session before this run and the key now in the text box. The warning is
      decided on the stored key, the status on the typed one. */
  function SidebarMessages(config: Option<string>, stored: string, typed: string): (msgs: seq<string>)
    ensures KeyReadyBadge in msgs <==> ValidateApiKey(SelectApiKey(config, typed))
    ensures EnterKeyError in msgs <==> !ValidateApiKey(SelectApiKey(config, typed))
    ensures ConfigValidBadge in msgs <==> config.Some? && ValidateApiKey(config.value)
    ensures InvalidKeyWarning in msgs
        <==> !(config.Some? && ValidateApiKey(config.value)) && !ValidateApiKey(stored)
  {
    var c := ConfigKey(config);
    var current := if c != "" then c else stored;
    var badge := if c != "" then [ConfigValidBadge] else [];
    var warning := if !ValidateApiKey(current) then [InvalidKeyWarning] else [];
    var status := if ValidateApiKey(SelectApiKey(config, typed)) then [KeyReadyBadge]
                  else [EnterKeyError, GetKeyInfo];
    badge + warning + status
  }

  /** On the run in which a valid key is first typed (no valid configured key, nothing
      valid stored yet), the sidebar shows both the "invalid" warning and the "ready"
      status. */
  lemma FirstValidKeyShowsBothMessages(config: Option<string>, stored: string, typed: string)
    requires !(config.Some? && ValidateApiKey(config.value))
    requires !ValidateApiKey(stored) && ValidateApiKey(typed)
    ensures var msgs := SidebarMessages(config, stored, typed);
      InvalidKeyWarning in msgs && KeyReadyBadge in msgs
  {
  }
}

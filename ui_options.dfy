/** The `setUiOption` action and the `getUiOption` view: both check the option key
    before they touch the UI-option store. */
module UiOptions {
  import opened Wrappers

  /** MAX_KEY_LENGTH in the Java class. */
  const MaxKeyLength: nat := 50

  predicate IsAsciiAlnum(c: char) {
    ('a' <= c <= 'z') || ('A' <= c <= 'Z') || ('0' <= c <= '9')
  }

  /** `key.matches("[a-zA-Z0-9]+")`: the regular expression, one or more characters of
      the class, matched character by character. */
  function MatchesAlnumPlus(key: string): (r: bool)
    ensures r <==> |key| >= 1 && forall i :: 0 <= i < |key| ==> IsAsciiAlnum(key[i])
    decreases |key|
  {
    if key == [] then false
    else IsAsciiAlnum(key[0]) && (|key| == 1 || MatchesAlnumPlus(key[1..]))
  }

  /** `validateKey`: a key is refused with ILLEGAL_PARAMETER on "key" unless it is
      1 to 50 characters long and matches the pattern. */
  function ValidateKey(key: string): (r: Result<(), Exception>)
    ensures r.Ok? <==> 1 <= |key| <= 50 && forall i :: 0 <= i < |key| ==> IsAsciiAlnum(key[i])
    ensures r.Err? ==> r.error == IllegalParameter("key")
  {
    if |key| == 0 || |key| > MaxKeyLength || !MatchesAlnumPlus(key) then
      Err(IllegalParameter("key"))
    else Ok(())
  }

  /** The key/value store of UI options kept by the HUD's parameters object. */
  class UiOptionStore {
    var options: map<string, string>

    constructor (initial: map<string, string>)
      ensures options == initial
    {
      options := initial;
    }
  }

  /** The `setUiOption` action: the value parameter is optional and defaults to "". */
  method SetUiOption(store: UiOptionStore, key: string, value: Option<string>)
      returns (r: Result<(), Exception>)
    modifies store
    ensures r == ValidateKey(key)
    ensures r.Ok? ==> store.options == old(store.options)[key := value.GetOr("")]
    ensures r.Err? ==> store.options == old(store.options)
  {
    r := ValidateKey(key);
    if r.Ok? {
      store.options := store.options[key := value.GetOr("")];
    }
  }

  /** The `getUiOption` view: the store is read only after the key is accepted. */
  method GetUiOption(store: UiOptionStore, key: string) returns (r: Result<Option<string>, Exception>)
    ensures r.Err? <==> ValidateKey(key).Err?
    ensures r.Err? ==> r.error == IllegalParameter("key")
    ensures r.Ok? ==> r.value == (if key in store.options then Some(store.options[key]) else None)
  {
    var check := ValidateKey(key);
    if check.Err? {
      return Err(check.error);
    }
    if key in store.options {
      r := Ok(Some(store.options[key]));
    } else {
      r := Ok(None);
    }
  }

  /** A key with an underscore is refused, whatever its length. */
  lemma UnderscoreKeyRefused(key: string)
    requires '_' in key
    ensures ValidateKey(key) == Err(IllegalParameter("key"))
  {
  }
}

/**
 * The configuration check of `lib/json_reader.py`: `validate` looks for the
 * required top-level keys, in order, and raises `ValueError` naming the
 * first one that is missing. Only the keys of the configuration matter, so
 * it is modelled as a map with values of any type.
 */
module JsonReader {
  import opened Wrappers

  /** The keys every configuration must have, in the order they are checked. */
  const REQUIRED_KEYS: seq<string> := ["api_tokens", "commands", "attacks"]

  /** The `ValueError` raised by `validate`. */
  datatype ValueError = ValueError(message: string)

  const MISSING_KEY_PREFIX: string := "Missing required configuration key: '"

  /** The text of the error for a missing `key`. */
  function MissingKeyMessage(key: string): (m: string)
    ensures |m| == |MISSING_KEY_PREFIX| + |key| + 1
    ensures m[..|MISSING_KEY_PREFIX|] == MISSING_KEY_PREFIX
    ensures m[|MISSING_KEY_PREFIX|..|m| - 1] == key
    ensures m[|m| - 1] == '\''
  {
    MISSING_KEY_PREFIX + key + "'"
  }

  /** Two errors for missing keys are the same error only for the same key. */
  lemma MessageNamesKey(a: string, b: string)
    requires MissingKeyMessage(a) == MissingKeyMessage(b)
    ensures a == b
  {
    var m := MissingKeyMessage(a);
    assert a == m[|MISSING_KEY_PREFIX|..|m| - 1];
  }

  /**
   * The loop of `validate` over `keys`: the first key not in `config`, or
   * `None` when all of them are there.
   */
  function FirstMissing<V>(keys: seq<string>, config: map<string, V>): (r: Option<string>)
    ensures r.None? <==> forall i :: 0 <= i < |keys| ==> keys[i] in config
    ensures r.Some? ==>
              exists i :: 0 <= i < |keys| && keys[i] == r.value && r.value !in config
                          && forall j :: 0 <= j < i ==> keys[j] in config
  {
    if keys == [] then None
    else if keys[0] !in config then Some(keys[0])
    else
      var rest := FirstMissing(keys[1..], config);
      assert rest.Some? ==> exists i :: 0 < i < |keys| && keys[i] == rest.value && rest.value !in config
                                        && forall j :: 0 <= j < i ==> keys[j] in config by {
        if rest.Some? {
          var i :| 0 <= i < |keys| - 1 && keys[1..][i] == rest.value && rest.value !in config
                   && forall j :: 0 <= j < i ==> keys[1..][j] in config;
          assert forall j :: 0 < j < i + 1 ==> keys[j] == keys[1..][j - 1];
        }
      }
      rest
  }

  /**
   * `validate`: `true` when every required key is present, otherwise the
   * `ValueError` for the first one missing, in the order `api_tokens`,
   * `commands`, `attacks`.
   */
  function Validate<V>(config: map<string, V>): (r: Result<bool, ValueError>)
    ensures r.Success? <==> "api_tokens" in config && "commands" in config && "attacks" in config
    ensures r.Success? ==> r.value
    ensures "api_tokens" !in config ==> r == Failure(ValueError(MissingKeyMessage("api_tokens")))
    ensures "api_tokens" in config && "commands" !in config ==>
              r == Failure(ValueError(MissingKeyMessage("commands")))
    ensures "api_tokens" in config && "commands" in config && "attacks" !in config ==>
              r == Failure(ValueError(MissingKeyMessage("attacks")))
  {
    assert |REQUIRED_KEYS| == 3 && REQUIRED_KEYS[0] == "api_tokens"
           && REQUIRED_KEYS[1] == "commands" && REQUIRED_KEYS[2] == "attacks";
    match FirstMissing(REQUIRED_KEYS, config)
    case None => Success(true)
    case Some(key) => Failure(ValueError(MissingKeyMessage(key)))
  }

  /** The loop looks at nothing but whether each of its keys is present. */
  lemma {:induction false} FirstMissingOnlyMembership<V, W>(keys: seq<string>, a: map<string, V>,
                                                            b: map<string, W>)
    requires forall i :: 0 <= i < |keys| ==> (keys[i] in a <==> keys[i] in b)
    ensures FirstMissing(keys, a) == FirstMissing(keys, b)
  {
    if keys != [] && keys[0] in a {
      FirstMissingOnlyMembership(keys[1..], a, b);
    }
  }

  /**
   * Two configurations with the same required keys get the same verdict,
   * whatever their values and their other keys.
   */
  lemma ValidateOnlyRequiredKeys<V, W>(a: map<string, V>, b: map<string, W>)
    requires forall i :: 0 <= i < |REQUIRED_KEYS| ==> (REQUIRED_KEYS[i] in a <==> REQUIRED_KEYS[i] in b)
    ensures Validate(a) == Validate(b)
  {
    FirstMissingOnlyMembership(REQUIRED_KEYS, a, b);
  }

  /** Adding keys to a valid configuration never makes it invalid. */
  lemma ExtraKeysKeepValid<V>(config: map<string, V>, larger: map<string, V>)
    requires config.Keys <= larger.Keys
    ensures Validate(config).Success? ==> Validate(larger).Success?
  {
  }
}

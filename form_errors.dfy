/** The error object both sign-up and login build on submission: the form's
    keys visited in order, each failing key recorded with its message. */
module FormErrors {

  /** The error object after visiting `keys` in order, with `errorOf`
      giving each key's message ("" when it passes). */
  function ErrorsOver<K>(errorOf: K -> string, keys: seq<K>): map<K, string>
    decreases |keys|
  {
    if keys == [] then map[]
    else
      var prev := ErrorsOver(errorOf, keys[..|keys| - 1]);
      var k := keys[|keys| - 1];
      if errorOf(k) != "" then prev[k := errorOf(k)] else prev
  }

  /** Visiting `keys` one by one records exactly the failing keys among them. */
  lemma {:induction false} ErrorsOverFailing<K>(errorOf: K -> string, keys: seq<K>)
    ensures ErrorsOver(errorOf, keys) == map k | k in keys && errorOf(k) != "" :: errorOf(k)
    decreases |keys|
  {
    if keys != [] {
      var init := keys[..|keys| - 1];
      ErrorsOverFailing(errorOf, init);
      assert keys == init + [keys[|keys| - 1]];
    }
  }

  /** `Object.keys(formData).forEach(...)` of a submit handler: each key in
      turn, with `errorOf` as the callback's `validateField`, recorded in
      the new error object when its message is not empty. */
  method CollectFailing<K>(errorOf: K -> string, keys: seq<K>) returns (newErrors: map<K, string>)
    ensures newErrors == ErrorsOver(errorOf, keys)
  {
    newErrors := map[];
    for i := 0 to |keys|
      invariant newErrors == ErrorsOver(errorOf, keys[..i])
    {
      var key := keys[i];
      var error := errorOf(key);
      assert keys[..i + 1][..i] == keys[..i];
      if error != "" {
        newErrors := newErrors[key := error];
      }
    }
    assert keys[..|keys|] == keys;
  }
}

/** Reading one named input (core/core.go, `GetInput`).

    The host passes each input of a worker as an environment variable whose key is
    `INPUT_` followed by the input's display name with spaces turned into
    underscores and letters upper-cased. `GetInput` computes that key, reads it,
    rejects an empty value when the input is required, and trims the value unless
    trimming is switched off. The process environment is an explicit map here;
    a key that is not in the map reads as the empty string, as `os.Getenv` does.
 */
module Core {
  import opened Wrappers
  import opened Strings
  import opened Options

  /** The fixed prefix of every input's environment key. */
  const KeyPrefix := "INPUT_"

  /** The failure `GetInput` reports; it names the input as the caller spelt it. */
  datatype InputError = RequiredInputMissing(name: string)

  /** The key character that stands for character `c` of a display name. */
  function KeyChar(c: char): char {
    Upper(if c == ' ' then '_' else c)
  }

  /** Two display names lead to the same key exactly when they agree character by
      character once spaces are read as underscores and letters as upper case. */
  predicate SameKeyName(a: string, b: string) {
    |a| == |b| && forall i :: 0 <= i < |a| ==> KeyChar(a[i]) == KeyChar(b[i])
  }

  /** The environment key of the input called `name`. */
  function EnvKey(name: string): (key: string)
    ensures |key| == |KeyPrefix| + |name|
    ensures key[..|KeyPrefix|] == KeyPrefix
    ensures forall i :: 0 <= i < |name| ==> key[|KeyPrefix| + i] == KeyChar(name[i])
    ensures forall i :: 0 <= i < |name| && name[i] != ' ' && !IsLower(name[i]) ==>
              key[|KeyPrefix| + i] == name[i]
    ensures ' ' !in key
  {
    var t := ToTitle(ReplaceAll(name, ' ', '_'));
    assert (KeyPrefix + t)[..|KeyPrefix|] == KeyPrefix;
    assert forall i :: 0 <= i < |t| ==> (KeyPrefix + t)[|KeyPrefix| + i] == t[i];
    KeyPrefix + t
  }

  /** Key normalisation identifies exactly the names that SameKeyName relates:
      letter case, and the difference between a space and an underscore, are lost. */
  lemma EnvKeyInjectiveUpToCase(a: string, b: string)
    ensures EnvKey(a) == EnvKey(b) <==> SameKeyName(a, b)
  {
    var ka, kb := EnvKey(a), EnvKey(b);
    var n := |KeyPrefix|;
    if ka == kb {
      forall i | 0 <= i < |a|
        ensures KeyChar(a[i]) == KeyChar(b[i])
      {
        assert ka[n + i] == kb[n + i];
      }
    }
    if SameKeyName(a, b) {
      forall j | 0 <= j < |ka|
        ensures ka[j] == kb[j]
      {
        if j < n {
          assert ka[j] == ka[..n][j] && kb[j] == kb[..n][j];
        } else {
          assert ka[n + (j - n)] == kb[n + (j - n)];
        }
      }
    }
  }

  /** The properties EnvKey ensures determine the key: any string with the prefix
      followed by the key characters of `name` is EnvKey(name). */
  lemma EnvKeyUnique(name: string, key: string)
    requires |key| == |KeyPrefix| + |name|
    requires key[..|KeyPrefix|] == KeyPrefix
    requires forall i :: 0 <= i < |name| ==> key[|KeyPrefix| + i] == KeyChar(name[i])
    ensures EnvKey(name) == key
  {
    var k := EnvKey(name);
    var n := |KeyPrefix|;
    forall j | 0 <= j < |key|
      ensures k[j] == key[j]
    {
      if j < n {
        assert k[j] == k[..n][j] && key[j] == key[..n][j];
      } else {
        assert k[n + (j - n)] == key[n + (j - n)];
      }
    }
  }

  /** Normalisation works character by character: the key of a concatenation is
      the key of the first part followed by the key body of the second. */
  lemma EnvKeyAppend(a: string, b: string)
    ensures EnvKey(a + b) == EnvKey(a) + EnvKey(b)[|KeyPrefix|..]
  {
    var key := EnvKey(a) + EnvKey(b)[|KeyPrefix|..];
    var n := |KeyPrefix|;
    forall i | 0 <= i < |a + b|
      ensures key[n + i] == KeyChar((a + b)[i])
    {
      if i < |a| {
        assert key[n + i] == EnvKey(a)[n + i];
      } else {
        assert key[n + i] == EnvKey(b)[n + (i - |a|)];
      }
    }
    assert key[..n] == EnvKey(a)[..n];
    EnvKeyUnique(a + b, key);
  }

  /** Normalisation ignores the letter case of the name. */
  lemma EnvKeyIgnoresCase(a: string, b: string)
    requires |a| == |b|
    requires forall i :: 0 <= i < |a| ==> Upper(a[i]) == Upper(b[i])
    ensures EnvKey(a) == EnvKey(b)
  {
    forall i | 0 <= i < |a|
      ensures KeyChar(a[i]) == KeyChar(b[i])
    {
      assert Upper(a[i]) == Upper(b[i]);
    }
    EnvKeyInjectiveUpToCase(a, b);
  }

  /** The part of a key after the prefix is already normal: normalising it again as
      a display name gives the same key. */
  lemma EnvKeyIdempotent(name: string)
    ensures EnvKey(EnvKey(name)[|KeyPrefix|..]) == EnvKey(name)
  {
    var key := EnvKey(name);
    var suffix := key[|KeyPrefix|..];
    assert key == KeyPrefix + suffix by {
      assert key[..|KeyPrefix|] == KeyPrefix;
    }
    ReplaceAllAbsent(suffix, ' ', '_');
    forall i | 0 <= i < |suffix|
      ensures !IsLower(suffix[i])
    {
      assert suffix[i] == KeyChar(name[i]);
    }
    ToTitleFixesUpper(suffix);
  }

  /** `os.Getenv`: the value of `key`, or the empty string when it is not set. */
  function Lookup(env: map<string, string>, key: string): (v: string)
    ensures key in env ==> v == env[key]
    ensures key !in env ==> v == ""
  {
    if key in env then env[key] else ""
  }

  /** The caller marked the input as required (an unset field means not required). */
  predicate IsRequired(options: Option<InputOptions>) {
    options.Some? && options.value.required == Some(true)
  }

  /** The caller left trimming on (an unset field, or no record, means on). */
  predicate Trims(options: Option<InputOptions>) {
    !(options.Some? && options.value.trimWhitespace == Some(false))
  }

  /** `GetInput`: the value of the input called `name` in `env`. */
  function GetInput(name: string, options: Option<InputOptions>, env: map<string, string>)
    : (r: Result<string, InputError>)
    ensures var raw := Lookup(env, EnvKey(name));
      r.Failure? <==> IsRequired(options) && raw == ""
    ensures r.Failure? ==> r.error == RequiredInputMissing(name)
    ensures r.Success? && !Trims(options) ==> r.value == Lookup(env, EnvKey(name))
    ensures r.Success? && Trims(options) ==>
      exists lo :: TrimmedAt(Lookup(env, EnvKey(name)), r.value, lo)
  {
    var o := Initialize(options);
    var val := Lookup(env, EnvKey(name));
    if o.required.value && val == "" then
      Failure(RequiredInputMissing(name))
    else if !o.trimWhitespace.value then
      Success(val)
    else
      Success(TrimSpace(val))
  }

  /** GetInput in terms of the options as the caller wrote them and the raw value
      found under the name's key: defaulting is folded into IsRequired and Trims. */
  lemma GetInputByOptions(name: string, options: Option<InputOptions>,
                          env: map<string, string>, raw: string)
    requires Lookup(env, EnvKey(name)) == raw
    ensures GetInput(name, options, env) ==
      if IsRequired(options) && raw == "" then Failure(RequiredInputMissing(name))
      else if Trims(options) then Success(TrimSpace(raw))
      else Success(raw)
  {
  }

  /** A required input whose key is missing, or set to the empty string, is an error
      naming the input. */
  lemma GetInputRequiredMissing(name: string, options: Option<InputOptions>, env: map<string, string>)
    requires IsRequired(options)
    requires EnvKey(name) !in env || env[EnvKey(name)] == ""
    ensures GetInput(name, options, env) == Failure(RequiredInputMissing(name))
  {
  }

  /** The required check looks at the raw value: a required input holding only white
      space passes it, and comes back as "" when trimming is on and unchanged when
      it is off. */
  lemma GetInputRequiredBlank(name: string, options: Option<InputOptions>, env: map<string, string>)
    requires IsRequired(options)
    requires EnvKey(name) in env && env[EnvKey(name)] != ""
    requires forall i :: 0 <= i < |env[EnvKey(name)]| ==> IsSpace(env[EnvKey(name)][i])
    ensures Trims(options) ==> GetInput(name, options, env) == Success("")
    ensures !Trims(options) ==> GetInput(name, options, env) == Success(env[EnvKey(name)])
  {
    TrimSpaceAllSpace(env[EnvKey(name)]);
  }

  /** An optional input whose key is missing reads as "" without error. */
  lemma GetInputOptionalMissing(name: string, options: Option<InputOptions>, env: map<string, string>)
    requires !IsRequired(options)
    requires EnvKey(name) !in env
    ensures GetInput(name, options, env) == Success("")
  {
    TrimSpaceAllSpace("");
  }

  /** With trimming on, a successful result has no white space at either end, is a
      contiguous slice of the raw value, equals `strings.TrimSpace` of that value,
      and trimming it again changes nothing. */
  lemma GetInputTrimmed(name: string, options: Option<InputOptions>, env: map<string, string>)
    requires Trims(options)
    ensures var r := GetInput(name, options, env);
      var raw := Lookup(env, EnvKey(name));
      r.Success? ==>
        && r.value == TrimSpace(raw)
        && NoEdgeSpace(r.value)
        && (exists lo :: SliceAt(raw, r.value, lo))
        && TrimSpace(r.value) == r.value
  {
    var r := GetInput(name, options, env);
    var raw := Lookup(env, EnvKey(name));
    if r.Success? {
      var lo :| TrimmedAt(raw, r.value, lo);
      TrimSpaceIsTrimming(raw, r.value, lo);
      TrimSpaceIdempotent(raw);
    }
  }

  /** Two display names that differ only in letter case read the same input: both
      fail or both succeed, with the same value; an error names the caller's
      spelling. */
  lemma GetInputIgnoresNameCase(a: string, b: string, options: Option<InputOptions>,
                                env: map<string, string>)
    requires |a| == |b|
    requires forall i :: 0 <= i < |a| ==> Upper(a[i]) == Upper(b[i])
    ensures GetInput(a, options, env).Success? <==> GetInput(b, options, env).Success?
    ensures GetInput(a, options, env).Success? ==>
              GetInput(a, options, env).value == GetInput(b, options, env).value
  {
    EnvKeyIgnoresCase(a, b);
  }

  /** Passing back the record an earlier read filled gives the same result as
      passing the original record, as long as the caller has not changed it. */
  lemma GetInputSharedOptions(name: string, options: Option<InputOptions>, env: map<string, string>)
    ensures GetInput(name, Some(Initialize(options)), env) == GetInput(name, options, env)
  {
    InitializeIdempotent(options);
  }
}

/**
 * The secret helpers: `getSecret`, which reads a named file of the secret
 * directory at most once, and `getSecretValue`, which prefers an
 * environment variable derived from the value's key and otherwise reads,
 * parses and memoises the named secret.
 *
 * Reading a file and `JSON.parse` are oracles. The functions
 * `SecretLookup` and `SecretValueLookup` state what one call does to the
 * two caches; the class `SecretStore` holds them and is proved to do
 * exactly that.
 */
module Secrets {
  import opened JsValues

  // ---------------------------------------------------------------------
  // The environment variable name of a value key

  /** The characters `String.prototype.trim` removes and the regular expression class `\s` matches. */
  predicate IsJsWhitespace(c: char) {
    c == '\t' || c == '\n' || c == '\U{000B}' || c == '\U{000C}' || c == '\r' || c == ' '
    || c == '\U{00A0}' || c == '\U{1680}' || ('\U{2000}' <= c <= '\U{200A}')
    || c == '\U{2028}' || c == '\U{2029}' || c == '\U{202F}' || c == '\U{205F}'
    || c == '\U{3000}' || c == '\U{FEFF}'
  }

  /** Upper-casing of one character, for the ASCII letters. */
  function UpperChar(c: char): char {
    if 'a' <= c <= 'z' then (c as int - 'a' as int + 'A' as int) as char else c
  }

  /** `toUpperCase`, letter by letter. */
  function ToUpper(s: string): (r: string)
    ensures |r| == |s| && forall i :: 0 <= i < |s| ==> r[i] == UpperChar(s[i])
  {
    seq(|s|, i requires 0 <= i < |s| => UpperChar(s[i]))
  }

  /** `trimStart`: drops the leading whitespace. */
  function TrimStart(s: string): (r: string)
    ensures |r| <= |s| && r == s[|s| - |r|..]
    ensures r == [] || !IsJsWhitespace(r[0])
    ensures forall i :: 0 <= i < |s| - |r| ==> IsJsWhitespace(s[i])
    decreases |s|
  {
    if s != [] && IsJsWhitespace(s[0]) then
      var r := TrimStart(s[1..]);
      assert forall i :: 1 <= i < |s| ==> s[i] == s[1..][i - 1];
      r
    else s
  }

  /** `trimEnd`: drops the trailing whitespace. */
  function TrimEnd(s: string): (r: string)
    ensures |r| <= |s| && r == s[..|r|]
    ensures r == [] || !IsJsWhitespace(r[|r| - 1])
    ensures forall i :: |r| <= i < |s| ==> IsJsWhitespace(s[i])
    decreases |s|
  {
    if s != [] && IsJsWhitespace(s[|s| - 1]) then TrimEnd(s[..|s| - 1]) else s
  }

  /** `trim`: the string without its leading and trailing whitespace. */
  function Trim(s: string): string {
    TrimEnd(TrimStart(s))
  }

  /**
   * The trimmed string neither starts nor ends with whitespace, and it is
   * empty exactly when the string is all whitespace.
   */
  lemma TrimDropsWhitespace(s: string)
    ensures var r := Trim(s);
      && |r| <= |s|
      && (r == [] || (!IsJsWhitespace(r[0]) && !IsJsWhitespace(r[|r| - 1])))
      && ((forall i :: 0 <= i < |s| ==> IsJsWhitespace(s[i])) <==> r == [])
  {
  }

  /** The replacement of `/[-\s]/g` by "_", character by character. */
  function Underscored(s: string): (r: string)
    ensures |r| == |s|
    ensures forall i :: 0 <= i < |s| ==> r[i] == (if s[i] == '-' || IsJsWhitespace(s[i]) then '_' else s[i])
  {
    seq(|s|, i requires 0 <= i < |s| => if s[i] == '-' || IsJsWhitespace(s[i]) then '_' else s[i])
  }

  /**
   * The environment variable consulted for a value key: the key upper-cased,
   * trimmed, and with every "-" and whitespace character replaced by "_".
   */
  function EnvVarName(valueKey: string): string {
    Underscored(Trim(ToUpper(valueKey)))
  }

  /**
   * A derived name is as long as the trimmed, upper-cased key, holds no "-"
   * and no whitespace, puts "_" where that key has "-" or whitespace, and
   * keeps every other character of it in place.
   */
  lemma EnvVarNameShape(valueKey: string)
    ensures var t := Trim(ToUpper(valueKey));
      var r := EnvVarName(valueKey);
      && |r| == |t|
      && (forall i :: 0 <= i < |r| ==> r[i] != '-' && !IsJsWhitespace(r[i]))
      && (forall i :: 0 <= i < |r| ==> (t[i] == '-' || IsJsWhitespace(t[i])) ==> r[i] == '_')
      && (forall i :: 0 <= i < |r| ==> t[i] != '-' && !IsJsWhitespace(t[i]) ==> r[i] == t[i])
  {
  }

  /** A string without whitespace is its own trim. */
  lemma TrimNoWhitespace(s: string)
    requires forall i :: 0 <= i < |s| ==> !IsJsWhitespace(s[i])
    ensures Trim(s) == s
  {
    assert TrimStart(s) == s;
  }

  /** The trimmed string is the slice of the string between its leading and trailing whitespace. */
  lemma TrimIsSlice(s: string)
    ensures var a := |s| - |TrimStart(s)|;
      a + |Trim(s)| <= |s| && Trim(s) == s[a..a + |Trim(s)|]
  {
    var t := TrimStart(s);
    SliceOfSlice(s, |s| - |t|, |TrimEnd(t)|);
  }

  /** A prefix of a suffix is a slice. */
  lemma SliceOfSlice<T>(s: seq<T>, a: nat, k: nat)
    requires a + k <= |s|
    ensures s[a..][..k] == s[a..a + k]
  {
  }

  /** Whether a string holds no lower-case ASCII letter. */
  predicate NoLower(s: string) {
    forall i :: 0 <= i < |s| ==> !('a' <= s[i] <= 'z')
  }

  /** An upper-cased string holds no lower-case ASCII letter. */
  lemma UpperHasNoLower(s: string)
    ensures NoLower(ToUpper(s))
  {
  }

  /** A slice of a string without lower-case letters has none either. */
  lemma SliceHasNoLower(s: string, a: nat, b: nat)
    requires NoLower(s) && a <= b <= |s|
    ensures NoLower(s[a..b])
  {
    forall i | 0 <= i < b - a
      ensures !('a' <= s[a..b][i] <= 'z')
    {
      assert s[a..b][i] == s[a + i];
    }
  }

  /** No character of an upper-cased, trimmed key is a lower-case ASCII letter. */
  lemma TrimmedUpperHasNoLower(valueKey: string)
    ensures NoLower(Trim(ToUpper(valueKey)))
  {
    var u := ToUpper(valueKey);
    UpperHasNoLower(valueKey);
    TrimIsSlice(u);
    var a := |u| - |TrimStart(u)|;
    SliceHasNoLower(u, a, a + |Trim(u)|);
  }

  /** Upper-casing a string without lower-case letters changes nothing. */
  lemma UpperKeepsNoLower(s: string)
    requires NoLower(s)
    ensures ToUpper(s) == s
  {
    assert forall i :: 0 <= i < |s| ==> UpperChar(s[i]) == s[i];
  }

  /** Replacing "-" and whitespace changes nothing in a string that holds neither. */
  lemma UnderscoredKeepsClean(s: string)
    requires forall i :: 0 <= i < |s| ==> s[i] != '-' && !IsJsWhitespace(s[i])
    ensures Underscored(s) == s
  {
  }

  /** A derived name holds no lower-case letter. */
  lemma EnvVarNameNoLower(valueKey: string)
    ensures NoLower(EnvVarName(valueKey))
  {
    var t := Trim(ToUpper(valueKey));
    var n := EnvVarName(valueKey);
    TrimmedUpperHasNoLower(valueKey);
    EnvVarNameShape(valueKey);
    forall i | 0 <= i < |n|
      ensures !('a' <= n[i] <= 'z')
    {
      assert n[i] == '_' || n[i] == t[i];
    }
  }

  /** Deriving the name twice changes nothing: a derived name is its own derivation. */
  lemma EnvVarNameIdempotent(valueKey: string)
    ensures EnvVarName(EnvVarName(valueKey)) == EnvVarName(valueKey)
  {
    var n := EnvVarName(valueKey);
    EnvVarNameNoLower(valueKey);
    EnvVarNameShape(valueKey);
    UpperKeepsNoLower(n);
    TrimNoWhitespace(n);
    UnderscoredKeepsClean(n);
    assert Trim(ToUpper(n)) == n;
  }

  /** The key "jwt-secret" is looked up as the environment variable "JWT_SECRET". */
  lemma JwtSecretEnvVarName()
    ensures EnvVarName("jwt-secret") == "JWT_SECRET"
  {
    var u := ToUpper("jwt-secret");
    assert u == "JWT-SECRET";
    TrimNoWhitespace(u);
    assert Underscored(u) == "JWT_SECRET";
  }

  // ---------------------------------------------------------------------
  // The two caches

  /** A secret file's content: text, or raw bytes (a `Buffer`). */
  datatype SecretContent = Text(text: string) | Bytes(bytes: seq<bv8>)

  /**
   * The outside world of the secret helpers: reading the named file of the
   * secret directory as text or as bytes, and `JSON.parse`.
   */
  datatype SecretIo = SecretIo(
    readText: string -> Result<string, JsError>,
    readBytes: string -> Result<seq<bv8>, JsError>,
    parse: SecretContent -> Result<Json, JsError>)

  /** Reading a secret file in the requested form. */
  function ReadSecretFile(name: string, readAsText: bool, io: SecretIo): Result<SecretContent, JsError> {
    if readAsText then
      match io.readText(name)
      case Success(t) => Success(Text(t))
      case Failure(e) => Failure(e)
    else
      match io.readBytes(name)
      case Success(b) => Success(Bytes(b))
      case Failure(e) => Failure(e)
  }

  /**
   * A text read yields text and a bytes read yields bytes; a read succeeds
   * exactly when the file read does, with its content, and otherwise fails
   * with its error.
   */
  lemma ReadSecretFileForm(name: string, readAsText: bool, io: SecretIo)
    ensures var r := ReadSecretFile(name, readAsText, io);
      && (readAsText ==> (r.Success? <==> io.readText(name).Success?))
      && (!readAsText ==> (r.Success? <==> io.readBytes(name).Success?))
      && (r.Success? ==> (r.value.Text? <==> readAsText))
      && (r.Success? && readAsText ==> io.readText(name) == Success(r.value.text))
      && (r.Success? && !readAsText ==> io.readBytes(name) == Success(r.value.bytes))
      && (r.Failure? && readAsText ==> io.readText(name) == Failure(r.error))
      && (r.Failure? && !readAsText ==> io.readBytes(name) == Failure(r.error))
  {
  }

  /** What one `getSecret` call leaves in the cache, what it returns, and whether it read the file. */
  datatype SecretOutcome = SecretOutcome(cache: map<string, SecretContent>, result: Result<SecretContent, JsError>, read: bool)

  /**
   * `getSecret`: a cached secret is returned without reading; otherwise the
   * file is read, cached and returned, and a failed read throws with the
   * cache unchanged.
   */
  function SecretLookup(cache: map<string, SecretContent>, name: string, readAsText: bool, io: SecretIo): (r: SecretOutcome)
    ensures name in cache ==> r == SecretOutcome(cache, Success(cache[name]), false)
    ensures name !in cache ==> r.read && r.result == ReadSecretFile(name, readAsText, io)
    ensures r.result.Success? ==> name in r.cache && r.cache[name] == r.result.value
    ensures r.result.Failure? ==> r.cache == cache
    ensures forall k :: k in cache ==> k in r.cache && r.cache[k] == cache[k]
    ensures forall k :: k in r.cache ==> k in cache || k == name
  {
    if name in cache then SecretOutcome(cache, Success(cache[name]), false)
    else
      match ReadSecretFile(name, readAsText, io)
      case Success(content) => SecretOutcome(cache[name := content], Success(content), true)
      case Failure(e) => SecretOutcome(cache, Failure(e), true)
  }

  /** The error thrown when a parsed secret is falsy. */
  function FalsySecretError(secretName: string, valueKey: string): JsError {
    PlainError("Failed to read secret key " + valueKey + " from secret: " + secretName)
  }

  /** What one `getSecretValue` call leaves in both caches, what it returns, and whether it read a file. */
  datatype ValueOutcome = ValueOutcome(
    secrets: map<string, SecretContent>,
    values: map<string, Json>,
    result: Result<Option<Json>, JsError>,
    read: bool)

  /**
   * The first use of a secret by `getSecretValue`: read it (as text) through
   * `getSecret`, parse it, reject a falsy result, and cache it; the value is
   * the secret's property named by the key.
   */
  function LoadSecretValue(
    secrets: map<string, SecretContent>, values: map<string, Json>,
    secretName: string, valueKey: string, io: SecretIo): (r: ValueOutcome)
    requires secretName !in values
    ensures r.result.Success? <==> secretName in r.values
    ensures r.result.Failure? ==> r.values == values
    ensures r.result.Success? ==>
      secretName in r.values
      && r.values == values[secretName := r.values[secretName]] && Truthy(r.values[secretName])
      && r.result.value == Property(r.values[secretName], valueKey)
    ensures forall k :: k in secrets ==> k in r.secrets && r.secrets[k] == secrets[k]
    ensures r.read <==> secretName !in secrets
  {
    var s := SecretLookup(secrets, secretName, true, io);
    match s.result
    case Failure(e) => ValueOutcome(s.cache, values, Failure(e), s.read)
    case Success(content) =>
      match io.parse(content)
      case Failure(e) => ValueOutcome(s.cache, values, Failure(e), s.read)
      case Success(data) =>
        if !Truthy(data) then ValueOutcome(s.cache, values, Failure(FalsySecretError(secretName, valueKey)), s.read)
        else
          assert secretName in values[secretName := data];
          ValueOutcome(s.cache, values[secretName := data], Success(Property(data, valueKey)), s.read)
  }

  /**
   * How the first use of a secret ends: the secret is fetched through
   * `getSecret` (as text), and its read error, its parse error, or the
   * falsy-secret error is thrown; a truthy parsed secret is cached and
   * answers the key.
   */
  lemma LoadSecretValueOutcome(
    secrets: map<string, SecretContent>, values: map<string, Json>,
    secretName: string, valueKey: string, io: SecretIo)
    requires secretName !in values
    ensures var r := LoadSecretValue(secrets, values, secretName, valueKey, io);
      var s := SecretLookup(secrets, secretName, true, io);
      && r.secrets == s.cache && r.read == s.read
      && (s.result.Failure? ==> r.result == Failure(s.result.error))
      && (s.result.Success? && io.parse(s.result.value).Failure? ==>
            r.result == Failure(io.parse(s.result.value).error))
      && (s.result.Success? && io.parse(s.result.value).Success? && !Truthy(io.parse(s.result.value).value) ==>
            r.result == Failure(FalsySecretError(secretName, valueKey)))
      && (s.result.Success? && io.parse(s.result.value).Success? && Truthy(io.parse(s.result.value).value) ==>
            var data := io.parse(s.result.value).value;
            r.values == values[secretName := data] && r.result == Success(Property(data, valueKey)))
  {
  }

  /**
   * `getSecretValue`: the environment variable, when looked up and defined,
   * wins; otherwise the parsed secret is taken from its cache or, the first
   * time, loaded.
   */
  function SecretValueLookup(
    secrets: map<string, SecretContent>, values: map<string, Json>,
    secretName: string, valueKey: string, lookUpEnvVar: bool,
    env: map<string, string>, io: SecretIo): (r: ValueOutcome)
    ensures lookUpEnvVar && EnvVarName(valueKey) in env ==>
      r == ValueOutcome(secrets, values, Success(Some(JString(env[EnvVarName(valueKey)]))), false)
    ensures !(lookUpEnvVar && EnvVarName(valueKey) in env) && secretName in values ==>
      r == ValueOutcome(secrets, values, Success(Property(values[secretName], valueKey)), false)
    ensures !(lookUpEnvVar && EnvVarName(valueKey) in env) && secretName !in values ==>
      r == LoadSecretValue(secrets, values, secretName, valueKey, io)
  {
    var envVar := EnvVarName(valueKey);
    if lookUpEnvVar && envVar in env then
      ValueOutcome(secrets, values, Success(Some(JString(env[envVar]))), false)
    else if secretName in values then
      ValueOutcome(secrets, values, Success(Property(values[secretName], valueKey)), false)
    else
      LoadSecretValue(secrets, values, secretName, valueKey, io)
  }

  /**
   * Once a secret is parsed and cached, it is never read, parsed or
   * replaced again: every later call that does not find an environment
   * variable answers from the cache, for any key.
   */
  lemma SecretValueMemoised(
    secrets: map<string, SecretContent>, values: map<string, Json>,
    secretName: string, valueKey: string, lookUpEnvVar: bool, env: map<string, string>, io: SecretIo,
    valueKey2: string, lookUpEnvVar2: bool, env2: map<string, string>, io2: SecretIo)
    requires !(lookUpEnvVar && EnvVarName(valueKey) in env)
    ensures var r := SecretValueLookup(secrets, values, secretName, valueKey, lookUpEnvVar, env, io);
      r.result.Success? ==>
        && secretName in r.values
        && (!(lookUpEnvVar2 && EnvVarName(valueKey2) in env2) ==>
              SecretValueLookup(r.secrets, r.values, secretName, valueKey2, lookUpEnvVar2, env2, io2)
                == ValueOutcome(r.secrets, r.values, Success(Property(r.values[secretName], valueKey2)), false))
  {
    var r := SecretValueLookup(secrets, values, secretName, valueKey, lookUpEnvVar, env, io);
    if r.result.Success? && secretName !in values {
      assert r == LoadSecretValue(secrets, values, secretName, valueKey, io);
      assert secretName in r.values;
    }
  }

  /**
   * A value lookup only ever adds the secret it was asked for, and only
   * with a truthy parsed secret; a failure changes no value; a file is read
   * only when the secret was in neither cache.
   */
  lemma SecretValueCacheGrows(
    secrets: map<string, SecretContent>, values: map<string, Json>,
    secretName: string, valueKey: string, lookUpEnvVar: bool, env: map<string, string>, io: SecretIo)
    ensures var r := SecretValueLookup(secrets, values, secretName, valueKey, lookUpEnvVar, env, io);
      && (forall k :: k in values ==> k in r.values && r.values[k] == values[k])
      && (forall k :: k in r.values ==> k in values || k == secretName)
      && (secretName !in values && secretName in r.values ==>
            Truthy(r.values[secretName]) && r.result == Success(Property(r.values[secretName], valueKey)))
      && (r.result.Failure? ==> r.values == values)
      && (forall k :: k in secrets ==> k in r.secrets && r.secrets[k] == secrets[k])
      && (r.read ==> secretName !in secrets && secretName !in values)
  {
    var r := SecretValueLookup(secrets, values, secretName, valueKey, lookUpEnvVar, env, io);
    if !(lookUpEnvVar && EnvVarName(valueKey) in env) && secretName !in values {
      assert r == LoadSecretValue(secrets, values, secretName, valueKey, io);
      if r.result.Success? {
        assert r.values == values[secretName := r.values[secretName]];
      }
    }
  }

  /**
   * The memo caches of `getSecret` and `getSecretValue`, shared by every
   * caller, with a log of the secret files read.
   */
  class SecretStore {
    var secretCache: map<string, SecretContent>
    var secretValueCache: map<string, Json>
    var fileReads: seq<string>

    /** Both caches start empty. */
    constructor ()
      ensures secretCache == map[] && secretValueCache == map[] && fileReads == []
    {
      secretCache := map[];
      secretValueCache := map[];
      fileReads := [];
    }

    /** `getSecret`. */
    method GetSecret(name: string, readAsText: bool, io: SecretIo) returns (r: Result<SecretContent, JsError>)
      modifies this
      ensures var o := SecretLookup(old(secretCache), name, readAsText, io);
        secretCache == o.cache && r == o.result && fileReads == old(fileReads) + (if o.read then [name] else [])
      ensures secretValueCache == old(secretValueCache)
    {
      if name !in secretCache {
        fileReads := fileReads + [name];
        var content := ReadSecretFile(name, readAsText, io);
        if content.Failure? {
          return Failure(content.error);
        }
        secretCache := secretCache[name := content.value];
      }
      return Success(secretCache[name]);
    }

    /** `getSecretValue`. */
    method GetSecretValue(secretName: string, valueKey: string, lookUpEnvVar: bool, env: map<string, string>, io: SecretIo)
      returns (r: Result<Option<Json>, JsError>)
      modifies this
      ensures var o := SecretValueLookup(old(secretCache), old(secretValueCache), secretName, valueKey, lookUpEnvVar, env, io);
        && secretCache == o.secrets && secretValueCache == o.values && r == o.result
        && fileReads == old(fileReads) + (if o.read then [secretName] else [])
    {
      var envVar := EnvVarName(valueKey);
      if lookUpEnvVar && envVar in env {
        return Success(Some(JString(env[envVar])));
      }
      if secretName !in secretValueCache {
        r := LoadValue(secretName, valueKey, io);
        return;
      }
      return Success(Property(secretValueCache[secretName], valueKey));
    }

    /** The branch of `getSecretValue` that reads, parses and caches a secret seen for the first time. */
    method LoadValue(secretName: string, valueKey: string, io: SecretIo) returns (r: Result<Option<Json>, JsError>)
      requires secretName !in secretValueCache
      modifies this
      ensures var o := LoadSecretValue(old(secretCache), old(secretValueCache), secretName, valueKey, io);
        && secretCache == o.secrets && secretValueCache == o.values && r == o.result
        && fileReads == old(fileReads) + (if o.read then [secretName] else [])
    {
      var content := GetSecret(secretName, true, io);
      if content.Failure? {
        return Failure(content.error);
      }
      var data := io.parse(content.value);
      if data.Failure? {
        return Failure(data.error);
      }
      if !Truthy(data.value) {
        return Failure(FalsySecretError(secretName, valueKey));
      }
      secretValueCache := secretValueCache[secretName := data.value];
      return Success(Property(secretValueCache[secretName], valueKey));
    }
  }
}

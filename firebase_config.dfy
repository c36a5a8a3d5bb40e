/**
 * The store configuration read from the environment, and the check that
 * refuses to start in production when one of the six required keys is
 * missing or empty. The analytics key is optional.
 */
module FirebaseConfig {
  import opened Optional

  datatype ConfigKey = ApiKey | AuthDomain | ProjectId | StorageBucket | MessagingSenderId | AppId | MeasurementId

  /** The environment as the configuration object sees it: a key that is absent is `undefined`. */
  type Env = map<ConfigKey, string>

  /** The keys `validateConfig` requires, in the order it lists them. */
  const RequiredKeys: seq<ConfigKey> := [ApiKey, AuthDomain, ProjectId, StorageBucket, MessagingSenderId, AppId]

  /** The text a missing key is reported by. */
  const IncompletePrefix: string := "Firebase configuration is incomplete. Missing: "

  /** The configuration object's property name for a key. */
  function KeyName(k: ConfigKey): (s: string)
    ensures s != [] && ',' !in s
  {
    match k
    case ApiKey => "apiKey"
    case AuthDomain => "authDomain"
    case ProjectId => "projectId"
    case StorageBucket => "storageBucket"
    case MessagingSenderId => "messagingSenderId"
    case AppId => "appId"
    case MeasurementId => "measurementId"
  }

  /** Distinct keys have distinct names, so a report names each key unambiguously. */
  lemma KeyNameInjective(a: ConfigKey, b: ConfigKey)
    ensures KeyName(a) == KeyName(b) ==> a == b
  {
  }

  /** A key is set when its value is truthy: present and not the empty string. */
  predicate IsSet(env: Env, k: ConfigKey) {
    k in env && env[k] != []
  }

  /** `keys.filter((key) => !firebaseConfig[key])`. */
  function Unset(keys: seq<ConfigKey>, env: Env): (r: seq<ConfigKey>)
    ensures |r| <= |keys|
    ensures forall k :: k in r <==> k in keys && !IsSet(env, k)
  {
    if keys == [] then []
    else if IsSet(env, keys[0]) then Unset(keys[1..], env)
    else [keys[0]] + Unset(keys[1..], env)
  }

  /** The position of a required key in the list; the analytics key comes after all of them. */
  function Rank(k: ConfigKey): nat {
    match k
    case ApiKey => 0
    case AuthDomain => 1
    case ProjectId => 2
    case StorageBucket => 3
    case MessagingSenderId => 4
    case AppId => 5
    case MeasurementId => 6
  }

  /** Each required key's rank is its position in the list, and only the analytics key lies beyond it. */
  lemma RankIsPosition()
    ensures forall i :: 0 <= i < |RequiredKeys| ==> Rank(RequiredKeys[i]) == i
    ensures forall k :: k in RequiredKeys <==> Rank(k) < |RequiredKeys|
    ensures Increasing(RequiredKeys)
  {
  }

  /** `missingKeys`: the required keys whose values are falsy. */
  function MissingKeys(env: Env): (r: seq<ConfigKey>)
    ensures forall k :: k in r <==> k in RequiredKeys && !IsSet(env, k)
    ensures MeasurementId !in r
  {
    Unset(RequiredKeys, env)
  }

  /** Keys in strictly increasing list position, so without repeats. */
  predicate Increasing(keys: seq<ConfigKey>) {
    forall a, b :: 0 <= a < b < |keys| ==> Rank(keys[a]) < Rank(keys[b])
  }

  /** Filtering keeps keys in the order they were given. */
  lemma {:induction false} UnsetIncreasing(keys: seq<ConfigKey>, env: Env)
    requires Increasing(keys)
    ensures Increasing(Unset(keys, env))
    decreases |keys|
  {
    if keys != [] {
      var tail := keys[1..];
      forall a, b | 0 <= a < b < |tail|
        ensures Rank(tail[a]) < Rank(tail[b])
      {
        assert tail[a] == keys[a + 1] && tail[b] == keys[b + 1];
      }
      UnsetIncreasing(tail, env);
      var rest := Unset(tail, env);
      if !IsSet(env, keys[0]) {
        var r := [keys[0]] + rest;
        forall a, b | 0 <= a < b < |r|
          ensures Rank(r[a]) < Rank(r[b])
        {
          assert r[b] == rest[b - 1] && r[b] in rest;
          if a > 0 {
            assert r[a] == rest[a - 1];
          } else {
            var j :| 0 <= j < |tail| && tail[j] == r[b];
            assert keys[j + 1] == r[b];
          }
        }
      }
    }
  }

  /** The missing keys are reported in the order the required list gives them, without repeats. */
  lemma MissingKeysOrdered(env: Env)
    ensures Increasing(MissingKeys(env))
  {
    RankIsPosition();
    UnsetIncreasing(RequiredKeys, env);
  }

  /** `join(", ")`. */
  function Join(parts: seq<string>): (s: string)
    ensures parts == [] ==> s == []
    ensures |parts| == 1 ==> s == parts[0]
  {
    if parts == [] then []
    else if |parts| == 1 then parts[0]
    else parts[0] + ", " + Join(parts[1..])
  }

  /** Cutting a text at each ", ": the inverse of `Join` for parts without commas. */
  function Split(s: string): (parts: seq<string>)
    ensures parts != []
    decreases |s|
  {
    if s == [] then [[]]
    else if |s| >= 2 && s[0] == ',' && s[1] == ' ' then [[]] + Split(s[2..])
    else
      var rest := Split(s[1..]);
      [[s[0]] + rest[0]] + rest[1..]
  }

  /** A comma-free text in front of the rest becomes the front of the first part. */
  lemma {:induction false} SplitPrefix(p: string, s: string)
    requires ',' !in p
    ensures Split(p + s) == [p + Split(s)[0]] + Split(s)[1..]
    decreases |p|
  {
    if p == [] {
      assert p + s == s;
      assert p + Split(s)[0] == Split(s)[0];
      assert Split(s) == [Split(s)[0]] + Split(s)[1..];
    } else {
      assert (p + s)[1..] == p[1..] + s;
      assert p[0] in p;
      assert (p + s)[0] == p[0] != ',';
      SplitPrefix(p[1..], s);
      var rest := Split(p[1..] + s);
      assert Split(p + s) == [[p[0]] + rest[0]] + rest[1..];
      assert [p[0]] + (p[1..] + Split(s)[0]) == p + Split(s)[0];
    }
  }

  /** Splitting the joined names gives the names back. */
  lemma {:induction false} SplitJoin(parts: seq<string>)
    requires parts != []
    requires forall i :: 0 <= i < |parts| ==> ',' !in parts[i]
    ensures Split(Join(parts)) == parts
    decreases |parts|
  {
    if |parts| == 1 {
      SplitPrefix(parts[0], []);
      assert parts[0] + [] == parts[0];
    } else {
      var tail := Join(parts[1..]);
      SplitJoin(parts[1..]);
      var sep := ", " + tail;
      assert Join(parts) == parts[0] + sep;
      assert sep[0] == ',' && sep[1] == ' ' && sep[2..] == tail;
      assert Split(sep) == [[]] + parts[1..];
      SplitPrefix(parts[0], sep);
      assert parts[0] + [] == parts[0];
      assert parts == [parts[0]] + parts[1..];
    }
  }

  /** The names of some keys, in the same order. */
  function Names(keys: seq<ConfigKey>): (r: seq<string>)
    ensures |r| == |keys|
    ensures forall i :: 0 <= i < |keys| ==> r[i] == KeyName(keys[i])
  {
    if keys == [] then [] else [KeyName(keys[0])] + Names(keys[1..])
  }

  /** `validateConfig`: None when it returns, Some(message) when it throws. */
  function ValidateConfig(env: Env): (r: Option<string>)
    ensures r.None? <==> forall k :: k in RequiredKeys ==> IsSet(env, k)
    ensures r.Some? ==> |r.value| > |IncompletePrefix| && r.value[..|IncompletePrefix|] == IncompletePrefix
  {
    var missing := MissingKeys(env);
    if |missing| > 0 then
      assert missing[0] in missing;
      Some(IncompletePrefix + Join(Names(missing)))
    else None
  }

  /** The message of a failed check names exactly the missing keys, in list order. */
  lemma MessageNamesMissing(env: Env)
    requires ValidateConfig(env).Some?
    ensures Split(ValidateConfig(env).value[|IncompletePrefix|..]) == Names(MissingKeys(env))
  {
    var names := Names(MissingKeys(env));
    assert ValidateConfig(env).value[|IncompletePrefix|..] == Join(names);
    SplitJoin(names);
  }

  /** The module's start-up: the check runs only in production. */
  function StartUp(production: bool, env: Env): (r: Option<string>)
    ensures r.Some? <==> production && exists k :: k in RequiredKeys && !IsSet(env, k)
    ensures !production ==> r.None?
  {
    if production then ValidateConfig(env) else None
  }
}

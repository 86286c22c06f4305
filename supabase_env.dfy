/** The database configuration (lib/supabase.ts): where the URL and the
    anonymous key are looked up, when a client exists, and which variables
    the start-up report names as missing. The three places a build can put
    variables are parameters; creating the client is left to the library. */
module SupabaseEnv {
  import opened Common
  import opened Text

  /** One place variables may come from: `import.meta.env`,
      `process.env` or `window.env`. */
  datatype EnvSource =
    | Undefined                        // the place or its `env` is missing
    | Vars(env: map<string, string>)   // the variables it holds
    | Throws                           // touching it throws

  const UrlName: string := "SUPABASE_URL"
  const KeyName: string := "SUPABASE_ANON_KEY"
  const UrlVariable: string := "VITE_SUPABASE_URL"
  const KeyVariable: string := "VITE_SUPABASE_ANON_KEY"

  /** `` `VITE_${name}` `` */
  function ViteName(name: string): string {
    "VITE_" + name
  }

  /** `env[key]` */
  function Read(env: map<string, string>, key: string): Option<string> {
    if key in env then Some(env[key]) else None
  }

  /** `getEnvVar(name)`: each place in turn, the `VITE_` name before the bare
      one, the first non-empty value wins; a place that throws ends the
      search with `""`, as does finding nothing. */
  function GetEnvVar(meta: EnvSource, process: EnvSource, window: EnvSource, name: string): (v: string)
    ensures v != "" ==>
      exists src :: src in [meta, process, window] && src.Vars? &&
        (Read(src.env, ViteName(name)) == Some(v) || Read(src.env, name) == Some(v))
  {
    var viteName := ViteName(name);
    if meta.Throws? then ""
    else if meta.Vars? && Truthy(Read(meta.env, viteName)) then meta.env[viteName]
    else if meta.Vars? && Truthy(Read(meta.env, name)) then meta.env[name]
    else if process.Throws? then ""
    else if process.Vars? && Truthy(Read(process.env, viteName)) then process.env[viteName]
    else if process.Vars? && Truthy(Read(process.env, name)) then process.env[name]
    else if window.Throws? then ""
    else if window.Vars? && Truthy(Read(window.env, viteName)) then window.env[viteName]
    else if window.Vars? && Truthy(Read(window.env, name)) then window.env[name]
    else ""
  }

  // ----- a reference reading of the lookup order -----

  /** The first non-empty value among `keys` in one place. */
  function FirstValue(env: map<string, string>, keys: seq<string>): (v: Option<string>)
    ensures v.Some? ==> v.value != "" && exists k :: k in keys && Read(env, k) == v
    ensures v.Some? ==> exists j :: 0 <= j < |keys| && Read(env, keys[j]) == v
                         && forall i :: 0 <= i < j ==> !Truthy(Read(env, keys[i]))
    ensures v.None? ==> forall k :: k in keys ==> !Truthy(Read(env, k))
  {
    if keys == [] then None
    else if Truthy(Read(env, keys[0])) then Read(env, keys[0])
    else FirstValue(env, keys[1..])
  }

  /** Searching the places in order: a throwing place stops the search. */
  function Search(sources: seq<EnvSource>, keys: seq<string>): string {
    if sources == [] then ""
    else match sources[0]
      case Throws => ""
      case Undefined => Search(sources[1..], keys)
      case Vars(env) =>
        var found := FirstValue(env, keys);
        if found.Some? then found.value else Search(sources[1..], keys)
  }

  /** With two names, the first non-empty one of the pair. */
  lemma FirstValueOfTwo(env: map<string, string>, a: string, b: string)
    ensures FirstValue(env, [a, b]) ==
      if Truthy(Read(env, a)) then Read(env, a)
      else if Truthy(Read(env, b)) then Read(env, b)
      else None
  {
    assert [a, b][1..] == [b] && [b][1..] == [];
  }

  /** The chain of early returns is the ordered search over the three
      places with the `VITE_` name first. */
  lemma GetEnvVarIsSearch(meta: EnvSource, process: EnvSource, window: EnvSource, name: string)
    ensures GetEnvVar(meta, process, window, name) == Search([meta, process, window], [ViteName(name), name])
  {
    var keys := [ViteName(name), name];
    assert [meta, process, window][1..] == [process, window];
    assert [process, window][1..] == [window];
    assert [window][1..] == [];
    SearchStep(window, [], keys, name);
    SearchStep(process, [window], keys, name);
    SearchStep(meta, [process, window], keys, name);
  }

  /** One place of the search, with the `VITE_` name and the bare name. */
  lemma SearchStep(src: EnvSource, rest: seq<EnvSource>, keys: seq<string>, name: string)
    requires keys == [ViteName(name), name]
    ensures Search([src] + rest, keys) ==
      if src.Throws? then ""
      else if src.Vars? && Truthy(Read(src.env, ViteName(name))) then src.env[ViteName(name)]
      else if src.Vars? && Truthy(Read(src.env, name)) then src.env[name]
      else Search(rest, keys)
  {
    assert ([src] + rest)[0] == src && ([src] + rest)[1..] == rest;
    if src.Vars? {
      FirstValueOfTwo(src.env, ViteName(name), name);
    }
  }

  /** Within a place, a non-empty `VITE_` value beats the bare name. */
  lemma ViteNameFirst(env: map<string, string>, process: EnvSource, window: EnvSource, name: string)
    requires Truthy(Read(env, ViteName(name)))
    ensures GetEnvVar(Vars(env), process, window, name) == env[ViteName(name)]
  {
  }

  /** A place found earlier beats every later place. */
  lemma EarlierPlaceWins(meta: EnvSource, process: EnvSource, window: EnvSource, name: string)
    requires meta.Vars? && FirstValue(meta.env, [ViteName(name), name]).Some?
    ensures GetEnvVar(meta, process, window, name) == FirstValue(meta.env, [ViteName(name), name]).value
  {
    GetEnvVarIsSearch(meta, process, window, name);
  }

  /** An empty value counts as no value at all. */
  lemma EmptyValueSkipped(env: map<string, string>, process: EnvSource, window: EnvSource, name: string, key: string)
    requires key in env && env[key] == ""
    ensures GetEnvVar(Vars(env), process, window, name) == GetEnvVar(Vars(env - {key}), process, window, name)
  {
    assert Read(env, key) == Some("") && Read(env - {key}, key) == None;
    forall k | k != key
      ensures Read(env, k) == Read(env - {key}, k)
    {
    }
  }

  /** Nothing found, or the first place throwing, gives the empty string. */
  lemma NotFoundIsEmpty(meta: EnvSource, process: EnvSource, window: EnvSource, name: string)
    requires meta.Throws? || forall src :: src in [meta, process, window] && src.Vars? ==>
      !Truthy(Read(src.env, ViteName(name))) && !Truthy(Read(src.env, name))
    ensures GetEnvVar(meta, process, window, name) == ""
  {
    if !meta.Throws? {
      assert meta in [meta, process, window];
      assert process in [meta, process, window];
      assert window in [meta, process, window];
    }
  }

  // ----- the client and the report -----

  /** `supabaseUrl && supabaseAnonKey`: a client is created exactly when
      both values are non-empty. */
  predicate ClientPresent(url: string, key: string) {
    url != "" && key != ""
  }

  /** Whether the module ends up with a client, from the three places. */
  predicate Configured(meta: EnvSource, process: EnvSource, window: EnvSource) {
    ClientPresent(GetEnvVar(meta, process, window, UrlName), GetEnvVar(meta, process, window, KeyName))
  }

  /** `missing`, built when there is no client: the URL variable and then
      the key variable, each exactly when its value is empty. */
  method MissingVariables(url: string, key: string) returns (missing: seq<string>)
    requires !ClientPresent(url, key)
    ensures missing != []
    ensures UrlVariable in missing <==> url == ""
    ensures KeyVariable in missing <==> key == ""
    ensures |missing| <= 2 && (|missing| == 2 ==> missing == [UrlVariable, KeyVariable])
  {
    missing := [];
    if url == "" {
      missing := missing + [UrlVariable];
    }
    if key == "" {
      missing := missing + [KeyVariable];
    }
  }
}

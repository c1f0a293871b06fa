/** The named environments of the configuration file (cautils/utils.py):
    a JSON object from environment name to an object holding its url,
    username and password. Reading and writing the file, and the prompts,
    are outside this model; the loaded object is the state. */
module EnvConfig {
  import opened Base
  import opened Text

  /** One environment: its string fields by key. */
  type Env = map<string, string>

  datatype Creds = Creds(url: string, username: string, password: string)

  datatype EnvError =
    | KeyError(key: string)
    | BadParameter(message: string)

  /** The loaded configuration: the environment names in the order the
      object holds them, and each environment by name. */
  datatype Config = Config(names: seq<string>, entries: map<string, Env>)

  /** Every name once, and exactly the names that have an entry. */
  predicate Valid(c: Config)
  {
    (forall i, j :: 0 <= i < j < |c.names| ==> c.names[i] != c.names[j])
    && (forall n :: n in c.names ==> n in c.entries)
    && (forall n :: n in c.entries ==> n in c.names)
  }

  /** The object create_env stores. */
  function NewEnv(url: string, username: string, passwd: string): Env
  {
    map["url" := url, "username" := username, "password" := passwd]
  }

  /** create_env: the entry for `name` is replaced by a fresh environment; a
      new name goes last, an existing one keeps its place. */
  function Created(c: Config, name: string, url: string, username: string, passwd: string): (r: Config)
    ensures Valid(c) ==> Valid(r)
    ensures r.entries.Keys == c.entries.Keys + {name}
    ensures r.entries[name].Keys == {"url", "username", "password"}
    ensures r.entries[name] == NewEnv(url, username, passwd)
    ensures forall n :: n in c.entries && n != name ==> r.entries[n] == c.entries[n]
    ensures Valid(c) ==> c.names <= r.names
  {
    var names := if name in c.entries then c.names else c.names + [name];
    Config(names, c.entries[name := NewEnv(url, username, passwd)])
  }

  /** update_credentials: `envs[name] |= kwargs` -- the given keys of an
      existing environment take the new values, its other keys stay; a
      missing name is a KeyError. */
  function Updated(c: Config, name: string, kwargs: map<string, string>): (r: Result<Config, EnvError>)
    ensures r.Err? <==> name !in c.entries
    ensures r.Err? ==> r.error == KeyError(name)
    ensures r.Ok? ==>
      r.value.names == c.names
      && r.value.entries.Keys == c.entries.Keys
      && r.value.entries[name].Keys == c.entries[name].Keys + kwargs.Keys
      && (forall k :: k in kwargs ==> r.value.entries[name][k] == kwargs[k])
      && (forall k :: k in c.entries[name] && k !in kwargs ==>
            r.value.entries[name][k] == c.entries[name][k])
      && (forall n :: n in c.entries && n != name ==> r.value.entries[n] == c.entries[n])
  {
    if name !in c.entries then Err(KeyError(name))
    else Ok(Config(c.names, c.entries[name := c.entries[name] + kwargs]))
  }

  /** The text of the error for an unknown environment name. The names can
      be read back from it, in order, provided there is one and none holds
      a comma. */
  function UnknownEnv(env: string, names: seq<string>): (r: string)
    ensures StartsWith(r, env + " is not one of: ")
    ensures r[|env| + 16..] == Join(",", names)
    ensures names != [] && (forall i :: 0 <= i < |names| ==> ',' !in names[i]) ==>
      Split(',', r[|env| + 16..]) == names
  {
    var r := env + " is not one of: " + Join(",", names);
    assert r[|env| + 16..] == Join(",", names);
    if names != [] && forall i :: 0 <= i < |names| ==> ',' !in names[i] then
      SplitJoin(',', names);
      r
    else
      r
  }

  /** The branch of get_env_creds taken when an environment name is given:
      an unknown name is a BadParameter listing the known names; otherwise
      the url, username and password of that environment, the first of
      them that is missing being a KeyError. */
  function Lookup(c: Config, env: string): (r: Result<Creds, EnvError>)
    requires env != ""
    ensures r.Ok? <==>
      env in c.entries && "url" in c.entries[env] && "username" in c.entries[env]
      && "password" in c.entries[env]
    ensures r.Ok? ==> r.value == Creds(c.entries[env]["url"], c.entries[env]["username"],
                                       c.entries[env]["password"])
    ensures env !in c.entries ==> r == Err(BadParameter(UnknownEnv(env, c.names)))
    ensures env in c.entries && r.Err? ==>
      r.error.KeyError? && r.error.key in {"url", "username", "password"} && r.error.key !in c.entries[env]
    ensures env in c.entries && "url" !in c.entries[env] ==> r == Err(KeyError("url"))
    ensures env in c.entries && "url" in c.entries[env] && "username" !in c.entries[env] ==>
      r == Err(KeyError("username"))
    ensures env in c.entries && "url" in c.entries[env] && "username" in c.entries[env] && "password" !in c.entries[env]
      ==> r == Err(KeyError("password"))
  {
    if env !in c.entries then Err(BadParameter(UnknownEnv(env, c.names)))
    else
      var data := c.entries[env];
      if "url" !in data then Err(KeyError("url"))
      else if "username" !in data then Err(KeyError("username"))
      else if "password" !in data then Err(KeyError("password"))
      else Ok(Creds(data["url"], data["username"], data["password"]))
  }

  /** Creating an environment and then looking it up gives back its
      credentials. */
  lemma LookupCreated(c: Config, name: string, url: string, username: string, passwd: string)
    requires name != ""
    ensures Lookup(Created(c, name, url, username, passwd), name) == Ok(Creds(url, username, passwd))
  {
    var data := NewEnv(url, username, passwd);
    assert "url" in data && "username" in data && "password" in data;
    assert data["url"] == url && data["username"] == username && data["password"] == passwd;
  }

  /** Creating an environment does not change the lookup of another one
      that already existed. */
  lemma LookupCreatedOther(c: Config, name: string, other: string,
                           url: string, username: string, passwd: string)
    requires other != "" && other != name && other in c.entries
    ensures Lookup(Created(c, name, url, username, passwd), other) == Lookup(c, other)
  {
    var r := Created(c, name, url, username, passwd);
    assert r.entries[other] == c.entries[other];
  }

  /** Updating some credentials of an environment changes exactly those in
      its lookup. */
  lemma LookupUpdated(c: Config, name: string, kwargs: map<string, string>)
    requires name != "" && name in c.entries && Lookup(c, name).Ok?
    ensures Updated(c, name, kwargs).Ok?
    ensures var old_ := Lookup(c, name).value;
      var k := kwargs;
      Lookup(Updated(c, name, kwargs).value, name) == Ok(Creds(
        if "url" in k then k["url"] else old_.url,
        if "username" in k then k["username"] else old_.username,
        if "password" in k then k["password"] else old_.password))
  {
    var data := c.entries[name] + kwargs;
    assert "url" in data && "username" in data && "password" in data;
  }

  /** The names listed in the error for an unknown environment are the
      known names, in order, provided none contains a comma. */
  lemma UnknownEnvLists(env: string, c: Config)
    requires env != "" && env !in c.entries && |c.names| > 0
    requires forall i :: 0 <= i < |c.names| ==> ',' !in c.names[i]
    ensures Lookup(c, env).Err? && Lookup(c, env).error.BadParameter?
    ensures var m := Lookup(c, env).error.message;
      StartsWith(m, env + " is not one of: ")
      && Split(',', m[|env| + 16..]) == c.names
  {
    SplitJoin(',', c.names);
  }

  /** The configuration object, updated in place. */
  class Envs {
    var names: seq<string>
    var entries: map<string, Env>

    function Model(): Config
      reads this
    {
      Config(names, entries)
    }

    constructor ()
      ensures Model() == Config([], map[])
    {
      names := [];
      entries := map[];
    }

    /** create_env: updates this object and returns it. */
    method CreateEnv(name: string, url: string, username: string, passwd: string) returns (r: Envs)
      modifies this
      ensures r == this
      ensures Model() == Created(old(Model()), name, url, username, passwd)
    {
      if name !in entries {
        names := names + [name];
      }
      entries := entries[name := NewEnv(url, username, passwd)];
      r := this;
    }

    /** update_credentials, on the loaded object: merges `kwargs` into the
      named environment, or fails with a KeyError and changes nothing. */
    method UpdateCredentials(name: string, kwargs: map<string, string>) returns (r: Result<Envs, EnvError>)
      modifies this
      ensures var u := Updated(old(Model()), name, kwargs);
        (r.Err? <==> u.Err?)
        && (u.Err? ==> r.error == u.error && Model() == old(Model()))
        && (u.Ok? ==> r.value == this && Model() == u.value)
    {
      if name !in entries {
        return Err(KeyError(name));
      }
      entries := entries[name := entries[name] + kwargs];
      r := Ok(this);
    }
  }
}

/** The process-wide Supabase client of `init.py`: created on first use from the
    `SUPABASE_URL` and `SUPABASE_ANON_KEY` environment variables and kept from then on. The
    environment is a parameter, and so is the library's `create_client`, which may fail. */
module ClientInit {
  import opened Wrappers
  import opened Json
  import opened Service

  /** The two environment variables read; `None` when unset. */
  datatype Env = Env(url: Option<string>, anonKey: Option<string>)

  /** A client made by `create_client`; `id` tells one creation from another. */
  datatype Client = Client(url: string, key: string, id: nat)

  /** What `create_client` does with a URL and a key. */
  datatype Creation = Created(client: Client) | CreationFailed(message: string)

  const URL_MISSING := "SUPABASE_URL is not set in environment variables"
  const ANON_KEY_MISSING := "SUPABASE_ANON_KEY is not set in environment variables"

  /** One call of `initialize_supabase` given the cached client: its result and the cache
      afterwards. */
  function Resolve(cached: Option<Client>, env: Env, create: (string, string) -> Creation): (out: (Result<Client, Error>, Option<Client>))
    ensures cached.Some? ==> out == (Ok(cached.value), cached)
    ensures cached.None? && !Given(env.url) ==> out == (Err(ValueError(URL_MISSING)), None)
    ensures cached.None? && Given(env.url) && !Given(env.anonKey) ==> out == (Err(ValueError(ANON_KEY_MISSING)), None)
    ensures cached.None? && Given(env.url) && Given(env.anonKey) ==>
      match create(env.url.value, env.anonKey.value)
      case Created(client) => out == (Ok(client), Some(client))
      case CreationFailed(message) => out == (Err(Raised(message)), None)
  {
    if cached.Some? then (Ok(cached.value), cached)
    else if !Given(env.url) then (Err(ValueError(URL_MISSING)), None)
    else if !Given(env.anonKey) then (Err(ValueError(ANON_KEY_MISSING)), None)
    else match create(env.url.value, env.anonKey.value)
      case Created(client) => (Ok(client), Some(client))
      case CreationFailed(message) => (Err(Raised(message)), None)
  }

  /** Once a call has produced a client, every later call returns that same client and
      leaves the cache alone, whatever the environment and `create_client` then do. */
  lemma {:induction false} ResolveIsIdempotent(cached: Option<Client>, env1: Env, create1: (string, string) -> Creation,
                                              env2: Env, create2: (string, string) -> Creation)
    requires Resolve(cached, env1, create1).0.Ok?
    ensures var (first, after) := Resolve(cached, env1, create1);
      Resolve(after, env2, create2) == (first, after)
  {
    var (first, after) := Resolve(cached, env1, create1);
    assert after == Some(first.value);
  }

  /** A call that fails leaves the cache as it found it, so the next call tries again. */
  lemma ResolveFailureCachesNothing(cached: Option<Client>, env: Env, create: (string, string) -> Creation)
    requires Resolve(cached, env, create).0.Err?
    ensures Resolve(cached, env, create).1 == cached == None
  {
  }

  /** A missing URL is reported before the key is looked at, and `create_client` is not
      consulted unless both are set. */
  lemma UrlIsCheckedFirst(env: Env, create1: (string, string) -> Creation, create2: (string, string) -> Creation, key: Option<string>)
    requires !Given(env.url)
    ensures Resolve(None, env, create1) == Resolve(None, env.(anonKey := key), create2)
  {
  }

  /** The module-level `_supabase_client`. */
  class ClientCache {
    var cached: Option<Client>

    constructor ()
      ensures cached.None?
    {
      cached := None;
    }

    /** `initialize_supabase`. */
    method Initialize(env: Env, create: (string, string) -> Creation) returns (r: Result<Client, Error>)
      modifies this
      ensures (r, cached) == Resolve(old(cached), env, create)
    {
      if cached.Some? {
        return Ok(cached.value);
      }
      if !Given(env.url) {
        return Err(ValueError(URL_MISSING));
      }
      if !Given(env.anonKey) {
        return Err(ValueError(ANON_KEY_MISSING));
      }
      var creation := create(env.url.value, env.anonKey.value);
      if creation.CreationFailed? {
        return Err(Raised(creation.message));
      }
      cached := Some(creation.client);
      return Ok(creation.client);
    }

    /** `get_supabase_client`: the cached client, or `initialize_supabase` when there is none. */
    method Get(env: Env, create: (string, string) -> Creation) returns (r: Result<Client, Error>)
      modifies this
      ensures (r, cached) == Resolve(old(cached), env, create)
    {
      if cached.None? {
        r := Initialize(env, create);
        return;
      }
      return Ok(cached.value);
    }
  }
}

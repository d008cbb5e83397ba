/** Credential lookup of tools/base.py.

    The ambient state it reads is passed in explicitly: `ctx` is the value
    of the `auth_token` context variable in the current context (`None`
    when it was never set, where Python's `get()` raises `LookupError`),
    and `env` is `os.getenv("BRAVE_API_KEY")`. */
module Base {
  import opened Wrappers

  /** A token `ContextVar.set` hands out; it names the assignment that
      `reset` undoes. */
  datatype Token = Token(id: nat)

  /** `auth_token_context`, the `ContextVar` holding the caller's
      credential, as the current context sees it: `value` is `None` while it
      has never been set, and `pending` maps each token not yet used to the
      value it restores. */
  class AuthTokenContext {
    var value: Option<string>
    var pending: map<nat, Option<string>>
    var next: nat

    /** Every outstanding token was handed out before `next`. */
    ghost predicate Valid()
      reads this
    {
      forall id :: id in pending ==> id < next
    }

    /** `ContextVar('auth_token')`: declared without a default, so unset. */
    constructor ()
      ensures Valid()
      ensures value == None && pending == map[]
    {
      value := None;
      pending := map[];
      next := 0;
    }

    /** `set(v)`: the variable now holds `v`; the token returned is new and
        remembers the value it replaced. */
    method Set(v: string) returns (t: Token)
      requires Valid()
      modifies this
      ensures Valid()
      ensures value == Some(v)
      ensures t.id !in old(pending)
      ensures pending == old(pending)[t.id := old(value)]
    {
      t := Token(next);
      pending := pending[next := value];
      value := Some(v);
      next := next + 1;
    }

    /** `reset(t)`: the variable holds again what it held before the `set`
        that produced `t`, and `t` is used up. Python raises on a token used
        twice; callers here never do that, which the precondition states. */
    method Reset(t: Token)
      requires Valid()
      requires t.id in pending
      modifies this
      ensures Valid()
      ensures value == old(pending)[t.id]
      ensures pending == old(pending) - {t.id}
      ensures next == old(next)
    {
      value := pending[t.id];
      pending := pending - {t.id};
    }
  }

  const MissingTokenError := "Authentication token not found in context or environment"

  /** `get_auth_token`: the context value if it is set, whatever it is;
      otherwise the environment value if it is non-empty; otherwise a
      `RuntimeError`. */
  function GetAuthToken(ctx: Option<string>, env: Option<string>): (r: Result<string>)
    // a value in the context, the empty string included, is returned as is
    ensures ctx.Some? ==> r == Success(ctx.value)
    // the environment is the fallback, and an empty value there does not count
    ensures r.Success? <==> ctx.Some? || (env.Some? && env.value != "")
    ensures r.Success? && ctx.None? ==> r.value == env.value
    ensures r.Failure? ==> r.error == MissingTokenError
  {
    match ctx
    case Some(token) => Success(token)
    case None =>
      if env.None? || env.value == "" then Failure(MissingTokenError)
      else Success(env.value)
  }

  /** `get_brave_client`: the token, or `None` where `get_auth_token`
      raised. The exception is logged and swallowed, never propagated. */
  function GetBraveClient(ctx: Option<string>, env: Option<string>): (client: Option<string>)
    ensures client.None? <==> GetAuthToken(ctx, env).Failure?
    ensures client.Some? ==> client.value == GetAuthToken(ctx, env).value
  {
    match GetAuthToken(ctx, env)
    case Success(token) => Some(token)
    case Failure(_) => None
  }

  /** Once the context is set, the environment is never consulted: the
      result is the same whatever `BRAVE_API_KEY` holds. */
  lemma ContextShadowsEnvironment(token: string, env1: Option<string>, env2: Option<string>)
    ensures GetBraveClient(Some(token), env1) == GetBraveClient(Some(token), env2) == Some(token)
  {
  }

  /** The client is missing exactly when neither the context nor a
      non-empty environment value supplies a token. */
  lemma ClientMissingIff(ctx: Option<string>, env: Option<string>)
    ensures GetBraveClient(ctx, env).None? <==> ctx.None? && (env.None? || env.value == "")
  {
  }
}

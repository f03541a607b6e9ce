/** The process environment, which both utility modules read and update
    through `std::env::var` and `std::env::set_var`. */
module Env {
  import opened Wrappers

  /** The process environment: one global map from variable name to value. */
  class ProcessEnv {
    var vars: map<string, string>

    constructor (vars: map<string, string>)
      ensures this.vars == vars
    {
      this.vars := vars;
    }
  }

  /** What `env_default` logs about a variable: its value (or a mask) when it
      was set, or the default it falls back to. */
  datatype LogLine = SetTo(key: string, shown: string) | NotSet(key: string, default: string)

  /** The text logged in place of a masked value. */
  const Mask := "********"

  /** The value `env_default(key, default)` yields for the variables `vars`. */
  function Resolved(vars: map<string, string>, key: string, default: string): string {
    if key in vars then vars[key] else default
  }

  /** The environment after `env_default(key, default)`: the default is
      written back when the variable was unset. */
  function Defaulted(vars: map<string, string>, key: string, default: string): map<string, string> {
    if key in vars then vars else vars[key := default]
  }

  /** A variable that `env_default` has resolved stays resolved to the same
      value, whatever default a later call passes. */
  lemma DefaultedSticky(vars: map<string, string>, key: string, first: string, later: string)
    ensures Resolved(Defaulted(vars, key, first), key, later) == Resolved(vars, key, first)
    ensures Defaulted(Defaulted(vars, key, first), key, later) == Defaulted(vars, key, first)
  {
  }

  /** Defaulting one variable does not change what another resolves to. */
  lemma ResolvedElsewhere(vars: map<string, string>, key: string, default: string, other: string, otherDefault: string)
    requires key != other
    ensures Resolved(Defaulted(vars, key, default), other, otherDefault) == Resolved(vars, other, otherDefault)
  {
  }

  /** `get_env(key)` of the stand-alone client: the value, or `None` where the
      source panics because the variable is unset. */
  function GetEnv(vars: map<string, string>, key: string): (r: Option<string>)
    ensures r.Some? <==> key in vars
    ensures r.Some? ==> r.value == vars[key]
  {
    if key in vars then Some(vars[key]) else None
  }
}

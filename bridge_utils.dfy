/** Environment helpers of the MQTT-to-Data-Lake bridge
    (mqtt_adls_bridge/src/utils.rs). `value_to_string` is `Values.ValueToString`. */
module BridgeUtils {
  import opened Text
  import opened Env

  /** A value is masked in the log when the lower-cased key contains
      "password" or "cert" anywhere. */
  predicate Masked(key: string) {
    Contains(Lower(key), "password") || Contains(Lower(key), "cert")
  }

  /** What the log shows for a variable that is set. */
  function Shown(key: string, value: string): string {
    if Masked(key) then Mask else value
  }

  /** `env_default`: the variable's value when it is set, otherwise the
      default, which is then written into the environment. */
  method EnvDefault(env: ProcessEnv, key: string, default: string) returns (value: string, log: LogLine)
    modifies env
    ensures value == Resolved(old(env.vars), key, default)
    ensures env.vars == Defaulted(old(env.vars), key, default)
    ensures key in env.vars && env.vars[key] == value
    ensures key in old(env.vars) ==> log == SetTo(key, Shown(key, value))
    ensures key !in old(env.vars) ==> log == NotSet(key, default)
  {
    if key in env.vars {
      log := SetTo(key, Shown(key, env.vars[key]));
    } else {
      log := NotSet(key, default);
      env.vars := env.vars[key := default];
    }
    value := env.vars[key];
  }

  /** `init_log`: RUST_LOG defaults to "info". */
  method InitLog(env: ProcessEnv)
    modifies env
    ensures env.vars == Defaulted(old(env.vars), "RUST_LOG", "info")
    ensures env.vars["RUST_LOG"] == Resolved(old(env.vars), "RUST_LOG", "info")
  {
    var _, _ := EnvDefault(env, "RUST_LOG", "info");
  }

  /** The broker password variable is masked: the match is on a substring. */
  lemma {:induction false} PasswordVariableMasked()
    ensures Masked("MQTT_PASSWORD")
  {
    var lower := Lower("MQTT_PASSWORD");
    assert lower[5..13] == "password";
    assert OccursAt(lower, "password", 5);
    ContainsAt(lower, "password");
  }
}

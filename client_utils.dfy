/** Environment helpers of the stand-alone MQTT client
    (mqtt-client/src/utils.rs). `value_to_string` is `Values.ValueToString`. */
module ClientUtils {
  import opened Text
  import opened Env

  /** A value is masked in the log only when the lower-cased key is exactly
      "password" or "cert". */
  predicate Masked(key: string) {
    Lower(key) in ["password", "cert"]
  }

  /** What the log shows for a variable that is set. */
  function Shown(key: string, value: string): string {
    if Masked(key) then Mask else value
  }

  /** `env_default`: the variable's value when it is set, otherwise the
      default, which is then written into the environment. */
  method EnvDefault(env: ProcessEnv, key: string, default: string) returns (value: string, log: LogLine)
    modifies env
    ensures value == Resolved(old(env.vars), key, default)
    ensures env.vars == Defaulted(old(env.vars), key, default)
    ensures key in env.vars && env.vars[key] == value
    ensures key in old(env.vars) ==> log == SetTo(key, Shown(key, value))
    ensures key !in old(env.vars) ==> log == NotSet(key, default)
  {
    if key in env.vars {
      log := SetTo(key, Shown(key, env.vars[key]));
    } else {
      log := NotSet(key, default);
      env.vars := env.vars[key := default];
    }
    value := env.vars[key];
  }

  /** `init_log`: RUST_LOG defaults to "info". */
  method InitLog(env: ProcessEnv)
    modifies env
    ensures env.vars == Defaulted(old(env.vars), "RUST_LOG", "info")
    ensures env.vars["RUST_LOG"] == Resolved(old(env.vars), "RUST_LOG", "info")
  {
    var _, _ := EnvDefault(env, "RUST_LOG", "info");
  }

  /** Exact matching: a variable named "Password" is masked, the broker
      password variable is not. */
  lemma MaskingIsExact()
    ensures Masked("Password") && Masked("CERT")
    ensures !Masked("MQTT_PASSWORD")
  {
    assert Lower("Password") == "password";
    assert Lower("CERT") == "cert";
    assert |Lower("MQTT_PASSWORD")| == 13;
  }
}

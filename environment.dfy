/**
 * `process.env` as a value: a variable is either absent (undefined) or holds
 * a string, possibly empty.
 */
module Environment {

  type Env = map<string, string>

  /** `process.env[name] !== undefined`. */
  predicate Defined(env: Env, name: string) {
    name in env
  }

  /** `process.env[name] === value`. */
  predicate Equals(env: Env, name: string, value: string) {
    name in env && env[name] == value
  }

  /** `!!process.env[name]`: defined and not the empty string. */
  predicate Truthy(env: Env, name: string) {
    name in env && env[name] != ""
  }
}

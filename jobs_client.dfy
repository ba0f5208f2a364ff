/**
 * The shape of a Cloud Run `runJob` request as the two job triggers build it:
 * the job's resource name, an optional execution suffix, optional labels, and
 * the environment of the job's single container override.
 */
module JobsClient {
  import opened Common

  /** A value `String(...)` is applied to: a string, or `undefined` (an unset environment variable). */
  datatype JsValue = JsStr(s: string) | JsUndefined

  /** `String(v)` */
  function JsString(v: JsValue): string
  {
    match v
    case JsStr(s) => s
    case JsUndefined => "undefined"
  }

  datatype EnvVar = EnvVar(name: string, value: string)

  datatype JobRequest = JobRequest(name: string,
                                   executionSuffix: Option<string>,
                                   labels: Option<map<string, string>>,
                                   env: seq<EnvVar>)

  /** `Object.entries(params).map(([name, value]) => ({ name, value: String(value) }))` */
  function EnvOf(params: seq<(string, JsValue)>): (env: seq<EnvVar>)
    ensures |env| == |params|
    ensures forall i :: 0 <= i < |params| ==> env[i] == EnvVar(params[i].0, JsString(params[i].1))
  {
    if params == [] then []
    else [EnvVar(params[0].0, JsString(params[0].1))] + EnvOf(params[1..])
  }

  /** The value the container sees for variable `name`: the first entry with that name. */
  function EnvValue(env: seq<EnvVar>, name: string): (r: Option<string>)
    ensures r.Some? <==> exists i :: 0 <= i < |env| && env[i].name == name
    ensures r.Some? ==> exists i :: && 0 <= i < |env| && env[i] == EnvVar(name, r.value)
                                    && forall j :: 0 <= j < i ==> env[j].name != name
  {
    if env == [] then None
    else if env[0].name == name then Some(env[0].value)
    else EnvValue(env[1..], name)
  }
}

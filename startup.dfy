/**
 * What each script checks before it does anything else. Reading the
 * environment (after `.env` is loaded) is an input map; `exit(1)` is a
 * `None` result.
 */
module Startup {
  import opened Wrappers
  import opened Catalog
  import opened Text

  /** `os.getenv(key)`. */
  function Getenv(env: map<string, string>, key: string): Option<string> {
    if key in env then Some(env[key]) else None
  }

  /** The LinkedIn credentials the script keeps for its requests. */
  datatype Credentials = Credentials(clientId: Option<string>, clientSecret: Option<string>, accessToken: Option<string>)

  function ReadCredentials(env: map<string, string>): Credentials {
    Credentials(Getenv(env, "LINKEDIN_CLIENT_ID"), Getenv(env, "LINKEDIN_CLIENT_SECRET"), Getenv(env, "LINKEDIN_ACCESS_TOKEN"))
  }

  /**
   * Start-up. The Hugging Face script stops when its pipeline failed to
   * load and then when any of the three LinkedIn credentials is missing or
   * empty. The OpenAI script stops only when the OpenAI key is missing or
   * empty; its LinkedIn credentials may be missing.
   */
  function Start(script: Script, env: map<string, string>, pipelineLoaded: bool): (r: Option<Credentials>)
    ensures r.Some? ==> r.value == ReadCredentials(env)
    ensures script == HuggingFaceScript ==>
              (r.Some? <==> pipelineLoaded && Truthy(Getenv(env, "LINKEDIN_CLIENT_ID"))
                            && Truthy(Getenv(env, "LINKEDIN_CLIENT_SECRET")) && Truthy(Getenv(env, "LINKEDIN_ACCESS_TOKEN")))
    ensures script == OpenAiScript ==> (r.Some? <==> Truthy(Getenv(env, "OPENAI_API_KEY")))
  {
    var credentials := ReadCredentials(env);
    match script
    case HuggingFaceScript =>
      if !pipelineLoaded then None
      else if !(Truthy(credentials.clientId) && Truthy(credentials.clientSecret) && Truthy(credentials.accessToken)) then None
      else Some(credentials)
    case OpenAiScript =>
      if !Truthy(Getenv(env, "OPENAI_API_KEY")) then None else Some(credentials)
  }

  /** The OpenAI script starts with or without LinkedIn credentials. */
  lemma OpenAiIgnoresLinkedInCredentials(env: map<string, string>, linkedIn: map<string, string>, loaded: bool)
    requires "OPENAI_API_KEY" !in linkedIn
    ensures Start(OpenAiScript, env + linkedIn, loaded).Some? == Start(OpenAiScript, env, loaded).Some?
  {
  }

  /** Once the Hugging Face script has started, its access token is set. */
  lemma HuggingFaceStartHasToken(env: map<string, string>, loaded: bool)
    requires Start(HuggingFaceScript, env, loaded).Some?
    ensures Truthy(Start(HuggingFaceScript, env, loaded).value.accessToken)
  {
  }
}

/** Loading secrets from the secret store into the environment
    (my_agent/secret_manager.py): building the resource name of a secret
    version, the check that a short secret id needs a project, and
    `load_secret_into_env`, which fills one environment variable in place.

    The process environment is a map from names to values, held by the class
    `Environment`. The secret store is a map from version resource names to
    payloads; a name it does not hold stands for a failing client call. */
module Secrets {
  import opened Wrappers
  import opened Text

  const QualifiedPrefix := "projects/"
  const DefaultVersion := "latest"
  const ProjectVar := "GCP_PROJECT_ID"
  const MissingProjectMessage := "project_id or GCP_PROJECT_ID is required to access secrets"

  /** What `get_secret_value` raises. */
  datatype SecretError =
    | ValueError(message: string)    // no project for a short secret id
    | AccessFailed(name: string)     // the client could not read this version

  /** `os.getenv(name)`. */
  function GetEnv(env: map<string, string>, name: string): Option<string> {
    if name in env then Some(env[name]) else None
  }

  /** `_build_secret_name`: a fully qualified id as it is, otherwise the
      version path built from the project, the id and the version. */
  function BuildSecretName(secretId: string, projectId: string, version: string): string {
    if StartsWith(secretId, QualifiedPrefix) then secretId
    else "projects/" + projectId + "/secrets/" + secretId + "/versions/" + version
  }

  /** A fully qualified id is kept as it is; any other id gets exactly the
      path `projects/{p}/secrets/{s}/versions/{v}`, which is itself fully
      qualified, so building a name twice changes nothing. */
  lemma BuildSecretNameForm(secretId: string, projectId: string, version: string)
    ensures StartsWith(secretId, "projects/") ==> BuildSecretName(secretId, projectId, version) == secretId
    ensures !StartsWith(secretId, "projects/") ==>
              BuildSecretName(secretId, projectId, version)
              == "projects/" + projectId + "/secrets/" + secretId + "/versions/" + version
    ensures StartsWith(BuildSecretName(secretId, projectId, version), "projects/")
  {
    var name := BuildSecretName(secretId, projectId, version);
    if !StartsWith(secretId, QualifiedPrefix) {
      assert name[..9] == "projects/";
    }
  }

  lemma BuildSecretNameIdempotent(secretId: string, projectId: string, version: string,
                                  otherProject: string, otherVersion: string)
    ensures var name := BuildSecretName(secretId, projectId, version);
      BuildSecretName(name, otherProject, otherVersion) == name
  {
    BuildSecretNameForm(secretId, projectId, version);
  }

  /** The project, the secret id and the version can be read back from a
      built name, at fixed offsets. */
  lemma BuildSecretNameParts(secretId: string, projectId: string, version: string)
    requires !StartsWith(secretId, "projects/")
    ensures var name := BuildSecretName(secretId, projectId, version);
            var p := 9 + |projectId|;
            var s := p + 9 + |secretId|;
      && |name| == s + 10 + |version|
      && name[9..p] == projectId
      && name[p..p + 9] == "/secrets/"
      && name[p + 9..s] == secretId
      && name[s..s + 10] == "/versions/"
      && name[s + 10..] == version
  {
    FivePieces("projects/", projectId, "/secrets/", secretId, "/versions/" + version);
    assert ("/versions/" + version)[..10] == "/versions/";
  }

  /** Each piece of a five-piece concatenation can be sliced back out. */
  lemma FivePieces(a: string, b: string, c: string, d: string, e: string)
    ensures var s := a + b + c + d + e;
            var i := |a| + |b|;
            var j := i + |c| + |d|;
      && s[|a|..i] == b && s[i..i + |c|] == c && s[i + |c|..j] == d && s[j..] == e
  {
  }

  /** `project_id or os.getenv("GCP_PROJECT_ID")`. */
  function ResolveProject(projectId: Option<string>, env: map<string, string>): Option<string> {
    if Truthy(projectId) then projectId else GetEnv(env, ProjectVar)
  }

  /** `get_secret_value`: raises `ValueError` when no project resolves and the
      id is not fully qualified; otherwise reads the named version. */
  function GetSecretValue(secretId: string, projectId: Option<string> := None, version: string := DefaultVersion,
                          env: map<string, string>, store: map<string, string>): Result<string, SecretError>
  {
    var project := ResolveProject(projectId, env);
    if !Truthy(project) && !StartsWith(secretId, QualifiedPrefix) then Failure(ValueError(MissingProjectMessage))
    else
      // With no project the id is fully qualified and the project is not used.
      var name := BuildSecretName(secretId, project.GetOr(""), version);
      if name in store then Success(store[name]) else Failure(AccessFailed(name))
  }

  /** The `ValueError` is raised exactly when no non-empty project is given
      or configured and the id is short; a fully qualified id never needs a
      project and is read under its own name. */
  lemma GetSecretValueValidation(secretId: string, projectId: Option<string>, version: string,
                                 env: map<string, string>, store: map<string, string>)
    ensures var r := GetSecretValue(secretId, projectId, version, env, store);
      && (r.Failure? && r.error.ValueError? <==>
            !StartsWith(secretId, "projects/") && !Truthy(projectId)
            && (ProjectVar !in env || env[ProjectVar] == ""))
      && (StartsWith(secretId, "projects/") ==>
            r == if secretId in store then Success(store[secretId]) else Failure(AccessFailed(secretId)))
  {
  }

  /** A short id with a project reads the `projects/{p}/secrets/{s}/versions/{v}`
      version; an explicit project wins over the environment. */
  lemma GetSecretValueShortId(secretId: string, projectId: Option<string>, version: string,
                              env: map<string, string>, store: map<string, string>)
    requires !StartsWith(secretId, "projects/")
    requires Truthy(ResolveProject(projectId, env))
    ensures var p := ResolveProject(projectId, env).value;
            var name := "projects/" + p + "/secrets/" + secretId + "/versions/" + version;
      && (Truthy(projectId) ==> p == projectId.value)
      && GetSecretValue(secretId, projectId, version, env, store)
         == if name in store then Success(store[name]) else Failure(AccessFailed(name))
  {
  }

  /** The environment after `load_secret_into_env`, and what it raises. */
  function LoadedEnv(env: map<string, string>, envVar: string, secretEnvVar: string,
                     projectId: Option<string>, version: string, store: map<string, string>,
                     hasLogger: bool): (map<string, string>, Option<SecretError>)
  {
    if Truthy(GetEnv(env, envVar)) then (env, None)
    else
      var secretId := GetEnv(env, secretEnvVar);
      if !Truthy(secretId) then (env, None)
      else
        match GetSecretValue(secretId.value, projectId, version, env, store)
        case Success(value) => (env[envVar := value], None)
        case Failure(e) => (env, if hasLogger then None else Some(e))
  }

  /** The two no-op cases: the target variable already has a value, or the
      variable naming the secret is unset or empty. */
  lemma LoadedEnvNoOp(env: map<string, string>, envVar: string, secretEnvVar: string,
                      projectId: Option<string>, version: string, store: map<string, string>,
                      hasLogger: bool)
    requires (envVar in env && env[envVar] != "") || secretEnvVar !in env || env[secretEnvVar] == ""
    ensures LoadedEnv(env, envVar, secretEnvVar, projectId, version, store, hasLogger) == (env, None)
  {
  }

  /** On a successful read the target variable holds the secret's value and
      every other variable is as it was. */
  lemma LoadedEnvSets(env: map<string, string>, envVar: string, secretEnvVar: string,
                      projectId: Option<string>, version: string, store: map<string, string>,
                      hasLogger: bool)
    requires !(envVar in env && env[envVar] != "")
    requires secretEnvVar in env && env[secretEnvVar] != ""
    requires GetSecretValue(env[secretEnvVar], projectId, version, env, store).Success?
    ensures var (env', raised) := LoadedEnv(env, envVar, secretEnvVar, projectId, version, store, hasLogger);
      && raised.None?
      && envVar in env'
      && env'[envVar] == GetSecretValue(env[secretEnvVar], projectId, version, env, store).value
      && env'.Keys == env.Keys + {envVar}
      && forall k :: k in env && k != envVar ==> env'[k] == env[k]
  {
  }

  /** A failed read leaves the environment alone; it is raised only when no
      logger was given. */
  lemma LoadedEnvFailure(env: map<string, string>, envVar: string, secretEnvVar: string,
                         projectId: Option<string>, version: string, store: map<string, string>,
                         hasLogger: bool)
    requires !(envVar in env && env[envVar] != "")
    requires secretEnvVar in env && env[secretEnvVar] != ""
    requires GetSecretValue(env[secretEnvVar], projectId, version, env, store).Failure?
    ensures var (env', raised) := LoadedEnv(env, envVar, secretEnvVar, projectId, version, store, hasLogger);
      && env' == env
      && (raised.Some? <==> !hasLogger)
      && (raised.Some? ==> raised.value == GetSecretValue(env[secretEnvVar], projectId, version, env, store).error)
  {
  }

  /** Loading is idempotent: once it has run without raising, running it
      again changes nothing. */
  lemma LoadedEnvIdempotent(env: map<string, string>, envVar: string, secretEnvVar: string,
                            projectId: Option<string>, version: string, store: map<string, string>,
                            hasLogger: bool)
    requires LoadedEnv(env, envVar, secretEnvVar, projectId, version, store, hasLogger).1.None?
    ensures var env' := LoadedEnv(env, envVar, secretEnvVar, projectId, version, store, hasLogger).0;
      LoadedEnv(env', envVar, secretEnvVar, projectId, version, store, hasLogger) == (env', None)
  {
    var env' := LoadedEnv(env, envVar, secretEnvVar, projectId, version, store, hasLogger).0;
    if env' != env {
      var secretId := env[secretEnvVar];
      var value := GetSecretValue(secretId, projectId, version, env, store).value;
      assert env' == env[envVar := value];
      if value == "" && envVar != secretEnvVar {
        // An empty payload leaves the variable falsy: the second run reads
        // the same version again and writes the same empty value.
        assert GetEnv(env', secretEnvVar) == GetEnv(env, secretEnvVar);
        assert Truthy(ResolveProject(projectId, env')) == Truthy(ResolveProject(projectId, env));
        assert ResolveProject(projectId, env').GetOr("") == ResolveProject(projectId, env).GetOr("")
          || !Truthy(ResolveProject(projectId, env));
        assert GetSecretValue(secretId, projectId, version, env', store)
               == GetSecretValue(secretId, projectId, version, env, store);
        assert env'[envVar := value] == env';
      }
    }
  }

  lemma ShortId(s: string)
    requires |s| >= 1 && s[0] != 'p'
    ensures !StartsWith(s, "projects/")
  {
    if |s| >= 9 {
      assert s[..9][0] == s[0];
    }
  }

  /** The process environment. */
  class Environment {
    var vars: map<string, string>

    constructor (vars: map<string, string>)
      ensures this.vars == vars
    {
      this.vars := vars;
    }

    /** `load_secret_into_env`: fills `envVar` from the secret named by
        `secretEnvVar` unless `envVar` already has a value; a failed read is
        swallowed when a logger is given and raised otherwise. */
    method LoadSecretIntoEnv(envVar: string, secretEnvVar: string, store: map<string, string>,
                             projectId: Option<string> := None, version: string := DefaultVersion,
                             hasLogger: bool := false)
      returns (raised: Option<SecretError>)
      modifies this
      ensures (vars, raised) == LoadedEnv(old(vars), envVar, secretEnvVar, projectId, version, store, hasLogger)
    {
      raised := None;
      if Truthy(GetEnv(vars, envVar)) {
        return;
      }
      var secretId := GetEnv(vars, secretEnvVar);
      if !Truthy(secretId) {
        return;
      }
      var value := GetSecretValue(secretId.value, projectId, version, vars, store);
      match value
      case Success(v) =>
        vars := vars[envVar := v];
      case Failure(e) =>
        if !hasLogger {
          raised := Some(e);
        }
    }
  }

  /** The loader's tests as runs of the model: a short id with a project in
      the environment is read and stored; a missing secret id variable
      changes nothing; a short id without a project raises `ValueError`. */
  method LoadScenarios() returns (loaded: string, untouched: bool, error: Result<string, SecretError>)
    ensures loaded == "from-secret"
    ensures untouched
    ensures error.Failure? && error.error.ValueError?
  {
    var store := map["projects/" + "demo-project" + "/secrets/" + "my-secret" + "/versions/" + "latest" := "from-secret"];
    var env := new Environment(map["GOOGLE_API_KEY_SECRET_ID" := "my-secret", "GCP_PROJECT_ID" := "demo-project"]);
    ShortId("my-secret");
    BuildSecretNameForm("my-secret", "demo-project", DefaultVersion);
    assert GetSecretValue("my-secret", env := env.vars, store := store) == Success("from-secret");
    var _ := env.LoadSecretIntoEnv("GOOGLE_API_KEY", "GOOGLE_API_KEY_SECRET_ID", store);
    loaded := env.vars["GOOGLE_API_KEY"];

    var other := new Environment(map[]);
    var _ := other.LoadSecretIntoEnv("TEST_VAR", "TEST_VAR_SECRET_ID", store);
    untouched := "TEST_VAR" !in other.vars;

    ShortId("short-secret-name");
    error := GetSecretValue("short-secret-name", env := map[], store := store);
  }
}

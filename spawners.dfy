/**
 * The two JupyterHub spawners that launch `remoteappmanager` as a local
 * process: how they rewrite the command line, which environment they pass on,
 * and the lifecycle of a virtual user's temporary workspace directory.
 *
 * The host is reached only through parameters: the arguments, environment and
 * saved state the base spawner produces, the set of directories that exist,
 * the outcome of creating a temporary directory and of starting the process,
 * and the path normaliser. Effects on the host are returned as a trace of
 * `HostCall`s in the order they are made.
 */
module Spawners {
  import opened Wrappers
  import opened Text

  // ---------------------------------------------------------------------------
  // Text replacement (Python's str.replace)
  // ---------------------------------------------------------------------------

  /** `pat` occurs in `s` starting at index `i`. */
  predicate OccursAt(s: string, pat: string, i: int) {
    0 <= i && i + |pat| <= |s| && s[i..i + |pat|] == pat
  }

  predicate Contains(s: string, pat: string) {
    exists i :: 0 <= i <= |s| - |pat| && OccursAt(s, pat, i)
  }

  /**
   * `s` with every occurrence of `pat` replaced by `rep`, scanning from the
   * left and never replacing inside text that was already replaced.
   */
  function ReplaceAll(s: string, pat: string, rep: string): (r: string)
    requires |pat| > 0
    // an occurrence at the very start is the first one replaced
    ensures StartsWith(s, pat) ==> StartsWith(r, rep)
    // text that does not start an occurrence is kept as it is
    ensures |s| > 0 && !StartsWith(s, pat) ==> |r| > 0 && r[0] == s[0]
    // replacing by a text at least as long never shortens
    ensures |rep| >= |pat| ==> |r| >= |s|
    decreases |s|
  {
    if |s| < |pat| then s
    else if StartsWith(s, pat) then rep + ReplaceAll(s[|pat|..], pat, rep)
    else [s[0]] + ReplaceAll(s[1..], pat, rep)
  }

  /** Replacing by a longer text lengthens exactly when there was something to replace. */
  lemma {:induction false} ReplaceAllLength(s: string, pat: string, rep: string)
    requires 0 < |pat| < |rep|
    ensures Contains(s, pat) <==> |ReplaceAll(s, pat, rep)| > |s|
  {
    if |s| < |pat| {
    } else if StartsWith(s, pat) {
      ReplaceAllLength(s[|pat|..], pat, rep);
      assert OccursAt(s, pat, 0);
    } else {
      var t := s[1..];
      ReplaceAllLength(t, pat, rep);
      if Contains(s, pat) {
        var i :| OccursAt(s, pat, i);
        assert OccursAt(s, pat, i);
        assert i != 0;
        assert t[i - 1..i - 1 + |pat|] == s[i..i + |pat|];
        assert OccursAt(t, pat, i - 1);
      }
      if Contains(t, pat) {
        var i :| OccursAt(t, pat, i);
        assert OccursAt(t, pat, i);
        assert s[i + 1..i + 1 + |pat|] == t[i..i + |pat|];
        assert OccursAt(s, pat, i + 1);
      }
    }
  }

  /** Replacing by a longer text leaves a string unchanged exactly when the pattern does not occur in it. */
  lemma ReplaceAllUnchanged(s: string, pat: string, rep: string)
    requires 0 < |pat| < |rep|
    ensures ReplaceAll(s, pat, rep) == s <==> !Contains(s, pat)
  {
    ReplaceAllLength(s, pat, rep);
    if !Contains(s, pat) {
      NoOccurrenceUnchanged(s, pat, rep);
    }
  }

  lemma {:induction false} NoOccurrenceUnchanged(s: string, pat: string, rep: string)
    requires 0 < |pat|
    requires !Contains(s, pat)
    ensures ReplaceAll(s, pat, rep) == s
  {
    if |s| >= |pat| {
      assert !OccursAt(s, pat, 0);
      var t := s[1..];
      if Contains(t, pat) {
        var i :| OccursAt(t, pat, i);
        assert OccursAt(t, pat, i);
        assert s[i + 1..i + 1 + |pat|] == t[i..i + |pat|];
        assert OccursAt(s, pat, i + 1);
      }
      NoOccurrenceUnchanged(t, pat, rep);
    }
  }

  lemma StartsWithCons(c: char, s: string, q: string)
    requires |q| > 0
    ensures StartsWith([c] + s, q) <==> c == q[0] && StartsWith(s, q[1..])
  {
  }

  // ---------------------------------------------------------------------------
  // Command line
  // ---------------------------------------------------------------------------

  /** The option JupyterHub passes and the one `remoteappmanager` understands. */
  const BaseUrlFlag: string := "--base-url="
  const BaseUrlPathFlag: string := "--base-urlpath="
  const ProxyApiUrlFlag: string := "--proxy-api-url="
  const ConfigFileFlag: string := "--config-file="

  /** One argument of the base spawner, as rewritten for `remoteappmanager`. */
  function RewriteArg(arg: string): (r: string)
    ensures |r| >= |arg|
    ensures r == arg <==> !Contains(arg, BaseUrlFlag)
  {
    ReplaceAllLength(arg, BaseUrlFlag, BaseUrlPathFlag);
    ReplaceAllUnchanged(arg, BaseUrlFlag, BaseUrlPathFlag);
    ReplaceAll(arg, BaseUrlFlag, BaseUrlPathFlag)
  }

  /**
   * When what the rewrite produces begins with a proper tail of `--base-url=`,
   * the original argument began with that same tail: the replacement text
   * `--base-urlpath=` never supplies one.
   */
  lemma {:induction false} RewriteKeepsFlagTail(t: string, j: nat)
    requires 1 <= j < |BaseUrlFlag|
    ensures StartsWith(RewriteArg(t), BaseUrlFlag[j..]) ==> StartsWith(t, BaseUrlFlag[j..])
  {
    var pat, rep := BaseUrlFlag, BaseUrlPathFlag;
    var q := pat[j..];
    if |t| < |pat| {
    } else if StartsWith(t, pat) {
      var r := RewriteArg(t);
      assert r == rep + RewriteArg(t[|pat|..]);
      if pat[j] != '-' {
        assert r[0] != q[0];
      } else {
        assert j == 1 || j == 6;
        assert r[1] != q[1];
      }
    } else {
      var r := RewriteArg(t[1..]);
      assert RewriteArg(t) == [t[0]] + r;
      if j + 1 < |pat| {
        RewriteKeepsFlagTail(t[1..], j + 1);
        assert q[1..] == pat[j + 1..];
        StartsWithCons(t[0], r, q);
        StartsWithCons(t[0], t[1..], q);
        assert [t[0]] + t[1..] == t;
      }
    }
  }

  /** Text put in by the rewrite, followed by text free of `--base-url=`, is free of it too. */
  lemma ReplacementStartsNoFlag(x: string)
    requires !Contains(x, BaseUrlFlag)
    ensures !Contains(BaseUrlPathFlag + x, BaseUrlFlag)
  {
    var pat, rep := BaseUrlFlag, BaseUrlPathFlag;
    var r := rep + x;
    forall i | 0 <= i <= |r| - |pat|
      ensures !OccursAt(r, pat, i)
    {
      if i >= |rep| {
        assert r[i..i + |pat|] == x[i - |rep|..i - |rep| + |pat|];
        assert !OccursAt(x, pat, i - |rep|);
      } else if i == 0 {
        assert r[10] == rep[10];
        assert r[i..i + |pat|][10] != pat[10];
      } else if i == 1 || i == 6 {
        assert r[i + 1] == rep[i + 1];
        assert r[i..i + |pat|][1] != pat[1];
      } else {
        assert r[i] == rep[i];
        assert rep[i] != '-' by {
          if i < 6 {
            assert i == 2 || i == 3 || i == 4 || i == 5;
          } else if i < 10 {
            assert i == 7 || i == 8 || i == 9;
          } else {
            assert i == 10 || i == 11 || i == 12 || i == 13 || i == 14;
          }
        }
        assert r[i..i + |pat|][0] != pat[0];
      }
    }
  }

  /** No rewritten argument still contains `--base-url=`. */
  lemma {:induction false} RewriteRemovesBaseUrl(arg: string)
    ensures !Contains(RewriteArg(arg), BaseUrlFlag)
  {
    var pat, rep := BaseUrlFlag, BaseUrlPathFlag;
    var r := RewriteArg(arg);
    if |arg| < |pat| {
    } else if StartsWith(arg, pat) {
      var x := RewriteArg(arg[|pat|..]);
      RewriteRemovesBaseUrl(arg[|pat|..]);
      assert r == rep + x;
      ReplacementStartsNoFlag(x);
    } else {
      var x := RewriteArg(arg[1..]);
      RewriteRemovesBaseUrl(arg[1..]);
      RewriteKeepsFlagTail(arg[1..], 1);
      assert r == [arg[0]] + x;
      forall i | 0 <= i <= |r| - |pat|
        ensures !OccursAt(r, pat, i)
      {
        if i >= 1 {
          assert r[i..i + |pat|] == x[i - 1..i - 1 + |pat|];
          assert !OccursAt(x, pat, i - 1);
        } else {
          StartsWithCons(arg[0], x, pat);
          StartsWithCons(arg[0], arg[1..], pat);
          assert [arg[0]] + arg[1..] == arg;
        }
      }
    }
  }

  /** What `get_args` returns for the base spawner's arguments `base`. */
  ghost predicate IsSpawnerArgs(args: seq<string>, base: seq<string>, proxyApiUrl: string, configFilePath: string) {
    && |args| == |base| + (if configFilePath == "" then 1 else 2)
    && (forall i :: 0 <= i < |base| ==> args[i] == RewriteArg(base[i]))
    && args[|base|] == ProxyApiUrlFlag + proxyApiUrl
    && (configFilePath != "" ==> args[|base| + 1] == ConfigFileFlag + configFilePath)
  }

  /**
   * The command line shared by both spawners: every base argument rewritten in
   * place, in order, then the proxy API URL, then the configuration file when
   * one is configured.
   */
  method BuildArgs(base: seq<string>, proxyApiUrl: string, configFilePath: string) returns (args: seq<string>)
    ensures IsSpawnerArgs(args, base, proxyApiUrl, configFilePath)
    ensures forall i :: 0 <= i < |base| ==> !Contains(args[i], BaseUrlFlag)
  {
    args := base;
    for i := 0 to |args|
      invariant |args| == |base|
      invariant forall k :: 0 <= k < i ==> args[k] == RewriteArg(base[k]) && !Contains(args[k], BaseUrlFlag)
      invariant forall k :: i <= k < |args| ==> args[k] == base[k]
    {
      RewriteRemovesBaseUrl(args[i]);
      args := args[i := RewriteArg(args[i])];
    }
    args := args + [ProxyApiUrlFlag + proxyApiUrl];
    if configFilePath != "" {
      args := args + [ConfigFileFlag + configFilePath];
    }
  }

  // ---------------------------------------------------------------------------
  // Environment
  // ---------------------------------------------------------------------------

  const ProxyApiTokenKey: string := "PROXY_API_TOKEN"
  const UserKey: string := "USER"
  const HomeKey: string := "HOME"

  /** The variables that tell a Docker client where its daemon is. */
  const DockerVarNames: set<string> :=
    {"DOCKER_HOST", "DOCKER_CERT_PATH", "DOCKER_MACHINE_NAME", "DOCKER_TLS_VERIFY"}

  /** The Docker variables of the hub's own environment `environ`, with their values. */
  function DockerEnvVars(environ: map<string, string>): (r: map<string, string>)
    ensures forall k :: k in r <==> k in DockerVarNames && k in environ
    ensures forall k :: k in r ==> r[k] == environ[k]
  {
    map k | k in DockerVarNames && k in environ :: environ[k]
  }

  /** The result is empty exactly when none of the four variables is set. */
  lemma DockerEnvVarsEmpty(environ: map<string, string>)
    ensures DockerEnvVars(environ) == map[] <==> DockerVarNames !! environ.Keys
  {
  }

  /**
   * The part of `get_env` both spawners share: the proxy token is added to
   * the base environment, then the Docker variables override what is there.
   */
  method SpawnerEnv(base: map<string, string>, proxyAuthToken: string, environ: map<string, string>)
    returns (env: map<string, string>)
    ensures env.Keys == base.Keys + {ProxyApiTokenKey} + (DockerVarNames * environ.Keys)
    ensures env[ProxyApiTokenKey] == proxyAuthToken
    ensures forall k :: k in DockerVarNames && k in environ ==> env[k] == environ[k]
    ensures forall k :: k in base && k != ProxyApiTokenKey && !(k in DockerVarNames && k in environ) ==>
      env[k] == base[k]
  {
    env := base;
    env := env[ProxyApiTokenKey := proxyAuthToken];
    env := env + DockerEnvVars(environ);
  }

  // ---------------------------------------------------------------------------
  // Saved state and the workspace directory
  // ---------------------------------------------------------------------------

  const VirtualWorkspaceKey: string := "virtual_workspace"

  /** The state `get_state` saves: the base state plus the workspace, when there is one. */
  function SavedState(base: map<string, string>, workspace: string): (state: map<string, string>)
    ensures workspace != "" ==> VirtualWorkspaceKey in state && state[VirtualWorkspaceKey] == workspace
    ensures workspace == "" ==> state == base
    ensures forall k :: k != VirtualWorkspaceKey ==> (k in state <==> k in base)
    ensures forall k :: k in state && k != VirtualWorkspaceKey ==> state[k] == base[k]
  {
    if workspace != "" then base[VirtualWorkspaceKey := workspace] else base
  }

  /**
   * The workspace after `load_state`: the saved one when it is a non-empty
   * path of a directory that still exists, otherwise the current one.
   */
  function LoadedWorkspace(current: string, state: map<string, string>, existingDirs: set<string>): (ws: string)
    ensures ws == current || (VirtualWorkspaceKey in state && ws == state[VirtualWorkspaceKey] && ws != "" && ws in existingDirs)
    ensures VirtualWorkspaceKey in state && state[VirtualWorkspaceKey] != "" && state[VirtualWorkspaceKey] in existingDirs ==>
      ws == state[VirtualWorkspaceKey]
  {
    if VirtualWorkspaceKey in state && state[VirtualWorkspaceKey] != "" && state[VirtualWorkspaceKey] in existingDirs
    then state[VirtualWorkspaceKey]
    else current
  }

  /**
   * Saving and loading again restores a workspace whose directory still
   * exists, and a spawner without a workspace keeps what it has.
   */
  lemma StateRoundTrip(base: map<string, string>, workspace: string, current: string, existingDirs: set<string>)
    requires VirtualWorkspaceKey !in base
    ensures workspace in existingDirs ==> LoadedWorkspace(current, SavedState(base, workspace), existingDirs) == (if workspace == "" then current else workspace)
    ensures workspace !in existingDirs ==> LoadedWorkspace(current, SavedState(base, workspace), existingDirs) == current
  {
  }

  /** What the spawner asks of the host, in order. */
  datatype HostCall =
    | MakeTempDir(parent: string)   // tempfile.mkdtemp(dir=parent)
    | StartProcess                  // the base spawner's start
    | RemoveTree(path: string)      // shutil.rmtree(path)
    | StopProcess(now: bool)        // the base spawner's stop

  /** Normalised paths the clean-up refuses to remove. */
  const ProtectedPaths: set<string> := {"/", ".", ".."}

  /**
   * What `_clean_up_workspace_dir` does for `workspace`: at most one removal,
   * of the workspace itself, and none when there is no workspace or the
   * workspace normalises to the root, the current or the parent directory.
   */
  function CleanupCalls(workspace: string, normpath: string -> string): (calls: seq<HostCall>)
    ensures calls == [] || calls == [RemoveTree(workspace)]
    ensures calls != [] <==> workspace != "" && normpath(workspace) !in ProtectedPaths
  {
    if workspace == "" then []
    else if normpath(workspace) in ProtectedPaths then []
    else [RemoveTree(workspace)]
  }

  /** A removal never targets an empty or protected path. */
  lemma CleanupNeverRemovesProtected(workspace: string, normpath: string -> string, c: HostCall)
    requires c in CleanupCalls(workspace, normpath)
    ensures c == RemoveTree(workspace) && c.path != "" && normpath(c.path) !in ProtectedPaths
  {
  }

  // ---------------------------------------------------------------------------
  // The spawners
  // ---------------------------------------------------------------------------

  /** The executable both spawners launch. */
  const Command: seq<string> := ["remoteappmanager"]

  /** Starts `remoteappmanager` as a local process of a system user. */
  class SystemUserSpawner {
    /** The command line of the executable, before its arguments. */
    var cmd: seq<string>
    var proxyApiUrl: string
    var proxyAuthToken: string
    var configFilePath: string

    constructor (proxyApiUrl: string, proxyAuthToken: string, configFilePath: string)
      ensures this.proxyApiUrl == proxyApiUrl && this.proxyAuthToken == proxyAuthToken
      ensures this.configFilePath == configFilePath
      ensures cmd == Command
    {
      this.proxyApiUrl := proxyApiUrl;
      this.proxyAuthToken := proxyAuthToken;
      this.configFilePath := configFilePath;
      cmd := Command;
    }

    /** `base` is what the base spawner's get_args returns. */
    method GetArgs(base: seq<string>) returns (args: seq<string>)
      ensures IsSpawnerArgs(args, base, proxyApiUrl, configFilePath)
      ensures forall i :: 0 <= i < |base| ==> !Contains(args[i], BaseUrlFlag)
    {
      args := BuildArgs(base, proxyApiUrl, configFilePath);
    }

    /** `base` is what the base spawner's get_env returns; `environ` is the hub's environment. */
    method GetEnv(base: map<string, string>, environ: map<string, string>) returns (env: map<string, string>)
      ensures env.Keys == base.Keys + {ProxyApiTokenKey} + (DockerVarNames * environ.Keys)
      ensures env[ProxyApiTokenKey] == proxyAuthToken
      ensures forall k :: k in DockerVarNames && k in environ ==> env[k] == environ[k]
      ensures forall k :: k in base && k != ProxyApiTokenKey && !(k in DockerVarNames && k in environ) ==>
        env[k] == base[k]
    {
      env := SpawnerEnv(base, proxyAuthToken, environ);
    }
  }

  /**
   * Starts `remoteappmanager` as a local process of a virtual user, that is a
   * user who need not exist on the host, optionally with a temporary home
   * directory created under `workspaceDir`.
   */
  class VirtualUserSpawner {
    /** The command line of the executable, before its arguments. */
    var cmd: seq<string>
    var proxyApiUrl: string
    var proxyAuthToken: string
    var configFilePath: string
    var workspaceDir: string
    var userName: string
    /** The temporary workspace, "" when there is none. */
    var virtualWorkspace: string

    constructor (proxyApiUrl: string, proxyAuthToken: string, configFilePath: string,
                 workspaceDir: string, userName: string)
      ensures this.proxyApiUrl == proxyApiUrl && this.proxyAuthToken == proxyAuthToken
      ensures this.configFilePath == configFilePath && this.workspaceDir == workspaceDir
      ensures this.userName == userName && virtualWorkspace == ""
      ensures cmd == Command
    {
      this.proxyApiUrl := proxyApiUrl;
      this.proxyAuthToken := proxyAuthToken;
      this.configFilePath := configFilePath;
      this.workspaceDir := workspaceDir;
      this.userName := userName;
      virtualWorkspace := "";
      cmd := Command;
    }

    /** Adopts the saved workspace only if it names an existing directory. */
    method LoadState(state: map<string, string>, existingDirs: set<string>)
      modifies this`virtualWorkspace
      ensures virtualWorkspace == LoadedWorkspace(old(virtualWorkspace), state, existingDirs)
    {
      virtualWorkspace := LoadedWorkspace(virtualWorkspace, state, existingDirs);
    }

    /** `base` is what the base spawner's get_state returns. */
    method GetState(base: map<string, string>) returns (state: map<string, string>)
      ensures state == SavedState(base, virtualWorkspace)
    {
      state := SavedState(base, virtualWorkspace);
    }

    method ClearState()
      modifies this`virtualWorkspace
      ensures virtualWorkspace == ""
    {
      virtualWorkspace := "";
    }

    method GetArgs(base: seq<string>) returns (args: seq<string>)
      ensures IsSpawnerArgs(args, base, proxyApiUrl, configFilePath)
      ensures forall i :: 0 <= i < |base| ==> !Contains(args[i], BaseUrlFlag)
    {
      args := BuildArgs(base, proxyApiUrl, configFilePath);
    }

    /** Sets the user name always, and the home directory only when there is a workspace. */
    method UserEnv(env: map<string, string>) returns (r: map<string, string>)
      ensures r.Keys == env.Keys + {UserKey} + (if virtualWorkspace != "" then {HomeKey} else {})
      ensures r[UserKey] == userName
      ensures virtualWorkspace != "" ==> r[HomeKey] == virtualWorkspace
      ensures forall k :: k in env && k != UserKey && (k != HomeKey || virtualWorkspace == "") ==> r[k] == env[k]
    {
      r := env[UserKey := userName];
      if virtualWorkspace != "" {
        r := r[HomeKey := virtualWorkspace];
      }
    }

    /**
     * `inherited` is the environment the hub's base spawner builds before it
     * applies user_env; `environ` is the hub's own environment.
     */
    method GetEnv(inherited: map<string, string>, environ: map<string, string>) returns (env: map<string, string>)
      ensures env.Keys == inherited.Keys + {UserKey, ProxyApiTokenKey} +
        (if virtualWorkspace != "" then {HomeKey} else {}) + (DockerVarNames * environ.Keys)
      ensures env[ProxyApiTokenKey] == proxyAuthToken
      ensures env[UserKey] == userName
      ensures virtualWorkspace != "" ==> env[HomeKey] == virtualWorkspace
      ensures forall k :: k in DockerVarNames && k in environ ==> env[k] == environ[k]
      ensures forall k ::
        (k in inherited && k != UserKey && k != ProxyApiTokenKey &&
         (k != HomeKey || virtualWorkspace == "") && !(k in DockerVarNames && k in environ))
        ==> env[k] == inherited[k]
    {
      var withUser := UserEnv(inherited);
      env := SpawnerEnv(withUser, proxyAuthToken, environ);
    }

    /**
     * Creates the workspace when a parent directory is configured and there is
     * none yet, then starts the process; if that fails, cleans up and re-raises
     * the same error. `mkdtemp` is the outcome of creating the directory (the
     * new path, or None when creation failed) and `startError` the error the
     * process start raised, if any.
     */
    method Start(mkdtemp: Option<string>, startError: Option<string>, normpath: string -> string)
      returns (calls: seq<HostCall>, outcome: Outcome<string>)
      modifies this`virtualWorkspace
      ensures old(workspaceDir == "" || virtualWorkspace != "") ==> virtualWorkspace == old(virtualWorkspace)
      ensures old(workspaceDir != "" && virtualWorkspace == "") ==>
        virtualWorkspace == (if mkdtemp.Some? then mkdtemp.value else "")
      ensures calls ==
        (if old(workspaceDir != "" && virtualWorkspace == "") then [MakeTempDir(workspaceDir)] else []) +
        [StartProcess] +
        (if startError.Some? then CleanupCalls(virtualWorkspace, normpath) else [])
      ensures outcome == (if startError.Some? then Fail(startError.value) else Pass)
    {
      calls := [];
      if workspaceDir != "" && virtualWorkspace == "" {
        calls := calls + [MakeTempDir(workspaceDir)];
        if mkdtemp.Some? {
          virtualWorkspace := mkdtemp.value;
        }
      }
      calls := calls + [StartProcess];
      if startError.Some? {
        var cleanup := CleanUpWorkspaceDir(normpath);
        calls := calls + cleanup;
        outcome := Fail(startError.value);
      } else {
        outcome := Pass;
      }
    }

    /** Removes the workspace, if it is safe to, then stops the process. */
    method Stop(now: bool, normpath: string -> string) returns (calls: seq<HostCall>)
      ensures calls == CleanupCalls(virtualWorkspace, normpath) + [StopProcess(now)]
    {
      var cleanup := CleanUpWorkspaceDir(normpath);
      calls := cleanup + [StopProcess(now)];
    }

    /**
     * Removes the workspace directory unless there is none or it normalises
     * to a protected path; a failing removal is only logged. The field itself
     * is left as it is.
     */
    method CleanUpWorkspaceDir(normpath: string -> string) returns (calls: seq<HostCall>)
      ensures calls == CleanupCalls(virtualWorkspace, normpath)
    {
      calls := CleanupCalls(virtualWorkspace, normpath);
    }
  }
}

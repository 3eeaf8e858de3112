# simphony-remote: spawners, application resource, admin container handler, database URL

A Dafny model of the deterministic decision code around the container
orchestration of simphony-remote, a JupyterHub-based service that runs per-user
application containers:

- **Spawners** (`spawners.dfy`): the two JupyterHub spawners that launch
  `remoteappmanager` as a local process. The model covers how they rewrite the
  command line (`--base-url=` becomes `--base-urlpath=`, then the proxy API URL
  and the optional configuration file are added) and which environment they pass
  on (proxy token, the four `DOCKER_*` variables, `USER` and `HOME`). It also
  covers the lifecycle of a virtual user's temporary workspace: loading and
  saving it with the spawner state, clearing it, creating it once on start, and
  a clean-up that refuses to remove `/`, `.` or `..`. Python's `str.replace` is
  modelled by `ReplaceAll`. The calls to the host (`mkdtemp`, `rmtree`, process
  start and stop) are returned as an ordered trace of `HostCall`s. The outcomes
  of `mkdtemp` and of the process start are parameters. A failing `rmtree` is
  only logged by the source, so it has no parameter and no trace entry of its
  own. The stop has no outcome in the model.
- **Application resource** (`application.dfy`): the user's `applications` REST
  resource. Database rows become a table keyed by mapping identifier, in which
  the last duplicate wins. `items` lists the identifiers. `retrieve` is not found
  for an unknown identifier or a missing image. Otherwise it returns the image
  and the first running container. The container manager's lookups are function
  parameters, and the lookups made are returned as `Query`s.
- **Admin container handler** (`admin_container.dfy`): stopping a container is
  best effort. First the not-found check, then proxy unregistration, then stop
  and remove, each failure only logged. Listing makes one resource per
  container, keyed by its URL identifier. The calls made are returned as an
  ordered trace, and the failures are injected.
- **Database URL** (`dbutil.dfy`): the `dbutil` script's `--db` argument
  becomes `sqlite:///<arg>` when it has no colon, and is used unchanged
  otherwise.
- `docker.dfy` holds the Image and Container values that the container manager
  hands out. `wrappers.dfy` holds Option, Result and Outcome. `text.dfy` holds
  the prefix and suffix tests on strings.

The code and its tests disagree on one point, and the model follows the code.
`remoteappmanager/restresources/tests/test_application.py:77` expects a
`container` entry of `None` when nothing runs. The code at
`remoteappmanager/restresources/application.py:39-43` leaves the key out, so in
the model `container` is `None` (absent) exactly when the container list is
empty.

## Model

| member | source | states |
|---|---|---|
| `DbUtil.DatabaseUrl` | scripts/dbutil.py:5-9 | The result always contains a colon and ends with the argument. An argument with a colon is returned unchanged. One without a colon gets the `sqlite:///` prefix. |
| `DbUtil.SqliteFile` | scripts/dbutil.py:6-7 | Inverse of the prefixing: it yields a file name exactly for URLs starting with `sqlite:///`, and prefixing gives the URL back. |
| `DbUtil.FileNameRoundTrip` | scripts/dbutil.py:6-7 | An argument without a colon is recovered from the URL built for it. |
| `DbUtil.DatabaseUrlIdempotent` | scripts/dbutil.py:5-9 | Normalising twice equals normalising once. |
| `DbUtil.DatabaseUrlPreimage` | scripts/dbutil.py:6-9 | An argument gives a URL iff it is that URL and has a colon, or it has no colon and is the URL's file name after `sqlite:///`. |
| `DbUtil.DefaultDbUnchanged` | scripts/dbutil.py:20 | The default `sqlite:///sqlite.db` passes through unchanged and names the file `sqlite.db`. |
| `Spawners.ReplaceAll` | remoteappmanager/spawners.py:44 | Python's `str.replace` scans from the left: an occurrence at the start becomes the replacement, other text is copied unchanged, and replacing by a text at least as long never shortens the string. |
| `Spawners.ReplaceAllLength` | remoteappmanager/spawners.py:44 | Replacing with a longer text lengthens a string iff the pattern occurs in it. |
| `Spawners.ReplaceAllUnchanged` | remoteappmanager/spawners.py:44 | Replacing with a longer text leaves a string unchanged iff the pattern does not occur in it. |
| `Spawners.RewriteArg` | remoteappmanager/spawners.py:43-44 | Each base argument (both spawners rewrite them the same way, lines 120-124) has every `--base-url=` replaced by `--base-urlpath=`. It never gets shorter, and it is left as it is iff it holds no `--base-url=`. |
| `Spawners.RewriteRemovesBaseUrl` | remoteappmanager/spawners.py:43-44 | No rewritten argument still contains `--base-url=`. |
| `Spawners.BuildArgs` | remoteappmanager/spawners.py:40-51 | The output is every base argument rewritten, in order, then `--proxy-api-url=<url>`, then `--config-file=<path>` only when a path is configured (length base+1 or base+2). No rewritten argument contains `--base-url=`. |
| `Spawners.SystemUserSpawner.GetArgs` | remoteappmanager/spawners.py:40-51 | The system-user spawner's command line has the shape stated for BuildArgs, using its proxy URL and configuration file. |
| `Spawners.VirtualUserSpawner.GetArgs` | remoteappmanager/spawners.py:120-131 | The virtual-user spawner's command line has the same shape, using its own proxy URL and configuration file. |
| `Spawners.DockerEnvVars` | remoteappmanager/spawners.py:215-225 | Exactly those of `DOCKER_HOST`, `DOCKER_CERT_PATH`, `DOCKER_MACHINE_NAME`, `DOCKER_TLS_VERIFY` present in the environment, with their values. |
| `Spawners.DockerEnvVarsEmpty` | remoteappmanager/spawners.py:215-225 | The result is empty iff none of the four variables is set. |
| `Spawners.SpawnerEnv` | remoteappmanager/spawners.py:53-57 | Adds the proxy token to the base environment. The Docker variables then override it. Every other base entry is kept. |
| `Spawners.SystemUserSpawner.GetEnv` | remoteappmanager/spawners.py:53-57 | The system-user environment: base keys plus the token plus the Docker variables present, with the precedence above. |
| `Spawners.VirtualUserSpawner.GetEnv` | remoteappmanager/spawners.py:141-146 | The virtual-user environment has the user name, the home directory when a workspace exists, the proxy token and the Docker variables. Nothing else is added to the inherited keys, and every other inherited entry keeps its value. |
| `Spawners.VirtualUserSpawner.UserEnv` | remoteappmanager/spawners.py:133-139 | `USER` is always set to the user name. `HOME` is set to the workspace only when one exists. Every other entry is untouched. |
| `Spawners.SavedState` | remoteappmanager/spawners.py:110-114 | The saved state holds `virtual_workspace`, mapped to the workspace, when the workspace is non-empty. Otherwise it is the base state. Other keys are as in the base state. |
| `Spawners.LoadedWorkspace` | remoteappmanager/spawners.py:101-108 | The workspace after loading is the saved one when that is a non-empty path of an existing directory, and the current one otherwise. |
| `Spawners.StateRoundTrip` | remoteappmanager/spawners.py:101-114 | Saving then loading restores a workspace whose directory still exists. If the directory is gone, or there is no workspace, the current value is kept. |
| `Spawners.VirtualUserSpawner.LoadState` | remoteappmanager/spawners.py:101-108 | The field becomes LoadedWorkspace of its old value. Nothing else changes. |
| `Spawners.VirtualUserSpawner.GetState` | remoteappmanager/spawners.py:110-114 | Returns SavedState of the base state and the current workspace. |
| `Spawners.VirtualUserSpawner.ClearState` | remoteappmanager/spawners.py:116-118 | Resets the workspace to the empty string. |
| `Spawners.CleanupCalls` | remoteappmanager/spawners.py:194-212 | At most one removal, of the workspace itself. It happens iff the workspace is non-empty and does not normalise to `/`, `.` or `..`. |
| `Spawners.CleanupNeverRemovesProtected` | remoteappmanager/spawners.py:200-207 | Every removal targets a non-empty path that does not normalise to a protected one. |
| `Spawners.VirtualUserSpawner.CleanUpWorkspaceDir` | remoteappmanager/spawners.py:194-212 | Makes exactly the calls of CleanupCalls for the current workspace. It never changes the field, and a failing removal is swallowed. |
| `Spawners.VirtualUserSpawner.Start` | remoteappmanager/spawners.py:148-182 | A directory is created only when `workspace_dir` is set and no workspace exists, and before the process starts. A failed creation leaves the workspace empty. When the process start fails, clean-up runs and the same error is returned. |
| `Spawners.VirtualUserSpawner.Stop` | remoteappmanager/spawners.py:184-192 | Clean-up happens before the process is stopped, and the stop receives the caller's `now` flag. The workspace field is left as it is. |
| `Spawners.SystemUserSpawner.constructor` | remoteappmanager/spawners.py:31-38 | The spawner keeps the proxy URL, proxy token and configuration file it is given. Its command is `["remoteappmanager"]`. |
| `Spawners.VirtualUserSpawner.constructor` | remoteappmanager/spawners.py:84-93 | Same as the system-user spawner, plus the workspace parent and user name. Its command is `["remoteappmanager"]`, and it starts with no workspace. |
| `ApplicationResource.AppsTable` | remoteappmanager/restresources/application.py:14-16 | The table's keys are exactly the rows' mapping identifiers. |
| `ApplicationResource.LastRowWins` | remoteappmanager/restresources/application.py:15-21 | When mapping identifiers repeat, the last row's `(app, policy)` is the one used. |
| `ApplicationResource.Items` | remoteappmanager/restresources/application.py:47-53 | One identifier per row, in database order, each the row's mapping identifier. |
| `ApplicationResource.ItemsAreTableKeys` | remoteappmanager/restresources/application.py:15-18 | An identifier is listed by `items` iff `retrieve` finds it in the table. |
| `ApplicationResource.Retrieve` | remoteappmanager/restresources/application.py:8-45 | Not found with no lookups for an unknown identifier. Not found after only the image lookup when the image is gone. On success exactly two lookups are made, the image and then the user's containers for that identifier, and the result carries the requested identifier and the image, and `container` is present iff a container runs, and is then the first one. |
| `ApplicationResource.ListedIdentifiersRetrievable` | remoteappmanager/restresources/application.py:9-53 | Every identifier `items` lists is retrieved successfully when all the rows' images exist. |
| `AdminContainer.ResourceOf` | remoteappmanager/webapi/admin/container.py:64-68 | The resource is identified by the container's URL identifier and carries its Docker id and mapping id. |
| `AdminContainer.Delete` | remoteappmanager/webapi/admin/container.py:27-55 | The lookup comes first. If nothing is found the result is not found and nothing else is called. Otherwise the whole trace is fixed. Exactly one unregistration, with the container's URL path, comes before exactly one stop-and-remove, with its Docker id. Each failure only adds its log entry, so the request succeeds. |
| `AdminContainer.Items` | remoteappmanager/webapi/admin/container.py:57-70 | One resource per container, in order, each identified by the container's URL identifier. |

## Left out

- The container manager (`remoteappmanager/docker/container_manager.py`) is not part of this model. That covers start, stop, rollback and the duplicate-start guard that relies on coroutine interleaving. Its lookups and its stop-and-remove call appear only as parameters and trace entries.
- The reverse proxy client is not modelled. The model assumes a client with `unregister(urlpath)`, as `remoteappmanager/webapi/admin/container.py:40` calls it, and its failure is a flag. The `ReverseProxy` class in `remoteappmanager/services/reverse_proxy.py` defines only `add_container(container)` and `remove_container(container)`, which address the container's `absurlpath`. Against that class the call at line 40 fails with AttributeError and is logged, which is the model's `unregisterFails` case.
- `remoteappmanager/base_application.py` (tornado, jinja2 and traitlets wiring) has no decision logic and is not modelled.
- The base spawner (`LocalProcessSpawner`): the results of its `get_args`, `get_env`, `get_state` and `start` are parameters. Its `load_state` and `clear_state` parts are not modelled.
- `VirtualUserSpawner.make_preexec_fn` (`remoteappmanager/spawners.py:95-99`) is not modelled. It overrides the base spawner so that no function runs before the process starts, and the process therefore keeps the hub's user id and working directory.
- The proxy lookup in the spawners' constructors (the first `Proxy` row of the hub database) becomes the URL and token passed to the constructor.
- `os.path.normpath` is a function parameter, so the clean-up guard is stated for whatever normaliser the host provides. `os.path.isdir` is a set of existing directories. `os.environ` is a map parameter.
- The effects of `tempfile.mkdtemp` and `shutil.rmtree` on the file system are not modelled. Their calls appear in the trace, and the outcome of `mkdtemp` is a parameter. A failing `rmtree` is only logged by the source, so the model has no outcome for it.
- Spawners.VirtualUserSpawner.Stop: an exception raised by the base spawner's stop (`remoteappmanager/spawners.py:192`) propagates to the caller in the source. The model gives the stop no outcome, so that error path is not captured.
- Logging of the spawners is not modelled. The admin handler's logged exceptions are kept as trace entries.
- Spawners.VirtualUserSpawner.UserEnv: returns a new map, whereas the source updates the caller's dictionary in place and returns it, so aliasing is not captured.
- Errors raised by the container manager's `image`, `containers_from_mapping_id`, `find_container` and `find_containers` propagate unchanged in the source and are not modelled.
- `traitlets.as_dict` conversions and the `Unicode(allow_empty=False, strip=True)` validation of the admin Container resource are not modelled. Values are copied as they are.
- The `@authenticated` decorator, HTTP status mapping and the `items_response` object are not modelled.
- The application policy's fields are taken from the mock in `remoteappmanager/webapi/tests/test_application.py:50-55`. The modelled code never reads them.
- `dbutil` commands other than the `--db` normalisation (click and SQLAlchemy plumbing), and the `orm.Database` construction itself, are not modelled.
- The JavaScript views, the selenium and JavaScript tests, and the authenticator tests are user-interface or test harness code and are not modelled.

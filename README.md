# Docker module runtime, modelled in Dafny

This project models `DockerModuleRuntime` of the IoT Edge daemon
(`edgelet/docker-mri/src/runtime.rs`). That component is the adapter between
the edge agent's module lifecycle (create, start, stop, restart, remove,
list, and image pull and remove) and the Docker Engine API. It does five things:

- it checks the image name of pull and image remove, and the container id
  of start, stop, restart and remove, for emptiness after trimming; create
  does not check the spec's name;
- it merges a container's current `KEY=VALUE` environment with a module's
  declared environment;
- it attaches new containers to a configured network without clobbering
  existing endpoint settings;
- it serializes optional registry credentials into a credential header;
- it rebuilds module descriptors from the engine's container listing and
  skips records it cannot decode.

The engine is represented by the requests sent to it. Each checked
operation's request is built by a function or method that returns
`Result<Request>`: the request, or the error that stops it. The fixed
listing request needs no check and is a plain `Request`. The runtime object
keeps the log of requests it has sent (`issued`). The engine's reply is an
input of each method. An operation whose arguments fail the checks returns
the error and leaves the log unchanged.

Modules, one per component:

- `Types`: `Option`, `Result` and the error kinds.
- `Validation`: the trimmed-emptiness check.
- `Env`: `merge_env`. The spec function `MergedEnv` gives the merged map.
  The method `MergeEnv` builds it the way the source does and renders it.
  `Renders` says that a list holds exactly one `KEY=VALUE` string per key,
  in some order.
- `Models`: the engine's records, as far as the runtime touches them.
- `Network`: the network attachment as a spec function, with its lemmas.
- `Credentials`: `DockerRegistryAuthConfig`, its builders, and
  `serialize_registry_creds`.
- `Listing`: the owner label, the label filter and the descriptor pipeline
  of `list`.
- `Runtime`: the requests, each operation's request construction, and the
  `DockerModuleRuntime` class.

Two behaviours of the code are easy to misread, and the model follows the
code in both:

- In `merge_env` (`edgelet/docker-mri/src/runtime.rs:68-88`) the map is first
  extended with the declared environment and then with the current list, so
  on a key collision the current entry wins, not the declared one. The test
  at `edgelet/docker-mri/src/runtime.rs:492-501` expects `k2=v2` to survive
  a declared `k2=v02`. `Env.MergedEnvCurrentWins` states this.
- Container removal (`edgelet/docker-mri/src/runtime.rs:308`) passes
  `(false, true, true)` to `container_delete`. Read in the Engine API's
  parameter order (`v`, `force`, `link`), that is no volume removal, force
  and link removal. The model records the three flags in that order.

## Model

| member | source | states |
|---|---|---|
| Validation.EnsureNotEmpty | edgelet/docker-mri/src/runtime.rs:274-282 | a name or id is rejected with ArgumentEmpty exactly when it is empty or only whitespace; otherwise it passes unchanged |
| Validation.TrimEmptyIffBlank | edgelet/docker-mri/src/runtime.rs:443-461 | trimming leaves nothing exactly when every character is whitespace, so `""` and `"     "` are both rejected |
| Env.SplitEntry | edgelet/docker-mri/src/runtime.rs:77-80 | an entry splits at its first `=` only: the key holds no `=`, key + `=` + value gives the entry back, and an entry without `=` is a key with an empty value |
| Env.SplitEntryOfEntry | edgelet/docker-mri/src/runtime.rs:77-87 | splitting the rendered `key=value` of a key without `=` gives back that key and value |
| Env.ParseEnv | edgelet/docker-mri/src/runtime.rs:77-80 | the current list, extended entry by entry into a map, holds no more keys than the list has entries |
| Env.MergeEnv | edgelet/docker-mri/src/runtime.rs:68-88 | the returned list holds exactly one `key=value` string per key of the merged map (declared environment extended with the current list) |
| Env.ExtendWithEntries | edgelet/docker-mri/src/runtime.rs:74-81 | extending a map with the current list's entries one after the other gives the map updated by the parsed list |
| Env.Render | edgelet/docker-mri/src/runtime.rs:83-87 | the rendered list holds exactly one `key=value` string per key of the map, in some order |
| Env.ParseEnvKeys | edgelet/docker-mri/src/runtime.rs:74-80 | the keys the current list contributes are exactly the keys its entries name |
| Env.ParseEnvLastWins | edgelet/docker-mri/src/runtime.rs:74-80 | of several current entries with one key, the last gives the value |
| Env.MergedEnv | edgelet/docker-mri/src/runtime.rs:71-80 | every declared key and every key of the parsed current list is in the merged map |
| Env.MergedEnvKeys | edgelet/docker-mri/src/runtime.rs:71-80 | the merged key set is the union of the declared keys and the current list's keys |
| Env.MergedEnvCurrentWins | edgelet/docker-mri/src/runtime.rs:71-80 | a key named in the current list keeps its current value, even when the declared environment has a different one |
| Env.MergedEnvDeclaredOnly | edgelet/docker-mri/src/runtime.rs:71-72 | a declared key the current list does not name keeps its declared value, and with no current list the declared environment is the result |
| Env.RendersFacts | edgelet/docker-mri/src/runtime.rs:83-87 | a rendered list has one string per key, contains every key's string and nothing else |
| Env.MergeEnvEmpty | edgelet/docker-mri/src/runtime.rs:463-471 | an empty or absent current list merged with an empty map gives an empty list |
| Env.MergedNewEmptyExample | edgelet/docker-mri/src/runtime.rs:473-480 | `["k1=v1","k2=v2"]` merged with an empty map is the map k1 -> v1, k2 -> v2 |
| Env.MergeEnvNewEmptyExample | edgelet/docker-mri/src/runtime.rs:473-480 | its rendered list is exactly `k1=v1`, `k2=v2` |
| Env.MergedExtendExample | edgelet/docker-mri/src/runtime.rs:482-490 | `["k1=v1","k2=v2"]` merged with k3 -> v3 is the map of all three |
| Env.MergeEnvExtendExample | edgelet/docker-mri/src/runtime.rs:482-490 | its rendered list is exactly `k1=v1`, `k2=v2`, `k3=v3` |
| Env.MergedReplaceExample | edgelet/docker-mri/src/runtime.rs:492-501 | `["k1=v1","k2=v2"]` merged with k2 -> v02, k3 -> v3 keeps k2 -> v2 |
| Env.MergeEnvReplaceExample | edgelet/docker-mri/src/runtime.rs:492-501 | its rendered list is exactly `k1=v1`, `k2=v2`, `k3=v3` |
| Network.AttachNetwork | edgelet/docker-mri/src/runtime.rs:243-259 | with no network id the networking config is untouched; with one, the endpoint keys become the old keys plus the id, every existing entry is unchanged, and a new entry has default settings |
| Network.AttachNetworkIdempotent | edgelet/docker-mri/src/runtime.rs:253-255 | attaching the same network twice gives the same endpoint map as once |
| Network.AttachNetworkKeepsExistingEntry | edgelet/docker-mri/src/runtime.rs:253-255 | an existing entry for the network id is not replaced: the endpoint map is unchanged |
| Credentials.DefaultAuthConfig | edgelet/docker-mri/src/runtime.rs:110-119 | default credentials have all four fields absent |
| Credentials.DockerRegistryAuthConfig.WithUserName | edgelet/docker-mri/src/runtime.rs:126-129 | sets the user name and no other field |
| Credentials.DockerRegistryAuthConfig.WithPassword | edgelet/docker-mri/src/runtime.rs:135-138 | sets the password and no other field |
| Credentials.DockerRegistryAuthConfig.WithEmail | edgelet/docker-mri/src/runtime.rs:144-147 | sets the e-mail and no other field |
| Credentials.DockerRegistryAuthConfig.WithServer | edgelet/docker-mri/src/runtime.rs:153-156 | sets the server and no other field |
| Credentials.SerializeRegistryCreds | edgelet/docker-mri/src/runtime.rs:159-182 | absent credentials give exactly the empty header; present ones give the encoded object of their present fields |
| Credentials.AuthObject | edgelet/docker-mri/src/runtime.rs:162-176 | the credential object's members are among the four engine names, and each holds the value of the field it names |
| Credentials.AuthObjectFields | edgelet/docker-mri/src/runtime.rs:162-176 | the object has a `username`, `password`, `email` or `serveraddress` member exactly when that field is set, with its value, and no other member |
| Credentials.DefaultAuthObjectIsEmpty | edgelet/docker-mri/src/runtime.rs:159-181 | default credentials encode an empty object, which differs from the empty header of absent credentials |
| Credentials.UserPasswordObject | edgelet/docker-mri/src/runtime.rs:159-181 | credentials built with a user name and a password encode exactly those two members |
| Listing.ListFilters | edgelet/docker-mri/src/runtime.rs:26-32 | the filter has the single key `label`, mapped to the single owner label |
| Listing.DisplayName | edgelet/docker-mri/src/runtime.rs:338-343 | `"Unknown"` when no name is reported; otherwise the first name with its first character dropped |
| Listing.Descriptor | edgelet/docker-mri/src/runtime.rs:328-346 | a record whose configuration cannot be built yields no descriptor |
| Listing.Descriptors | edgelet/docker-mri/src/runtime.rs:325-347 | no more descriptors than records, and each descriptor is the one some record yields |
| Listing.DescriptorsAppend | edgelet/docker-mri/src/runtime.rs:326-347 | the descriptors of two runs of records are those of the first followed by those of the second (engine order is kept) |
| Listing.DescriptorsSkipFailed | edgelet/docker-mri/src/runtime.rs:328-346 | a record whose configuration or module cannot be built is dropped and the records around it are listed as usual |
| Listing.DescriptorsOfGoodRecord | edgelet/docker-mri/src/runtime.rs:328-346 | a record both constructors accept yields one descriptor, built with its display name and configuration |
| Listing.DescriptorsComplete | edgelet/docker-mri/src/runtime.rs:326-347 | every record whose descriptor can be built is in the result |
| Listing.DisplayNameUnknown | edgelet/docker-mri/src/runtime.rs:338-343 | a record with no reported name is displayed as "Unknown" |
| Listing.DisplayNameStripsSeparator | edgelet/docker-mri/src/runtime.rs:338-343 | a first name reported as `/name` is displayed as `name` |
| Runtime.GetBasePath | edgelet/docker-mri/src/runtime.rs:91-96 | the base path is the URL's path for the `unix` scheme and the whole URL otherwise |
| Runtime.PullRequest | edgelet/docker-mri/src/runtime.rs:190-202 | a blank name is an ArgumentEmpty error and no request; otherwise an image-create request for the name with the credential header |
| Runtime.RemoveImageRequest | edgelet/docker-mri/src/runtime.rs:204-212 | a blank name is an ArgumentEmpty error; otherwise an image-delete request with force and no-prune both false |
| Runtime.StartRequest | edgelet/docker-mri/src/runtime.rs:274-282 | a blank id is an ArgumentEmpty error; otherwise a container-start request for the id |
| Runtime.StopRequest | edgelet/docker-mri/src/runtime.rs:284-292 | a blank id is an ArgumentEmpty error; otherwise a container-stop request with grace period 10 |
| Runtime.RestartRequest | edgelet/docker-mri/src/runtime.rs:294-302 | a blank id is an ArgumentEmpty error; otherwise a container-restart request with grace period 10 |
| Runtime.RemoveRequest | edgelet/docker-mri/src/runtime.rs:304-312 | a blank id is an ArgumentEmpty error; otherwise a container-delete request with flags (false, true, true) |
| Runtime.ListRequest | edgelet/docker-mri/src/runtime.rs:314-324 | the listing asks for all containers, no limit, with sizes, filtered by the owner label alone |
| Runtime.CreateRequest | edgelet/docker-mri/src/runtime.rs:227-272 | a non-docker module type is an error and no request; otherwise a create request under the spec's name whose body has the spec's image, the merged environment, the attached network and the labels unchanged |
| Runtime.BlankArgumentIssuesNoRequest | edgelet/docker-mri/src/runtime.rs:443-461 | every checked operation fails on a blank argument |
| Runtime.RegistryRejectsEmptyAndSpaces | edgelet/docker-mri/src/runtime.rs:443-461 | `""` and a run of five spaces are rejected as an image name by pull and by image remove |
| Runtime.StartRejectsEmptyAndSpaces | edgelet/docker-mri/src/runtime.rs:528-562 | `""` and a run of six spaces are rejected as a container id by start |
| Runtime.DockerModuleRuntime.constructor | edgelet/docker-mri/src/runtime.rs:41-61 | the base path comes from the URL, no network is set and nothing has been sent |
| Runtime.DockerModuleRuntime.WithNetworkId | edgelet/docker-mri/src/runtime.rs:63-66 | sets the network id and sends nothing |
| Runtime.DockerModuleRuntime.Pull | edgelet/docker-mri/src/runtime.rs:190-202 | serializes the credentials, then sends the pull request or returns the argument error with nothing sent |
| Runtime.DockerModuleRuntime.RemoveImage | edgelet/docker-mri/src/runtime.rs:204-212 | sends the image-delete request or returns the argument error with nothing sent |
| Runtime.DockerModuleRuntime.Create | edgelet/docker-mri/src/runtime.rs:227-272 | sends nothing for a non-docker spec; otherwise logs one create request under the spec's name whose body has the spec's image, the merged environment, the attached network and the spec's labels unchanged, and returns the engine's reply |
| Runtime.DockerModuleRuntime.Start | edgelet/docker-mri/src/runtime.rs:274-282 | sends the start request or returns the argument error with nothing sent |
| Runtime.DockerModuleRuntime.Stop | edgelet/docker-mri/src/runtime.rs:284-292 | sends the stop request or returns the argument error with nothing sent |
| Runtime.DockerModuleRuntime.Restart | edgelet/docker-mri/src/runtime.rs:294-302 | sends the restart request or returns the argument error with nothing sent |
| Runtime.DockerModuleRuntime.Remove | edgelet/docker-mri/src/runtime.rs:304-312 | sends the container-delete request or returns the argument error with nothing sent |
| Runtime.DockerModuleRuntime.List | edgelet/docker-mri/src/runtime.rs:314-357 | sends the listing request; returns the engine's error unchanged, or the descriptors of the listed records |

## Left out

- The hyper client, `DockerConnector` and URI composition (runtime.rs:41-61) are not modelled. The URL is an abstract record (scheme, path, full text). The failures of `new` for an unsupported scheme or a missing socket come from `docker_connector`, which is not part of this model.
- Futures and the event loop are not modelled. Each operation returns its result directly, and the engine's reply is a parameter.
- Engine errors pass through unchanged. The conversion `Error::from` is not modelled.
- JSON encoding is abstract: the credential header is either the empty string or the object's member map, and the filter is a map. Member order and string escaping are not modelled.
- Serialization failures of the credentials and of the filter are not modelled. `serde_json` does not fail on maps of strings.
- The `serde_clone` failures at runtime.rs:233, 246 and 251 are not modelled. The copies are assumed to succeed.
- `DockerConfig::new` and `DockerModule::new` are defined elsewhere. They are parameters of the list pipeline (`ConfigBuilder`, `ModuleBuilder`).
- The `ensure_not_empty!` and `fensure_not_empty!` macros are defined elsewhere. They are modelled as the trimmed-emptiness check with Unicode whitespace, passing the untrimmed value on.
- `MODULE_TYPE` is defined in module.rs, which is not part of this model. It is taken to be `"docker"`.
- Listing.Descriptors: `&s[1..]` panics on an empty first name, and also when the first character takes more than one byte, because Rust slices strings by byte. The model requires a non-empty first name for each record whose configuration builds and drops one character, so it models neither panic.
- Env.MergeEnv: the order of the returned list follows `HashMap` iteration, which is unspecified. The contract states the list's contents, one string per key, and not its order.
- `registry()` returns the runtime itself. The class has `Pull` and `RemoveImage` directly, so there is no separate member for it.
- The getters of `DockerRegistryAuthConfig` are the datatype's fields.
- Only the image, env, labels and networking fields of the create body are represented. The runtime touches no other field.
- Cloning the client and concurrent use are not modelled.

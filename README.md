# crypt: the secret-operation orchestrator, modelled in Dafny

`crypt` stores configuration secrets in etcd or consul so that the values
are encrypted at rest. Its command line offers `get`, `list` and `set`.
Each command runs in one of two modes. In plaintext mode the value passes
through the store unchanged. In encrypted mode the value goes through a
cipher engine (`pgp` or `age`), which reads its key material from a
keyring file that the command opens.

This project models the orchestrator in `bin/crypt/cmd.go`: the six
operations `getPlain`, `setPlain`, `listPlain`, `getEncrypted`,
`setEncrypted` and `listEncrypted`, plus the two selection rules
`getBackendStore` and `getEncryptionEngine`. It also models the three rules
in `bin/crypt/main.go`: the version text, the command dispatch and the
flag defaults.

The model's parts:

- `types.dfy` (`Types`): bytes, the errors that reach a caller, and
  `Result`/`Outcome`, which stand for Go's `(T, error)` and `error` returns.
- `backend.dfy` (`Backend`): the store capability (Get, Set, List by
  prefix). A `Store` holds its pairs in listing order, so its abstract
  value `Contents()` is a map. Its `online` flag says whether the backend
  answers. Its ghost `calls` log records every request, in order.
- `keyring.dfy` (`Keyring`): the opened keyring file. A `Handle` has the
  file's bytes, a read offset, a ghost open flag and a ghost `history` of
  every read. `Keyring.Open` is `os.Open` over a file system given as a
  map from path to contents.
- `secconf.dfy` (`Secconf`): the `Secconf` interface. An `Engine` is a
  pair of total functions, `encode` and `decode`, either of which may
  fail. Calling an engine on a handle reads the key material from the
  handle's offset to its end. The envelope round trip is the predicate
  `RoundTrips`. It is never assumed; it is only a hypothesis of the
  statements that need it.
- `cmd.dfy` (`Cmd`): the six operations and the two selection rules.
  Each encrypted operation returns the handle it opened as a ghost
  out-parameter, which lets its contract state that the handle was
  closed. The decode loop of `listEncrypted` is the method
  `DecodeInPlace`. It keeps the source's in-place overwrite of the listed
  array, and `ListEncrypted` calls it.
- `main.dfy` (`Cli`): `Dispatch`, the flag defaults and `BuildVersion`.

## Model

| member | source | states |
|---|---|---|
| `Backend.LookupToMap` | bin/crypt/cmd.go:80-87 | a search of the store's listing finds exactly the value the store's map holds at the key, and finds nothing when the key is absent |
| `Backend.ToMapPut` | bin/crypt/cmd.go:204-207 | writing a key changes the store's map at that key to the new value and leaves every other key as it was |
| `Backend.PutUniqueKeys` | bin/crypt/cmd.go:204-207 | a write keeps every key of the store unique |
| `Backend.WithPrefix` | bin/crypt/cmd.go:151-157 | a listing by prefix returns only stored pairs whose key starts with the prefix, and no more pairs than the store holds |
| `Backend.MemberToMap` | bin/crypt/cmd.go:151-157 | in a store with unique keys, every stored pair carries the map's value for its key |
| `Backend.WithPrefixComplete` | bin/crypt/cmd.go:151-157 | every key of the map that starts with the prefix appears in the listing |
| `Backend.ListingIsContents` | bin/crypt/cmd.go:151-157 | a listing by prefix is exactly the part of the store's map under that prefix: sound and complete |
| `Backend.Store.Get` | bin/crypt/cmd.go:82 | Get logs one request and answers the map's value, KeyNotFound when the key is absent, or Unavailable when the backend is down |
| `Backend.Store.Set` | bin/crypt/cmd.go:205 | Set logs one request; when the backend answers, the map changes at the key only, and otherwise nothing changes and Unavailable is returned |
| `Backend.Store.List` | bin/crypt/cmd.go:152 | List logs one request and returns a fresh array holding the prefix listing in store order, or Unavailable |
| `Keyring.Open` | bin/crypt/cmd.go:64-67 | opening succeeds exactly when the path exists, giving an open handle at offset 0 over the file's bytes; otherwise it fails with OpenFailed(path) |
| `Keyring.Handle.ReadAll` | encoding/secconf/openpgp/engine.go:23 | a read returns the bytes from the offset to the end, leaves the offset at the end and is logged |
| `Keyring.Handle.Rewind` | bin/crypt/cmd.go:143 | `Seek(0, 0)` puts the offset back at the first byte |
| `Keyring.Handle.Close` | bin/crypt/cmd.go:68 | the deferred Close leaves the handle closed |
| `Secconf.Decode` | encoding/secconf/secconf.go:8 | Decode yields the engine's decode of the envelope against the key material from the handle's offset on, and consumes that material |
| `Secconf.Encode` | encoding/secconf/secconf.go:9 | Encode yields the engine's encode of the data for the key material from the handle's offset on, and consumes that material |
| `Cmd.GetPlain` | bin/crypt/cmd.go:80-87 | getPlain makes one Get request and returns the stored bytes unchanged, or the store's error |
| `Cmd.SetPlain` | bin/crypt/cmd.go:204-207 | setPlain makes one Set request, storing exactly the given bytes at the key and changing nothing else, or fails with the store's error and leaves the store as it was |
| `Cmd.ListPlain` | bin/crypt/cmd.go:151-157 | listPlain makes one List request and returns the stored pairs under the prefix unchanged, in store order, each with the map's value, and none missing |
| `Cmd.SetThenGetPlain` | bin/crypt/cmd.go:204-207 | setPlain(k, d) followed by getPlain(k) returns d byte for byte, for any d including empty data, whenever the backend answers |
| `Cmd.GetEncrypted` | bin/crypt/cmd.go:62-78 | the keyring is opened before the store is read; a failed open returns OpenFailed without any store request; otherwise there is exactly one Get, the result is the store's error or exactly Decode of the stored value against the whole keyring, and the handle ends closed |
| `Cmd.SetEncrypted` | bin/crypt/cmd.go:209-221 | a failed open or a failed Encode returns that error with the store untouched and no Set request; otherwise exactly Encode(d, keyring) is written at the key and nowhere else; the handle ends closed |
| `Cmd.SetThenGetEncrypted` | bin/crypt/cmd.go:209-221 | with an engine that round-trips on the two keyrings, a successful setEncrypted followed by getEncrypted returns the data; the set succeeds exactly when the backend answers and Encode succeeds |
| `Cmd.DecodedListSucceeds` | bin/crypt/cmd.go:141-148 | a listing decodes exactly when every entry decodes, and then the result has the same number of pairs and the same keys in the same order, each value replaced by its decoding |
| `Cmd.DecodedListFails` | bin/crypt/cmd.go:141-146 | a listing that does not decode fails with the error of its first failing entry, every earlier entry having decoded |
| `Cmd.PrefixFailure` | bin/crypt/cmd.go:144-146 | once a prefix of the listing has failed, the later entries do not affect the outcome |
| `Cmd.DecodedListStep` | bin/crypt/cmd.go:141-147 | decoding one more entry on top of a decoded prefix either appends its decoded pair or fails with its error |
| `Cmd.DecodeEntry` | bin/crypt/cmd.go:142-143 | one pass decodes entry i against the whole keyring, overwrites only that entry's value (with the decoding, or empty bytes on failure), and leaves the keyring rewound with one more read logged |
| `Cmd.DecodeInPlace` | bin/crypt/cmd.go:141-147 | the loop overwrites each value in place with its decoding and rewinds after every Decode; every Decode reads the full keyring; it stops at the first failure, so entries after it are never decoded |
| `Cmd.ListEncrypted` | bin/crypt/cmd.go:130-149 | the keyring is opened before List, and a failed open makes no request; on success the result is the listing with every value decoded, keys and order kept; on a decode failure the result is that entry's error and no list; every Decode saw the whole keyring; the handle ends rewound and closed |
| `Cmd.GetBackendStore` | bin/crypt/cmd.go:223-241 | only "etcd" and "consul" are accepted; any other provider fails with "invalid backend " + provider; the machine list has one element, the endpoint as given when non-empty, else "127.0.0.1:8500" for consul and "http://127.0.0.1:4001" for etcd |
| `Cmd.BackendNamesSelect` | bin/crypt/cmd.go:233-240 | each backend kind is selected by its own name, with any endpoint |
| `Cmd.GetEncryptionEngine` | bin/crypt/cmd.go:243-252 | only "pgp" and "age" are accepted, each selecting the engine of that name; any other name fails with "invalid encryption engine " + name |
| `Cmd.EngineNamesSelect` | bin/crypt/cmd.go:244-249 | each engine kind is selected by its own name |
| `Cli.Dispatch` | bin/crypt/main.go:52-72 | fewer than two arguments, or a command other than set, get, list and version, go to help; each of the four goes to the handler of that name |
| `Cli.DispatchByName` | bin/crypt/main.go:58-67 | each of set, get, list and version reaches its own handler whatever follows it |
| `Cli.DefaultsSelectLocalEtcdAndPgp` | bin/crypt/main.go:33-39 | the flag defaults `DefaultFlags` are backend "etcd", endpoint "", plaintext false and engine "pgp", and they select etcd at http://127.0.0.1:4001 and the pgp engine |
| `Cli.BuildVersion` | bin/crypt/main.go:90-100 | the text starts with "crypt version " + version, followed by the commit, built-at and built-by lines in that order, each present only when its value is non-empty; with all three empty it is exactly "crypt version " + version |
| `Cli.DefaultBuildVersion` | bin/crypt/main.go:14 | a build with nothing linked in reports "crypt version dev" |

## Left out

- The engine bodies in `encoding/secconf/openpgp/engine.go` and `encoding/secconf/age/engine.go` are not modelled. Each is a fixed base64(cipher(gzip(data))) pipeline over library code (RFC 4648 base64, RFC 1952 gzip, RFC 4880 OpenPGP, age) that this model does not include. An engine is a parameter, and the envelope round trip is only the hypothesis `RoundTrips`.
- How much of the keyring an engine reads is fixed: a call reads from the handle's offset to its end. Both engines parse the entire key ring, so the model assumes this rather than deriving it.
- `Keyring.Open`: the only way `os.Open` can fail here is a missing path. Permission and I/O errors are not modelled. The source ignores the errors of `Seek` (cmd.go:143) and of the deferred `Close`, and so does the model.
- `Cmd.GetBackendStore` returns the backend kind and the machine list that `etcd.New` or `consul.New` would receive. Building the client, and the errors those constructors can return, are network-bound code that is not part of this model.
- The concrete backends are not part of this model (and the `backend` package is not either). `Store` stands for them. A backend that cannot be reached is the `online` flag. Keys are unique and listings come back in stored order.
- `Backend.Store`: `online` is fixed for a store's lifetime, and a backend that answers never rejects a request. So the success conditions of `Cmd.SetThenGetPlain` and `Cmd.SetThenGetEncrypted` ("the set succeeds exactly when the backend answers") rest on that abstraction. A backend that goes down between two requests, or refuses one write, is not modelled.
- `Secconf.Engine`: `encode` is a function, so the model's Encode is deterministic. Both real engines draw fresh randomness for every envelope (encoding/secconf/openpgp/engine.go:52, encoding/secconf/age/engine.go:53). Nothing in the model compares two envelopes of the same data, so no statement depends on this.
- `backend.KVPairs` is a slice of pointers to pairs. The model uses an array of pair values, so the in-place write `data[i].Value = …` becomes an update of `data[i]`. No aliasing exists between the listed pairs and the store.
- Go's nil results appear as `Err` and `Fail`, or as empty bytes where `listEncrypted` stores a failed decode's value before it returns.
- CLI mechanics are left out: `getCmd`, `listCmd`, `setCmd` and `versionCmd` (cmd.go:19-60, 89-128, 159-202), flag parsing, usage text, `fmt.Printf` output, `ioutil.ReadFile`, `log.Fatal` and `os.Exit`. `help` appears only as the `Help` command; it has no command word of its own, and `main` reaches it through its default case (main.go:69-70).
- The per-command keyring defaults (".secring.gpg" for get and list, ".pubring.gpg" for set) and the `Version` default "dev" are recorded as constants only.
- The module-version line of `buildVersion` (main.go:101-103) is left out, because it depends on runtime build metadata from `debug.ReadBuildInfo`.

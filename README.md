# Hetzner node-group manager, modelled in Dafny

This project models the control logic of the Hetzner Cloud provider of the
Kubernetes cluster autoscaler (`hetzner_manager.go`). It covers:

- how the manager is built from the process environment. The checks run in a
  fixed order: the token, the cloud-init payload, the name template, then
  base64 decoding of the payload. The image has a default, and the SSH keys
  are the comma-split of one variable.
- the node-group registry. It starts with a single draining sentinel group,
  whose `targetSize` counts the nodes staged for deletion.
- the key by which a cluster node's server is looked up. This is the provider
  ID without the `hcloud://` prefix, or else the node's name.
- deleting the server behind a node, and listing a group's servers, through
  an abstract API client.

Modules, one file each:

- `Wrappers` (wrappers.dfy): the `Option` and `Result` types.
- `Base64` (base64.dfy): Go's `base64.StdEncoding.DecodeString`, written out
  as RFC 4648, section 4, with line breaks skipped and a non-strict last
  quantum. `Encode` is there as the partner for the round trip.
- `GoStrings` (gostrings.dfy): `strings.Split`, `strings.Join` and
  `strings.TrimPrefix`.
- `HCloud` (hcloud.dfy): the remote API as an oracle value `Api`, which holds
  the answers to `Server.Get`, `Server.Delete` and `Server.AllWithOpts`. A
  `Client` class records each request it issues in ghost logs.
- `HetznerManager` (manager.dfy): the configuration checks as the pure
  function `ParseConfig`, and `NewManager`. `NodeGroup` and `Manager` are
  classes, because the source updates a group's `targetSize` in place through
  the pointer stored in the registry map.
- `Scenarios` (scenarios.dfy): clients proved from the contracts alone. They
  cover start-up, three drains, deleting a node whose server is unknown, and
  N drains in a row.

Behaviour of the code that a reader might not expect, which the model keeps:

- An unset `HCLOUD_SSH_KEY` gives the one-element list `[""]`, not an empty
  list.
- `serverForNode` reports a missing server as a nil server without an error.
  Only `deleteByNode` turns that into an error (`NodeServerNotFound`), and it
  wraps a failed lookup in its own error (`DeleteNodeFailed`).
- The registry code here does no duplicate-id check. There is also no
  registration operation beyond the sentinel's insertion.
- The draining counter is a plain in-place increment with no locking.

## Model

| member | source | states |
|---|---|---|
| `HetznerManager.ParseConfig` | cluster-autoscaler/cloudprovider/hetzner/hetzner_manager.go:95-137 | Errors come in order: token unset, else payload unset, else a set template that does not parse, else a payload that is not base64. It succeeds exactly when none applies. On success the token is the env value, the payload is the base64 decoding, the image is the value or "ubuntu-20.04" when unset, and the template is kept only when set. The SSH keys are at least one comma-free piece, they join back to the env value, and they are `[""]` when unset. |
| `HetznerManager.SshKeysAreTheSplit` | cluster-autoscaler/cloudprovider/hetzner/hetzner_manager.go:122 | Any non-empty list of comma-free keys that joins with "," to `HCLOUD_SSH_KEY` is exactly the configured `sshKeys`. |
| `HetznerManager.NewManager` | cluster-autoscaler/cloudprovider/hetzner/hetzner_manager.go:95-152 | On a failed check it returns no manager and that error. Otherwise it returns a fresh manager and a fresh idle client for the token. The fields hold the configuration, the registry keys are exactly {drainingNodePoolId}, and the sentinel's count is 0. |
| `HetznerManager.Manager.constructor` | cluster-autoscaler/cloudprovider/hetzner/hetzner_manager.go:131-149 | The fields come from the configuration. The registry holds only the fresh sentinel: id drainingNodePoolId, "cx11", "fsn1", min = max = target = 0, back-pointer to the manager. |
| `HetznerManager.NodeGroup.constructor` | cluster-autoscaler/cloudprovider/hetzner/hetzner_manager.go:141-149 | Every field of the group descriptor holds the given value. |
| `HetznerManager.Manager.AddNodeToDrainingPool` | cluster-autoscaler/cloudprovider/hetzner/hetzner_manager.go:193-196 | It never returns an error and returns the registry's draining group. It raises that group's targetSize by exactly 1 and keeps the sentinel invariant. The map, the group's other fields, every other group's targetSize and the client (no API request) are unchanged. |
| `HetznerManager.Manager.Refresh` | cluster-autoscaler/cloudprovider/hetzner/hetzner_manager.go:156-158 | It always returns no error. |
| `HetznerManager.LookupKey` | cluster-autoscaler/cloudprovider/hetzner/hetzner_manager.go:199-204 | With no provider ID, the key is the node name. With a provider ID that starts with the prefix, the prefix plus the key gives the provider ID back. With any other provider ID, the key is the provider ID itself. |
| `HetznerManager.LookupKeyStripsPrefix` | cluster-autoscaler/cloudprovider/hetzner/hetzner_manager.go:200-201 | A provider ID of the form prefix + id resolves to id for any node name. Only one prefix is stripped. |
| `HetznerManager.LookupKeyIgnoresName` | cluster-autoscaler/cloudprovider/hetzner/hetzner_manager.go:199-204 | Nodes with the same non-empty provider ID resolve to the same key, whatever their names. |
| `HetznerManager.Manager.ServerForNode` | cluster-autoscaler/cloudprovider/hetzner/hetzner_manager.go:198-211 | It issues exactly one Get, with the node's lookup key. It returns the answer's server, or nil when there is none, or the answer's error wrapped. |
| `HetznerManager.Manager.DeleteServer` | cluster-autoscaler/cloudprovider/hetzner/hetzner_manager.go:188-191 | It issues exactly one Delete, of the given server, and returns its error unchanged. |
| `HetznerManager.Manager.DeleteByNode` | cluster-autoscaler/cloudprovider/hetzner/hetzner_manager.go:175-186 | It does one lookup under the node's key. If the lookup errors or finds no server, no delete is issued and the matching error is returned. Otherwise there is exactly one delete, of the found server, and its error is passed on. |
| `HetznerManager.ServerListOptions` | cluster-autoscaler/cloudprovider/hetzner/hetzner_manager.go:161-164 | Page size 50, page 0. The selector is nodeGroupLabel, then "=", then the group name. |
| `HetznerManager.ServerListOptionsInjective` | cluster-autoscaler/cloudprovider/hetzner/hetzner_manager.go:163 | Different node groups get different label selectors. |
| `HetznerManager.Manager.AllServers` | cluster-autoscaler/cloudprovider/hetzner/hetzner_manager.go:160-173 | It issues exactly one listing, with those options, and returns the servers or the wrapped error. |
| `HCloud.Client.constructor` | cluster-autoscaler/cloudprovider/hetzner/hetzner_manager.go:124 | The client is bound to the token and has issued no request. |
| `HCloud.Client.Get` | cluster-autoscaler/cloudprovider/hetzner/hetzner_manager.go:206 | It returns the API's answer for the key and logs the request. |
| `HCloud.Client.Delete` | cluster-autoscaler/cloudprovider/hetzner/hetzner_manager.go:189 | It returns the API's error for that server and logs the delete. |
| `HCloud.Client.AllWithOpts` | cluster-autoscaler/cloudprovider/hetzner/hetzner_manager.go:167 | It returns the API's answer for the options and logs the listing. |
| `Base64.DecodeEncode` | cluster-autoscaler/cloudprovider/hetzner/hetzner_manager.go:126-129 | Decoding the padded standard encoding of any byte string gives that byte string back. |
| `Base64.SkipLineBreaks` | cluster-autoscaler/cloudprovider/hetzner/hetzner_manager.go:126 | The decoder's view of the input: no line break is left and the result is no longer than the input. Input without line breaks is kept as it is (`SkipLineBreaksIdentity`), and concatenation is preserved (`SkipLineBreaksAppend`). |
| `Base64.Decode` | cluster-autoscaler/cloudprovider/hetzner/hetzner_manager.go:126-129 | Quantum-by-quantum decoding after CR/LF removal. It succeeds exactly when the input, with line breaks removed, is one of these: empty; full alphabet quanta; or full quanta followed by a last quantum `xx==` or `xxx=`. Its round trip with `Encode` is `DecodeEncode`. |
| `Base64.DecodeQuantaSucceeds` | cluster-autoscaler/cloudprovider/hetzner/hetzner_manager.go:126 | Decoding quantum by quantum succeeds exactly on the well-formed inputs. |
| `Base64.DecodeQuantum` | cluster-autoscaler/cloudprovider/hetzner/hetzner_manager.go:126 | A quantum yields 1 to 3 bytes. Fewer than 3 only when it is the last quantum. |
| `Base64.DecodeLength` | cluster-autoscaler/cloudprovider/hetzner/hetzner_manager.go:126-129 | A decodable input has a length that is a multiple of 4 once line breaks are removed. It yields between 3n-2 and 3n bytes for n quanta. |
| `Base64.DecodeHello` | cluster-autoscaler/cloudprovider/hetzner/hetzner_manager.go:126 | "aGVsbG8=" decodes to the bytes of "hello". |
| `Base64.PaddingMustEndInput` | cluster-autoscaler/cloudprovider/hetzner/hetzner_manager.go:126-129 | For every input: a "=" before the last quantum, once line breaks are removed, makes decoding fail. |
| `Base64.PaddingMustEndInputExample` | cluster-autoscaler/cloudprovider/hetzner/hetzner_manager.go:126 | Example: "aA==aA==" does not decode. |
| `Base64.LineBreaksSkipped` | cluster-autoscaler/cloudprovider/hetzner/hetzner_manager.go:126 | For all inputs a and b: inserting one "\r" or "\n" between them does not change the result of decoding. |
| `Base64.LineBreakInPadding` | cluster-autoscaler/cloudprovider/hetzner/hetzner_manager.go:126 | Example inside the padding: "aG=\n=" decodes like "aG==". |
| `Base64.TrailingBitsIgnored` | cluster-autoscaler/cloudprovider/hetzner/hetzner_manager.go:126 | The decoder is not strict. Behind any full quanta of alphabet characters, a last quantum `xyz=` of alphabet characters decodes. It decodes alike for any two third characters whose sextets differ only in the two low bits. |
| `Base64.TrailingBitsIgnoredTwoPads` | cluster-autoscaler/cloudprovider/hetzner/hetzner_manager.go:126 | The same for a last quantum `xy==` behind full quanta: it decodes alike for any two second characters whose sextets differ only in the four low bits. |
| `Base64.DecodeQuantaSameLast` | cluster-autoscaler/cloudprovider/hetzner/hetzner_manager.go:126 | Behind full alphabet quanta, two last quanta that decode alike give inputs that decode alike, and successfully when the last quantum does. |
| `Base64.TrailingBitsIgnoredExample` | cluster-autoscaler/cloudprovider/hetzner/hetzner_manager.go:126 | Example: "aGk=" and "aGl=" both decode to the bytes of "hi". |
| `GoStrings.Split` | cluster-autoscaler/cloudprovider/hetzner/hetzner_manager.go:122 | The split has at least one piece, and no piece contains the separator. |
| `GoStrings.JoinSplit` | cluster-autoscaler/cloudprovider/hetzner/hetzner_manager.go:122 | Joining the split with the separator gives the original string. |
| `GoStrings.SplitJoin` | cluster-autoscaler/cloudprovider/hetzner/hetzner_manager.go:122 | Splitting the join of a non-empty list of separator-free pieces gives the list back. |
| `GoStrings.TrimPrefix` | cluster-autoscaler/cloudprovider/hetzner/hetzner_manager.go:201 | If s starts with the prefix, then the prefix plus the result is s. Otherwise the result is s. |
| `GoStrings.TrimPrefixOfConcat` | cluster-autoscaler/cloudprovider/hetzner/hetzner_manager.go:201 | Trimming prefix + t gives exactly t: only one occurrence is removed. |
| `Scenarios.StartupEnvIsValid` | cluster-autoscaler/cloudprovider/hetzner/hetzner_manager.go:95-129 | Token "t1" with payload "aGVsbG8=" passes every check, and the payload decodes to "hello". |
| `Scenarios.Startup` | cluster-autoscaler/cloudprovider/hetzner/hetzner_manager.go:95-152 | That environment builds a manager with one group, the sentinel at 0, cloudInit "hello", the default image and the SSH keys `[""]`. |
| `Scenarios.DrainThree` | cluster-autoscaler/cloudprovider/hetzner/hetzner_manager.go:193-196 | Three drains after start-up leave the counter at 3, and the returned manager's client has issued no API request. |
| `Scenarios.DeleteUnknownNode` | cluster-autoscaler/cloudprovider/hetzner/hetzner_manager.go:175-186 | A node whose server the API does not know gets `NodeServerNotFound`. The returned manager's client has issued exactly one Get, under the node's lookup key, and no delete or listing. |
| `Scenarios.DrainEach` | cluster-autoscaler/cloudprovider/hetzner/hetzner_manager.go:193-196 | N drains in a row raise the counter by exactly N and leave the registry map unchanged. |

## Left out

- The hcloud client's transport: HTTP, authentication, pagination, retries and `context.Context`. The API is an oracle that gives one fixed answer per request, so it cannot answer differently to the same request at a later time.
- Go's `text/template`: whether a template parses is the parameter `templateParses`. Rendering is not modelled, and neither is the `nameTemplateFuncMap` catalogue, which binds Go's `strings` functions.
- `os.Getenv`: the environment is an input map, and a missing key reads as "".
- Error message texts: only the kind of each error and its cause are modelled.
- The `version` variable, which nothing reads. The manager's `apiCallContext` field, which every client call receives, is left out with `context.Context` above.
- Concurrency: the source takes no lock around the draining counter, and the model is sequential.
- `HetznerManager.Manager.AddNodeToDrainingPool`: does not model 64-bit wrap-around of `targetSize`, which would need 2^63 drains.
- The constants `drainingNodePoolId`, `providerIDPrefix` and `nodeGroupLabel` are declared in a provider file that is not part of this model. They get the values "draining-node-pool", "hcloud://" and "hcloud/node-group". `LookupKeyStripsPrefix` uses only that `ProviderIDPrefix` is non-empty, which holds for "hcloud://"; no other proof depends on the values.
- Strings are modelled as sequences of characters, while Go's are bytes. This makes no difference for the ASCII separator "," and prefix "hcloud://". A non-ASCII character in the payload is rejected by the decoder either way.
- The bytes Go's decoder writes before it meets an error are not modelled, because `newManager` discards them.
- A payload made only of line breaks passes both the emptiness check and decoding, and yields an empty cloud-init. The model keeps this behaviour of the code.

/**
  The Hetzner node-group manager of the cluster autoscaler: construction from
  the environment (fail-fast configuration checks, image default, SSH-key
  split, base64 decoding of the cloud-init payload, the initial registry with
  its draining sentinel), the draining counter, the choice of the key by which
  a cluster node is looked up, and deletion of the server behind a node.

  The name template is handed to Go's `text/template`: whether it parses is
  the `templateParses` parameter. The remote API is the `Api` value of the
  manager's `Client` (module HCloud).
*/
module HetznerManager {
  import opened Wrappers
  import Base64
  import GoStrings
  import opened HCloud

  // Constants declared in the provider's other files. LookupKeyStripsPrefix uses only
  // that ProviderIDPrefix is non-empty; no other proof depends on their values.
  const DrainingNodePoolId: string := "draining-node-pool"
  const ProviderIDPrefix: string := "hcloud://"
  const NodeGroupLabel: string := "hcloud/node-group"

  const TokenKey: string := "HCLOUD_TOKEN"
  const CloudInitKey: string := "HCLOUD_CLOUD_INIT"
  const ImageKey: string := "HCLOUD_IMAGE"
  const NameTemplateKey: string := "HCLOUD_NAME_TEMPLATE"
  const SshKeyKey: string := "HCLOUD_SSH_KEY"

  const DefaultImage: string := "ubuntu-20.04"
  const DrainingInstanceType: string := "cx11"
  const DrainingRegion: string := "fsn1"
  const ServersPerPage: int := 50

  /** The process environment; a variable that is not set reads as "" (`os.Getenv`). */
  type Env = map<string, string>

  function Getenv(env: Env, key: string): string {
    if key in env then env[key] else ""
  }

  /** Which configuration check failed; the message texts are not modelled. */
  datatype ConfigError =
    | TokenNotSpecified
    | CloudInitNotSpecified
    | NameTemplateInvalid
    | CloudInitInvalid

  /** The validated configuration a manager is built from. */
  datatype Config = Config(
    token: string,
    cloudInit: seq<Base64.byte>,
    image: string,
    nameTemplate: Option<string>,
    sshKeys: seq<string>)

  /**
    The checks of `newManager`, in their order: an unset token, an unset
    cloud-init payload, a name template that does not parse, a payload that is
    not base64. The SSH-key split cannot fail.
  */
  function ParseConfig(env: Env, templateParses: string -> bool): (r: Result<Config, ConfigError>)
    ensures Getenv(env, TokenKey) == "" ==> r == Err(TokenNotSpecified)
    ensures Getenv(env, TokenKey) != "" && Getenv(env, CloudInitKey) == "" ==> r == Err(CloudInitNotSpecified)
    ensures Getenv(env, TokenKey) != "" && Getenv(env, CloudInitKey) != "" &&
            Getenv(env, NameTemplateKey) != "" && !templateParses(Getenv(env, NameTemplateKey)) ==>
              r == Err(NameTemplateInvalid)
    ensures r == Err(CloudInitInvalid) <==>
              Getenv(env, TokenKey) != "" && Getenv(env, CloudInitKey) != "" &&
              (Getenv(env, NameTemplateKey) == "" || templateParses(Getenv(env, NameTemplateKey))) &&
              Base64.Decode(Getenv(env, CloudInitKey)).None?
    ensures r.Ok? <==>
              Getenv(env, TokenKey) != "" && Getenv(env, CloudInitKey) != "" &&
              (Getenv(env, NameTemplateKey) == "" || templateParses(Getenv(env, NameTemplateKey))) &&
              Base64.Decode(Getenv(env, CloudInitKey)).Some?
    ensures r.Ok? ==> r.value.token == Getenv(env, TokenKey)
    ensures r.Ok? ==> Base64.Decode(Getenv(env, CloudInitKey)) == Some(r.value.cloudInit)
    ensures r.Ok? ==> r.value.image == if Getenv(env, ImageKey) == "" then DefaultImage else Getenv(env, ImageKey)
    ensures r.Ok? ==>
              r.value.nameTemplate == (if Getenv(env, NameTemplateKey) == "" then None else Some(Getenv(env, NameTemplateKey)))
    ensures r.Ok? ==> |r.value.sshKeys| >= 1 && GoStrings.Join(r.value.sshKeys, ',') == Getenv(env, SshKeyKey)
    ensures r.Ok? ==> forall i, j :: 0 <= i < |r.value.sshKeys| && 0 <= j < |r.value.sshKeys[i]| ==>
              r.value.sshKeys[i][j] != ','
    ensures r.Ok? && Getenv(env, SshKeyKey) == "" ==> r.value.sshKeys == [""]
  {
    var token := Getenv(env, TokenKey);
    var cloudInitBase64 := Getenv(env, CloudInitKey);
    var imageValue := Getenv(env, ImageKey);
    var templateSource := Getenv(env, NameTemplateKey);
    if token == "" then Err(TokenNotSpecified)
    else if cloudInitBase64 == "" then Err(CloudInitNotSpecified)
    else if templateSource != "" && !templateParses(templateSource) then Err(NameTemplateInvalid)
    else
      var sshKeys := GoStrings.Split(Getenv(env, SshKeyKey), ',');
      GoStrings.JoinSplit(Getenv(env, SshKeyKey), ',');
      match Base64.Decode(cloudInitBase64)
      case None => Err(CloudInitInvalid)
      case Some(cloudInit) =>
        Ok(Config(
          token,
          cloudInit,
          if imageValue == "" then DefaultImage else imageValue,
          if templateSource == "" then None else Some(templateSource),
          sshKeys))
  }

  /** The configured SSH keys are exactly the comma-free pieces that join back to the variable's value. */
  lemma SshKeysAreTheSplit(env: Env, templateParses: string -> bool, keys: seq<string>)
    requires ParseConfig(env, templateParses).Ok?
    requires |keys| >= 1 && GoStrings.Join(keys, ',') == Getenv(env, SshKeyKey)
    requires forall i, j :: 0 <= i < |keys| && 0 <= j < |keys[i]| ==> keys[i][j] != ','
    ensures ParseConfig(env, templateParses).value.sshKeys == keys
  {
    var parsed := ParseConfig(env, templateParses).value.sshKeys;
    GoStrings.SplitJoin(keys, ',');
    GoStrings.SplitJoin(parsed, ',');
  }

  /** A cluster node as the manager reads it: its name and `Spec.ProviderID` ("" when not set). */
  datatype Node = Node(name: string, providerID: string)

  /**
    The id or name under which `serverForNode` asks the API for a node's
    server: the provider ID without one leading `ProviderIDPrefix` when the
    node has one, otherwise the node's name.
  */
  function LookupKey(node: Node): (key: string)
    ensures node.providerID == "" ==> key == node.name
    ensures node.providerID != "" && ProviderIDPrefix <= node.providerID ==> ProviderIDPrefix + key == node.providerID
    ensures node.providerID != "" && !(ProviderIDPrefix <= node.providerID) ==> key == node.providerID
  {
    if node.providerID != "" then GoStrings.TrimPrefix(node.providerID, ProviderIDPrefix) else node.name
  }

  /** A provider ID of the form ProviderIDPrefix + id resolves to id, whatever the node is named. */
  lemma LookupKeyStripsPrefix(name: string, id: string)
    ensures LookupKey(Node(name, ProviderIDPrefix + id)) == id
  {
    GoStrings.TrimPrefixOfConcat(ProviderIDPrefix, id);
  }

  /** Two nodes with the same non-empty provider ID resolve alike, whatever their names. */
  lemma LookupKeyIgnoresName(a: Node, b: Node)
    requires a.providerID == b.providerID && a.providerID != ""
    ensures LookupKey(a) == LookupKey(b)
  {
  }

  /** The listing options of `allServers`: the node-group label selector, 50 servers a page. */
  function ServerListOptions(nodeGroup: string): (opts: ListOpts)
    ensures opts.perPage == ServersPerPage && opts.page == 0
    ensures |opts.labelSelector| > |NodeGroupLabel|
    ensures opts.labelSelector[..|NodeGroupLabel|] == NodeGroupLabel
    ensures opts.labelSelector[|NodeGroupLabel|] == '='
    ensures opts.labelSelector[|NodeGroupLabel| + 1..] == nodeGroup
  {
    ListOpts(0, ServersPerPage, NodeGroupLabel + "=" + nodeGroup)
  }

  /** Distinct node groups are listed with distinct selectors. */
  lemma ServerListOptionsInjective(a: string, b: string)
    requires ServerListOptions(a) == ServerListOptions(b)
    ensures a == b
  {
    assert a == ServerListOptions(a).labelSelector[|NodeGroupLabel| + 1..];
  }

  /** The errors of the manager's runtime operations; only their kind and cause are modelled. */
  datatype ManagerError =
    | ListServersFailed(cause: ApiError)
    | GetServerFailed(cause: ApiError)
    | DeleteNodeFailed(lookupError: ManagerError)
    | NodeServerNotFound
    | Remote(cause: ApiError)  // an API error returned as the API reported it

  /** A node group descriptor (`hetznerNodeGroup`); only targetSize is ever changed by the manager. */
  class NodeGroup {
    var manager: Manager
    var id: string
    var instanceType: string
    var region: string
    var minSize: int
    var maxSize: int
    var targetSize: int

    constructor (manager: Manager, id: string, instanceType: string, region: string,
                 targetSize: int, maxSize: int, minSize: int)
      ensures this.manager == manager && this.id == id
      ensures this.instanceType == instanceType && this.region == region
      ensures this.targetSize == targetSize && this.maxSize == maxSize && this.minSize == minSize
    {
      this.manager := manager;
      this.id := id;
      this.instanceType := instanceType;
      this.region := region;
      this.targetSize := targetSize;
      this.maxSize := maxSize;
      this.minSize := minSize;
    }
  }

  class Manager {
    const client: Client
    var nodeGroups: map<string, NodeGroup>
    const cloudInit: seq<Base64.byte>
    const image: string
    const nameTemplate: Option<string>
    const sshKeys: seq<string>

    /**
      The registry always holds the draining sentinel: a group of this manager
      with the reserved id, placeholder type and region and zero bounds, whose
      targetSize only counts the nodes staged for deletion.
    */
    ghost predicate Valid()
      reads this, nodeGroups.Values
    {
      && DrainingNodePoolId in nodeGroups
      && var g := nodeGroups[DrainingNodePoolId];
      && g.manager == this
      && g.id == DrainingNodePoolId
      && g.instanceType == DrainingInstanceType
      && g.region == DrainingRegion
      && g.minSize == 0 && g.maxSize == 0
      && g.targetSize >= 0
    }

    /** The draining sentinel's descriptor. */
    function DrainingGroup(): NodeGroup
      reads this
      requires DrainingNodePoolId in nodeGroups
    {
      nodeGroups[DrainingNodePoolId]
    }

    /** The draining counter. */
    ghost function Draining(): int
      reads this, nodeGroups.Values
      requires Valid()
    {
      DrainingGroup().targetSize
    }

    /** The struct literal and registry set-up of `newManager` for a configuration that passed its checks. */
    constructor (config: Config, client: Client)
      ensures this.client == client
      ensures cloudInit == config.cloudInit && image == config.image
      ensures nameTemplate == config.nameTemplate && sshKeys == config.sshKeys
      ensures Valid()
      ensures nodeGroups.Keys == {DrainingNodePoolId}
      ensures fresh(nodeGroups[DrainingNodePoolId])
      ensures Draining() == 0
    {
      this.client := client;
      cloudInit := config.cloudInit;
      image := config.image;
      nameTemplate := config.nameTemplate;
      sshKeys := config.sshKeys;
      nodeGroups := map[];
      new;
      var draining := new NodeGroup(this, DrainingNodePoolId, DrainingInstanceType, DrainingRegion, 0, 0, 0);
      nodeGroups := nodeGroups[DrainingNodePoolId := draining];
    }

    /** `Refresh`: nothing is cached, so there is nothing to refresh and it never fails. */
    method Refresh() returns (err: Option<ManagerError>)
      ensures err == None
    {
      err := None;
    }

    /** `allServers`: the servers carrying the group's label, or the listing's error wrapped. */
    method AllServers(nodeGroup: string) returns (r: Result<seq<Server>, ManagerError>)
      modifies client`lists
      ensures client.lists == old(client.lists) + [ServerListOptions(nodeGroup)]
      ensures match client.api.list(ServerListOptions(nodeGroup))
              case Ok(servers) => r == Ok(servers)
              case Err(e) => r == Err(ListServersFailed(e))
    {
      var opts := ServerListOptions(nodeGroup);
      var answer := client.AllWithOpts(opts);
      match answer
      case Ok(servers) => r := Ok(servers);
      case Err(e) => r := Err(ListServersFailed(e));
    }

    /** `serverForNode`: one lookup under the node's key; a missing server is not an error here. */
    method ServerForNode(node: Node) returns (r: Result<Option<Server>, ManagerError>)
      modifies client`gets
      ensures client.gets == old(client.gets) + [LookupKey(node)]
      ensures match client.api.get(LookupKey(node))
              case Ok(server) => r == Ok(server)
              case Err(e) => r == Err(GetServerFailed(e))
    {
      var answer := client.Get(LookupKey(node));
      match answer
      case Ok(server) => r := Ok(server);
      case Err(e) => r := Err(GetServerFailed(e));
    }

    /** `deleteServer`: one delete request, whose error is returned as it is. */
    method DeleteServer(server: Server) returns (err: Option<ApiError>)
      modifies client`deletes
      ensures client.deletes == old(client.deletes) + [server]
      ensures err == client.api.delete(server)
    {
      err := client.Delete(server);
    }

    /**
      `deleteByNode`: no delete is issued unless the lookup finds a server;
      then exactly one delete, of that server, and its error is passed on.
    */
    method DeleteByNode(node: Node) returns (err: Option<ManagerError>)
      modifies client`gets, client`deletes
      ensures client.gets == old(client.gets) + [LookupKey(node)]
      ensures match client.api.get(LookupKey(node))
              case Err(e) =>
                err == Some(DeleteNodeFailed(GetServerFailed(e))) && client.deletes == old(client.deletes)
              case Ok(None) =>
                err == Some(NodeServerNotFound) && client.deletes == old(client.deletes)
              case Ok(Some(server)) =>
                && client.deletes == old(client.deletes) + [server]
                && err == match client.api.delete(server) case None => None case Some(e) => Some(Remote(e))
    {
      var found := ServerForNode(node);
      match found
      case Err(e) =>
        err := Some(DeleteNodeFailed(e));
      case Ok(None) =>
        err := Some(NodeServerNotFound);
      case Ok(Some(server)) =>
        var deleteErr := DeleteServer(server);
        err := match deleteErr case None => None case Some(e) => Some(Remote(e));
    }

    /**
      `addNodeToDrainingPool`: counts one more node staged for deletion and
      returns the draining group. It never fails and issues no API request;
      no other group and no other field changes.
    */
    method AddNodeToDrainingPool(node: Node) returns (group: NodeGroup, err: Option<ManagerError>)
      requires Valid()
      modifies DrainingGroup()`targetSize
      ensures Valid()
      ensures err == None
      ensures nodeGroups == old(nodeGroups)
      ensures group == nodeGroups[DrainingNodePoolId]
      ensures Draining() == old(Draining()) + 1
      ensures group.id == old(group.id) && group.instanceType == old(group.instanceType)
      ensures group.region == old(group.region) && group.manager == old(group.manager)
      ensures group.minSize == old(group.minSize) && group.maxSize == old(group.maxSize)
      ensures forall k :: k in nodeGroups && nodeGroups[k] != group ==>
                nodeGroups[k].targetSize == old(nodeGroups[k].targetSize)
      ensures unchanged(client)
    {
      var draining := nodeGroups[DrainingNodePoolId];
      draining.targetSize := draining.targetSize + 1;
      group, err := draining, None;
    }
  }

  /**
    `newManager`: the configuration checks, then a manager with a fresh client
    for the token and a registry holding only the draining sentinel. On failure
    no manager is returned.
  */
  method NewManager(env: Env, templateParses: string -> bool, api: HCloud.Api)
    returns (m: Manager?, err: Option<ConfigError>)
    ensures ParseConfig(env, templateParses).Err? ==>
              m == null && err == Some(ParseConfig(env, templateParses).error)
    ensures ParseConfig(env, templateParses).Ok? ==>
              var config := ParseConfig(env, templateParses).value;
              && err == None && m != null && fresh(m) && fresh(m.client)
              && m.client.token == config.token && m.client.api == api && m.client.Idle()
              && m.cloudInit == config.cloudInit && m.image == config.image
              && m.nameTemplate == config.nameTemplate && m.sshKeys == config.sshKeys
              && m.Valid() && m.nodeGroups.Keys == {DrainingNodePoolId} && m.Draining() == 0
  {
    match ParseConfig(env, templateParses)
    case Err(e) =>
      m, err := null, Some(e);
    case Ok(config) =>
      var client := new Client(config.token, api);
      m := new Manager(config, client);
      err := None;
  }
}

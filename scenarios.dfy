/**
  Clients of the manager: the start-up, draining and lookup scenarios, and a
  caller that stages a whole batch of nodes for deletion. Each is proved from the contracts of module HetznerManager alone.
*/
module Scenarios {
  import opened Wrappers
  import Base64
  import opened HCloud
  import opened HetznerManager

  /** The environment of the start-up scenario: token "t1", cloud-init "aGVsbG8=", nothing else set. */
  function StartupEnv(): Env {
    map[TokenKey := "t1", CloudInitKey := "aGVsbG8="]
  }

  lemma StartupEnvIsValid(templateParses: string -> bool)
    ensures ParseConfig(StartupEnv(), templateParses).Ok?
    ensures ParseConfig(StartupEnv(), templateParses).value.cloudInit == [104, 101, 108, 108, 111]
  {
    Base64.DecodeHello();
  }

  /**
    Construction succeeds; the registry holds the draining sentinel only, at
    zero; the payload decodes to "hello"; the image is the default; the one SSH
    key is empty.
  */
  method Startup(templateParses: string -> bool, api: HCloud.Api)
    returns (groups: nat, target: int, cloudInit: seq<Base64.byte>, image: string, sshKeys: seq<string>)
    ensures groups == 1 && target == 0
    ensures cloudInit == [104, 101, 108, 108, 111]
    ensures image == DefaultImage && sshKeys == [""]
  {
    StartupEnvIsValid(templateParses);
    var m, err := NewManager(StartupEnv(), templateParses, api);
    assert m != null;
    groups, target := |m.nodeGroups.Keys|, m.DrainingGroup().targetSize;
    cloudInit, image, sshKeys := m.cloudInit, m.image, m.sshKeys;
  }

  /** Three nodes staged for deletion after start-up: the counter reads 3 and no API request was issued. */
  method DrainThree(templateParses: string -> bool, api: HCloud.Api, a: Node, b: Node, c: Node)
    returns (m: Manager, target: int)
    ensures m.Valid() && m.Draining() == 3 && target == 3
    ensures m.client.Idle()
  {
    StartupEnvIsValid(templateParses);
    var created, err := NewManager(StartupEnv(), templateParses, api);
    m := created;
    var g, e := m.AddNodeToDrainingPool(a);
    g, e := m.AddNodeToDrainingPool(b);
    g, e := m.AddNodeToDrainingPool(c);
    target := g.targetSize;
  }

  /** A node whose server the API does not know: deletion reports it after one lookup and no delete request. */
  method DeleteUnknownNode(templateParses: string -> bool, api: HCloud.Api, node: Node)
    returns (m: Manager, err: Option<ManagerError>)
    requires api.get(LookupKey(node)) == Ok(None)
    ensures err == Some(NodeServerNotFound)
    ensures m.client.gets == [LookupKey(node)] && m.client.deletes == [] && m.client.lists == []
  {
    StartupEnvIsValid(templateParses);
    var created, configErr := NewManager(StartupEnv(), templateParses, api);
    m := created;
    err := m.DeleteByNode(node);
  }

  /** Staging N nodes one after the other raises the draining counter by exactly N. */
  method DrainEach(m: Manager, nodes: seq<Node>)
    requires m.Valid()
    modifies m.DrainingGroup()`targetSize
    ensures m.Valid() && m.nodeGroups == old(m.nodeGroups)
    ensures m.Draining() == old(m.Draining()) + |nodes|
  {
    var i := 0;
    while i < |nodes|
      invariant 0 <= i <= |nodes|
      invariant m.Valid() && m.nodeGroups == old(m.nodeGroups)
      invariant m.Draining() == old(m.Draining()) + i
    {
      var g, e := m.AddNodeToDrainingPool(nodes[i]);
      i := i + 1;
    }
  }
}

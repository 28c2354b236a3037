/** The keys and names the program builds by joining strings, and what taking them apart recovers. */
module Codecs {
  import opened Strings
  import opened Wrappers

  const NODE_PREFIX := "vnode"

  // ---------------------------------------------------------------- node names

  function FormatNodeName(nodeId: string, env: string): string {
    NODE_PREFIX + "." + nodeId + "." + env
  }

  function ExtractNodeId(nodeName: string): string {
    var parts := Split(nodeName, '.');
    if |parts| == 1 then "" else Join(parts[1..|parts| - 1], '.')
  }

  /** The node ID, dots included, is recovered from a node name exactly when the environment has no dot. */
  lemma NodeIdRecoveredIff(nodeId: string, env: string)
    ensures ExtractNodeId(FormatNodeName(nodeId, env)) == nodeId <==> Free(env, '.')
  {
    hide Split, Join;
    var ids, envs := Split(nodeId, '.'), Split(env, '.');
    NodeNameParts(nodeId, env);
    SplitFree(env, '.');
    JoinSplit(nodeId, '.');
    var kept := envs[..|envs| - 1];
    assert ([NODE_PREFIX] + ids + envs)[1..1 + |ids| + |envs| - 1] == ids + kept;
    if kept == [] {
      assert ids + kept == ids;
    } else {
      JoinAppend(ids, kept, '.');
      assert |Join(ids + kept, '.')| > |nodeId|;
    }
  }

  lemma NodeNameParts(nodeId: string, env: string)
    ensures Split(FormatNodeName(nodeId, env), '.') == [NODE_PREFIX] + Split(nodeId, '.') + Split(env, '.')
  {
    hide Split, Join;
    var inner := nodeId + ['.'] + env;
    assert FormatNodeName(nodeId, env) == NODE_PREFIX + ['.'] + inner;
    SplitAppend(NODE_PREFIX, inner, '.');
    SplitAppend(nodeId, env, '.');
    SplitFree(NODE_PREFIX, '.');
  }

  // ---------------------------------------------------------------- container keys

  function ContainerKey(podKey: string, containerName: string): string {
    podKey + "/" + containerName
  }

  function PodKeyOfContainerKey(containerKey: string): string
    requires !Free(containerKey, '/')
  {
    SplitFree(containerKey, '/');
    Join(Split(containerKey, '/')[..2], '/')
  }

  function ContainerNameOfContainerKey(containerKey: string): string
    requires !Free(containerKey, '/')
  {
    SplitFree(containerKey, '/');
    Join(Split(containerKey, '/')[2..], '/')
  }

  predicate OneSlash(podKey: string) {
    |Split(podKey, '/')| == 2
  }

  /** Pod key and container name, slashes included, are recovered exactly when the pod key has one slash. */
  lemma ContainerKeyRecoveredIff(podKey: string, containerName: string)
    ensures !Free(ContainerKey(podKey, containerName), '/')
    ensures var key := ContainerKey(podKey, containerName);
      PodKeyOfContainerKey(key) == podKey && ContainerNameOfContainerKey(key) == containerName <==> OneSlash(podKey)
  {
    var key := ContainerKey(podKey, containerName);
    var pods, names := Split(podKey, '/'), Split(containerName, '/');
    assert key == podKey + ['/'] + containerName && key[|podKey|] == '/';
    SplitAppend(podKey, containerName, '/');
    SplitFree(key, '/');
    JoinSplit(podKey, '/');
    JoinSplit(containerName, '/');
    var parts := pods + names;
    assert Split(key, '/') == parts;
    if |pods| == 2 {
      assert parts[..2] == pods && parts[2..] == names;
    } else if |pods| == 1 {
      assert parts[..2] == pods + [names[0]];
      JoinAppend(pods, [names[0]], '/');
      assert |PodKeyOfContainerKey(key)| > |podKey|;
    } else {
      assert parts[..2] == pods[..2] && pods == pods[..2] + pods[2..];
      JoinAppend(pods[..2], pods[2..], '/');
      assert |PodKeyOfContainerKey(key)| < |podKey|;
    }
  }

  // ---------------------------------------------------------------- two-part keys

  /** The two parts of a key, or two empty strings when it does not have exactly two. */
  function TwoParts(key: string, sep: char): (string, string) {
    var parts := Split(key, sep);
    if |parts| == 2 then (parts[0], parts[1]) else ("", "")
  }

  lemma TwoPartsRecoveredIff(a: string, b: string, sep: char)
    ensures TwoParts(a + [sep] + b, sep) == (a, b) <==> Free(a, sep) && Free(b, sep)
  {
    SplitAppend(a, b, sep);
    SplitFree(a, sep);
    SplitFree(b, sep);
    PartsAreFree(a + [sep] + b, sep);
  }

  function BizKey(name: string, version: string): string {
    name + ":" + version
  }

  function NameAndVersion(bizKey: string): (string, string) {
    TwoParts(bizKey, ':')
  }

  /** Biz name and version are recovered exactly when neither has a colon. */
  lemma BizKeyRecoveredIff(name: string, version: string)
    ensures NameAndVersion(BizKey(name, version)) == (name, version) <==> Free(name, ':') && Free(version, ':')
  {
    assert BizKey(name, version) == name + [':'] + version;
    TwoPartsRecoveredIff(name, version, ':');
  }

  function PodKey(namespace: string, name: string): string {
    namespace + "/" + name
  }

  function NamespaceAndName(podKey: string): (string, string) {
    TwoParts(podKey, '/')
  }

  /** A key split for the reconciler: a name alone is allowed, more than one slash is an error. */
  function SplitMetaNamespaceKey(key: string): Option<(string, string)> {
    var parts := Split(key, '/');
    if |parts| == 1 then Some(("", parts[0]))
    else if |parts| == 2 then Some((parts[0], parts[1]))
    else None
  }

  /** Namespace and name are recovered by either split exactly when neither has a slash. */
  lemma PodKeyRecoveredIff(namespace: string, name: string)
    ensures var key := PodKey(namespace, name); var whole := Free(namespace, '/') && Free(name, '/');
      && (NamespaceAndName(key) == (namespace, name) <==> whole)
      && (SplitMetaNamespaceKey(key) == Some((namespace, name)) <==> whole)
      && (SplitMetaNamespaceKey(key).Some? <==> whole)
  {
    assert PodKey(namespace, name) == namespace + ['/'] + name;
    TwoPartsRecoveredIff(namespace, name, '/');
    SplitAppend(namespace, name, '/');
    SplitFree(namespace, '/');
    SplitFree(name, '/');
  }

  /** Every key that splits is the key of its parts, or a bare name. */
  lemma SplitKeyIsKeyOfParts(key: string)
    ensures match SplitMetaNamespaceKey(key)
      case Some((namespace, name)) => key == PodKey(namespace, name) || (namespace == "" && key == name)
      case None => !Free(key, '/')
  {
    JoinSplit(key, '/');
    SplitFree(key, '/');
    var parts := Split(key, '/');
    if |parts| == 2 {
      assert Join(parts, '/') == parts[0] + ['/'] + parts[1];
    }
  }

  // ---------------------------------------------------------------- keys of the deletion queue

  function DeletionKey(podKey: string, uid: string): string {
    podKey + "/" + uid
  }

  /** Pod keys of one slash never share the key of a deletion, whatever the UIDs are. */
  lemma DeletionKeysDiffer(podKey: string, uid: string, otherKey: string, otherUid: string)
    requires OneSlash(podKey) && OneSlash(otherKey) && podKey != otherKey
    ensures DeletionKey(podKey, uid) != DeletionKey(otherKey, otherUid)
  {
    hide Split;
    SplitAppend(podKey, uid, '/');
    SplitAppend(otherKey, otherUid, '/');
    JoinSplit(podKey, '/');
    JoinSplit(otherKey, '/');
    assert DeletionKey(podKey, uid) == podKey + ['/'] + uid;
    assert DeletionKey(otherKey, otherUid) == otherKey + ['/'] + otherUid;
    assert Split(podKey, '/') == (Split(podKey, '/') + Split(uid, '/'))[..2];
    assert Split(otherKey, '/') == (Split(otherKey, '/') + Split(otherUid, '/'))[..2];
  }

  /** The part after the last slash and the part before it; the source panics without a slash. */
  function UidAndPodKey(key: string): (string, string)
    requires !Free(key, '/')
  {
    var i := LastIndex(key, '/');
    (key[i + 1..], key[..i])
  }

  /** UID and pod key, whatever the pod key, are recovered exactly when the UID has no slash. */
  lemma DeletionKeyRecoveredIff(podKey: string, uid: string)
    ensures !Free(DeletionKey(podKey, uid), '/')
    ensures UidAndPodKey(DeletionKey(podKey, uid)) == (uid, podKey) <==> Free(uid, '/')
  {
    var key := DeletionKey(podKey, uid);
    assert key == podKey + ['/'] + uid && key[|podKey|] == '/';
    LastIndexAppend(podKey, uid, '/');
    assert key[|podKey| + 1..] == uid && key[..|podKey|] == podKey;
  }
}

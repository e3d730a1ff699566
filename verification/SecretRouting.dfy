/** Reading Secrets through a cache that holds only some of them. */
module SecretRouting {
  import opened Results

  const CLUSTER_NAME_LABEL := "cluster.x-k8s.io/cluster-name"
  const NAMESPACE_DEFAULT := "default"
  const NAMESPACE_ALL := ""

  type Labels = map<string, string>

  datatype Key = Key(namespace: string, name: string)
  datatype Secret = Secret(labels: Labels, data: string)
  type Secrets = map<Key, Secret>

  // ---- Label selectors ----

  datatype Operator =
    | Equals | DoubleEquals | In | Exists | GreaterThan | LessThan
    | NotEquals | NotIn | DoesNotExist

  datatype Requirement = Requirement(key: string, operator: Operator, values: seq<string>)

  /** No selector selects everything; an unselectable one nothing. */
  datatype Selector = NoSelector | Nothing | Require(requirements: seq<Requirement>)

  /** Whether labels meet a requirement; `parse` reads a whole number, or fails. */
  predicate Meets(r: Requirement, labels: Labels, parse: string -> Option<int>) {
    match r.operator
    case Equals => r.key in labels && labels[r.key] in r.values
    case DoubleEquals => r.key in labels && labels[r.key] in r.values
    case In => r.key in labels && labels[r.key] in r.values
    case Exists => r.key in labels
    case GreaterThan => Compares(r, labels, parse) && parse(labels[r.key]).value > parse(r.values[0]).value
    case LessThan => Compares(r, labels, parse) && parse(labels[r.key]).value < parse(r.values[0]).value
    case NotEquals => r.key !in labels || labels[r.key] !in r.values
    case NotIn => r.key !in labels || labels[r.key] !in r.values
    case DoesNotExist => r.key !in labels
  }

  predicate Compares(r: Requirement, labels: Labels, parse: string -> Option<int>) {
    && r.key in labels && |r.values| == 1
    && parse(labels[r.key]).Some? && parse(r.values[0]).Some?
  }

  predicate Matches(selector: Selector, labels: Labels, parse: string -> Option<int>) {
    match selector
    case NoSelector => true
    case Nothing => false
    case Require(requirements) => forall r :: r in requirements ==> Meets(r, labels, parse)
  }

  // ---- The API server, and the cache ----

  function ServerGet(secrets: Secrets, key: Key): Option<Secret> {
    if key in secrets then Some(secrets[key]) else None
  }

  function ServerList(secrets: Secrets, namespace: string, selector: Selector, parse: string -> Option<int>): Secrets {
    map key | key in secrets
              && (namespace == NAMESPACE_ALL || key.namespace == namespace)
              && Matches(selector, secrets[key].labels, parse) :: secrets[key]
  }

  /** The cache holds the default namespace, and of the others what belongs to some cluster. */
  predicate IsCached(key: Key, secret: Secret) {
    key.namespace == NAMESPACE_DEFAULT || CLUSTER_NAME_LABEL in secret.labels
  }

  function Cached(secrets: Secrets): Secrets {
    map key | key in secrets && IsCached(key, secrets[key]) :: secrets[key]
  }

  // ---- The routing client ----

  predicate RequiresAPresentLabel(operator: Operator) {
    !operator.NotEquals? && !operator.NotIn? && !operator.DoesNotExist?
  }

  predicate RequiresClusterName(selector: Selector) {
    && selector.Require?
    && exists r :: r in selector.requirements && r.key == CLUSTER_NAME_LABEL && RequiresAPresentLabel(r.operator)
  }

  method RequiresClusterNameLabel(selector: Selector) returns (yes: bool)
    ensures yes <==> RequiresClusterName(selector)
  {
    if !selector.Require? {
      return false;
    }
    for i := 0 to |selector.requirements|
      invariant forall r :: r in selector.requirements[..i] ==>
                  !(r.key == CLUSTER_NAME_LABEL && RequiresAPresentLabel(r.operator))
    {
      var requirement := selector.requirements[i];
      if requirement.key != CLUSTER_NAME_LABEL {
        continue;
      }
      match requirement.operator
      case Equals => return true;
      case DoubleEquals => return true;
      case In => return true;
      case Exists => return true;
      case GreaterThan => return true;
      case LessThan => return true;
      case _ =>
    }
    return false;
  }

  /** What is not in the cache is asked of the server, except in the default namespace. */
  method Get(secrets: Secrets, key: Key) returns (found: Option<Secret>)
    ensures found == ServerGet(secrets, key)
  {
    found := ServerGet(Cached(secrets), key);
    if key.namespace != NAMESPACE_DEFAULT && found.None? {
      found := ServerGet(secrets, key);
    }
  }

  /** The cache answers only lists of which it holds everything. */
  method List(secrets: Secrets, namespace: string, selector: Selector, parse: string -> Option<int>)
    returns (listed: Secrets)
    ensures listed == ServerList(secrets, namespace, selector, parse)
  {
    var required := RequiresClusterNameLabel(selector);
    if namespace == NAMESPACE_DEFAULT || required {
      CacheListsAll(secrets, namespace, selector, parse);
      listed := ServerList(Cached(secrets), namespace, selector, parse);
    } else {
      listed := ServerList(secrets, namespace, selector, parse);
    }
  }

  /** A selector that requires the label matches only what carries it. */
  lemma RequiredMeansPresent(selector: Selector, labels: Labels, parse: string -> Option<int>)
    requires RequiresClusterName(selector) && Matches(selector, labels, parse)
    ensures CLUSTER_NAME_LABEL in labels
  {
    var r :| r in selector.requirements && r.key == CLUSTER_NAME_LABEL && RequiresAPresentLabel(r.operator);
    assert Meets(r, labels, parse);
  }

  lemma CacheListsAll(secrets: Secrets, namespace: string, selector: Selector, parse: string -> Option<int>)
    requires namespace == NAMESPACE_DEFAULT || RequiresClusterName(selector)
    ensures ServerList(Cached(secrets), namespace, selector, parse) == ServerList(secrets, namespace, selector, parse)
  {
    forall key | key in ServerList(secrets, namespace, selector, parse)
      ensures IsCached(key, secrets[key])
    {
      if namespace != NAMESPACE_DEFAULT {
        RequiredMeansPresent(selector, secrets[key].labels, parse);
      }
    }
  }

  /** The operators taken to require the label are exactly those no Secret without it meets. */
  lemma OperatorRequiresIff(r: Requirement, parse: string -> Option<int>)
    requires r.key == CLUSTER_NAME_LABEL
    ensures RequiresAPresentLabel(r.operator) <==>
            forall labels: Labels :: Meets(r, labels, parse) ==> CLUSTER_NAME_LABEL in labels
  {
    if !RequiresAPresentLabel(r.operator) {
      assert Meets(r, map[], parse);
    }
  }

  /** When every requirement is met by some labels without the cluster name, the cache alone would miss a Secret. */
  lemma CacheAloneMisses(selector: Selector, labels: Labels, key: Key, data: string, parse: string -> Option<int>)
    requires Matches(selector, labels, parse) && CLUSTER_NAME_LABEL !in labels && key.namespace != NAMESPACE_DEFAULT
    ensures var secrets := map[key := Secret(labels, data)];
            && ServerList(Cached(secrets), key.namespace, selector, parse) != ServerList(secrets, key.namespace, selector, parse)
            && !RequiresClusterName(selector)
  {
    var secrets := map[key := Secret(labels, data)];
    assert key in ServerList(secrets, key.namespace, selector, parse);
    assert key !in ServerList(Cached(secrets), key.namespace, selector, parse);
    if RequiresClusterName(selector) {
      RequiredMeansPresent(selector, labels, parse);
    }
  }
}

/** The react-query cache keys of `src/lib/queryKeys.ts`. */
module QueryKeys {
  import opened Wrappers

  /** One element of a key array: a string, or the optional filters object of a list key. */
  datatype KeyPart = Text(s: string) | Filters(f: Option<map<string, string>>)

  type QueryKey = seq<KeyPart>

  /** The three data namespaces that share the `all` / `list` / `detail` shape. */
  datatype Namespace = Parties | Products | Orders

  function NamespaceName(ns: Namespace): string
  {
    match ns
    case Parties => "parties"
    case Products => "products"
    case Orders => "orders"
  }

  /** `queryKeys.auth.all`. */
  function AuthAll(): QueryKey { [Text("auth")] }

  /** `queryKeys.auth.user()`. */
  function AuthUser(): (k: QueryKey)
    ensures AuthAll() <= k && |k| == 2
  {
    AuthAll() + [Text("user")]
  }

  /** `queryKeys.auth.sessions()`. */
  function AuthSessions(): (k: QueryKey)
    ensures AuthAll() <= k && |k| == 2
  {
    AuthAll() + [Text("sessions")]
  }

  /** `queryKeys.<ns>.all`. */
  function All(ns: Namespace): QueryKey { [Text(NamespaceName(ns))] }

  /** `queryKeys.<ns>.list(filters)`. */
  function List(ns: Namespace, filters: Option<map<string, string>>): (k: QueryKey)
    ensures All(ns) <= k && |k| == 3
  {
    All(ns) + [Text("list"), Filters(filters)]
  }

  /** `queryKeys.<ns>.detail(id)`. */
  function Detail(ns: Namespace, id: string): (k: QueryKey)
    ensures All(ns) <= k && |k| == 3
  {
    All(ns) + [Text("detail"), Text(id)]
  }

  /** Every key constructor of the module, by name and argument. */
  datatype KeyRequest =
    | UserKey
    | SessionsKey
    | ListKey(ns: Namespace, filters: Option<map<string, string>>)
    | DetailKey(ns: Namespace, id: string)

  function KeyOf(r: KeyRequest): QueryKey
  {
    match r
    case UserKey => AuthUser()
    case SessionsKey => AuthSessions()
    case ListKey(ns, f) => List(ns, f)
    case DetailKey(ns, id) => Detail(ns, id)
  }

  /** The namespace prefix a key belongs under: `auth` or one of the data namespaces. */
  function Prefix(r: KeyRequest): QueryKey
  {
    match r
    case UserKey => AuthAll()
    case SessionsKey => AuthAll()
    case ListKey(ns, _) => All(ns)
    case DetailKey(ns, _) => All(ns)
  }

  /**
   * No two constructor calls share a cache entry: equal keys come from the
   * same constructor with the same argument. In particular `auth.user()` and
   * `auth.sessions()` differ, and `detail` is injective in its id.
   */
  lemma KeyOfInjective(a: KeyRequest, b: KeyRequest)
    requires KeyOf(a) == KeyOf(b)
    ensures a == b
  {
    var k := KeyOf(a);
    assert k[0] == KeyOf(b)[0] && k[1] == KeyOf(b)[1];
    if a.ListKey? || a.DetailKey? {
      assert k[2] == KeyOf(b)[2];
    }
  }

  /** Every key starts with its namespace's `all` key, and keys of different namespaces differ in their first element. */
  lemma KeyPrefixes(a: KeyRequest, b: KeyRequest)
    ensures Prefix(a) <= KeyOf(a)
    ensures Prefix(a) != Prefix(b) ==> KeyOf(a)[0] != KeyOf(b)[0]
  {
  }
}

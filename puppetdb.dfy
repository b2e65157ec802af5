/** What this component sees of PuppetDB: the records it receives, the queries it
    sends, and the outcome of each remote interaction during one fetch. */
module PuppetDB {

  /** An active node as listed by PuppetDB, identified by its certname. */
  datatype RemoteNode = RemoteNode(certname: string)

  /** One fact of one node: (certname, fact name, fact value). */
  datatype RemoteFact = RemoteFact(certname: string, name: string, value: string)

  /** The `IOException` raised by the PuppetDB client library. */
  datatype IOException = IOException(message: string)

  /** The outcome of one call into the PuppetDB client library. */
  datatype Reply<+T> = Returned(value: T) | Raised(cause: IOException)

  /** The field of a fact a query predicate tests (`Fact.NAME`). */
  datatype FactField = Name

  /** A fact query: `eq(field, value)` predicates combined by `or`. */
  datatype Expr = Eq(field: FactField, value: string) | Or(operands: seq<Expr>)

  /** The fact names a query selects: a fact matches the query exactly when
      its name is in this set. */
  function Selected(q: Expr): (names: set<string>)
    decreases q
  {
    match q
    case Eq(Name, v) => {v}
    case Or(ops) => set i, n | 0 <= i < |ops| && n in Selected(ops[i]) :: n
  }

  /** A remote request made by the component. */
  datatype Call =
    | ListActiveNodes                     // client.getActiveNodes(null)
    | ListFacts(selecting: set<string>)   // client.getFacts(q), with Selected(q) == selecting

  /** The outcomes of the calls one fetch makes into code outside this model:
      the active-node listing, the construction of the fact query by the
      client library's `eq`/`or` (declared to raise `IOException`), and the
      fact listing, whose answer depends only on which fact names the query
      selects. */
  datatype Io = Io(
    activeNodes: Reply<seq<RemoteNode>>,
    queryBuild: Reply<()>,
    facts: set<string> -> Reply<seq<RemoteFact>>)
}

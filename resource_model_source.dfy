/** The Rundeck resource model source backed by PuppetDB: a one-slot cache in
    front of a fetch that lists the active nodes, converts them, lists their
    facts and enriches the nodes with them. */
module ResourceModel {
  import opened Wrappers
  import opened PuppetDB
  import opened Rundeck
  import opened FactQuery

  /** Turns the active nodes into Rundeck nodes run as the given user. */
  type Converter = (seq<RemoteNode>, string) -> NodeSet

  /** Adds the listed facts to the nodes of a node set. */
  type Enricher = (NodeSet, seq<RemoteFact>) -> NodeSet

  /** What one fetch produces and which remote requests it makes, in order. */
  datatype FetchRun = FetchRun(result: Result<NodeSet, ResourceModelSourceException>, calls: seq<Call>)

  /** The fetch from PuppetDB as a function of the outcomes of the calls it makes. */
  function Fetch(io: Io, username: string, custom: Option<set<string>>,
                 convert: Converter, enrich: Enricher): (run: FetchRun)
    // the active nodes are requested first and once; the facts are requested
    // only after a non-empty node listing and a built query, and then with
    // exactly the mandatory and custom names
    ensures run.calls == [ListActiveNodes]
            || run.calls == [ListActiveNodes, ListFacts(FactNames(custom))]
    ensures |run.calls| == 2 <==>
              io.activeNodes.Returned? && io.activeNodes.value != [] && io.queryBuild.Returned?
    // an empty node listing fails before the facts are requested
    ensures io.activeNodes == Returned([]) ==> run == FetchRun(Err(ZeroNodes), [ListActiveNodes])
    // an empty fact listing after a non-empty node listing fails
    ensures io.activeNodes.Returned? && io.activeNodes.value != [] && io.queryBuild.Returned?
            && io.facts(FactNames(custom)) == Returned([])
            ==> run.result == Err(ZeroFacts)
    // every IOException is reported as the one wrapped error, with its cause
    ensures io.activeNodes.Raised? ==> run.result == Err(RequestFailed(io.activeNodes.cause))
    ensures io.activeNodes.Returned? && io.activeNodes.value != [] && io.queryBuild.Raised?
            ==> run.result == Err(RequestFailed(io.queryBuild.cause))
    ensures io.activeNodes.Returned? && io.activeNodes.value != [] && io.queryBuild.Returned?
            && io.facts(FactNames(custom)).Raised?
            ==> run.result == Err(RequestFailed(io.facts(FactNames(custom)).cause))
    // no other failure exists
    ensures run.result.Err? ==>
              || run.result.error in {ZeroNodes, ZeroFacts}
              || (run.result.error.message == RequestFailedMessage && run.result.error.cause.Some?)
    // success exactly when every call returned something non-empty, and then
    // the result is the enriched conversion and nothing else
    ensures run.result.Ok? <==>
              && io.activeNodes.Returned? && io.activeNodes.value != []
              && io.queryBuild.Returned?
              && io.facts(FactNames(custom)).Returned? && io.facts(FactNames(custom)).value != []
    ensures run.result.Ok? ==>
              run.result.value == enrich(convert(io.activeNodes.value, username), io.facts(FactNames(custom)).value)
  {
    match io.activeNodes
    case Raised(e) => FetchRun(Err(RequestFailed(e)), [ListActiveNodes])
    case Returned(nodes) =>
      if nodes == [] then FetchRun(Err(ZeroNodes), [ListActiveNodes])
      else
        var rundeckNodes := convert(nodes, username);
        match io.queryBuild
        case Raised(e) => FetchRun(Err(RequestFailed(e)), [ListActiveNodes])
        case Returned(_) =>
          var names := FactNames(custom);
          FetchRun(FactsOutcome(io.facts(names), rundeckNodes, enrich), [ListActiveNodes, ListFacts(names)])
  }

  /** The last stage of the fetch: what it produces once the facts listing has
      answered, given the converted nodes. */
  function FactsOutcome(reply: Reply<seq<RemoteFact>>, rundeckNodes: NodeSet, enrich: Enricher)
    : Result<NodeSet, ResourceModelSourceException>
  {
    match reply
    case Raised(e) => Err(RequestFailed(e))
    case Returned(facts) =>
      if facts == [] then Err(ZeroFacts) else Ok(enrich(rundeckNodes, facts))
  }

  class PuppetDBResourceModelSource {
    const username: string
    const customFactNamesToQuery: Option<set<string>>
    const convert: Converter
    const enrich: Enricher

    /** The cache slot under the key "nodes". */
    var nodes: Option<NodeSet>

    /** Every request made to PuppetDB so far, in order. */
    ghost var calls: seq<Call>
    /** How many fetches have been run. */
    ghost var fetches: nat
    /** The call outcomes of the fetch whose result the slot holds. */
    ghost var cachedFrom: Option<Io>

    /** The slot only ever holds the result of a fetch that succeeded. */
    ghost predicate Valid()
      reads this
    {
      && (nodes.Some? <==> cachedFrom.Some?)
      && (nodes.Some? ==>
            Fetch(cachedFrom.value, username, customFactNamesToQuery, convert, enrich).result == Ok(nodes.value))
    }

    /** A source with no custom fact names (they are null). */
    constructor (username: string, convert: Converter, enrich: Enricher)
      ensures Valid()
      ensures this.username == username && customFactNamesToQuery == None
      ensures this.convert == convert && this.enrich == enrich
      ensures nodes == None && calls == [] && fetches == 0
    {
      this.username := username;
      this.customFactNamesToQuery := None;
      this.convert := convert;
      this.enrich := enrich;
      nodes := None;
      calls := [];
      fetches := 0;
      cachedFrom := None;
    }

    /** A source that also queries the given custom fact names, if any. */
    constructor WithCustomFacts(username: string, customFactNamesToQuery: Option<set<string>>,
                                convert: Converter, enrich: Enricher)
      ensures Valid()
      ensures this.username == username && this.customFactNamesToQuery == customFactNamesToQuery
      ensures this.convert == convert && this.enrich == enrich
      ensures nodes == None && calls == [] && fetches == 0
    {
      this.username := username;
      this.customFactNamesToQuery := customFactNamesToQuery;
      this.convert := convert;
      this.enrich := enrich;
      nodes := None;
      calls := [];
      fetches := 0;
      cachedFrom := None;
    }

    /** The node set: the cached one if there is one, otherwise a fresh fetch,
        which is cached only when it succeeds. */
    method GetNodes(io: Io) returns (r: Result<NodeSet, ResourceModelSourceException>)
      requires Valid()
      modifies this
      ensures Valid()
      // hit: the cached value, no request, nothing changes
      ensures old(nodes).Some? ==>
                && r == Ok(old(nodes).value)
                && nodes == old(nodes) && cachedFrom == old(cachedFrom)
                && calls == old(calls) && fetches == old(fetches)
      // miss: one fetch; its result is returned and cached only on success
      ensures old(nodes).None? ==>
                var run := Fetch(io, username, customFactNamesToQuery, convert, enrich);
                && r == run.result
                && calls == old(calls) + run.calls && fetches == old(fetches) + 1
                && (r.Ok? ==> nodes == Some(r.value) && cachedFrom == Some(io))
                && (r.Err? ==> nodes == None && cachedFrom == None)
    {
      if nodes.None? {
        var fetched := QueryNodesFromPuppetDB(io);
        match fetched
        case Err(e) =>
          return Err(e);
        case Ok(ns) =>
          nodes := Some(ns);
          cachedFrom := Some(io);
      }
      r := Ok(nodes.value);
    }

    /** Lists the active nodes, converts them, lists their facts and enriches
        the nodes with them, failing on an empty listing and wrapping every
        IOException. */
    method QueryNodesFromPuppetDB(io: Io) returns (r: Result<NodeSet, ResourceModelSourceException>)
      modifies this`calls, this`fetches
      ensures var run := Fetch(io, username, customFactNamesToQuery, convert, enrich);
              r == run.result && calls == old(calls) + run.calls
      ensures fetches == old(fetches) + 1
    {
      ghost var run := Fetch(io, username, customFactNamesToQuery, convert, enrich);
      ghost var names := FactNames(customFactNamesToQuery);
      fetches := fetches + 1;
      calls := calls + [ListActiveNodes];
      if io.activeNodes.Raised? {
        return Err(RequestFailed(io.activeNodes.cause));
      }
      var activeNodes := io.activeNodes.value;
      if activeNodes == [] {
        return Err(ZeroNodes);
      }

      var rundeckNodes := convert(activeNodes, username);

      if io.queryBuild.Raised? {
        return Err(RequestFailed(io.queryBuild.cause));
      }
      assert run == FetchRun(FactsOutcome(io.facts(names), rundeckNodes, enrich), [ListActiveNodes, ListFacts(names)]);
      var query := CreateFactsQuery();
      QuerySelectsNames(query.operands, names);
      calls := calls + [ListFacts(Selected(query))];
      var reply := io.facts(Selected(query));
      assert reply == io.facts(names);
      assert calls == old(calls) + run.calls;
      if reply.Raised? {
        return Err(RequestFailed(reply.cause));
      }
      var facts := reply.value;
      if facts == [] {
        return Err(ZeroFacts);
      }

      r := Ok(enrich(rundeckNodes, facts));
    }

    /** The fact query: one `eq(Fact.NAME, n)` per name in the union of the
        mandatory and the custom names, combined by `or`. The names are taken
        in no particular order, as a hash set yields them. */
    method CreateFactsQuery() returns (q: Expr)
      ensures q.Or?
      // one operand per distinct name (see QueryForNames), in any order
      ensures multiset(q.operands) == multiset(NamePredicates(FactNames(customFactNamesToQuery)))
    {
      var factNames: set<string> := {};
      factNames := factNames + MandatoryFactNames;
      if customFactNamesToQuery.Some? {
        factNames := factNames + customFactNamesToQuery.value;
      }

      var factsToQuery: seq<Expr> := [];
      var remaining := factNames;
      while remaining != {}
        invariant remaining <= factNames
        invariant multiset(factsToQuery) == multiset(NamePredicates(factNames - remaining))
        decreases remaining
      {
        var factName :| factName in remaining;
        AddNamePredicate(factNames - remaining, factName);
        assert factNames - (remaining - {factName}) == (factNames - remaining) + {factName};
        factsToQuery := factsToQuery + [Eq(Name, factName)];
        remaining := remaining - {factName};
      }
      assert factNames == FactNames(customFactNamesToQuery);
      q := Or(factsToQuery);
    }
  }

  /** Two requests for the node set in a row. After a successful first request
      the second is served from the cache: the same node set, and one fetch in
      all. After a failed first request the second fetches again. */
  method GetNodesTwice(source: PuppetDBResourceModelSource, first: Io, second: Io)
    returns (r1: Result<NodeSet, ResourceModelSourceException>, r2: Result<NodeSet, ResourceModelSourceException>)
    requires source.Valid() && source.nodes.None?
    modifies source
    ensures source.Valid()
    ensures r1 == Fetch(first, source.username, source.customFactNamesToQuery, source.convert, source.enrich).result
    ensures r1.Ok? ==>
              && r2 == r1 && source.fetches == old(source.fetches) + 1
              && source.nodes == Some(r1.value)
              && source.calls == old(source.calls)
                   + Fetch(first, source.username, source.customFactNamesToQuery, source.convert, source.enrich).calls
    ensures r1.Err? ==>
              && r2 == Fetch(second, source.username, source.customFactNamesToQuery, source.convert, source.enrich).result
              && source.fetches == old(source.fetches) + 2
  {
    r1 := source.GetNodes(first);
    r2 := source.GetNodes(second);
  }
}

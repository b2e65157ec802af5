# PuppetDB resource model source

A Dafny model of the Rundeck resource model source that serves the node
inventory of a PuppetDB instance (`PuppetDBResourceModelSource`). The source
has three pieces of logic, and each is modelled here:

- **the fact query** (`createFactsQuery`): the four mandatory fact names
  (`hardwaremodel`, `operatingsystem`, `operatingsystemrelease`, `osfamily`)
  together with the optional custom fact names, turned into one
  `eq(Fact.NAME, name)` predicate per distinct name and combined by a single
  `or`. The names come out of a hash set, so the operands have no fixed order.
  The model takes the names in an arbitrary order (`:|`) and states the
  operands as a multiset.
- **the fetch** (`queryNodesFromPuppetDB`): it lists the active nodes and fails
  with "Received ZERO nodes from PuppetDB!" on an empty list. It then converts
  the nodes for the configured user and builds the fact query. It lists the
  facts and fails with "Received ZERO facts from PuppetDB!" on an empty list.
  Otherwise it returns the enriched node set. Every `IOException` becomes the
  one error "Error requesting PuppetDB!", with the exception as its cause. The
  query construction can raise one too.
- **the cache gate** (`getNodes`): a single slot under the key `"nodes"`. On a
  hit it returns the cached node set without contacting PuppetDB. On a miss it
  fetches, and it stores the result only when the fetch succeeds. A failure is
  therefore never cached, and the next call fetches again.

Files:

- `wrappers.dfy`: `Option` (for the source's `null`) and `Result` (for its
  exceptions).
- `puppetdb.dfy`: the remote records, the query expressions and the fact names
  a query selects (`Selected`). It also holds the log of remote requests
  (`Call`) and the outcomes of the calls one fetch makes (`Io`).
- `rundeck.dfy`: the node set and `ResourceModelSourceException` with its
  three messages.
- `fact_query.dfy`: the mandatory names, the union with the custom names and
  the lemmas about the predicates built from them.
- `resource_model_source.dfy`: `Fetch`, the fetch as a function of the call
  outcomes. It also holds the class `PuppetDBResourceModelSource` with the
  cache slot, `GetNodes`, `QueryNodesFromPuppetDB` and `CreateFactsQuery`, and
  a two-call client, `GetNodesTwice`.

The PuppetDB client is reached only through the outcomes of its calls. Each
call to `GetNodes` receives an `Io` value, which holds three things: what
`getActiveNodes` returned or raised; whether the client library's `eq`/`or`
raised while the query was built; and what `getFacts` returns or raises. The
`getFacts` outcome is a function of the set of fact names the query selects,
so the hash-set order of the operands cannot change the answer. The node
converter and the fact enricher are function-valued fields of the class, set
by the constructors, and nothing is assumed about them. Ghost fields record
every remote request (`calls`), the number of fetches (`fetches`), and the
call outcomes whose fetch produced the cached value (`cachedFrom`). `Valid()`
says that the slot holds a value only if that fetch succeeded with exactly
that value.

An `IOException` from building the query (PuppetDBResourceModelSource.java:87)
is caught by the same handler as the two remote calls (lines 96-97). It is
therefore reported as "Error requesting PuppetDB!", and there is no separate
error kind for it.

## Model

| member | source | states |
|---|---|---|
| `FactQuery.FactNames` | src/main/java/org/synyx/rundeck/plugin/resources/puppetdb/PuppetDBResourceModelSource.java:105-111 | the requested names contain every mandatory name and every custom name, and nothing else; with no custom names (null) they are exactly the mandatory names |
| `FactQuery.FactNamesCount` | src/main/java/org/synyx/rundeck/plugin/resources/puppetdb/PuppetDBResourceModelSource.java:105-111 | at least four names are always requested, whether the custom names are absent, empty or overlap the mandatory ones |
| `FactQuery.NamePredicatesCount` | src/main/java/org/synyx/rundeck/plugin/resources/puppetdb/PuppetDBResourceModelSource.java:113-115 | there are exactly as many `eq(Fact.NAME, n)` predicates as distinct names |
| `FactQuery.QueryForNames` | src/main/java/org/synyx/rundeck/plugin/resources/puppetdb/PuppetDBResourceModelSource.java:113-117 | an `or` whose operands are, in any order, the predicates for a set of names has one operand per name and no operand twice, and `eq(Fact.NAME, n)` is an operand exactly when `n` is one of the names |
| `FactQuery.QuerySelectsNames` | src/main/java/org/synyx/rundeck/plugin/resources/puppetdb/PuppetDBResourceModelSource.java:113-117 | such an `or` selects exactly the facts whose name is one of the names |
| `ResourceModel.PuppetDBResourceModelSource.CreateFactsQuery` | src/main/java/org/synyx/rundeck/plugin/resources/puppetdb/PuppetDBResourceModelSource.java:101-118 | the hash-set fill and the loop build an `or` whose operands, as a multiset, are one `eq(Fact.NAME, n)` per name of the mandatory-plus-custom union, whatever order the names are taken in |
| `FactQuery.FactsQueryShape` | src/main/java/org/synyx/rundeck/plugin/resources/puppetdb/PuppetDBResourceModelSource.java:105-117 | a query built as `CreateFactsQuery` builds it has at least four pairwise distinct operands, a predicate for every mandatory and every custom name, and exactly four operands when no custom names are configured |
| `ResourceModel.Fetch` | src/main/java/org/synyx/rundeck/plugin/resources/puppetdb/PuppetDBResourceModelSource.java:74-99 | the active nodes are requested first and only once; the facts are requested, with exactly the mandatory-plus-custom names, if and only if the node listing was non-empty and the query was built; an empty node listing fails with the ZERO-nodes error before any fact request; an empty fact listing fails with the ZERO-facts error; an `IOException` from the node listing, the query construction or the fact listing fails with "Error requesting PuppetDB!" carrying that exception; no other failure exists; success happens exactly when both listings returned non-empty lists, and then the result is the enriched conversion of the nodes for the configured user |
| `ResourceModel.PuppetDBResourceModelSource.QueryNodesFromPuppetDB` | src/main/java/org/synyx/rundeck/plugin/resources/puppetdb/PuppetDBResourceModelSource.java:74-99 | the step-by-step fetch with its early exits returns what `Fetch` gives for the same call outcomes, appends exactly `Fetch`'s requests to the request log, and counts one fetch |
| `ResourceModel.PuppetDBResourceModelSource.GetNodes` | src/main/java/org/synyx/rundeck/plugin/resources/puppetdb/PuppetDBResourceModelSource.java:59-72 | on a hit it returns the cached node set, makes no request and changes nothing; on a miss it runs one fetch and returns its result; the slot then holds the fetched node set if the fetch succeeded and stays empty if it failed; the slot only ever holds the result of a successful fetch |
| `ResourceModel.GetNodesTwice` | src/main/java/org/synyx/rundeck/plugin/resources/puppetdb/PuppetDBResourceModelSource.java:59-72 | from an empty cache, two calls in a row fetch once and return the same node set twice if the first succeeded, the slot then holding it and the request log growing by that one fetch's requests; they fetch twice if the first failed |
| `ResourceModel.PuppetDBResourceModelSource.constructor` | src/main/java/org/synyx/rundeck/plugin/resources/puppetdb/PuppetDBResourceModelSource.java:41-43 | a source without custom fact names (null), with an empty cache and no requests made |
| `ResourceModel.PuppetDBResourceModelSource.WithCustomFacts` | src/main/java/org/synyx/rundeck/plugin/resources/puppetdb/PuppetDBResourceModelSource.java:45-56 | a source with the given user and custom fact names (possibly null), with an empty cache and no requests made |

## Left out

- The PuppetDB client's network calls (`getActiveNodes`, `getFacts`) and the
  query library's `eq`/`or` are not modelled. Only their outcomes are, given
  to each `GetNodes` call as an `Io` value.
- `PuppetNodesToRundeckConverter` and `PuppetFactsRundeckNodeEnricher` are not
  part of this model. They are function-valued fields, so nothing is proved
  about how nodes are converted or how facts are merged. That includes the
  end-to-end shape of a merged node set and the handling of facts for unknown
  nodes.
- The Ehcache cache manager and its configuration (lines 50-55, 61) are not
  modelled. The single `"nodes"` entry of the `"puppetdb"` cache is the field
  `nodes`.
- Logging (lines 64, 66, 68, 76, 81, 86, 91) is left out because it does not
  change behaviour.
- Concurrent calls to `getNodes` are left out. The model is single-threaded,
  so the check-then-put race at lines 63-67 does not arise in it.
- customFactNamesToQuery: treated as an immutable set fixed at construction.
  The source keeps a reference to the caller's set (lines 37, 48) and reads it
  again on every fetch (lines 109-110), so changes the caller makes later, and
  null elements in that set, are not captured.

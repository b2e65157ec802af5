/** The Rundeck side: the node set handed to the framework and the exception
    through which failures are reported. */
module Rundeck {
  import opened Wrappers
  import opened PuppetDB

  /** A Rundeck node: its name, the user that runs commands on it, and its
      attributes. How PuppetDB records become nodes is decided by the node
      converter and the fact enricher, which are not part of this model. */
  datatype RundeckNode = RundeckNode(nodename: string, username: string, attributes: map<string, string>)

  /** The node set (`INodeSet`), keyed by node name. */
  datatype NodeSet = NodeSet(nodes: map<string, RundeckNode>)

  /** `ResourceModelSourceException`: a message and, when it wraps one, the cause. */
  datatype ResourceModelSourceException = ResourceModelSourceException(message: string, cause: Option<IOException>)

  const ZeroNodesMessage: string := "Received ZERO nodes from PuppetDB!"
  const ZeroFactsMessage: string := "Received ZERO facts from PuppetDB!"
  const RequestFailedMessage: string := "Error requesting PuppetDB!"

  /** The three failures the fetch can report. */
  const ZeroNodes: ResourceModelSourceException := ResourceModelSourceException(ZeroNodesMessage, None)
  const ZeroFacts: ResourceModelSourceException := ResourceModelSourceException(ZeroFactsMessage, None)

  function RequestFailed(cause: IOException): ResourceModelSourceException
  {
    ResourceModelSourceException(RequestFailedMessage, Some(cause))
  }
}

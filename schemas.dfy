/**
 * The record shapes exchanged between the page and the chat flow.
 * Runtime schema validation is not modelled; only the shapes are.
 */
module Schemas {
  import opened Wrappers

  /**
   * One contract as the flow sees it. `isPdf` is optional: callers may
   * leave it out, and the flow's preparation step always sets it.
   */
  datatype Contract = Contract(fileName: string, contentDataUri: string, isPdf: Option<bool>)

  datatype ChatWithContractsInput = ChatWithContractsInput(userQuery: string, contracts: seq<Contract>)

  datatype ChatWithContractsOutput = ChatWithContractsOutput(aiResponse: string)
}

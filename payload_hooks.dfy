/** The two pieces of the document framework that the core's hooks branch
    on: the kind of write a hook runs for, and which API a read came through. */
module PayloadHooks {

  /** The `operation` argument of a collection hook. */
  datatype Operation = Create | Update

  /** `req.payloadAPI`: the local API used by server-side code and tasks, or
      one of the two external APIs. */
  datatype PayloadApi = LocalApi | RestApi | GraphQLApi

  /** `req.payloadAPI === 'REST' || req.payloadAPI === 'GraphQL'` */
  predicate IsExternalApi(api: PayloadApi) {
    api == RestApi || api == GraphQLApi
  }
}

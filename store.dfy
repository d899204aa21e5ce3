/** The graph store as seen from this code: an opaque connection on which statements are
    executed. Its answers are an oracle indexed by the number of calls made so far, so any
    behaviour of a real store over one run is an instance of it. */
module GraphStore {
  import opened TypeNormalizer

  /** What one store call does: it completes, it raises GQLAlchemyDatabaseError (the kind the
      retry decorator and batched_import catch), or it raises any other exception. */
  datatype Reply = Done | DatabaseError | OtherError

  /** One statement sent to the store: its Cypher text and its parameter dict. */
  datatype Call = Call(query: string, params: seq<(string, Value)>)

  class Store {
    /** The answer the store gives to its n-th call, counting from 0. */
    const respond: nat -> Reply
    /** Every call issued so far, in order. */
    var log: seq<Call>

    constructor (respond: nat -> Reply)
      ensures this.respond == respond && log == []
    {
      this.respond := respond;
      log := [];
    }

    /** memgraph.execute(query, parameters). */
    method Execute(c: Call) returns (reply: Reply)
      modifies this
      ensures log == old(log) + [c]
      ensures reply == respond(|old(log)|)
    {
      reply := respond(|log|);
      log := log + [c];
    }
  }
}

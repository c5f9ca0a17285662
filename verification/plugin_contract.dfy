/** The storage plugin's abstract operation surface, at the level of its
    signatures: which operations exist, which entity each concerns, and the
    shape of what each returns (in particular, whether it may return
    nothing). Backends implement the operations; their behaviour is not
    part of this model. */
module PluginContract {
  import opened Common

  /** The persisted entities. */
  datatype EntityKind = Knowledge | Space | Chunk | Task | Tenant

  /** The shape of an operation's return value. */
  datatype Shape =
    | Nothing                      // returns no value
    | One(kind: EntityKind)        // exactly one entity
    | MaybeOne(kind: EntityKind)   // one entity or none
    | ListOf(kind: EntityKind)     // a list of entities
    | MaybeListOf(kind: EntityKind) // a list of entities or none
    | PageOf(kind: EntityKind)     // one page of entities with a total count
    | RetrievalHits                // a list of retrieval results
    | Flag                         // a boolean
    | ClientHandle                 // the backend's client object

  /** Every abstract operation of the plugin. */
  datatype Operation =
    | Init | Cleanup | GetDbClient
    | SaveKnowledgeList | GetKnowledgeList | GetKnowledge | UpdateKnowledge | DeleteKnowledge
    | SaveSpace | UpdateSpace | GetSpaceList | GetSpace | DeleteSpace
    | SaveChunkList | GetChunkList | GetChunkById | DeleteKnowledgeChunk
    | SearchSpaceChunkList | SearchKnowledgeChunkList
    | SaveTaskList | UpdateTaskList | GetTaskList | GetTaskById | DeleteKnowledgeTask
    | SaveTenant | GetTenantBySk | UpdateTenant | ValidateTenantName | GetTenantById
    | GetTenantList | DeleteTenantById

  /** The declared return shape of each operation. */
  function ReturnShape(op: Operation): (s: Shape)
    // point lookups return a single entity, for tasks and tenants optionally
    ensures IsPointLookup(op) ==> (s.One? || s.MaybeOne?)
    ensures IsPointLookup(op) ==>
              (s.MaybeOne? <==> op in {GetTaskById, GetTenantBySk, GetTenantById})
    // a single entity or `None`: the optional lookups and the tenant save and delete
    ensures s.MaybeOne? <==>
              op in {GetTaskById, GetTenantBySk, GetTenantById, SaveTenant, DeleteTenantById}
    // a list or `None`: exactly the space delete and the two cascade deletes
    ensures s.MaybeListOf? <==> op in {DeleteSpace, DeleteKnowledgeChunk, DeleteKnowledgeTask}
    // paged listings: knowledge, space, task and tenant, but not chunk
    ensures s.PageOf? <==> op in {GetKnowledgeList, GetSpaceList, GetTaskList, GetTenantList}
    ensures op == GetChunkList ==> s == ListOf(Chunk)
  {
    match op
    case Init => Nothing
    case Cleanup => Nothing
    case GetDbClient => ClientHandle
    case SaveKnowledgeList => ListOf(Knowledge)
    case GetKnowledgeList => PageOf(Knowledge)
    case GetKnowledge => One(Knowledge)
    case UpdateKnowledge => Nothing
    case DeleteKnowledge => Nothing
    case SaveSpace => One(Space)
    case UpdateSpace => One(Space)
    case GetSpaceList => PageOf(Space)
    case GetSpace => One(Space)
    case DeleteSpace => MaybeListOf(Space)
    case SaveChunkList => ListOf(Chunk)
    case GetChunkList => ListOf(Chunk)
    case GetChunkById => One(Chunk)
    case DeleteKnowledgeChunk => MaybeListOf(Chunk)
    case SearchSpaceChunkList => RetrievalHits
    case SearchKnowledgeChunkList => RetrievalHits
    case SaveTaskList => ListOf(Task)
    case UpdateTaskList => Nothing
    case GetTaskList => PageOf(Task)
    case GetTaskById => MaybeOne(Task)
    case DeleteKnowledgeTask => MaybeListOf(Task)
    case SaveTenant => MaybeOne(Tenant)
    case GetTenantBySk => MaybeOne(Tenant)
    case UpdateTenant => Nothing
    case ValidateTenantName => Flag
    case GetTenantById => MaybeOne(Tenant)
    case GetTenantList => PageOf(Tenant)
    case DeleteTenantById => MaybeOne(Tenant)
  }

  /** The operations that fetch a single entity by a key. */
  predicate IsPointLookup(op: Operation) {
    op in {GetKnowledge, GetSpace, GetChunkById, GetTaskById, GetTenantBySk, GetTenantById}
  }

  /** The entity a point lookup fetches, read off its return shape. */
  function Subject(op: Operation): EntityKind
    requires IsPointLookup(op)
  {
    ReturnShape(op).kind
  }

  /** The signature allows the operation to return `None`. */
  predicate MayReturnNone(op: Operation) {
    ReturnShape(op).MaybeOne? || ReturnShape(op).MaybeListOf?
  }

  /** What a backend hands back from a call, abstractly. */
  datatype Reply = NoValue | Entity(kind: EntityKind) | Entities(kind: EntityKind)

  /** A reply the declared shape admits; `None` only where the signature allows it. */
  predicate Admits(shape: Shape, reply: Reply) {
    match reply
    case NoValue => shape.Nothing? || shape.MaybeOne? || shape.MaybeListOf?
    case Entity(k) => (shape.One? || shape.MaybeOne?) && shape.kind == k
    case Entities(k) => (shape.ListOf? || shape.MaybeListOf?) && shape.kind == k
  }

  /** The only thing a backend can do when a point lookup finds nothing and
      the signature forbids `None`: raise. */
  datatype LookupError = NotFound(kind: EntityKind)

  /** A point lookup whose key matches a stored entity (`present`) or not. */
  function PointLookupReply(op: Operation, present: bool): (r: Result<Reply, LookupError>)
    requires IsPointLookup(op)
    // knowledge, space and chunk lookups raise on absence; the rest return None
    ensures r.Failure? <==> !present && Subject(op) in {Knowledge, Space, Chunk}
    ensures r.Failure? ==> r.error == NotFound(Subject(op))
    ensures r.Success? ==> Admits(ReturnShape(op), r.value)
    ensures r.Success? ==> (r.value == Entity(Subject(op)) <==> present)
  {
    if present then Success(Entity(Subject(op)))
    else if MayReturnNone(op) then Success(NoValue)
    else Failure(NotFound(Subject(op)))
  }

  /** Of the point lookups, exactly the task and tenant ones may return
      `None`; knowledge, space and chunk lookups always return an entity. */
  lemma NullableLookupsAreTaskAndTenant(op: Operation)
    requires IsPointLookup(op)
    ensures MayReturnNone(op) <==> Subject(op) == Task || Subject(op) == Tenant
    ensures !MayReturnNone(op) <==> ReturnShape(op) == One(Subject(op))
  {
  }
}

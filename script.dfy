/** The texts load_to_mem.py sends: its constraints and its six statement templates, and the
    script itself, which is Pipeline.RunPipeline over those texts. */
module Script {
  import opened TypeNormalizer
  import opened GraphStore
  import opened Ingestion
  import opened Pipeline

  /** The uniqueness constraints created before any import, in this order. */
  const Constraints: seq<string> := [
    "CREATE CONSTRAINT ON (c:__Chunk__) ASSERT c.id IS UNIQUE;",
    "CREATE CONSTRAINT ON (d:__Document__) ASSERT d.id IS UNIQUE;",
    "CREATE CONSTRAINT ON (c:__Community__) ASSERT c.community IS UNIQUE;",
    "CREATE CONSTRAINT ON (e:__Entity__) ASSERT e.id IS UNIQUE;",
    "CREATE CONSTRAINT ON (e:__Entity__) ASSERT e.name IS UNIQUE;",
    "CREATE CONSTRAINT ON (e:__Covariate__) ASSERT e.title IS UNIQUE;"
  ]

  /** A triple-quoted template as the script writes it: a line break, then each line
      followed by a line break. */
  function Template(lines: seq<string>): string {
    "\n" + Terminated(lines)
  }

  function Terminated(lines: seq<string>): string {
    if lines == [] then [] else lines[0] + "\n" + Terminated(lines[1..])
  }

  const DocumentStatement: string := Template([
    "MERGE (d:__Document__ {id: value.id})",
    "SET d.title = value.title"
  ])

  const ChunkStatement: string := Template([
    "MERGE (c:__Chunk__ {id: value.id})",
    "SET c.text = value.text,",
    "    c.n_tokens = value.n_tokens",
    "WITH c, value",
    "UNWIND value.document_ids AS document_id",
    "MATCH (d:__Document__ {id: document_id})",
    "MERGE (c)-[:PART_OF]->(d)"
  ])

  const EntityStatement: string := Template([
    "MERGE (e:__Entity__ {id: value.id})",
    "SET e.human_readable_id = value.human_readable_id,",
    "    e.description = value.description,",
    "    e.name = replace(value.name, '\"', ''),",
    "    e.description_embedding = value.description_embedding",
    "WITH e, value",
    "CALL {",
    "    WITH e, value",
    "    FOREACH (ignore IN CASE WHEN value.type IS NOT NULL AND value.type <> '' THEN [1] ELSE [] END |",
    "        SET e:__Entity__:`replace(value.type, '\"', '')`)",
    "}",
    "WITH e, value",
    "UNWIND value.text_unit_ids AS text_unit_id",
    "MATCH (c:__Chunk__ {id: text_unit_id})",
    "MERGE (c)-[:HAS_ENTITY]->(e)"
  ])

  const RelationshipStatement: string := Template([
    "MATCH (source:__Entity__ {name: replace(value.source, '\"', '')})",
    "MATCH (target:__Entity__ {name: replace(value.target, '\"', '')})",
    "MERGE (source)-[rel:RELATED {id: value.id}]->(target)",
    "SET rel.rank = value.rank,",
    "    rel.weight = value.weight,",
    "    rel.human_readable_id = value.human_readable_id,",
    "    rel.description = value.description,",
    "    rel.text_unit_ids = value.text_unit_ids"
  ])

  const CommunityStatement: string := Template([
    "MERGE (c:__Community__ {community: value.id})",
    "SET c.level = value.level,",
    "    c.title = value.title",
    "WITH c, value",
    "UNWIND value.relationship_ids as rel_id",
    "MATCH (start:__Entity__)-[r:RELATED {id: rel_id}]->(end:__Entity__)",
    "MERGE (start)-[:IN_COMMUNITY]->(c)",
    "MERGE (end)-[:IN_COMMUNITY]->(c)"
  ])

  const CommunityReportStatement: string := Template([
    "MERGE (c:__Community__ {community: value.community})",
    "SET c.level = value.level,",
    "    c.title = value.title,",
    "    c.rank = value.rank,",
    "    c.rank_explanation = value.rank_explanation,",
    "    c.full_content = value.full_content,",
    "    c.summary = value.summary",
    "WITH c, value",
    "UNWIND range(0, size(value.findings)-1) AS finding_idx",
    "WITH c, finding_idx, value.findings[finding_idx] as finding",
    "MERGE (f:Finding {id: finding_idx})",
    "SET f += finding",
    "MERGE (c)-[:HAS_FINDING]->(f)"
  ])

  /** The template each stage passes to batched_import. */
  function StatementOf(s: Stage): string
  {
    match s
    case Documents => DocumentStatement
    case Chunks => ChunkStatement
    case Entities => EntityStatement
    case Relationships => RelationshipStatement
    case Communities => CommunityStatement
    case CommunityReports => CommunityReportStatement
  }

  /**
   * The script after connecting: its six constraints, then the six imports in stage order,
   * each sending its own template behind `UNWIND $rows AS value`.
   */
  method RunScript(store: Store, frame: Stage -> seq<Value>) returns (failure: Option<ImportError>)
    modifies store
    ensures var r := RunStages(StageOrder, StatementOf, frame, store.respond, |old(store.log)| + |Constraints|);
      && failure == r.failure
      && store.log == old(store.log) + ConstraintCalls(Constraints) + Flatten(r.blocks)
      && |r.blocks| <= |StageOrder|
      && forall k, j :: 0 <= k < |r.blocks| && 0 <= j < |r.blocks[k]| ==>
           r.blocks[k][j].query == Unwind(StatementOf(StageOrder[k]))
  {
    ghost var t := |store.log| + |Constraints|;
    RunStagesQueries(StageOrder, StatementOf, frame, store.respond, t);
    failure := RunPipeline(store, Constraints, StatementOf, frame);
  }
}

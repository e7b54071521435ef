/** What tools produce and gates judge: evidence packs and statements of reasons
    (agents/evidence/pack.py and agents/memo/memo.py, as their call sites use them). */
module Artifacts {
  import opened Prelude
  import opened Mandates

  datatype SentenceRole = Fact | PolicyGround | Measure | Redress

  datatype PolicyCitation = PolicyCitation(contentDigest: string, anchor: string, excerpt: string)

  datatype MemoSentence = MemoSentence(
    index: nat, role: SentenceRole, text: string, evidenceIds: set<string>, citation: Option<PolicyCitation>)

  datatype MemoStatus = Draft | Signed

  /** A memo as a gate receives it. None of the constructor's own checks are presumed. */
  datatype EnforcementMemo = EnforcementMemo(
    memoId: string, packDigest: string, corpusSha256: string, sentences: seq<MemoSentence>, status: MemoStatus)

  /** A node or an edge of a pack: its id, its kind or relation, and the line that describes it. */
  datatype PackItem = PackItem(id: string, tag: string, text: string)

  /** A pack: its entities, its relations, and the ids of its timeline events and provenance records. */
  datatype EvidencePack = EvidencePack(
    contentDigest: string, nodes: seq<PackItem>, edges: seq<PackItem>, otherIds: set<string>)
  {
    /** Everything a claim may cite. */
    function RecordIds(): set<string> {
      (set i | 0 <= i < |nodes| :: nodes[i].id) + (set i | 0 <= i < |edges| :: edges[i].id) + otherIds
    }
  }

  datatype Artifact =
    | PackArtifact(pack: EvidencePack)
    | MemoArtifact(memo: EnforcementMemo)
    | QueueArtifact
    | EvalReportArtifact
    | ForeignArtifact

  /** isinstance(result, mandate.output_schema). */
  predicate IsInstance(a: Artifact, s: Schema) {
    match s
    case QueueSchema => a.QueueArtifact?
    case PackSchema => a.PackArtifact?
    case MemoSchema => a.MemoArtifact?
    case EvalReportSchema => a.EvalReportArtifact?
  }

  /** What can be cited: the id of an entity, of a relation, of a timeline event or of a provenance record. */
  lemma CitableRecords(pack: EvidencePack, id: string)
    ensures id in pack.RecordIds() <==>
              || (exists i :: 0 <= i < |pack.nodes| && pack.nodes[i].id == id)
              || (exists i :: 0 <= i < |pack.edges| && pack.edges[i].id == id)
              || id in pack.otherIds
  {
  }

  /** Each schema is met by its own artifacts and no others. */
  lemma SchemasByName(a: Artifact)
    ensures IsInstance(a, QueueSchema) <==> a == QueueArtifact
    ensures IsInstance(a, PackSchema) <==> exists pack :: a == PackArtifact(pack)
    ensures IsInstance(a, MemoSchema) <==> exists memo :: a == MemoArtifact(memo)
    ensures IsInstance(a, EvalReportSchema) <==> a == EvalReportArtifact
  {
    if a.PackArtifact? {
      assert a == PackArtifact(a.pack);
    }
    if a.MemoArtifact? {
      assert a == MemoArtifact(a.memo);
    }
  }
}

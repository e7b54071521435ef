/** What stands between the start of a turn and its model call: the evidence pack goes through the
    firewall and the instruction is put in front of it (orchestrator/evidence_turn.py,
    orchestrator/memo_turn.py). Either step can raise. */
module Preflights {
  import opened Prelude
  import opened Canonical
  import opened Artifacts
  import opened Sessions
  import opened Fences

  /** What can raise out of a turn. */
  datatype Raised =
    | BySession(error: Error)
    | ByFirewall(refusal: FirewallError)
    | ByCompose(reason: ComposeError)
    | ByReviewer

  function Presented(kind: string, items: seq<PackItem>): seq<CaseRecord> {
    seq(|items|, i requires 0 <= i < |items| => CaseRecord(items[i].id, kind + items[i].tag, items[i].text))
  }

  /** The memo turn presents the entities. */
  function NodeRecords(pack: EvidencePack): seq<CaseRecord> { Presented("pack.node.", pack.nodes) }

  /** The evidence turn presents the entities, then the relations. */
  function PackRecords(pack: EvidencePack): seq<CaseRecord> {
    NodeRecords(pack) + Presented("pack.edge.", pack.edges)
  }

  /** What a turn presents, record by record: each entity under its own id with its kind and its line, then, in
      the evidence turn, each relation. */
  lemma PresentedAre(pack: EvidencePack)
    ensures |NodeRecords(pack)| == |pack.nodes| && |PackRecords(pack)| == |pack.nodes| + |pack.edges|
    ensures forall i | 0 <= i < |pack.nodes| ::
              && PackRecords(pack)[i] == NodeRecords(pack)[i]
              && NodeRecords(pack)[i] == CaseRecord(pack.nodes[i].id, "pack.node." + pack.nodes[i].tag, pack.nodes[i].text)
    ensures forall i | 0 <= i < |pack.edges| ::
              PackRecords(pack)[|pack.nodes| + i]
              == CaseRecord(pack.edges[i].id, "pack.edge." + pack.edges[i].tag, pack.edges[i].text)
  {
  }

  /** Wrap the records, then compose: None when the model call can go ahead. */
  function Preflight(h: Hasher, records: seq<CaseRecord>, instruction: string): Option<Raised> {
    match Wrapped(h, records)
    case Err(e) => Some(ByFirewall(e))
    case Ok(b) =>
      match ComposeRefusal(instruction, b.nonce)
      case Some(e) => Some(ByCompose(e))
      case None => None
  }

  method RunPreflight(h: Hasher, records: seq<CaseRecord>, instruction: string) returns (r: Option<Raised>)
    ensures r == Preflight(h, records, instruction)
  {
    var wrapped := Wrap(h, records);
    if wrapped.Err? {
      return Some(ByFirewall(wrapped.error));
    }
    var refusal := ComposeRefusal(instruction, wrapped.value.nonce);
    r := if refusal.Some? then Some(ByCompose(refusal.value)) else None;
  }

  // The instruction holds neither the block's nonce nor a fence prefix.
  predicate Unfenced(h: Hasher, records: seq<CaseRecord>, instruction: string)
    requires Wrapped(h, records).Ok?
  {
    && !Occurs(Wrapped(h, records).value.nonce, instruction)
    && !Occurs(OPEN_PREFIX, instruction) && !Occurs(CLOSE_PREFIX, instruction)
  }

  /** What has to hold of the records and the instruction: distinct ids, a token the body does not
      contain, and an instruction that cannot be taken for a fence. */
  ghost predicate Presentable(h: Hasher, records: seq<CaseRecord>, instruction: string) {
    WrapsIff(h, records);
    Distinct(Ids(records)) && TokenFrom(h, Body(records), 0) && Unfenced(h, records, instruction)
  }

  lemma PreflightIff(h: Hasher, records: seq<CaseRecord>, instruction: string)
    ensures Preflight(h, records, instruction) == None <==> Presentable(h, records, instruction)
    ensures Preflight(h, records, instruction).Some? ==> !Preflight(h, records, instruction).value.BySession?
  {
    WrapsIff(h, records);
    hide Wrapped, TokenFrom, Occurs, Distinct;
  }

  // ------------------------------------------------------------------
  // Packs as they are constructed
  // ------------------------------------------------------------------

  function ItemIds(items: seq<PackItem>): seq<string> {
    seq(|items|, i requires 0 <= i < |items| => items[i].id)
  }

  /** What a pack's constructor enforces: no id twice among the entities, none twice among the
      relations. */
  predicate Constructed(pack: EvidencePack) { Distinct(ItemIds(pack.nodes)) && Distinct(ItemIds(pack.edges)) }

  lemma PresentedIds(kind: string, items: seq<PackItem>)
    ensures Ids(Presented(kind, items)) == ItemIds(items)
  {
  }

  /** A constructed pack's records have distinct ids exactly when no relation has an entity's id; its
      entities alone always have. */
  lemma SharedIds(pack: EvidencePack)
    requires Constructed(pack)
    ensures Distinct(Ids(NodeRecords(pack)))
    ensures Distinct(Ids(PackRecords(pack))) <==>
              forall i, j | 0 <= i < |pack.nodes| && 0 <= j < |pack.edges| :: pack.nodes[i].id != pack.edges[j].id
  {
    var nodes, edges := ItemIds(pack.nodes), ItemIds(pack.edges);
    PresentedIds("pack.node.", pack.nodes);
    PresentedIds("pack.edge.", pack.edges);
    var ids := Ids(PackRecords(pack));
    assert ids == nodes + edges;
    if Distinct(ids) {
      forall i, j | 0 <= i < |nodes| && 0 <= j < |edges| ensures pack.nodes[i].id != pack.edges[j].id {
        assert ids[i] == nodes[i] && ids[|nodes| + j] == edges[j];
      }
    }
    if forall i, j | 0 <= i < |nodes| && 0 <= j < |edges| :: pack.nodes[i].id != pack.edges[j].id {
      forall i, j | 0 <= i < j < |ids| ensures ids[i] != ids[j] {
        if i < |nodes| <= j {
          assert ids[i] == pack.nodes[i].id && ids[j] == pack.edges[j - |nodes|].id;
        }
      }
    }
  }

  /** A constructed pack that cannot be wrapped: a relation with the id of the entity it starts from. */
  const CLASHING_PACK: EvidencePack :=
    EvidencePack("", [PackItem("a", "channel", ""), PackItem("b", "account", "")], [PackItem("a", "owns_channel", "a -> b")], {})

  lemma ClashingPackIsRefused(h: Hasher, instruction: string)
    ensures Constructed(CLASHING_PACK)
    ensures Preflight(h, PackRecords(CLASHING_PACK), instruction) == Some(ByFirewall(DuplicateId("a")))
  {
    var pack := CLASHING_PACK;
    assert ItemIds(pack.nodes) == ["a", "b"] && ItemIds(pack.edges) == ["a"];
    assert "a"[0] != "b"[0];
    var records := PackRecords(pack);
    assert |records| == 3 && records[0].recordId == "a" && records[1].recordId == "b" && records[2].recordId == "a";
    var second, third := records[1..], records[1..][1..];
    assert FirstRepeat(third, {"a", "b"}) == Some("a");
    assert {"a"} + {"b"} == {"a", "b"};
    assert FirstRepeat(second, {"a"}) == Some("a");
    assert {} + {"a"} == {"a"};
    assert FirstRepeat(records, {}) == Some("a");
  }

  lemma ClashingIds()
    ensures Constructed(CLASHING_PACK) && !Distinct(Ids(PackRecords(CLASHING_PACK)))
  {
    var nodes, edges := ItemIds(CLASHING_PACK.nodes), ItemIds(CLASHING_PACK.edges);
    assert nodes == ["a", "b"] && edges == ["a"];
    assert nodes[0] != nodes[1];
    SharedIds(CLASHING_PACK);
    assert CLASHING_PACK.nodes[0].id == CLASHING_PACK.edges[0].id;
  }
}

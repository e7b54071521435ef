/** The pivots a pack supports, in the order they are asked (orchestrator/evidence_turn.py). */
module WorkLists {
  import opened Prelude

  datatype PivotKind = AccountLink | EngagementEdge | InfraOverlap | SharedMetadata | TemporalCorrelation

  /** An entity id and its kind, both as the evidence pack renders them. */
  datatype Entity = Entity(id: string, kind: string)

  datatype Question = Question(pivot: PivotKind, target: string)

  // Which pivots apply to a kind of entity, in order; kinds without any are not asked about.
  function KindPivots(kind: string): seq<PivotKind> {
    if kind == "channel" then [AccountLink, EngagementEdge, InfraOverlap]
    else if kind == "account" then [InfraOverlap, SharedMetadata]
    else []
  }

  /** The entities with a non-empty id not seen before, first occurrence each. */
  function FirstMentions(entities: seq<Entity>, seen: set<string>): seq<Entity> {
    if entities == [] then []
    else
      var e := entities[0];
      if e.id != "" && e.id !in seen then [e] + FirstMentions(entities[1..], seen + {e.id})
      else FirstMentions(entities[1..], seen)
  }

  function Questions(e: Entity): seq<Question> {
    seq(|KindPivots(e.kind)|, i requires 0 <= i < |KindPivots(e.kind)| => Question(KindPivots(e.kind)[i], e.id))
  }

  function Work(entities: seq<Entity>): seq<Question> {
    if entities == [] then [] else Questions(entities[0]) + Work(entities[1..])
  }

  /** _pivot_work_list: the subject leads, as a channel. */
  function WorkList(subject: string, entities: seq<Entity>): seq<Question> {
    Work(FirstMentions([Entity(subject, "channel")] + entities, {}))
  }

  method OrderEntities(all: seq<Entity>) returns (ordered: seq<Entity>)
    ensures ordered == FirstMentions(all, {})
  {
    ordered := [];
    var seen: set<string> := {};
    for i := 0 to |all|
      invariant ordered + FirstMentions(all[i..], seen) == FirstMentions(all, {})
    {
      var e := all[i];
      assert all[i..][1..] == all[i + 1..];
      if e.id != "" && e.id !in seen {
        seen := seen + {e.id};
        Regroup(ordered, [e], FirstMentions(all[i + 1..], seen));
        ordered := ordered + [e];
      }
    }
  }

  lemma Regroup<T>(a: seq<T>, b: seq<T>, c: seq<T>)
    ensures a + (b + c) == a + b + c
  {
  }

  method PivotWorkList(subject: string, entities: seq<Entity>) returns (work: seq<Question>)
    ensures work == WorkList(subject, entities)
  {
    var ordered := OrderEntities([Entity(subject, "channel")] + entities);
    work := [];
    for i := 0 to |ordered|
      invariant work + Work(ordered[i..]) == Work(ordered)
    {
      assert ordered[i..][1..] == ordered[i + 1..];
      Regroup(work, Questions(ordered[i]), Work(ordered[i + 1..]));
      work := work + Questions(ordered[i]);
    }
  }

  // ------------------------------------------------------------------
  // Growth
  // ------------------------------------------------------------------

  lemma {:induction false} FirstMentionsGrow(entities: seq<Entity>, more: seq<Entity>, seen: set<string>)
    ensures FirstMentions(entities, seen) <= FirstMentions(entities + more, seen)
    decreases |entities|
  {
    if entities != [] {
      assert (entities + more)[1..] == entities[1..] + more;
      var e := entities[0];
      if e.id != "" && e.id !in seen {
        FirstMentionsGrow(entities[1..], more, seen + {e.id});
      } else {
        FirstMentionsGrow(entities[1..], more, seen);
      }
    }
  }

  lemma {:induction false} WorkGrows(entities: seq<Entity>, longer: seq<Entity>)
    requires entities <= longer
    ensures Work(entities) <= Work(longer)
    decreases |entities|
  {
    if entities != [] {
      assert entities[1..] <= longer[1..];
      WorkGrows(entities[1..], longer[1..]);
      PrefixOfSum(Questions(entities[0]), Work(entities[1..]), Work(longer[1..]));
    }
  }

  lemma PrefixOfSum<T>(front: seq<T>, a: seq<T>, b: seq<T>)
    requires a <= b
    ensures front + a <= front + b
  {
    assert front + b == front + a + b[|a|..];
  }

  /** Appending entities to the evidence pack leaves every question where it was: the old list is a prefix of
      the new one. */
  lemma WorkListGrows(subject: string, entities: seq<Entity>, more: seq<Entity>)
    ensures WorkList(subject, entities) <= WorkList(subject, entities + more)
  {
    var all := [Entity(subject, "channel")] + entities;
    assert [Entity(subject, "channel")] + (entities + more) == all + more;
    FirstMentionsGrow(all, more, {});
    WorkGrows(FirstMentions(all, {}), FirstMentions(all + more, {}));
  }

  // ------------------------------------------------------------------
  // No question twice, and none missing
  // ------------------------------------------------------------------

  lemma {:induction false} FirstMentionsAreFresh(entities: seq<Entity>, seen: set<string>)
    ensures forall e | e in FirstMentions(entities, seen) :: e.id !in seen && e.id != ""
    ensures forall i, j | 0 <= i < j < |FirstMentions(entities, seen)| ::
              FirstMentions(entities, seen)[i].id != FirstMentions(entities, seen)[j].id
    decreases |entities|
  {
    if entities != [] {
      var e, rest := entities[0], entities[1..];
      if e.id != "" && e.id !in seen {
        FirstMentionsAreFresh(rest, seen + {e.id});
        var more := FirstMentions(rest, seen + {e.id});
        forall i, j | 0 <= i < j < |[e] + more| ensures ([e] + more)[i].id != ([e] + more)[j].id {
          assert more[j - 1] in more;
        }
      } else {
        FirstMentionsAreFresh(rest, seen);
      }
    }
  }

  lemma {:induction false} WorkAsksAbout(entities: seq<Entity>, q: Question)
    ensures q in Work(entities) <==>
              exists i :: 0 <= i < |entities| && q.target == entities[i].id && q.pivot in KindPivots(entities[i].kind)
    decreases |entities|
  {
    if entities != [] {
      var e, rest := entities[0], entities[1..];
      WorkAsksAbout(rest, q);
      assert q in Work(entities) <==> q in Questions(e) || q in Work(rest);
      assert q in Questions(e) <==> q.target == e.id && q.pivot in KindPivots(e.kind) by {
        if q.target == e.id && q.pivot in KindPivots(e.kind) {
          var k :| 0 <= k < |KindPivots(e.kind)| && KindPivots(e.kind)[k] == q.pivot;
          assert Questions(e)[k] == q;
        }
      }
      forall i | 0 <= i < |rest| ensures rest[i] == entities[i + 1] {
      }
      if i :| 0 <= i < |entities| && q.target == entities[i].id && q.pivot in KindPivots(entities[i].kind) {
        assert i > 0 ==> rest[i - 1] == entities[i];
      }
    }
  }

  lemma KindPivotsDistinct(kind: string)
    ensures Distinct(KindPivots(kind))
  {
  }

  lemma {:induction false} WorkIsDistinct(entities: seq<Entity>)
    requires forall i, j | 0 <= i < j < |entities| :: entities[i].id != entities[j].id
    ensures Distinct(Work(entities))
    decreases |entities|
  {
    if entities != [] {
      var e, rest := entities[0], entities[1..];
      WorkIsDistinct(rest);
      KindPivotsDistinct(e.kind);
      var front, back := Questions(e), Work(rest);
      forall i, j | 0 <= i < j < |front + back| ensures (front + back)[i] != (front + back)[j] {
        if i < |front| <= j {
          WorkAsksAbout(rest, back[j - |front|]);
          assert back[j - |front|] in back;
        }
      }
    }
  }

  /** No pair of pivot and entity is listed twice. */
  lemma NoQuestionTwice(subject: string, entities: seq<Entity>)
    ensures Distinct(WorkList(subject, entities))
  {
    var all := [Entity(subject, "channel")] + entities;
    FirstMentionsAreFresh(all, {});
    WorkIsDistinct(FirstMentions(all, {}));
  }

  // Where an id first occurs.
  ghost predicate FirstAt(entities: seq<Entity>, i: nat) {
    i < |entities| && forall j | 0 <= j < i :: entities[j].id != entities[i].id
  }

  lemma {:induction false} FirstMentionsHave(entities: seq<Entity>, seen: set<string>, e: Entity)
    ensures e in FirstMentions(entities, seen) <==>
              e.id != "" && e.id !in seen && exists i: nat :: FirstAt(entities, i) && entities[i] == e
    decreases |entities|
  {
    if entities != [] {
      var head, rest := entities[0], entities[1..];
      var more := if head.id != "" && head.id !in seen then seen + {head.id} else seen;
      FirstMentionsHave(rest, more, e);
      FirstShifts(entities, e);
      assert e == head ==> FirstAt(entities, 0);
    }
  }

  // First mentions after the head are first mentions of the tail, of another id.
  lemma FirstShifts(entities: seq<Entity>, e: Entity)
    requires entities != []
    ensures (exists i: nat :: FirstAt(entities, i) && entities[i] == e) <==>
              e == entities[0] ||
              (e.id != entities[0].id && exists i: nat :: FirstAt(entities[1..], i) && entities[1..][i] == e)
  {
    var rest := entities[1..];
    if i: nat :| FirstAt(entities, i) && entities[i] == e && i > 0 {
      assert entities[0].id != entities[i].id;
      forall j | 0 <= j < i - 1 ensures rest[j].id != rest[i - 1].id {
        assert rest[j] == entities[j + 1];
      }
      assert FirstAt(rest, i - 1);
    }
    if e.id != entities[0].id {
      if i: nat :| FirstAt(rest, i) && rest[i] == e {
        forall j | 0 <= j < i + 1 ensures entities[j].id != entities[i + 1].id {
          assert j > 0 ==> entities[j] == rest[j - 1];
        }
        assert FirstAt(entities, i + 1);
      }
    }
    assert FirstAt(entities, 0);
  }

  /** A pair is listed exactly when the id is not empty and its first mention, the subject counting as
      a channel ahead of the evidence pack, is of a kind that pivot applies to. */
  lemma WorkListIsComplete(subject: string, entities: seq<Entity>, q: Question)
    ensures var all := [Entity(subject, "channel")] + entities;
            q in WorkList(subject, entities) <==>
              q.target != "" && exists i: nat :: FirstAt(all, i) && all[i].id == q.target && q.pivot in KindPivots(all[i].kind)
  {
    var all := [Entity(subject, "channel")] + entities;
    var ordered := FirstMentions(all, {});
    WorkAsksAbout(ordered, q);
    if i :| 0 <= i < |ordered| && q.target == ordered[i].id && q.pivot in KindPivots(ordered[i].kind) {
      FirstMentionsHave(all, {}, ordered[i]);
    }
    if i: nat :| FirstAt(all, i) && all[i].id == q.target && q.pivot in KindPivots(all[i].kind) {
      FirstMentionsHave(all, {}, all[i]);
    }
  }

  /** The question asked at a hop: the hop's own entry, or the last one once the list is used up. */
  function Asked(work: seq<Question>, hops: nat): Question
    requires work != []
  {
    work[Min(hops, |work| - 1)]
  }

  /** While the evidence pack grows from hop to hop, different hops ask different questions until the list the
      later hop sees is used up. */
  lemma HopsAskDifferently(subject: string, entities: seq<Entity>, more: seq<Entity>, hop: nat, later: nat)
    requires hop < later < |WorkList(subject, entities + more)| && hop < |WorkList(subject, entities)|
    ensures Asked(WorkList(subject, entities), hop) != Asked(WorkList(subject, entities + more), later)
  {
    WorkListGrows(subject, entities, more);
    NoQuestionTwice(subject, entities + more);
    var now, grown := WorkList(subject, entities), WorkList(subject, entities + more);
    assert now[hop] == grown[hop];
  }

  // ------------------------------------------------------------------
  // Order
  // ------------------------------------------------------------------

  /** The kinds that are asked about, and what about: videos, comments and anything else are not. */
  lemma KindsByName(kind: string, p: PivotKind)
    ensures kind == "channel" ==> (p in KindPivots(kind) <==> p in {AccountLink, EngagementEdge, InfraOverlap})
    ensures kind == "account" ==> (p in KindPivots(kind) <==> p in {InfraOverlap, SharedMetadata})
    ensures kind != "channel" && kind != "account" ==> p !in KindPivots(kind)
  {
    assert "channel"[0] != "account"[0];
    var onChannel, onAccount := [AccountLink, EngagementEdge, InfraOverlap], [InfraOverlap, SharedMetadata];
    assert onChannel[0] == AccountLink && onChannel[1] == EngagementEdge && onChannel[2] == InfraOverlap;
    assert onAccount[0] == InfraOverlap && onAccount[1] == SharedMetadata;
  }

  // Links before engagement before infrastructure before metadata before timing.
  function PivotOrder(p: PivotKind): nat {
    match p
    case AccountLink => 0
    case EngagementEdge => 1
    case InfraOverlap => 2
    case SharedMetadata => 3
    case TemporalCorrelation => 4
  }

  lemma KindPivotsInOrder(kind: string, i: nat, j: nat)
    requires i < j < |KindPivots(kind)|
    ensures PivotOrder(KindPivots(kind)[i]) < PivotOrder(KindPivots(kind)[j])
  {
  }

  /** Where an id is first mentioned, or the end. */
  function MentionAt(entities: seq<Entity>, id: string): (k: nat)
    ensures k <= |entities|
  {
    if entities == [] || entities[0].id == id then 0 else 1 + MentionAt(entities[1..], id)
  }

  lemma {:induction false} MentionsAscend(entities: seq<Entity>, seen: set<string>, a: nat, b: nat)
    requires a < b < |FirstMentions(entities, seen)|
    ensures var ordered := FirstMentions(entities, seen);
            MentionAt(entities, ordered[a].id) < MentionAt(entities, ordered[b].id)
    decreases |entities|
  {
    var e, rest := entities[0], entities[1..];
    var ordered := FirstMentions(entities, seen);
    FirstMentionsAreFresh(entities, seen);
    if e.id != "" && e.id !in seen {
      var later := FirstMentions(rest, seen + {e.id});
      assert ordered[b] == later[b - 1];
      if a > 0 {
        assert ordered[a] == later[a - 1];
        FirstMentionsAreFresh(rest, seen + {e.id});
        assert later[a - 1] in later && later[b - 1] in later;
        MentionsAscend(rest, seen + {e.id}, a - 1, b - 1);
      } else {
        assert ordered[0].id != ordered[b].id;
      }
    } else {
      assert ordered[a] in ordered && ordered[b] in ordered;
      MentionsAscend(rest, seen, a, b);
    }
  }

  // The entity a question is about, by position, and the place of its pivot.
  function PlaceOf(entities: seq<Entity>, i: nat): (r: (nat, nat))
    requires i < |Work(entities)|
    ensures r.0 < |entities| && r.1 < |KindPivots(entities[r.0].kind)|
    ensures Work(entities)[i] == Question(KindPivots(entities[r.0].kind)[r.1], entities[r.0].id)
  {
    var own := |Questions(entities[0])|;
    if i < own then (0, i)
    else
      var (a, p) := PlaceOf(entities[1..], i - own);
      (a + 1, p)
  }

  lemma {:induction false} PlacesAscend(entities: seq<Entity>, i: nat, j: nat)
    requires i < j < |Work(entities)|
    ensures var (a, p) := PlaceOf(entities, i);
            var (b, q) := PlaceOf(entities, j);
            a < b || (a == b && p < q)
    decreases |entities|
  {
    hide KindPivots, Questions;
    var own := |Questions(entities[0])|;
    if own <= i {
      PlacesAscend(entities[1..], i - own, j - own);
    }
  }

  /** Questions about an entity mentioned earlier come first, the subject's before all others, and questions
      about the same entity come in the pivots' own order. */
  lemma WorkListInOrder(subject: string, entities: seq<Entity>, i: nat, j: nat)
    requires i < j < |WorkList(subject, entities)|
    ensures var all, work := [Entity(subject, "channel")] + entities, WorkList(subject, entities);
            || MentionAt(all, work[i].target) < MentionAt(all, work[j].target)
            || (work[i].target == work[j].target && PivotOrder(work[i].pivot) < PivotOrder(work[j].pivot))
  {
    var all := [Entity(subject, "channel")] + entities;
    var ordered := FirstMentions(all, {});
    PlacesAscend(ordered, i, j);
    var (a, p) := PlaceOf(ordered, i);
    var (b, q) := PlaceOf(ordered, j);
    if a < b {
      MentionsAscend(all, {}, a, b);
    } else {
      KindPivotsInOrder(ordered[a].kind, p, q);
    }
  }

  /** Each hop asks its own entry of the list, and every hop past its end asks the last one again. */
  lemma AskedInTurn(work: seq<Question>, hops: nat)
    requires work != []
    ensures hops < |work| ==> Asked(work, hops) == work[hops]
    ensures hops >= |work| ==> Asked(work, hops) == Asked(work, |work| - 1)
  {
  }
}

/** PublishService's in-memory register: drafts, and a list of publications of which one is
  * flagged active.  The flagged list is shown to refine a history with one current position. */
module Publishing {
  import opened Basics

  /** Configuration data: its kanban stages, if any, and everything else. */
  datatype ConfigData = ConfigData(stages: Option<seq<string>>, rest: map<string, string>) {
    predicate Empty() { stages.None? && rest == map[] }
  }

  datatype Draft = Draft(config: ConfigData, tag: string)

  /** What is fixed when a publication is made. */
  datatype Content = Content(id: string, draftId: string, config: ConfigData, tag: string, publisher: string)

  datatype Publication = Publication(content: Content, isActive: bool)

  datatype PublishError = DraftNotFound | EmptyConfigData | PublicationNotFound

  const DEFAULT_STAGES: seq<string> :=
    ["new_lead", "contacted", "nurturing", "qualified", "proposal_sent", "negotiation", "won", "lost"]

  // ------------------------------------------------------------------ abstract register

  datatype Register = Register(history: seq<Content>, current: Option<nat>)

  predicate RegisterOk(r: Register) {
    && (forall i, j :: 0 <= i < j < |r.history| ==> r.history[i].id != r.history[j].id)
    && (r.current.Some? <==> |r.history| > 0)
    && (r.current.Some? ==> r.current.value < |r.history|)
  }

  function Find(history: seq<Content>, id: string): Option<nat> {
    if |history| == 0 then None
    else if history[0].id == id then Some(0)
    else
      var f := Find(history[1..], id);
      if f.None? then None else Some(f.value + 1)
  }

  lemma {:induction false} FindFacts(history: seq<Content>, id: string)
    ensures Find(history, id).Some? ==>
              Find(history, id).value < |history| && history[Find(history, id).value].id == id
              && forall i :: 0 <= i < Find(history, id).value ==> history[i].id != id
    ensures Find(history, id).None? ==> forall i :: 0 <= i < |history| ==> history[i].id != id
  {
    if |history| > 0 && history[0].id != id {
      FindFacts(history[1..], id);
      assert forall i :: 0 < i < |history| ==> history[i] == history[1..][i - 1];
    }
  }

  // ------------------------------------------------------------------- the flagged list

  /** Exactly the current entry is flagged. */
  predicate Represents(pubs: seq<Publication>, r: Register) {
    && |pubs| == |r.history|
    && (forall i :: 0 <= i < |pubs| ==> pubs[i].content == r.history[i])
    && (forall i :: 0 <= i < |pubs| ==> (pubs[i].isActive <==> r.current == Some(i)))
  }

  function Contents(pubs: seq<Publication>): (c: seq<Content>)
    ensures |c| == |pubs| && forall i :: 0 <= i < |pubs| ==> c[i] == pubs[i].content
  {
    seq(|pubs|, i requires 0 <= i < |pubs| => pubs[i].content)
  }

  class PublishService {
    var drafts: map<string, Draft>
    var publications: seq<Publication>
    ghost var model: Register

    ghost predicate Valid()
      reads this
    {
      RegisterOk(model) && Represents(publications, model)
    }

    constructor ()
      ensures Valid() && drafts == map[] && model == Register([], None)
    {
      drafts, publications := map[], [];
      model := Register([], None);
    }

    method CreateDraft(draftId: string, config: ConfigData, tag: string)
      requires Valid()
      modifies this
      ensures Valid() && model == old(model)
      ensures drafts == old(drafts)[draftId := Draft(config, tag)]
    {
      drafts := drafts[draftId := Draft(config, tag)];
    }

    /** for pub in publications: pub.is_active = False */
    method DeactivateAll()
      modifies this`publications
      ensures Contents(publications) == Contents(old(publications))
      ensures forall i :: 0 <= i < |publications| ==> !publications[i].isActive
    {
      ghost var before := publications;
      for k := 0 to |publications|
        invariant |publications| == |before|
        invariant forall i :: 0 <= i < |before| ==> publications[i].content == before[i].content
        invariant forall i :: 0 <= i < k ==> !publications[i].isActive
      {
        publications := publications[k := publications[k].(isActive := false)];
      }
      assert Contents(publications) == Contents(before);
    }

    /** publicationId is a fresh uuid. */
    method Publish(draftId: string, publicationId: string, publisher: string) returns (r: Result<string, PublishError>)
      requires Valid() && Find(model.history, publicationId).None?
      modifies this
      ensures Valid() && drafts == old(drafts)
      ensures (model, r) == PublishSpec(old(drafts), old(model), draftId, publicationId, publisher)
      ensures r.Ok? <==>
                draftId in drafts && (drafts[draftId].config.stages.Some? || drafts[draftId].config.rest != map[])
      ensures r == Err(DraftNotFound) <==> draftId !in drafts
      ensures r.Ok? ==>
                var entry := model.history[|old(model).history|];
                && r.value == publicationId && old(model).history <= model.history
                && |model.history| == |old(model).history| + 1 && model.current == Some(|old(model).history|)
                && entry.id == publicationId && entry.draftId == draftId && entry.publisher == publisher
                && entry.config == drafts[draftId].config && entry.tag == drafts[draftId].tag
      ensures r.Err? ==> publications == old(publications) && model == old(model)
    {
      if draftId !in drafts {
        return Err(DraftNotFound);
      }
      var draft := drafts[draftId];
      if draft.config.Empty() {
        return Err(EmptyConfigData);
      }
      FindFacts(model.history, publicationId);
      ghost var before := publications;
      DeactivateAll();
      assert forall i :: 0 <= i < |publications| ==>
             publications[i].content == Contents(publications)[i] == Contents(before)[i];
      var content := Content(publicationId, draftId, draft.config, draft.tag, publisher);
      publications := publications + [Publication(content, true)];
      model := Register(model.history + [content], Some(|model.history|));
      r := Ok(publicationId);
    }

    /** The reversed scan for the active entry. */
    method GetActivePublication() returns (r: Option<Publication>)
      requires Valid()
      ensures r.None? <==> model.current.None?
      ensures r.Some? ==> r.value == Publication(model.history[model.current.value], true)
    {
      var k := |publications|;
      while k > 0
        invariant 0 <= k <= |publications|
        invariant forall i :: k <= i < |publications| ==> !publications[i].isActive
      {
        k := k - 1;
        if publications[k].isActive {
          return Some(publications[k]);
        }
      }
      r := None;
    }

    method Rollback(publicationId: string) returns (r: Result<Publication, PublishError>)
      requires Valid()
      modifies this
      ensures Valid() && drafts == old(drafts)
      ensures model == RollbackSpec(old(model), publicationId)
      ensures r.Err? <==> Find(old(model).history, publicationId).None?
      ensures r.Err? ==> publications == old(publications)
      ensures r.Ok? ==> r.value == Publication(model.history[model.current.value], true)
      ensures r.Ok? ==> r.value.content.id == publicationId
    {
      FindFacts(model.history, publicationId);
      var target: Option<nat> := None;
      for k := 0 to |publications|
        invariant target.None?
        invariant forall i :: 0 <= i < k ==> publications[i].content.id != publicationId
      {
        if publications[k].content.id == publicationId {
          target := Some(k);
          break;
        }
      }
      if target.None? {
        return Err(PublicationNotFound);
      }
      ghost var before := publications;
      DeactivateAll();
      assert forall i :: 0 <= i < |publications| ==>
             publications[i].content == Contents(publications)[i] == Contents(before)[i];
      var t := target.value;
      publications := publications[t := publications[t].(isActive := true)];
      model := model.(current := Some(t));
      r := Ok(publications[t]);
    }

    /** registry.get_kanban_stages, for a tenant that has a service. */
    method KanbanStages() returns (stages: seq<string>)
      requires Valid()
      ensures stages == StagesOf(model)
      ensures model.current.Some? && model.history[model.current.value].config.stages.Some?
              && |model.history[model.current.value].config.stages.value| > 0 ==>
                stages == model.history[model.current.value].config.stages.value
      ensures model.current.None? || model.history[model.current.value].config.stages in {None, Some([])} ==>
                stages == ["new_lead", "contacted", "nurturing", "qualified", "proposal_sent", "negotiation", "won",
                           "lost"]
    {
      var pub := GetActivePublication();
      if pub.None? {
        return DEFAULT_STAGES;
      }
      var config := pub.value.content.config;
      stages := if config.stages.Some? && |config.stages.value| > 0 then config.stages.value else DEFAULT_STAGES;
    }
  }

  // --------------------------------------------------------------- the register's story

  function PublishSpec(drafts: map<string, Draft>, r: Register, draftId: string, id: string,
                       publisher: string): (Register, Result<string, PublishError>) {
    if draftId !in drafts then (r, Err(DraftNotFound))
    else if drafts[draftId].config.Empty() then (r, Err(EmptyConfigData))
    else
      (Register(r.history + [Content(id, draftId, drafts[draftId].config, drafts[draftId].tag, publisher)],
                Some(|r.history|)), Ok(id))
  }

  function RollbackSpec(r: Register, id: string): Register {
    if Find(r.history, id).Some? then r.(current := Find(r.history, id)) else r
  }

  function StagesOf(r: Register): seq<string> {
    if r.current.Some? && r.current.value < |r.history| then
      var stages := r.history[r.current.value].config.stages;
      if stages.Some? && |stages.value| > 0 then stages.value else DEFAULT_STAGES
    else DEFAULT_STAGES
  }

  datatype Op =
    | CreateDraft(draftId: string, config: ConfigData, tag: string)
    | Publish(draftId: string, id: string, publisher: string)
    | Rollback(id: string)

  datatype Service = Service(drafts: map<string, Draft>, register: Register)

  function Apply(s: Service, op: Op): Service {
    match op
    case CreateDraft(draftId, config, tag) => s.(drafts := s.drafts[draftId := Draft(config, tag)])
    case Publish(draftId, id, publisher) =>
      if Find(s.register.history, id).Some? then s
      else s.(register := PublishSpec(s.drafts, s.register, draftId, id, publisher).0)
    case Rollback(id) => s.(register := RollbackSpec(s.register, id))
  }

  function Run(ops: seq<Op>): Service {
    if |ops| == 0 then Service(map[], Register([], None)) else Apply(Run(ops[..|ops| - 1]), ops[|ops| - 1])
  }

  /** The id an operation activates, if it succeeds. */
  function Activated(s: Service, op: Op): Option<string> {
    match op
    case CreateDraft(_, _, _) => None
    case Publish(draftId, id, publisher) =>
      if Find(s.register.history, id).None? && draftId in s.drafts && !s.drafts[draftId].config.Empty() then Some(id)
      else None
    case Rollback(id) => if Find(s.register.history, id).Some? then Some(id) else None
  }

  /** The id activated by the last operation that succeeded in activating one. */
  function LastActivated(ops: seq<Op>): Option<string> {
    if |ops| == 0 then None
    else
      var init := ops[..|ops| - 1];
      var a := Activated(Run(init), ops[|ops| - 1]);
      if a.Some? then a else LastActivated(init)
  }

  lemma ApplyFacts(s: Service, op: Op)
    requires RegisterOk(s.register)
    ensures RegisterOk(Apply(s, op).register) && s.register.history <= Apply(s, op).register.history
    ensures Activated(s, op).None? ==> Apply(s, op).register == s.register
    ensures Activated(s, op).Some? ==>
              var r := Apply(s, op).register;
              r.current.Some? && r.history[r.current.value].id == Activated(s, op).value
  {
    if op.Publish? || op.Rollback? {
      FindFacts(s.register.history, op.id);
    }
  }

  /** Over every sequence of calls: one entry is active once anything is published, and it
    * is the one activated last; the history keeps ids distinct. */
  lemma {:induction false} ActiveIsLastActivated(ops: seq<Op>)
    ensures var r := Run(ops).register;
            && RegisterOk(r)
            && (r.current.None? <==> LastActivated(ops).None?)
            && (r.current.Some? ==> LastActivated(ops) == Some(r.history[r.current.value].id))
  {
    if |ops| > 0 {
      ActiveIsLastActivated(ops[..|ops| - 1]);
      ApplyFacts(Run(ops[..|ops| - 1]), ops[|ops| - 1]);
    }
  }

  /** The history only grows, and what it holds never changes. */
  lemma {:induction false} HistoryOnlyGrows(before: seq<Op>, after: seq<Op>)
    ensures Run(before).register.history <= Run(before + after).register.history
  {
    if |after| == 0 {
      assert before + after == before;
    } else {
      var shorter := before + after[..|after| - 1];
      assert (before + after)[..|before + after| - 1] == shorter;
      HistoryOnlyGrows(before, after[..|after| - 1]);
      ActiveIsLastActivated(shorter);
      ApplyFacts(Run(shorter), after[|after| - 1]);
    }
  }

  predicate NoDraftOf(ops: seq<Op>, d: string) {
    forall i :: 0 <= i < |ops| ==> !(ops[i].CreateDraft? && ops[i].draftId == d)
  }

  lemma {:induction false} DraftStays(before: seq<Op>, mid: seq<Op>, d: string)
    requires d in Run(before).drafts && NoDraftOf(mid, d)
    ensures d in Run(before + mid).drafts && Run(before + mid).drafts[d] == Run(before).drafts[d]
  {
    if |mid| == 0 {
      assert before + mid == before;
    } else {
      assert (before + mid)[..|before + mid| - 1] == before + mid[..|mid| - 1];
      DraftStays(before, mid[..|mid| - 1], d);
    }
  }

  lemma RunSnoc(ops: seq<Op>, op: Op)
    ensures Run(ops + [op]) == Apply(Run(ops), op)
  {
    assert (ops + [op])[..|ops + [op]| - 1] == ops;
  }

  /** What is published is the draft as it was last written: after CreateDraft(d, config, tag),
    * with no later draft d, and a Publish(d, id) under a new id, the entry of that id holds
    * config and tag in every continuation; and while it is the one activated last, its stages
    * are the ones read. */
  lemma PublishedAsDrafted(before: seq<Op>, d: string, config: ConfigData, tag: string, mid: seq<Op>, id: string,
                           publisher: string, after: seq<Op>)
    requires NoDraftOf(mid, d) && !(config.stages.None? && config.rest == map[])
    requires Find(Run(before + [CreateDraft(d, config, tag)] + mid).register.history, id).None?
    ensures var all := before + [CreateDraft(d, config, tag)] + mid + [Publish(d, id, publisher)] + after;
            var r := Run(all).register;
            && (exists i :: 0 <= i < |r.history| && r.history[i] == Content(id, d, config, tag, publisher))
            && (LastActivated(all) == Some(id) && config.stages.Some? && |config.stages.value| > 0 ==>
                StagesOf(r) == config.stages.value)
  {
    var drafted := before + [CreateDraft(d, config, tag)];
    RunSnoc(before, CreateDraft(d, config, tag));
    DraftStays(drafted, mid, d);
    var published := drafted + mid + [Publish(d, id, publisher)];
    RunSnoc(drafted + mid, Publish(d, id, publisher));
    var all := published + after;
    HistoryOnlyGrows(published, after);
    ActiveIsLastActivated(all);
    var i := |Run(drafted + mid).register.history|;
    var r := Run(all).register;
    assert r.history[i] == Run(published).register.history[i];
    if LastActivated(all) == Some(id) {
      assert r.history[r.current.value].id == r.history[i].id;
    }
  }

  /** Rolling back to what was active restores it as far as readers can tell, whatever was
    * published or rolled back in between. */
  lemma RollbackRestores(before: seq<Op>, after: seq<Op>, id: string)
    requires LastActivated(before) == Some(id)
    ensures var r := Run(before).register;
            var back := Run(before + after + [Rollback(id)]).register;
            back.current == r.current && r.current.Some? && StagesOf(back) == StagesOf(r)
  {
    ActiveIsLastActivated(before);
    HistoryOnlyGrows(before, after);
    ActiveIsLastActivated(before + after);
    var r, mid := Run(before).register, Run(before + after).register;
    FindFacts(mid.history, id);
    var all := before + after + [Rollback(id)];
    assert all[..|all| - 1] == before + after;
    assert mid.history[r.current.value] == r.history[r.current.value];
  }
}

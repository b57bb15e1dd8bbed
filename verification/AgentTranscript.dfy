/** What every run of the conversational graph guarantees about its transcript. */
module AgentTranscript {
  import opened AgentGraph

  datatype Tag = U | A(ids: seq<string>) | T(id: string)

  function TagOf(m: Msg): Tag {
    match m
    case User(_) => U
    case Assistant(_, ids) => A(ids)
    case ToolReply(id, _) => T(id)
  }

  function Tags(ms: seq<Msg>): (ts: seq<Tag>)
    ensures |ts| == |ms| && forall i :: 0 <= i < |ms| ==> ts[i] == TagOf(ms[i])
  {
    seq(|ms|, i requires 0 <= i < |ms| => TagOf(ms[i]))
  }

  /** Each assistant message with tool calls is immediately followed by one reply per call,
    * in order, and no reply stands anywhere else. */
  predicate WellFormed(ts: seq<Tag>)
    decreases |ts|
  {
    |ts| == 0
    || (ts[0].U? && WellFormed(ts[1..]))
    || (ts[0].A? && Answered(ts, ts[0].ids) && WellFormed(ts[1 + |ts[0].ids|..]))
  }

  predicate Answered(ts: seq<Tag>, ids: seq<string>) {
    |ts| >= 1 + |ids| && forall i :: 0 <= i < |ids| ==> ts[1 + i] == T(ids[i])
  }

  function Replies(ids: seq<string>): seq<Tag> {
    if |ids| == 0 then [] else (if ids[0] == "" then [] else [T(ids[0])]) + Replies(ids[1..])
  }

  /** The messages of completed agent/tool rounds, given the ids each round called. */
  function Flatten(rounds: seq<seq<string>>): seq<Tag> {
    if |rounds| == 0 then [] else [A(rounds[0])] + Replies(rounds[0]) + Flatten(rounds[1..])
  }

  lemma {:induction false} FlattenSnoc(rounds: seq<seq<string>>, ids: seq<string>)
    ensures Flatten(rounds + [ids]) == Flatten(rounds) + [A(ids)] + Replies(ids)
  {
    if |rounds| == 0 {
      assert (rounds + [ids])[1..] == [];
    } else {
      FlattenSnoc(rounds[1..], ids);
      assert (rounds + [ids])[1..] == rounds[1..] + [ids];
      assert (rounds + [ids])[0] == rounds[0];
      var first, rest := [A(rounds[0])] + Replies(rounds[0]), Flatten(rounds[1..]);
      AppendAssociates(first, rest, [A(ids)]);
      AppendAssociates(first, rest + [A(ids)], Replies(ids));
    }
  }

  lemma AppendAssociates(a: seq<Tag>, b: seq<Tag>, c: seq<Tag>)
    ensures a + (b + c) == a + b + c
  {
  }

  lemma {:induction false} RepliesFacts(ids: seq<string>)
    ensures |Replies(ids)| <= |ids|
    ensures "" !in ids ==> |Replies(ids)| == |ids| && forall i :: 0 <= i < |ids| ==> Replies(ids)[i] == T(ids[i])
    ensures "" in ids ==> |Replies(ids)| < |ids|
    ensures forall i :: 0 <= i < |Replies(ids)| ==> Replies(ids)[i].T?
  {
    if |ids| > 0 {
      RepliesFacts(ids[1..]);
      assert ids == [ids[0]] + ids[1..];
    }
  }

  predicate AllNamed(rounds: seq<seq<string>>) {
    forall k :: 0 <= k < |rounds| ==> "" !in rounds[k]
  }

  /** A round is answered exactly if all its call ids are non-empty. */
  lemma RoundAnswered(ids: seq<string>, rest: seq<Tag>)
    requires |rest| == 0 || !rest[0].T?
    ensures Answered([A(ids)] + Replies(ids) + rest, ids) <==> "" !in ids
  {
    RepliesFacts(ids);
    AnsweredBy(ids, Replies(ids), rest);
  }

  lemma AnsweredBy(ids: seq<string>, replies: seq<Tag>, rest: seq<Tag>)
    requires |replies| <= |ids| && (|rest| == 0 || !rest[0].T?)
    ensures Answered([A(ids)] + replies + rest, ids) <==>
              |replies| == |ids| && forall i :: 0 <= i < |ids| ==> replies[i] == T(ids[i])
  {
    var ts, n := [A(ids)] + replies + rest, |replies|;
    assert forall i :: 0 <= i < n ==> ts[1 + i] == replies[i];
    assert |rest| > 0 ==> ts[1 + n] == rest[0];
    assert n < |ids| && |ts| >= 1 + |ids| ==> ts[1 + n] != T(ids[n]);
  }

  lemma {:induction false} FlattenWellFormed(rounds: seq<seq<string>>)
    ensures WellFormed(Flatten(rounds)) <==> AllNamed(rounds)
    ensures |rounds| > 0 ==> |Flatten(rounds)| > 0 && Flatten(rounds)[0].A?
  {
    if |rounds| > 0 {
      var ids, rest := rounds[0], Flatten(rounds[1..]);
      FlattenWellFormed(rounds[1..]);
      RoundAnswered(ids, rest);
      RepliesFacts(ids);
      var ts := Flatten(rounds);
      assert AllNamed(rounds) <==> "" !in ids && AllNamed(rounds[1..]) by {
        assert forall k :: 0 < k < |rounds| ==> rounds[k] == rounds[1..][k - 1];
      }
      if "" !in ids {
        assert ts[1 + |ids|..] == rest;
      }
    }
  }

  lemma {:induction false} ReplyTags(calls: seq<ToolCall>, envs: nat -> ToolEnv, k: nat)
    requires k <= |calls|
    ensures Tags(ToolReplies(ToolResults(calls, envs, k))) == Replies(CallIds(calls)[k..])
    decreases |calls| - k
  {
    if k < |calls| {
      ReplyTags(calls, envs, k + 1);
      var ids := CallIds(calls)[k..];
      assert ids[0] == calls[k].callId && ids[1..] == CallIds(calls)[k + 1..];
      var rs := ToolResults(calls, envs, k);
      InvokeKeepsCall(calls[k], envs(k));
      assert rs[1..] == ToolResults(calls, envs, k + 1);
      TagsAppend(if rs[0].callId == "" then [] else [ToolReply(rs[0].callId, "")], ToolReplies(rs[1..]));
    }
  }

  lemma TagsAppend(a: seq<Msg>, b: seq<Msg>)
    ensures Tags(a + b) == Tags(a) + Tags(b)
  {
  }

  function Appended(s: GState, base: nat): seq<Tag>
  {
    if base <= |s.messages| then Tags(s.messages[base..]) else []
  }

  /** Where the transcript stands when a node is entered. */
  ghost predicate AtRounds(c: Conf, base: nat, rounds: seq<seq<string>>) {
    && base <= |c.s.messages|
    && (c.node.Eligibility? || c.node.Media? || c.node.Context? || c.node.Agent? ==>
        Appended(c.s, base) == Flatten(rounds))
    && (c.node.Tools? ==> |c.s.pending| > 0 && Appended(c.s, base) == Flatten(rounds) + [A(CallIds(c.s.pending))])
  }

  lemma AppendTags(s: GState, s': GState, base: nat, more: seq<Msg>)
    requires base <= |s.messages| && s'.messages == s.messages + more
    ensures Appended(s', base) == Appended(s, base) + Tags(more)
  {
    assert s'.messages[base..] == s.messages[base..] + more;
    TagsAppend(s.messages[base..], more);
  }

  lemma AgentKeepsRounds(rules: Rules, c: Conf, e: Env, base: nat, rounds: seq<seq<string>>)
    requires c.node.Agent? && AtRounds(c, base, rounds)
    ensures AtRounds(Visit(rules, c, e), base, rounds)
  {
    var s' := AgentNode(rules, c.s, e);
    if c.s.step < 2 * MAX_TOOL_ITERATIONS && e.reply.Says? && |e.reply.calls| > 0 {
      var m := [Assistant(Text(e.reply.text), CallIds(e.reply.calls))];
      AppendTags(c.s, s', base, m);
      assert Tags(m) == [A(CallIds(e.reply.calls))];
    }
  }

  lemma ToolsKeepRounds(rules: Rules, c: Conf, e: Env, base: nat, rounds: seq<seq<string>>)
    requires c.node.Tools? && AtRounds(c, base, rounds)
    ensures AtRounds(Visit(rules, c, e), base, rounds + [CallIds(c.s.pending)])
  {
    var ids := CallIds(c.s.pending);
    var s' := ToolsNode(c.s, e);
    var more := ToolReplies(ToolResults(c.s.pending, e.tools, 0));
    AppendTags(c.s, s', base, more);
    ReplyTags(c.s.pending, e.tools, 0);
    assert ids[0..] == ids;
    FlattenSnoc(rounds, ids);
  }

  lemma OtherKeepsRounds(rules: Rules, c: Conf, e: Env, base: nat, rounds: seq<seq<string>>)
    requires !c.node.Tools? && !c.node.Agent? && AtRounds(c, base, rounds)
    ensures AtRounds(Visit(rules, c, e), base, rounds)
  {
  }

  lemma {:induction false} RoundsAt(rules: Rules, s: GState, store: Store, envs: nat -> Env, i: nat)
    returns (rounds: seq<seq<string>>)
    requires i < |Run(rules, s, store, envs)|
    ensures AtRounds(Run(rules, s, store, envs)[i], |s.messages|, rounds)
  {
    RunStep(rules, s, store, envs, i);
    if i == 0 {
      rounds := [];
      assert s.messages[|s.messages|..] == [];
    } else {
      rounds := RoundsAt(rules, s, store, envs, i - 1);
      var c := Run(rules, s, store, envs)[i - 1];
      if c.node.Tools? {
        ToolsKeepRounds(rules, c, envs(i - 1), |s.messages|, rounds);
        rounds := rounds + [CallIds(c.s.pending)];
      } else if c.node.Agent? {
        AgentKeepsRounds(rules, c, envs(i - 1), |s.messages|, rounds);
      } else {
        OtherKeepsRounds(rules, c, envs(i - 1), |s.messages|, rounds);
      }
    }
  }

  /** No assistant message among these calls a tool under an empty id. */
  predicate NamedCalls(ts: seq<Tag>) {
    forall i :: 0 <= i < |ts| && ts[i].A? ==> "" !in ts[i].ids
  }

  lemma {:induction false} FlattenNamed(rounds: seq<seq<string>>)
    ensures NamedCalls(Flatten(rounds)) <==> AllNamed(rounds)
  {
    if |rounds| > 0 {
      var ids, rest := rounds[0], Flatten(rounds[1..]);
      FlattenNamed(rounds[1..]);
      RepliesFacts(ids);
      var ts := Flatten(rounds);
      var n := 1 + |Replies(ids)|;
      assert ts[0] == A(ids);
      assert forall i :: 1 <= i < n ==> ts[i] == Replies(ids)[i - 1];
      assert forall i :: 0 <= i < |rest| ==> ts[n + i] == rest[i];
      assert AllNamed(rounds) <==> "" !in ids && AllNamed(rounds[1..]) by {
        assert forall k :: 0 < k < |rounds| ==> rounds[k] == rounds[1..][k - 1];
      }
    }
  }

  /** At every agent entry, for any LLM behaviour and any gateway outcome, exceptions
    * included: the messages appended in the run form a well-formed transcript if and only if
    * the LLM has given every call a non-empty id. */
  lemma TranscriptExact(rules: Rules, s: GState, store: Store, envs: nat -> Env, i: nat)
    requires i < |Run(rules, s, store, envs)| && Run(rules, s, store, envs)[i].node.Agent?
    ensures var ts := Appended(Run(rules, s, store, envs)[i].s, |s.messages|);
            WellFormed(ts) <==> NamedCalls(ts)
  {
    var rounds := RoundsAt(rules, s, store, envs, i);
    FlattenWellFormed(rounds);
    FlattenNamed(rounds);
  }
}

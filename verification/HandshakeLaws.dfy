/** One tool call through the handshakes, from what is asked to what comes of it, in the words of the protocol. */
module HandshakeLaws {
  import opened Options
  import opened Text
  import opened Json
  import opened Handshakes
  import T = ToolMetadata

  /** The input the answer approves. */
  function ApprovedInput(exec: Op, answer: Op): Fields
    requires exec.Execute? && answer.ApprovalResponse?
  {
    if answer.action == "modify" && answer.input.Some? then answer.input.value else exec.params
  }

  /** A call that asks, and its question. */
  ghost predicate AsksFirst(s: State, exec: Op, t: State)
    requires exec.Execute?
  {
    && t.sent == s.sent + [PreToolUse(exec.requestId, exec.toolName, if exec.toolCallId == "" then None else Some(exec.toolCallId), exec.params)]
    && |t.calls| == |s.calls| + 1 && t.calls[..|s.calls|] == s.calls
    && t.calls[|s.calls|] == Call(exec.proxy, exec.toolCallId, exec.toolName, exec.params, Some(|s.waiters|), Asking)
    && |t.waiters| == |s.waiters| + 1 && t.waiters[|s.waiters|] == Waiter(Approval, exec.requestId, [])
    && exec.requestId in t.approvals && t.approvals[exec.requestId] == |s.waiters|
  }

  lemma ExecuteAsks(s: State, exec: Op)
    requires exec.Execute? && !(exec.proxy && exec.toolCallId in s.cache)
    ensures AsksFirst(s, exec, Apply(s, exec))
  {
  }

  lemma AnswerSettles(s: State, exec: Op, t: State, answer: Op)
    requires exec.Execute? && AsksFirst(s, exec, t) && answer.ApprovalResponse? && answer.requestId == exec.requestId
    ensures var u := Apply(t, answer);
      && u.sent == t.sent && u.calls == t.calls
      && Outcome(u, |s.waiters|) == Some(Answer(answer.action, answer.input, answer.reason))
  {
  }

  /**
   * A tool call asks first. A blocking answer ends it with the answer's reason, or a stock one if it has none; any
   * other answer sends it on, or runs it here without the metadata, with the answer's input if the answer modifies it.
   */
  lemma OneCall(s: State, exec: Op, answer: Op, next: string)
    requires exec.Execute? && !(exec.proxy && exec.toolCallId in s.cache)
    requires answer.ApprovalResponse? && answer.requestId == exec.requestId && Distinct(ApprovedInput(exec, answer))
    ensures var c, t := |s.calls|, Apply(s, exec); var u := Apply(Apply(t, answer), Resume(c, next));
      && AsksFirst(s, exec, t) && |u.calls| == c + 1 && u.calls[..c] == s.calls
      && if answer.action == "block" then
           && u.sent == t.sent
           && u.calls[c].phase == Thrown(if answer.reason.Some? && answer.reason.value != "" then answer.reason.value
                                         else "Tool \"" + exec.toolName + "\" is not allowed")
         else if exec.proxy then
           u.sent == t.sent + [ToolExecute(next, exec.toolName, ApprovedInput(exec, answer), Some(c))]
         else
           && u.sent == t.sent && u.calls[c].phase.Running?
           && AsMap(u.calls[c].phase.input) == AsMap(ApprovedInput(exec, answer)) - {"_intent", "_displayName"}
  {
    hide AsMap, T.Clean, Distinct;
    var c, t := |s.calls|, Apply(s, exec);
    ExecuteAsks(s, exec);
    AnswerSettles(s, exec, t, answer);
    T.CleanMeaning(ApprovedInput(exec, answer));
    Goes(Apply(t, answer), c, Answer(answer.action, answer.input, answer.reason), next);
  }

  lemma Goes(s: State, c: nat, a: Settlement, next: string)
    requires c < |s.calls| && s.calls[c].phase == Asking && s.calls[c].approval.Some?
    requires Outcome(s, s.calls[c].approval.value) == Some(a)
    ensures Apply(s, Resume(c, next)) == Answered(s, c, a, next)
  {
    hide Answered;
  }

  /** A call that has been sent on returns what comes back under its request's id. */
  lemma OneResult(s: State, c: nat, next: string, content: string, isError: bool, later: string)
    requires c < |s.calls| && next in s.executions && s.executions[next] < |s.waiters|
    requires s.waiters[s.executions[next]].settled == [] && s.calls[c].phase == Executing(s.executions[next])
    ensures var t := Apply(Apply(s, ToolResponse(next, content, isError)), Resume(c, later));
      t.sent == s.sent && |t.calls| == |s.calls| && t.calls[c].phase == Returned(s.executions[next], Result(content, isError))
  {
  }

  lemma SentOn(s: State, c: nat, args: Fields, next: string)
    requires c < |s.calls|
    ensures var t := SendExecute(s, c, args, next);
      && next in t.executions && t.executions[next] < |t.waiters| && t.waiters[t.executions[next]].settled == []
      && c < |t.calls| && t.calls[c].phase == Executing(t.executions[next])
  {
  }

  /** From the question to the result: a proxy call that is not blocked returns the main process's answer. */
  lemma OneProxyCall(s: State, exec: Op, answer: Op, next: string, content: string, isError: bool, later: string)
    requires exec.Execute? && exec.proxy && exec.toolCallId !in s.cache
    requires answer.ApprovalResponse? && answer.requestId == exec.requestId && answer.action != "block"
    ensures var c := |s.calls|; var u := Apply(Apply(Apply(s, exec), answer), Resume(c, next));
      var t := Apply(Apply(u, ToolResponse(next, content, isError)), Resume(c, later));
      && |t.calls| == c + 1 && t.calls[c].phase.Returned? && t.calls[c].phase.result == Result(content, isError)
  {
    hide Outcome, Settle;
    var c, t := |s.calls|, Apply(s, exec);
    ExecuteAsks(s, exec);
    AnswerSettles(s, exec, t, answer);
    var a := Answer(answer.action, answer.input, answer.reason);
    Goes(Apply(t, answer), c, a, next);
    SentOn(Apply(t, answer), c, Approved(a, exec.params), next);
    OneResult(SendExecute(Apply(t, answer), c, Approved(a, exec.params), next), c, next, content, isError, later);
  }

  /** A call that waits for its answer when all is aborted, or shut down, ends with that as the reason. */
  lemma StoppedWhileAsking(s: State, c: nat, next: string)
    requires Valid(s) && c < |s.calls| && s.calls[c].phase == Asking && s.calls[c].approval.value in s.approvals.Values
    ensures Apply(Apply(s, Abort), Resume(c, next)).calls[c].phase == Thrown("Aborted")
    ensures Apply(Apply(s, Shutdown), Resume(c, next)).calls[c].phase == Thrown("Server shutting down")
  {
    hide Settle, SettleAll, Valid;
    Asks(s, c);
    var k := s.calls[c].approval.value;
    AbortRefusesAll(s, k);
    ShutdownSettlesAll(s, k);
    Goes(Apply(s, Abort), c, Answer("block", None, Some("Aborted")), next);
    Goes(Apply(s, Shutdown), c, Answer("block", None, Some("Server shutting down")), next);
  }

  lemma Asks(s: State, c: nat)
    requires Valid(s) && c < |s.calls| && s.calls[c].phase == Asking
    ensures s.calls[c].approval.Some? && s.calls[c].approval.value < |s.waiters|
  {
    assert CallPoints(s.waiters, s.calls[c]);
  }

  /** A call that has been sent on goes on waiting through an abort, and a shutdown ends it in an error. */
  lemma StoppedWhileExecuting(s: State, c: nat, k: nat, next: string)
    requires Valid(s) && c < |s.calls| && s.calls[c].phase == Executing(k) && k in s.executions.Values
    ensures Apply(Apply(s, Abort), Resume(c, next)).calls[c].phase == Executing(k)
    ensures Apply(Apply(s, Shutdown), Resume(c, next)).calls[c].phase == Returned(k, Result("Server shutting down", true))
  {
    hide Settle, SettleAll;
    var id :| id in s.executions && s.executions[id] == k;
    assert s.waiters[k] == Waiter(Execution, id, []);
    assert forall other :: other in s.approvals ==> s.waiters[s.approvals[other]].kind == Approval;
    AbortRefusesAll(s, k);
    ShutdownSettlesAll(s, k);
  }

  // ---------------------------------------------------------------- prefetching

  predicate IsCallLlm(item: Item) {
    item.kind == "toolCall" && item.name in [Some("call_llm"), Some("session__call_llm"), Some("mcp__session__call_llm")]
  }

  lemma NamesAre(name: string)
    ensures StripPrefix(name) == "call_llm" <==> name in ["call_llm", "session__call_llm", "mcp__session__call_llm"]
  {
    var a, b := "mcp__session__", "session__";
    Prefixed(a, "call_llm", name);
    Prefixed(b, "call_llm", name);
    assert a + "call_llm" == "mcp__session__call_llm" && b + "call_llm" == "session__call_llm";
    assert "call_llm"[0] != a[0] && "call_llm"[0] != b[0] && b[0] != a[0];
  }

  lemma Prefixed(prefix: string, rest: string, name: string)
    ensures StartsWith(name, prefix) && name[|prefix|..] == rest <==> name == prefix + rest
  {
    if StartsWith(name, prefix) {
      assert name == prefix + name[|prefix|..];
    }
  }

  /** The calls of `call_llm`, in order. */
  function CallLlms(items: seq<Item>): seq<Item> {
    if items == [] then [] else CallLlms(Init(items)) + if IsCallLlm(Last(items)) then [Last(items)] else []
  }

  lemma {:induction false} PrefetchablesAre(items: seq<Item>)
    ensures Prefetchables(items) == CallLlms(items)
  {
    hide StripPrefix;
    if items != [] {
      PrefetchablesAre(Init(items));
      if Last(items).name.Some? {
        NamesAre(Last(items).name.value);
      }
    }
  }

  /**
   * A message with two or more calls of `call_llm`, under any of its three names, sends one request for each, in
   * order, and remembers each under its own id; with fewer than two nothing happens.
   */
  lemma MessagePrefetches(s: State, items: seq<Item>)
    ensures var t, calls := Apply(s, MessageEnd(items)), CallLlms(items);
      && (|calls| < 2 ==> t == s)
      && (|calls| >= 2 ==>
            && s.sent <= t.sent && |t.sent| == |s.sent| + |calls|
            && (forall i :: 0 <= i < |calls| ==> calls[i].name.Some?)
            && (forall i :: 0 <= i < |calls| ==>
                  t.sent[|s.sent| + i] == ToolExecute("prefetch-" + calls[i].id, calls[i].name.value,
                                                      if calls[i].args.Some? then calls[i].args.value else [], None))
            && (forall id :: id in t.cache <==> id in s.cache || exists i :: 0 <= i < |calls| && calls[i].id == id))
  {
    hide CallLlms, Prefetchables, PrefetchAll;
    PrefetchablesAre(items);
    var calls := Prefetchables(items);
    assert forall item :: item in calls ==> Prefetchable(item);
    PrefetchSendsAll(s, calls);
    CacheIs(s, calls);
  }

  lemma {:induction false} CacheIs(s: State, items: seq<Item>)
    requires forall item :: item in items ==> item.name.Some?
    ensures forall id :: id in PrefetchAll(s, items).cache <==> id in s.cache || exists i :: 0 <= i < |items| && items[i].id == id
  {
    if items != [] {
      CacheIs(s, Init(items));
      assert items == Init(items) + [Last(items)];
    }
  }
}

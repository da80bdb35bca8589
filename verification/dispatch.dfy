/**
 * The context policy of a prompt round and the fan-out of one prompt to many
 * instances (core/llmmanager.py, use_model and use_multiple_models), stated on
 * values: a map from live instance id to that instance's conversation.
 */
module Dispatch {
  import opened Wrappers
  import opened Messages
  import opened Sequences

  /**
   * A backend's `generate`: the reply (or the error message of the exception it
   * raised) for the instance with the given id when sent the given context.
   */
  type Generator = (string, seq<Message>) -> Result<string, string>

  /** The keyword options of a prompt round. */
  datatype Policy = Policy(role: string, saveContext: bool, appendPrompt: bool)

  /** The options a caller gets by naming none of them. */
  const DefaultPolicy: Policy := Policy(UserRole, false, false)

  /** Why a round produced no reply. */
  datatype DispatchError = InstanceNotFound(id: string) | BackendError(message: string) {
    /**
     * The text of the raised exception, as `str(exc)` shows it: the refusal
     * names the missing id between fixed words; a backend's text is kept.
     */
    function Text(): (t: string)
      ensures InstanceNotFound? ==>
                && |t| == |id| + 22
                && t[..10] == "INSTANCE '" && t[10..|t| - 12] == id && t[|t| - 12..] == "' NOT FOUND."
      ensures BackendError? ==> t == message
    {
      match this
      case InstanceNotFound(id) => "INSTANCE '" + id + "' NOT FOUND."
      case BackendError(message) => message
    }
  }

  /** What one round returns and the live conversations it leaves behind. */
  datatype Round = Round(reply: Result<string, DispatchError>, live: map<string, seq<Message>>)

  /** What a batch returns and the live conversations it leaves behind. */
  datatype Batch = Batch(results: map<string, string>, live: map<string, seq<Message>>)

  /**
   * The context sent to the backend: a copy of the live conversation, with the
   * prompt added at the end when the policy asks for it.
   */
  function Working(context: seq<Message>, prompt: string, p: Policy): (sent: seq<Message>)
    ensures context <= sent
    ensures |sent| == |context| + (if p.appendPrompt then 1 else 0)
    ensures p.appendPrompt ==> sent[|context|] == Message(p.role, prompt)
  {
    if p.appendPrompt then context + [Message(p.role, prompt)] else context
  }

  /**
   * The live conversation after the backend replied `reply`: unchanged unless
   * the policy saves context; when it does, what was sent followed by the reply.
   */
  function Saved(context: seq<Message>, prompt: string, p: Policy, reply: string): (after: seq<Message>)
    ensures context <= after
    ensures !p.saveContext ==> after == context
    ensures p.saveContext ==> after == Working(context, prompt, p) + [Message(AssistantRole, reply)]
    ensures |after| == |context| + (if !p.saveContext then 0 else if p.appendPrompt then 2 else 1)
  {
    if p.saveContext then
      var recorded := if p.appendPrompt then context + [Message(p.role, prompt)] else context;
      recorded + [Message(AssistantRole, reply)]
    else
      context
  }

  /**
   * One prompt round against instance `id`: fails when the id is not live,
   * passes on the backend's error, and otherwise records the reply as the
   * policy says. Its properties are DispatchOneFrame and DispatchOneOutcome.
   */
  function DispatchOne(live: map<string, seq<Message>>, id: string, prompt: string, p: Policy, gen: Generator): (r: Round)
    ensures r.live.Keys == live.Keys
    ensures r.reply.Success? ==> id in live
  {
    if id !in live then
      Round(Failure(InstanceNotFound(id)), live)
    else
      var answer := gen(id, Working(live[id], prompt, p));
      match answer
      case Failure(message) => Round(Failure(BackendError(message)), live)
      case Success(reply) => Round(Success(reply), live[id := Saved(live[id], prompt, p, reply)])
  }

  /**
   * A round changes no conversation but that of its target, adds or drops no
   * instance, and changes nothing at all when it fails.
   */
  lemma DispatchOneFrame(live: map<string, seq<Message>>, id: string, prompt: string, p: Policy, gen: Generator)
    ensures DispatchOne(live, id, prompt, p, gen).live.Keys == live.Keys
    ensures forall k :: k in live && k != id ==> DispatchOne(live, id, prompt, p, gen).live[k] == live[k]
    ensures DispatchOne(live, id, prompt, p, gen).reply.Failure? ==> DispatchOne(live, id, prompt, p, gen).live == live
  {
  }

  /**
   * The outcome of a round: an id that is not live is refused; otherwise the
   * backend is sent Working(...) and its answer is returned as it is, an error
   * as BackendError, a reply together with the conversation Saved(...).
   */
  lemma DispatchOneOutcome(live: map<string, seq<Message>>, id: string, prompt: string, p: Policy, gen: Generator)
    ensures id !in live ==> DispatchOne(live, id, prompt, p, gen).reply == Failure(InstanceNotFound(id))
    ensures id in live ==>
              var answer := gen(id, Working(live[id], prompt, p));
              var out := DispatchOne(live, id, prompt, p, gen);
              && (answer.Failure? ==> out.reply == Failure(BackendError(answer.error)))
              && (answer.Success? ==> out.reply == Success(answer.value)
                                      && out.live[id] == Saved(live[id], prompt, p, answer.value))
  {
  }

  /** The entry a batch reports for one target: the reply, or the error marker. */
  function Report(reply: Result<string, DispatchError>): (entry: string)
    ensures reply.Success? ==> entry == reply.value
    ensures reply.Failure? ==>
              |entry| == 7 + |reply.error.Text()| && entry[..7] == "ERROR: " && entry[7..] == reply.error.Text()
  {
    match reply
    case Success(text) => text
    case Failure(e) => "ERROR: " + e.Text()
  }

  /**
   * A batch over `ids`, taken one target after the other in the given order;
   * each target's outcome becomes its entry (see FanOutFrame).
   */
  function FanOut(live: map<string, seq<Message>>, ids: seq<string>, prompt: string, p: Policy, gen: Generator): (b: Batch)
    ensures b.live.Keys == live.Keys
    ensures forall id :: id in b.results ==> id in ids
    decreases |ids|
  {
    if ids == [] then
      Batch(map[], live)
    else
      var last := ids[|ids| - 1];
      var before := FanOut(live, ids[..|ids| - 1], prompt, p, gen);
      var round := DispatchOne(before.live, last, prompt, p, gen);
      Batch(before.results[last := Report(round.reply)], round.live)
  }

  /**
   * Every requested id, and no other, gets an entry; no instance is added or
   * dropped; a conversation whose id was not requested is left as it was.
   */
  lemma {:induction false} FanOutFrame(live: map<string, seq<Message>>, ids: seq<string>, prompt: string, p: Policy, gen: Generator)
    ensures FanOut(live, ids, prompt, p, gen).results.Keys == set id | id in ids
    ensures FanOut(live, ids, prompt, p, gen).live.Keys == live.Keys
    ensures forall k :: k in live && k !in ids ==> FanOut(live, ids, prompt, p, gen).live[k] == live[k]
    decreases |ids|
  {
    if ids != [] {
      var init, last := ids[..|ids| - 1], ids[|ids| - 1];
      assert ids == init + [last];
      FanOutFrame(live, init, prompt, p, gen);
      DispatchOneFrame(FanOut(live, init, prompt, p, gen).live, last, prompt, p, gen);
    }
  }

  /**
   * A round under the options a caller gets by naming none of them sends the
   * live conversation as it is and leaves every conversation unchanged.
   */
  lemma DefaultRoundKeepsConversations(live: map<string, seq<Message>>, id: string, prompt: string, gen: Generator)
    ensures id in live ==> Working(live[id], prompt, DefaultPolicy) == live[id]
    ensures DispatchOne(live, id, prompt, DefaultPolicy, gen).live == live
  {
  }

  /** A batch over `ids` followed by one more target is that target's round after the batch. */
  lemma FanOutSnoc(live: map<string, seq<Message>>, ids: seq<string>, id: string, prompt: string, p: Policy, gen: Generator)
    ensures var before := FanOut(live, ids, prompt, p, gen);
            var round := DispatchOne(before.live, id, prompt, p, gen);
            FanOut(live, ids + [id], prompt, p, gen) == Batch(before.results[id := Report(round.reply)], round.live)
  {
    assert (ids + [id])[..|ids|] == ids;
  }

  /**
   * When no id is requested twice, target `id` gets from the batch exactly the
   * entry and the conversation it would have got had it been dispatched alone
   * against the conversations as they were before the batch.
   */
  lemma {:induction false} FanOutAsIfAloneAt(live: map<string, seq<Message>>, ids: seq<string>, prompt: string, p: Policy, gen: Generator, id: string)
    requires NoDuplicates(ids)
    requires id in ids
    ensures id in FanOut(live, ids, prompt, p, gen).results
    ensures FanOut(live, ids, prompt, p, gen).results[id] == Report(DispatchOne(live, id, prompt, p, gen).reply)
    ensures id in live ==> id in FanOut(live, ids, prompt, p, gen).live && id in DispatchOne(live, id, prompt, p, gen).live
    ensures id in live ==> FanOut(live, ids, prompt, p, gen).live[id] == DispatchOne(live, id, prompt, p, gen).live[id]
    decreases |ids|
  {
    var init, last := ids[..|ids| - 1], ids[|ids| - 1];
    assert ids == init + [last];
    var before := FanOut(live, init, prompt, p, gen);
    FanOutFrame(live, ids, prompt, p, gen);
    FanOutFrame(live, init, prompt, p, gen);
    DispatchOneFrame(live, id, prompt, p, gen);
    if id == last {
      assert last !in init;
      assert last in live ==> before.live[last] == live[last];
      DispatchOneOutcome(before.live, last, prompt, p, gen);
      DispatchOneOutcome(live, last, prompt, p, gen);
    } else {
      assert id in init;
      assert NoDuplicates(init);
      FanOutAsIfAloneAt(live, init, prompt, p, gen, id);
      DispatchOneFrame(before.live, last, prompt, p, gen);
    }
  }

  /** FanOutAsIfAloneAt for every requested target at once. */
  lemma FanOutAsIfAlone(live: map<string, seq<Message>>, ids: seq<string>, prompt: string, p: Policy, gen: Generator)
    requires NoDuplicates(ids)
    ensures forall id :: id in ids ==>
              && id in FanOut(live, ids, prompt, p, gen).results
              && FanOut(live, ids, prompt, p, gen).results[id] == Report(DispatchOne(live, id, prompt, p, gen).reply)
    ensures forall id :: id in ids && id in live ==>
              && id in FanOut(live, ids, prompt, p, gen).live && id in DispatchOne(live, id, prompt, p, gen).live
              && FanOut(live, ids, prompt, p, gen).live[id] == DispatchOne(live, id, prompt, p, gen).live[id]
  {
    forall id | id in ids
      ensures id in FanOut(live, ids, prompt, p, gen).results
      ensures FanOut(live, ids, prompt, p, gen).results[id] == Report(DispatchOne(live, id, prompt, p, gen).reply)
      ensures id in live ==> id in FanOut(live, ids, prompt, p, gen).live && id in DispatchOne(live, id, prompt, p, gen).live
      ensures id in live ==> FanOut(live, ids, prompt, p, gen).live[id] == DispatchOne(live, id, prompt, p, gen).live[id]
    {
      FanOutAsIfAloneAt(live, ids, prompt, p, gen, id);
    }
  }

  /**
   * The batch over the distinct requested ids: every requested id, and no
   * other, gets an entry, each as if dispatched alone; a conversation changes
   * only if its id was requested.
   */
  lemma FanOutOfRequests(live: map<string, seq<Message>>, ids: seq<string>, prompt: string, p: Policy, gen: Generator)
    ensures FanOut(live, Distinct(ids), prompt, p, gen).results.Keys == set id | id in ids
    ensures FanOut(live, Distinct(ids), prompt, p, gen).live.Keys == live.Keys
    ensures forall id :: id in ids ==>
              && id in FanOut(live, Distinct(ids), prompt, p, gen).results
              && FanOut(live, Distinct(ids), prompt, p, gen).results[id] == Report(DispatchOne(live, id, prompt, p, gen).reply)
    ensures forall id :: id in ids && id in live ==>
              && id in FanOut(live, Distinct(ids), prompt, p, gen).live && id in DispatchOne(live, id, prompt, p, gen).live
              && FanOut(live, Distinct(ids), prompt, p, gen).live[id] == DispatchOne(live, id, prompt, p, gen).live[id]
    ensures forall id :: id in live && id !in ids ==>
              && id in FanOut(live, Distinct(ids), prompt, p, gen).live
              && FanOut(live, Distinct(ids), prompt, p, gen).live[id] == live[id]
  {
    FanOutAsIfAlone(live, Distinct(ids), prompt, p, gen);
    FanOutFrame(live, Distinct(ids), prompt, p, gen);
  }

  /**
   * A target whose round fails keeps its conversation and is reported with the
   * error marker; the failure touches no other target's entry or conversation.
   */
  lemma FanOutFailureIsolated(live: map<string, seq<Message>>, ids: seq<string>, prompt: string, p: Policy, gen: Generator, bad: string)
    requires NoDuplicates(ids)
    requires bad in ids
    requires DispatchOne(live, bad, prompt, p, gen).reply.Failure?
    ensures bad in FanOut(live, ids, prompt, p, gen).results
    ensures FanOut(live, ids, prompt, p, gen).results[bad]
            == "ERROR: " + DispatchOne(live, bad, prompt, p, gen).reply.error.Text()
    ensures bad in live ==> bad in FanOut(live, ids, prompt, p, gen).live
    ensures bad in live ==> FanOut(live, ids, prompt, p, gen).live[bad] == live[bad]
  {
    FanOutAsIfAloneAt(live, ids, prompt, p, gen, bad);
    DispatchOneFrame(live, bad, prompt, p, gen);
    DispatchOneOutcome(live, bad, prompt, p, gen);
  }
}

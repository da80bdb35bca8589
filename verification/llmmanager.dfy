/**
 * The registry of model types and live model instances, and the prompt rounds
 * run against them (core/llmmanager.py).
 */
module Manager {
  import opened Wrappers
  import opened Messages
  import opened Configs
  import opened Models
  import opened Sequences
  import opened Dispatch

  /** The registry's refusals, each a ValueError in the source. */
  datatype RegistryError =
    | AlreadyRegistered(kind: ModelType)
    | NotRegistered(kind: ModelType)
    | DuplicateInstance(id: string)
  {
    /** The class name or the instance id a refusal is about. */
    function Subject(): string {
      if DuplicateInstance? then id else kind.name
    }

    /** The text of the raised exception: fixed words around the subject. */
    function Text(): (t: string)
      ensures AlreadyRegistered? ==>
                && |t| == |kind.name| + 34 && t[..13] == "MODEL CLASS '"
                && t[13..|t| - 21] == kind.name && t[|t| - 21..] == "' ALREADY REGISTERED."
      ensures NotRegistered? ==>
                && |t| == |kind.name| + 33 && t[..13] == "MODEL CLASS '"
                && t[13..|t| - 20] == kind.name && t[|t| - 20..] == "' IS NOT REGISTERED."
      ensures DuplicateInstance? ==>
                && |t| == |id| + 30 && t[..13] == "INSTANCE ID '"
                && t[13..|t| - 17] == id && t[|t| - 17..] == "' ALREADY EXISTS."
    {
      match this
      case AlreadyRegistered(kind) => "MODEL CLASS '" + kind.name + "' ALREADY REGISTERED."
      case NotRegistered(kind) => "MODEL CLASS '" + kind.name + "' IS NOT REGISTERED."
      case DuplicateInstance(id) => "INSTANCE ID '" + id + "' ALREADY EXISTS."
    }
  }

  /**
   * The text of a refusal tells which refusal it is and what it is about: two
   * refusals with the same text are of the same kind and name the same subject.
   */
  lemma RegistryTextIdentifies(e1: RegistryError, e2: RegistryError)
    requires e1.Text() == e2.Text()
    ensures e1.AlreadyRegistered? <==> e2.AlreadyRegistered?
    ensures e1.NotRegistered? <==> e2.NotRegistered?
    ensures e1.DuplicateInstance? <==> e2.DuplicateInstance?
    ensures e1.Subject() == e2.Subject()
  {
    var t := e1.Text();
    assert e1.DuplicateInstance? <==> t[0] == 'I';
    assert e2.DuplicateInstance? <==> t[0] == 'I';
    if !e1.DuplicateInstance? {
      assert e1.AlreadyRegistered? <==> t[|t| - 13] == 'Y';
      assert e2.AlreadyRegistered? <==> t[|t| - 13] == 'Y';
    }
  }

  /**
   * The manager. `catalog` holds the registered model types in registration
   * order; `instances` maps every live id to its instance, and `order` lists
   * the live ids in the order they were created (a dictionary's key order).
   */
  class LLMManager<V> {
    var catalog: seq<ModelType>
    var instances: map<string, LLM<V>>
    var order: seq<string>

    /**
     * No type is registered twice, every live id is listed once, every live
     * instance is of a registered type, and no two ids share an instance.
     */
    ghost predicate Valid()
      reads this
    {
      && NoDuplicates(catalog)
      && NoDuplicates(order)
      && (forall id :: id in order <==> id in instances)
      && (forall id :: id in instances ==> instances[id].kind in catalog)
      && (forall a, b :: a in instances && b in instances && a != b ==> instances[a] != instances[b])
    }

    /** The conversation of every live instance, by id. */
    ghost function Contexts(): (live: map<string, seq<Message>>)
      reads this, instances.Values
      ensures live.Keys == instances.Keys
    {
      map id | id in instances :: instances[id].context
    }

    /** A manager with no registered types and no instances. */
    constructor ()
      ensures Valid()
      ensures catalog == [] && instances == map[] && order == []
    {
      catalog := [];
      instances := map[];
      order := [];
    }

    /** Add a model type to the catalog, refusing one that is already there. */
    method RegisterModelType(kind: ModelType) returns (r: Outcome<RegistryError>)
      requires Valid()
      modifies this
      ensures Valid()
      ensures kind in old(catalog) ==> r == Fail(AlreadyRegistered(kind)) && catalog == old(catalog)
      ensures kind !in old(catalog) ==> r == Pass && catalog == old(catalog) + [kind]
      ensures instances == old(instances) && order == old(order)
    {
      if kind in catalog {
        return Fail(AlreadyRegistered(kind));
      }
      catalog := catalog + [kind];
      r := Pass;
    }

    /**
     * Create an instance of a registered type under a fresh id. An unknown
     * type is refused first, then an id that is already live; a refusal
     * changes nothing.
     */
    method InstantiateModel(id: string, kind: ModelType, config: Config<V>) returns (r: Outcome<RegistryError>)
      requires Valid()
      modifies this
      ensures Valid()
      ensures catalog == old(catalog)
      ensures kind !in catalog ==> r == Fail(NotRegistered(kind))
      ensures kind in catalog && id in old(instances) ==> r == Fail(DuplicateInstance(id))
      ensures r.Fail? ==> instances == old(instances) && order == old(order)
      ensures kind in catalog && id !in old(instances) ==>
                && r == Pass
                && id in instances
                && fresh(instances[id])
                && instances[id].kind == kind && instances[id].config == config
                && instances == old(instances)[id := instances[id]]
                && order == old(order) + [id]
                && Contexts() == old(Contexts())[id := []]
    {
      if kind !in catalog {
        return Fail(NotRegistered(kind));
      }
      if id in instances {
        return Fail(DuplicateInstance(id));
      }
      ghost var start := Contexts();
      var llm := new LLM(kind, config);
      instances := instances[id := llm];
      order := order + [id];
      r := Pass;
      forall k | k in instances
        ensures Contexts()[k] == start[id := []][k]
      {
      }
      assert Contexts().Keys == start[id := []].Keys;
    }

    /**
     * Drop a live instance after clearing its conversation; an id that is not
     * live is ignored. Every other id keeps its instance and conversation.
     */
    method RemoveModel(id: string)
      requires Valid()
      modifies this, if id in instances then {instances[id]} else {}
      ensures Valid()
      ensures catalog == old(catalog)
      ensures instances == old(instances) - {id}
      ensures order == Without(old(order), id)
      ensures Contexts() == old(Contexts()) - {id}
      ensures id in old(instances) ==> old(instances)[id].context == []
      ensures id !in old(instances) ==> instances == old(instances) && order == old(order)
    {
      if id in instances {
        ghost var start := Contexts();
        var llm := instances[id];
        llm.ResetContext();
        instances := instances - {id};
        order := Without(order, id);
        forall k | k in instances
          ensures Contexts()[k] == (start - {id})[k]
        {
          assert old(instances)[k] != llm;
        }
        assert Contexts().Keys == (start - {id}).Keys;
        assert forall k :: k in order <==> k in instances;
        assert forall k :: k in instances ==> instances[k] == old(instances)[k];
      }
    }

    /**
     * One prompt round against instance `id`, with `gen` as its backend: the
     * reply and the conversations afterwards are those DispatchOne describes.
     */
    method UseModel(id: string, prompt: string, p: Policy, gen: Generator) returns (r: Result<string, DispatchError>)
      requires Valid()
      modifies if id in instances then {instances[id]} else {}
      ensures Valid()
      ensures Round(r, Contexts()) == DispatchOne(old(Contexts()), id, prompt, p, gen)
    {
      if id !in instances {
        return Failure(InstanceNotFound(id));
      }
      ghost var start := Contexts();
      var llm := instances[id];
      var sent := llm.context;
      if p.appendPrompt {
        sent := sent + [Message(p.role, prompt)];
      }
      assert sent == Working(start[id], prompt, p);
      var answer := gen(id, sent);
      if answer.Failure? {
        return Failure(BackendError(answer.error));
      }
      if p.saveContext {
        if p.appendPrompt {
          llm.context := llm.context + [Message(p.role, prompt)];
        }
        llm.context := llm.context + [Message(AssistantRole, answer.value)];
      }
      r := Success(answer.value);
      assert llm.context == Saved(start[id], prompt, p, answer.value);
      forall k | k in instances
        ensures Contexts()[k] == start[id := llm.context][k]
      {
        if k != id {
          assert instances[k] != llm;
        }
      }
      assert Contexts().Keys == start[id := llm.context].Keys;
      assert Contexts() == start[id := llm.context];
    }

    /**
     * The same prompt sent to every requested id, each distinct id once. Every
     * requested id gets an entry, its reply or the error marker, exactly as if
     * dispatched alone; only requested conversations can change.
     */
    method UseMultipleModels(ids: seq<string>, prompt: string, p: Policy, gen: Generator) returns (results: map<string, string>)
      requires Valid()
      modifies instances.Values
      ensures Valid()
      ensures Batch(results, Contexts()) == FanOut(old(Contexts()), Distinct(ids), prompt, p, gen)
      ensures results.Keys == set id | id in ids
      ensures forall id :: id in ids ==>
                results[id] == Report(DispatchOne(old(Contexts()), id, prompt, p, gen).reply)
      ensures forall id :: id in ids && id in instances ==>
                Contexts()[id] == DispatchOne(old(Contexts()), id, prompt, p, gen).live[id]
      ensures forall id :: id in instances && id !in ids ==> Contexts()[id] == old(Contexts())[id]
    {
      var tasks := Distinct(ids);
      results := Gather(tasks, prompt, p, gen);
      FanOutOfRequests(old(Contexts()), ids, prompt, p, gen);
    }

    /**
     * Run the round of every task and collect each outcome, a failure
     * included, as the entry of its id: the rounds in order, as FanOut says.
     */
    method Gather(tasks: seq<string>, prompt: string, p: Policy, gen: Generator) returns (results: map<string, string>)
      requires Valid()
      modifies instances.Values
      ensures Valid()
      ensures Batch(results, Contexts()) == FanOut(old(Contexts()), tasks, prompt, p, gen)
    {
      results := map[];
      var i := 0;
      while i < |tasks|
        invariant 0 <= i <= |tasks|
        invariant instances == old(instances) && catalog == old(catalog) && order == old(order)
        invariant Batch(results, Contexts()) == FanOut(old(Contexts()), tasks[..i], prompt, p, gen)
      {
        ghost var before := Contexts();
        var reply := UseModel(tasks[i], prompt, p, gen);
        ghost var after := Contexts();
        assert Round(reply, after) == DispatchOne(before, tasks[i], prompt, p, gen);
        FanOutSnoc(old(Contexts()), tasks[..i], tasks[i], prompt, p, gen);
        assert tasks[..i + 1] == tasks[..i] + [tasks[i]];
        results := results[tasks[i] := Report(reply)];
        i := i + 1;
      }
      assert tasks[..i] == tasks;
    }

    /** The names of the registered model types, one per registration. */
    function GetModelCatalog(): (names: seq<string>)
      reads this
      ensures |names| == |catalog|
      ensures forall i :: 0 <= i < |catalog| ==> names[i] == catalog[i].name
    {
      var types := catalog;
      seq(|types|, i requires 0 <= i < |types| => types[i].name)
    }

    /** The ids of the live instances, each once. */
    function GetModelInstances(): (ids: seq<string>)
      reads this
      requires Valid()
      ensures NoDuplicates(ids)
      ensures forall id :: id in ids <==> id in instances
    {
      order
    }

    /**
     * The printed lines of one instance's conversation, or the refusal for an
     * id that is not live.
     */
    function ConversationHistory(id: string): (r: Result<seq<(string, string)>, DispatchError>)
      reads this, instances.Values
      ensures id !in instances ==> r == Failure(InstanceNotFound(id))
      ensures id in instances ==> r.Success? && |r.value| == |instances[id].context|
      ensures id in instances ==> forall i :: 0 <= i < |r.value| ==>
        r.value[i] == (Upper(instances[id].context[i].role), instances[id].context[i].content)
    {
      if id !in instances then Failure(InstanceNotFound(id))
      else Success(Transcript(instances[id].context))
    }
  }
}

# LLMManager in Dafny

A model of the registry and dispatcher of LLMManager, a small Python library
that keeps several conversational-model backends side by side. The model
covers four parts:

- The manager (`core/llmmanager.py`) keeps a catalog of registered model
  classes and a dictionary of live model instances keyed by instance id.
- `use_model` sends a prompt to one instance under a context policy:
  `save_context` and `append_prompt`.
- `use_multiple_models` sends one prompt to many instances and reports one
  entry per id, either the reply or `"ERROR: " + message`.
- Every instance (`core/llm.py`) carries a configuration store
  (`core/config.py`) and a conversation, a list of `Message(role, content)`
  values (`core/message.py`).

Layout, one module per source component:

- `wrappers.dfy`, module `Wrappers`: `Result` and `Outcome`, standing for
  the exceptions the source raises.
- `message.dfy`, module `Messages`: `Message`, plus the pure
  (upper-cased role, content) rendering that the manager prints.
- `config.dfy`, module `Configs`: class `Config<V>` with its `params` map.
- `llm.dfy`, module `Models`: class `LLM<V>` (its class, its config and a
  mutable `context`) and `ModelType`, which stands for a backend class.
- `sequences.dfy`, module `Sequences`: the key order of Python's
  insertion-ordered dictionaries. `Distinct` gives the keys of a dictionary
  built from a list. `Without` gives the keys after a deletion.
- `dispatch.dfy`, module `Dispatch`: the context policy and the fan-out, as
  functions on a map from instance id to conversation, with their lemmas.
- `llmmanager.dfy`, module `Manager`: class `LLMManager<V>`. Its methods
  change the catalog, the instance map and the instances' conversations in
  place. `Valid()` is the invariant every method keeps:
  - no class is registered twice;
  - every live id is listed once;
  - every live instance's class is registered;
  - no two ids share an instance.

A backend's `generate` is a parameter of type `Generator`. It gives the
backend's answer, a reply or an error message, for an instance id and the
context sent. The dispatcher's contracts say which context is sent and what
becomes of each answer.

Two points about the fan-out:

- Duplicate ids in one fan-out are dispatched once. `use_multiple_models`
  builds a dictionary keyed by id (`core/llmmanager.py:122-125`), so each
  distinct id gets one round, in first-occurrence order (`Distinct`).
- `asyncio.gather` interleaves the rounds; the model runs them one after
  another. `FanOutAsIfAlone` proves that each distinct target ends exactly as
  if dispatched alone against the conversations before the batch, so the
  order of the rounds does not matter.

## Model

| member | source | states |
|---|---|---|
| `Messages.Upper` | core/llmmanager.py:162 | the role shown is as long as the original; every lower-case ASCII letter becomes its own capital; every other character is kept |
| `Messages.Transcript` | core/llmmanager.py:159-163 | one printed line per message, in context order, pairing the upper-cased role with the unchanged content |
| `Configs.Config.constructor` | core/config.py:9-15 | the parameters are exactly the keyword arguments supplied |
| `Configs.Config.Get` | core/config.py:17-21 | the stored value when the key is present, the caller's default otherwise |
| `Configs.Config.Set` | core/config.py:23-27 | afterwards `Get(key, d)` is `value` for every default `d`; every other key keeps its presence and value; the key set grows by at most `key` |
| `Configs.Config.ToDict` | core/config.py:29-33 | returns a map equal to the current parameters |
| `Configs.ToDictIsSnapshot` | core/config.py:29-33 | a dictionary handed out before a `set` keeps the old parameters while the store takes the new value |
| `Models.LLM.constructor` | core/llm.py:13-20 | a new instance keeps the given config object and its class, with an empty context |
| `Models.LLM.ResetContext` | core/llm.py:34-38 | the context becomes empty and the configuration's parameters are unchanged |
| `Models.LLM.UpdateConfig` | core/llm.py:40-47 | the parameters become the old ones overridden by `kv`; `Get(k, d)` is `kv[k]` for every key of `kv`; other keys keep presence and value; the context is unchanged |
| `Sequences.Distinct` | core/llmmanager.py:122-125 | the ids dispatched: each requested id exactly once and no other; nothing is dropped when no id repeats |
| `Sequences.DistinctKeepsFirstOrder` | core/llmmanager.py:122-125 | the ids dispatched come in the order of their first occurrence in the request |
| `Sequences.Without` | core/llmmanager.py:63 | the live ids after a deletion: all but the removed id, still without repeats, one fewer when it was live, unchanged when it was not |
| `Sequences.WithoutKeepsOrder` | core/llmmanager.py:63 | the live ids left after a deletion keep their relative order |
| `Dispatch.Working` | core/llmmanager.py:90-92 | the context sent to `generate` starts with the whole live conversation and adds `Message(role, prompt)` at the end exactly when `append_prompt` is set |
| `Dispatch.Saved` | core/llmmanager.py:96-99 | the live conversation only grows; it is unchanged without `save_context`; with it, it becomes the context that was sent followed by `Message("assistant", reply)`, so it grows by two messages with `append_prompt` and by one without |
| `Dispatch.DispatchError.Text` | core/llmmanager.py:87 | the refusal of a missing id is "INSTANCE '" + id + "' NOT FOUND.", from which the id can be read back; a backend's error keeps its own text |
| `Dispatch.DispatchOne` | core/llmmanager.py:86-101 | one round keeps the set of live ids and replies only for a live id; its other properties are `DispatchOneFrame` and `DispatchOneOutcome` |
| `Dispatch.DefaultRoundKeepsConversations` | core/llmmanager.py:69-71 | with the default options (role "user", no saving, no appending) the live conversation is sent as it is and no conversation changes |
| `Dispatch.DispatchOneFrame` | core/llmmanager.py:86-101 | a round adds or removes no instance, changes no other instance's conversation, and on any failure changes nothing |
| `Dispatch.DispatchOneOutcome` | core/llmmanager.py:86-101 | an id that is not live fails with "INSTANCE '<id>' NOT FOUND."; otherwise the backend's error is passed on as it is, or its reply is returned and the conversation becomes `Saved(...)` |
| `Dispatch.Report` | core/llmmanager.py:128 | a batch entry is the reply itself, or "ERROR: " followed by the exception's text |
| `Dispatch.FanOut` | core/llmmanager.py:122-130 | a batch keeps the set of live ids and reports only requested ids; its other properties are `FanOutFrame`, `FanOutAsIfAlone` and `FanOutOfRequests` |
| `Dispatch.FanOutFrame` | core/llmmanager.py:122-130 | the batch result has an entry for every requested id and no other; no instance is added or dropped; conversations of ids not requested are unchanged |
| `Dispatch.FanOutAsIfAloneAt` | core/llmmanager.py:122-130 | with no id repeated, a target's entry is its reply or "ERROR: " + message, and its conversation is what a round against the pre-batch conversations alone gives |
| `Dispatch.FanOutAsIfAlone` | core/llmmanager.py:122-130 | `FanOutAsIfAloneAt` for all requested targets at once |
| `Dispatch.FanOutOfRequests` | core/llmmanager.py:122-130 | over the distinct requested ids, every requested id and no other gets an entry, as if dispatched alone, including ids that are not live; unrequested conversations are unchanged |
| `Dispatch.FanOutFailureIsolated` | core/llmmanager.py:126-129 | a target whose round fails keeps its conversation and is reported as "ERROR: " + its message |
| `Manager.RegistryError.Text` | core/llmmanager.py:33-50 | the three refusal texts: "MODEL CLASS '<name>' ALREADY REGISTERED.", "MODEL CLASS '<name>' IS NOT REGISTERED." and "INSTANCE ID '<id>' ALREADY EXISTS.", each with its subject readable back |
| `Manager.RegistryTextIdentifies` | core/llmmanager.py:33-50 | two refusals with the same text are of the same kind and are about the same class name or id |
| `Manager.LLMManager.constructor` | core/llmmanager.py:17-22 | an empty catalog and no instances |
| `Manager.LLMManager.RegisterModelType` | core/llmmanager.py:24-35 | a class already in the catalog is refused and the catalog is unchanged; otherwise exactly that class is appended; instances are untouched |
| `Manager.LLMManager.InstantiateModel` | core/llmmanager.py:37-51 | an unregistered class is refused first, then a live id; a refusal changes nothing; on success there is exactly one new entry, a fresh instance of that class with that config and an empty context, and every other entry and conversation is unchanged; the invariant keeps every live instance's class registered |
| `Manager.LLMManager.RemoveModel` | core/llmmanager.py:53-63 | an absent id changes nothing; otherwise the removed instance's context is cleared, the id is no longer live, and every other id keeps its instance and conversation |
| `Manager.LLMManager.UseModel` | core/llmmanager.py:65-101 | the reply and the conversations afterwards are exactly those of `DispatchOne` on the conversations before the call |
| `Manager.LLMManager.UseMultipleModels` | core/llmmanager.py:103-130 | the result's keys are exactly the requested ids; each value is that id's reply or "ERROR: " + message, as if dispatched alone; a requested id's conversation is the one its own round gives; other conversations are unchanged |
| `Manager.LLMManager.Gather` | core/llmmanager.py:126-130 | running the rounds of the tasks in order and capturing each failure as a value yields exactly `FanOut` over those tasks |
| `Manager.LLMManager.GetModelCatalog` | core/llmmanager.py:132-138 | one class name per registered class, in registration order |
| `Manager.LLMManager.GetModelInstances` | core/llmmanager.py:140-146 | every live id exactly once and no other |
| `Manager.LLMManager.ConversationHistory` | core/llmmanager.py:148-163 | an id that is not live fails with "INSTANCE '<id>' NOT FOUND."; otherwise one printed line per message of its conversation, in order, each the upper-cased role with the content |

## Left out

- The `issubclass(model_class, LLM)` check (`core/llmmanager.py:31-32`) is a
  run-time type check. With `ModelType` as the type of model classes it cannot
  fail, so it is not modelled.
- Passing something that is not a class to `instantiate_model`, as
  `main.py:40` does with class-name strings, fails in the source while it
  formats the error (`.__name__`). The typed model cannot express this input.
- Manager.LLMManager.InstantiateModel: every registered `ModelType` is
  taken to be a concrete class whose constructor does not raise. In the source
  `model_type(config)` (`core/llmmanager.py:51`) can raise: for example,
  the abstract `LLM` itself can be registered, and instantiating it raises
  `TypeError`. No entry is then added, and that failure is not modelled.
- A backend's `generate` is not modelled: the HTTP request and response
  handling in `llms/openrouterllm.py` is network I/O. The model takes a
  `Generator` function of the instance id and the context sent. Such a
  function answers the same way for the same id and context, which matters
  nowhere: a round calls it once.
- The text of a backend exception (`str(exc)`) is taken as an opaque message
  string. Only `Exception` subclasses are modelled: a `BaseException`
  escaping `gather` is not.
- `asyncio.gather` interleaving, event loops and suspension points are not
  modelled. The fan-out runs its rounds in sequence (see
  `FanOutAsIfAlone`). Two concurrent batches over the same instance are not
  modelled either.
- The coroutines created for repeated ids are overwritten in the `tasks`
  dictionary and never awaited. Only their absence of effect is modelled.
- Printing is not modelled: the headers and footers of
  `print_conversation_history` and the blank lines of
  `print_all_conversation_histories` are console output.
  `ConversationHistory` gives the lines of one instance.
  `print_all_conversation_histories` prints `ConversationHistory` for every id
  of `GetModelInstances`, and that loop is not modelled.
- Messages.Upper: upper-cases ASCII letters only. Python's `str.upper` also
  maps other Unicode letters, some into several characters.
- Configs.Config.Get: the source's default for `default` is `None`. In the
  model the caller always supplies the default.
- Manager.LLMManager.UseMultipleModels: the result is a map, so the key
  order of the returned dictionary is not part of the result. In the source it
  is the first-occurrence order of the requested ids (`DistinctKeepsFirstOrder`).
- Configs.Config.ToDict: the parameters are a map, so their key order is
  not modelled.
- Configuration values are a type parameter `V`; nothing is assumed about
  their contents.
- Models.LLM.UpdateConfig: the keyword arguments are a map, so the order in
  which the keys are set is not modelled. The keys are distinct, so the
  result does not depend on that order.
- `main.py` (reading `secrets.json`, `asyncio.run`, the sample calls) is
  not part of this model.

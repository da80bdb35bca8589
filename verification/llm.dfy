/** The per-instance state every backend shares (core/llm.py). */
module Models {
  import opened Messages
  import opened Configs

  /**
   * A backend class, as the registry sees it: `name` is its class name and
   * `ident` stands for class identity, so two classes may share a name.
   */
  datatype ModelType = ModelType(name: string, ident: nat)

  /**
   * A live model instance: the class it was built from, the configuration it
   * was given and the conversation it has recorded so far. Producing a reply
   * (`generate`) is the backend's business; see Dispatch.Generator.
   */
  class LLM<V> {
    const kind: ModelType
    const config: Config<V>
    var context: seq<Message>

    /** A new instance keeps the configuration object it is given and has no history. */
    constructor (kind: ModelType, config: Config<V>)
      ensures this.kind == kind && this.config == config
      ensures context == []
    {
      this.kind := kind;
      this.config := config;
      context := [];
    }

    /** Forget the conversation; the configuration is not touched. */
    method ResetContext()
      modifies this
      ensures context == []
      ensures config.params == old(config.params)
    {
      context := [];
    }

    /**
     * Set every parameter in `kv` on the configuration, one at a time;
     * parameters not named in `kv` and the conversation are kept.
     */
    method UpdateConfig(kv: map<string, V>)
      modifies config
      ensures config.params == old(config.params) + kv
      ensures forall k, d :: k in kv ==> config.Get(k, d) == kv[k]
      ensures forall k :: k !in kv ==> (k in config.params <==> k in old(config.params))
      ensures forall k :: k !in kv && k in config.params ==> config.params[k] == old(config.params)[k]
      ensures context == old(context)
    {
      var pending := kv.Keys;
      ghost var done: map<string, V> := map[];
      while pending != {}
        invariant pending <= kv.Keys
        invariant done.Keys == kv.Keys - pending
        invariant forall k :: k in done ==> done[k] == kv[k]
        invariant config.params == old(config.params) + done
        decreases pending
      {
        var key :| key in pending;
        config.Set(key, kv[key]);
        assert (old(config.params) + done)[key := kv[key]] == old(config.params) + done[key := kv[key]];
        done := done[key := kv[key]];
        pending := pending - {key};
      }
      assert done == kv;
    }
  }
}

/** `safe_instantiate`: build a real agent, or fall back to a stub-backed instance. */
module AgentFactory {
  import opened Values

  /** What calling one of an agent class's constructors does. */
  datatype Construction = Constructs | Raises(msg: string)

  /** The module global holding an agent class: still `None` (never imported), or a
      class whose keyed and key-less constructors behave as given. */
  datatype AgentClass = Unloaded | Loaded(withKey: Construction, withoutKey: Construction)

  /** The object `safe_instantiate` hands back: a fully constructed agent, or a bare
      instance whose `agent` attribute is a `StubAgent`. */
  datatype Instance = Real | StubBacked

  /** `str(exc)` for `None.__new__(None)`, the fallback path when the class global is `None`. */
  const NoneNotATypeMessage := "NoneType.__new__(X): X is not a type object (NoneType)"

  /** The constructor `safe_instantiate` calls: with the key when it is truthy, bare otherwise. */
  function ChosenConstructor(cls: AgentClass, apiKey: Json): Construction
    requires cls.Loaded?
  {
    if Truthy(apiKey) then cls.withKey else cls.withoutKey
  }

  /** `safe_instantiate(agent_cls, api_key)`. A loaded class never raises: a constructor
      failure is absorbed into a stub-backed instance. An unloaded class (`None`) raises,
      because the fallback itself calls `None.__new__`. */
  function SafeInstantiate(cls: AgentClass, apiKey: Json): (r: Outcome<Instance>)
    ensures r.Fail? <==> cls.Unloaded?
    ensures r.Fail? ==> r.msg == NoneNotATypeMessage
    ensures r == Ok(Real) <==> cls.Loaded? && ChosenConstructor(cls, apiKey) == Constructs
    ensures r == Ok(StubBacked) <==> cls.Loaded? && ChosenConstructor(cls, apiKey).Raises?
  {
    match cls
    case Unloaded => Fail(NoneNotATypeMessage)
    case Loaded(_, _) =>
      if Truthy(apiKey) then
        (match cls.withKey
         case Constructs => Ok(Real)
         case Raises(_) => Ok(StubBacked))
      else
        (match cls.withoutKey
         case Constructs => Ok(Real)
         case Raises(_) => Ok(StubBacked))
  }

  /** Without a usable key, a class whose bare constructor fails (it needs a credential)
      yields a stub-backed instance. */
  lemma NoKeyFallsBackToStub(cls: AgentClass, apiKey: Json)
    requires cls.Loaded? && cls.withoutKey.Raises? && !Truthy(apiKey)
    ensures SafeInstantiate(cls, apiKey) == Ok(StubBacked)
  {
  }
}

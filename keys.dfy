/**
  The liveness key scheme: every tracked entity (an experiment, a job or a
  build) has one namespaced key, its kind's prefix followed by its id.
 */
module HeartbeatKeys {
  import opened Decimal

  /** The entity a heartbeat belongs to: exactly one kind, with its id. */
  datatype Entity = Experiment(id: int) | Job(id: int) | Build(id: int)

  /** The key templates, each without its trailing `{}` placeholder. */
  const KeyExperiment: string := "heartbeat.experiment:"
  const KeyJob: string := "heartbeat.job:"
  const KeyBuild: string := "heartbeat.build:"

  /** The namespace every heartbeat key lives in. */
  const Namespace: string := "heartbeat."

  function Prefix(e: Entity): string {
    match e
    case Experiment(_) => KeyExperiment
    case Job(_) => KeyJob
    case Build(_) => KeyBuild
  }

  /** The template of the entity's kind with its id filled in. The key lies
      in the heartbeat namespace and is never empty. */
  function HeartbeatKey(e: Entity): (k: string)
    ensures |k| > |Namespace| && k[..|Namespace|] == Namespace
    ensures |k| > |Prefix(e)| && IntToDecimal(e.id) == k[|Prefix(e)|..]
  {
    Prefix(e) + IntToDecimal(e.id)
  }

  /** The three prefixes share the namespace and then differ at once, so the
      character after the namespace names the kind. */
  lemma KindCharacter(e: Entity)
    ensures HeartbeatKey(e)[|Namespace|] == match e
      case Experiment(_) => 'e'
      case Job(_) => 'j'
      case Build(_) => 'b'
  {
  }

  /** No two different entities share a key: the kind is fixed by the
      prefix, and the id by its decimal text. */
  lemma {:induction false} HeartbeatKeyInjective(a: Entity, b: Entity)
    requires HeartbeatKey(a) == HeartbeatKey(b)
    ensures a == b
  {
    KindCharacter(a);
    KindCharacter(b);
    assert Prefix(a) == Prefix(b);
    IntToDecimalInjective(a.id, b.id);
  }
}

/**
 * The trigger rule of an execute clip: the `FireType` flags enum, the
 * `FireEventType` discriminator and the `ActionEventData` record with its
 * two derived predicates.
 */
module FireTypes {

  /** A `[Flags]` enum over a 32-bit integer: any OR of its members is a value. */
  type FireType = bv32

  const None: FireType := 0
  const StartTrigger: FireType := 1 << 1
  const CollisionTrigger: FireType := 1 << 2
  const EndTrigger: FireType := 1 << 3
  const CollisionTriggerMultiple: FireType := 1 << 4

  /** One of the four declared trigger members (every member except `None`). */
  predicate IsTriggerMember(t: FireType) {
    t == StartTrigger || t == CollisionTrigger || t == EndTrigger || t == CollisionTriggerMultiple
  }

  /** Every element of `flags` is a declared trigger member. */
  predicate AllMembers(flags: seq<FireType>) {
    forall i :: 0 <= i < |flags| ==> IsTriggerMember(flags[i])
  }

  /** The bitwise OR of a list of flags (`None` for the empty list). */
  function Combine(flags: seq<FireType>): FireType {
    if flags == [] then None else flags[0] | Combine(flags[1..])
  }

  /** The declared values: `None` is 0 and the members are 2, 4, 8 and 16. */
  lemma MemberValues()
    ensures None == 0 && StartTrigger == 2 && CollisionTrigger == 4
    ensures EndTrigger == 8 && CollisionTriggerMultiple == 16
  {
  }

  /** Each member is a single non-zero bit, and no two members share a bit. */
  lemma MembersAreDistinctBits(a: FireType, b: FireType)
    requires IsTriggerMember(a) && IsTriggerMember(b)
    ensures a != None && a & (a - 1) == 0
    ensures a != b ==> a & b == None
  {
  }

  /** OR-ing any list of members and masking with a member recovers exactly whether it was included. */
  lemma {:induction false} CombineMask(flags: seq<FireType>, m: FireType)
    requires AllMembers(flags) && IsTriggerMember(m)
    ensures Combine(flags) & m == (if m in flags then m else None)
  {
    if flags != [] {
      assert AllMembers(flags[1..]) by {
        forall i | 0 <= i < |flags[1..]| ensures IsTriggerMember(flags[1..][i]) {
          assert flags[1..][i] == flags[i + 1];
        }
      }
      CombineMask(flags[1..], m);
      assert IsTriggerMember(flags[0]);
      assert m in flags <==> m == flags[0] || m in flags[1..];
    }
  }

  /** A combination of members is `None` exactly when no member was included. */
  lemma {:induction false} CombineIsNone(flags: seq<FireType>)
    requires AllMembers(flags)
    ensures Combine(flags) == None <==> flags == []
  {
    if flags != [] {
      CombineMask(flags, flags[0]);
    }
  }

  /** A combination of members sets no bit outside the four members. */
  lemma {:induction false} CombineWithinMembers(flags: seq<FireType>)
    requires AllMembers(flags)
    ensures Combine(flags) & !(StartTrigger | CollisionTrigger | EndTrigger | CollisionTriggerMultiple) == None
  {
    if flags != [] {
      assert AllMembers(flags[1..]) by {
        forall i | 0 <= i < |flags[1..]| ensures IsTriggerMember(flags[1..][i]) {
          assert flags[1..][i] == flags[i + 1];
        }
      }
      CombineWithinMembers(flags[1..]);
      assert IsTriggerMember(flags[0]);
    }
  }

  /**
   * What a firing does. The enum field can hold any integer, such as the
   * retired value 2; `OtherEventType` stands for a stored value other than the
   * two declared members 0 and 1.
   */
  datatype FireEventType = AssignEffect | TriggerNewExecution | OtherEventType(code: int)

  /** How an assigned effect is applied; its members are declared outside this model. */
  datatype EffectApplyType = EffectApplyType(code: int)

  /** Whom an assigned effect is applied to; its members are declared outside this model. */
  datatype EffectApplyTarget = EffectApplyTarget(code: int)

  /** The trigger settings of an action event or a collision execution. */
  datatype ActionEventData = ActionEventData(
    fireType: FireType,
    actionEventType: FireEventType,
    effectApply: EffectApplyType,
    effectApplyTarget: EffectApplyTarget,
    newExecution: string)
  {
    /** The event fires and assigns an effect. */
    predicate IsTriggerAssign() {
      fireType != None && actionEventType == AssignEffect
    }

    /** The event fires and starts the execution named by `newExecution`. */
    predicate IsTriggerExecution() {
      fireType != None && actionEventType == TriggerNewExecution
    }
  }

  /** With `FireType == None` neither predicate holds, whatever the event type. */
  lemma NoneNeverTriggers(a: ActionEventData)
    requires a.fireType == None
    ensures !a.IsTriggerAssign() && !a.IsTriggerExecution()
  {
  }

  /**
   * Otherwise at most one predicate holds: exactly one for a declared event
   * type, which chooses which, and neither for an undeclared stored value.
   */
  lemma ExactlyOneTrigger(a: ActionEventData)
    requires a.fireType != None
    ensures !(a.IsTriggerAssign() && a.IsTriggerExecution())
    ensures !a.actionEventType.OtherEventType? ==> a.IsTriggerAssign() != a.IsTriggerExecution()
    ensures a.IsTriggerAssign() <==> a.actionEventType == AssignEffect
    ensures a.IsTriggerExecution() <==> a.actionEventType == TriggerNewExecution
  {
  }

  /**
   * For a fire type built by OR-ing declared members, the event triggers (one
   * way or the other) exactly when at least one member was chosen and the
   * event type is a declared one.
   */
  lemma {:induction false} TriggersIffSomeFlag(a: ActionEventData, flags: seq<FireType>)
    requires AllMembers(flags) && a.fireType == Combine(flags)
    ensures a.IsTriggerAssign() || a.IsTriggerExecution() <==> flags != [] && !a.actionEventType.OtherEventType?
    ensures flags != [] && a.actionEventType == AssignEffect ==> a.IsTriggerAssign()
    ensures flags != [] && a.actionEventType == TriggerNewExecution ==> a.IsTriggerExecution()
  {
    CombineIsNone(flags);
  }
}

/**
 * An execute clip: a time window, a clip type selecting one payload, and an
 * ordered list of effects that the authoring dropdown appends to.
 */
module ExecuteClip {
  import FireTypes
  import opened EffectRegistry
  import opened Collision

  /** The dropdown's first item; choosing it adds nothing. */
  const AddEffectPrompt: string := "(添加效果)"

  datatype ExecuteClipType = ItemExecute | ActionEvent | Animation | Audio | ParticleEffect

  /**
   * One effect instance; its concrete class is the one at `typeIndex` in the
   * registry, whose entry is `effectType`.
   */
  class ItemEffect {
    const typeIndex: nat
    const effectType: EffectEntry
    var enabled: bool

    /** A default instance of the registered class at `typeIndex`. */
    constructor (typeIndex: nat, effectType: EffectEntry)
      ensures this.typeIndex == typeIndex && this.effectType == effectType
    {
      this.typeIndex := typeIndex;
      this.effectType := effectType;
    }
  }

  /**
   * What goes wrong when the chosen name is not a registered tag: the lookup
   * yields null and instantiating null throws.
   */
  datatype AddEffectError = EffectTypeNotFound(name: string)

  datatype Outcome = Pass | Fail(error: AddEffectError)

  class ExecuteClipData {
    var startTime: real
    var endTime: real
    var executeClipType: ExecuteClipType
    var actionEventData: FireTypes.ActionEventData
    var collisionExecuteData: CollisionExecuteData?
    var effects: seq<ItemEffect>
    var effectTypeName: string

    /** Authored settings; the effect list starts empty and the dropdown on its prompt. */
    constructor (startTime: real, endTime: real, executeClipType: ExecuteClipType,
                 actionEventData: FireTypes.ActionEventData, collisionExecuteData: CollisionExecuteData?)
      ensures this.startTime == startTime && this.endTime == endTime
      ensures this.executeClipType == executeClipType
      ensures this.actionEventData == actionEventData
      ensures this.collisionExecuteData == collisionExecuteData
      ensures effects == [] && effectTypeName == AddEffectPrompt
    {
      this.startTime := startTime;
      this.endTime := endTime;
      this.executeClipType := executeClipType;
      this.actionEventData := actionEventData;
      this.collisionExecuteData := collisionExecuteData;
      effects := [];
      effectTypeName := AddEffectPrompt;
    }

    /**
     * The length of the time window. It is negative when the end precedes the
     * start: nothing rejects such a window.
     */
    function Duration(): (d: real)
      reads this
      ensures startTime + d == endTime
      ensures d >= 0.0 <==> endTime >= startTime
    {
      endTime - startTime
    }

    /**
     * The dropdown items: the prompt first, then the tag of every registered
     * effect, stably ordered by `order`.
     */
    method EffectTypeSelect(registry: seq<EffectEntry>) returns (results: seq<string>)
      ensures |results| == |registry| + 1
      ensures results[0] == AddEffectPrompt
      ensures results[1..] == TagsOf(SortByOrder(registry))
      ensures multiset(results[1..]) == multiset(TagsOf(registry))
    {
      var types := TagsOf(SortByOrder(registry));
      SortByOrderIsStable(registry);
      results := types;
      results := [AddEffectPrompt] + results;
      assert results[1..] == types;
    }

    /**
     * Reacts to a choice in the dropdown. On the prompt nothing happens.
     * Otherwise the first registered class with the chosen tag is instantiated,
     * enabled and appended, and the dropdown returns to the prompt; when no
     * class has that tag the call fails and changes nothing.
     */
    method AddEffect(registry: seq<EffectEntry>) returns (outcome: Outcome)
      modifies this`effects, this`effectTypeName
      ensures old(effectTypeName) == AddEffectPrompt ==>
        outcome == Pass && effects == old(effects) && effectTypeName == AddEffectPrompt
      ensures old(effectTypeName) != AddEffectPrompt && FindFirst(registry, old(effectTypeName)).None? ==>
        && outcome == Fail(EffectTypeNotFound(old(effectTypeName)))
        && effects == old(effects) && effectTypeName == old(effectTypeName)
      ensures old(effectTypeName) != AddEffectPrompt && FindFirst(registry, old(effectTypeName)).Some? ==>
        && outcome == Pass
        && |effects| == |old(effects)| + 1
        && effects[..|old(effects)|] == old(effects)
        && fresh(effects[|old(effects)|])
        && effects[|old(effects)|].enabled
        && effects[|old(effects)|].typeIndex == FindFirst(registry, old(effectTypeName)).value
        && effects[|old(effects)|].effectType == registry[FindFirst(registry, old(effectTypeName)).value]
        && effectTypeName == AddEffectPrompt
    {
      outcome := Pass;
      if effectTypeName != AddEffectPrompt {
        var found := FindFirst(registry, effectTypeName);
        if found.None? {
          outcome := Fail(EffectTypeNotFound(effectTypeName));
          return;
        }
        var effect := new ItemEffect(found.value, registry[found.value]);
        effect.enabled := true;
        effects := effects + [effect];
        effectTypeName := AddEffectPrompt;
      }
    }
  }
}

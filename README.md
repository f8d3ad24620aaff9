# Execute clip configuration (EGamePlay)

A Dafny model of the configuration record for a timed combat "execute clip" in
EGamePlay, `Assets/EGamePlay/ConfigObject/ClipConfig/ExecuteClipData.cs`. An
execute clip has a time window (`StartTime`, `EndTime`, `Duration`). Its
`ExecuteClipType` selects one payload. It also keeps an ordered effect list
that the authoring dropdown appends to. The model covers four parts:

- `fire_type.dfy` (module `FireTypes`): the `FireType` flags enum as a 32-bit
  bitmask, `FireEventType`, and `ActionEventData` with its predicates
  `IsTriggerAssign` and `IsTriggerExecution`.
- `effect_registry.dfy` (module `EffectRegistry`): the effect-type registry.
  In the source it comes from reflection over the assembly. Here it is an
  explicit sequence of `(tag, order)` entries in enumeration order. The module
  also gives the stable order-by used by the dropdown and the first-match
  lookup used when adding an effect.
- `collision.dfy` (module `Collision`): `CollisionExecuteData` as a class with
  `ShowSpeed` and `ShowPoints`. Its `GetCtrlPoints` copies the bezier key
  points with a loop, allocating a new point object for each one.
- `execute_clip.dfy` (module `ExecuteClip`): `ExecuteClipData` as a class with
  `Duration`, `EffectTypeSelect` and `AddEffect`. `AddEffect` updates the
  `effects` and `effectTypeName` fields in place.

The stable order-by is specified independently of the insertion sort that
computes it: `StableOrderOf(s, r)` says `r` is sorted by `order`, and that for
every order value the entries with that order appear in `r` exactly as in `s`.
`SortByOrderIsStable` proves the sort meets this. `StableOrderIsUnique` proves
no other list does.

The model follows the code as written:

- A tag that no registered class has makes `AddEffect` fail. `FirstOrDefault`
  yields null, and `Activator.CreateInstance(null)` throws before anything changes. The
  model returns `Fail(EffectTypeNotFound(name))` and leaves the state as it was.
- `AddEffect` does not remove duplicates. The same tag can be added any number
  of times.
- No check rejects `EndTime < StartTime`. A window that ends before it starts
  has a negative duration.
- No check rejects a path-flying collider without a curve. `GetCtrlPoints`
  without a curve simply returns an empty list.

## Model

| member | source | states |
|---|---|---|
| FireTypes.MemberValues | Assets/EGamePlay/ConfigObject/ClipConfig/ExecuteClipData.cs:166-177 | None is 0. The members are 2, 4, 8 and 16. |
| FireTypes.MembersAreDistinctBits | Assets/EGamePlay/ConfigObject/ClipConfig/ExecuteClipData.cs:165-177 | Each member is one non-zero bit, and two different members share no bit. |
| FireTypes.CombineMask | Assets/EGamePlay/ConfigObject/ClipConfig/ExecuteClipData.cs:165-177 | OR any list of members together, then mask with a member. The result is that member if the list included it, and None if it did not. |
| FireTypes.CombineIsNone | Assets/EGamePlay/ConfigObject/ClipConfig/ExecuteClipData.cs:165-177 | A combination of members equals None exactly when no member was included. |
| FireTypes.CombineWithinMembers | Assets/EGamePlay/ConfigObject/ClipConfig/ExecuteClipData.cs:165-177 | A combination of members sets no bit outside StartTrigger, CollisionTrigger, EndTrigger and CollisionTriggerMultiple. |
| FireTypes.NoneNeverTriggers | Assets/EGamePlay/ConfigObject/ClipConfig/ExecuteClipData.cs:187-203 | With FireType None, neither IsTriggerAssign nor IsTriggerExecution holds, whatever the event type. |
| FireTypes.ExactlyOneTrigger | Assets/EGamePlay/ConfigObject/ClipConfig/ExecuteClipData.cs:187-203 | With FireType not None, at most one predicate holds. IsTriggerAssign holds iff the event type is AssignEffect. IsTriggerExecution holds iff it is TriggerNewExecution. So exactly one holds for a declared event type, and neither for an undeclared stored value such as the retired 2. |
| FireTypes.TriggersIffSomeFlag | Assets/EGamePlay/ConfigObject/ClipConfig/ExecuteClipData.cs:182-203 | For a fire type built by OR-ing members, one of the two predicates holds iff at least one flag was chosen and the event type is a declared one. The event type picks which, e.g. Start and End with AssignEffect gives IsTriggerAssign. |
| EffectRegistry.FindFirst | Assets/EGamePlay/ConfigObject/ClipConfig/ExecuteClipData.cs:93-98 | The result is the index of the first registered entry with the given tag. No earlier entry has that tag. None means no entry has it. |
| EffectRegistry.SortByOrderIsStable | Assets/EGamePlay/ConfigObject/ClipConfig/ExecuteClipData.cs:77-84 | The stable order-by is sorted by non-decreasing order and keeps entries of equal order in registry order. It is a permutation of the registry, entries and tags alike, and has the same length. |
| EffectRegistry.StableOrderIsUnique | Assets/EGamePlay/ConfigObject/ClipConfig/ExecuteClipData.cs:81 | Any two lists that are each a stable order-by of the same registry are equal. The dropdown order is fully determined. |
| ExecuteClip.ExecuteClipData.constructor | Assets/EGamePlay/ConfigObject/ClipConfig/ExecuteClipData.cs:68-73 | A new clip has an empty effect list and the dropdown on the "(添加效果)" prompt. Its other settings are as authored. |
| ExecuteClip.ExecuteClipData.Duration | Assets/EGamePlay/ConfigObject/ClipConfig/ExecuteClipData.cs:126 | The start time plus the duration is the end time. The duration is non-negative iff the end is not before the start, so a reversed window is not rejected. |
| ExecuteClip.ExecuteClipData.EffectTypeSelect | Assets/EGamePlay/ConfigObject/ClipConfig/ExecuteClipData.cs:75-87 | The prompt comes first. Then come the registered tags in the stable order-by of the registry, a permutation of the registered tags. The length is one more than the registry's. |
| ExecuteClip.ExecuteClipData.AddEffect | Assets/EGamePlay/ConfigObject/ClipConfig/ExecuteClipData.cs:89-104 | On the prompt, the effects and the name are unchanged. With a registered tag, exactly one new effect is appended: fresh, enabled, and of the first registered class with that tag, identified by its registry index. Earlier effects stay unchanged and in order. The name returns to the prompt, so an immediate second call changes nothing. With an unregistered tag, the call fails and changes nothing. |
| Collision.CollisionExecuteData.constructor | Assets/EGamePlay/ConfigObject/ClipConfig/ExecuteClipData.cs:226-256 | The settings are as authored. Speed starts at its declared default of 1. |
| Collision.PointsImplySpeed | Assets/EGamePlay/ConfigObject/ClipConfig/ExecuteClipData.cs:253-254 | ShowPoints implies ShowSpeed: both path-flying movement types are outside the three positional types that hide the speed. |
| Collision.CollisionExecuteData.GetCtrlPoints | Assets/EGamePlay/ConfigObject/ClipConfig/ExecuteClipData.cs:258-274 | Without a curve the result is empty. Otherwise it has the same length as the key points. Point i copies all four fields of key point i. Every result point is freshly allocated and distinct from the others. Nothing that existed before is modified, since the method has no modifies clause. |

## Left out

- Inspector and editor concerns: the Odin/Unity attributes, `DrawSpace`, `BeginBox` and `EndBox`. They only affect the editor UI.
- The reflection in `EffectTypeSelect` and `AddEffect`. The model replaces it with an explicit registry sequence, in enumeration order, of the types that pass the three `Where` filters and can be instantiated.
- ExecuteClip.ExecuteClipData.AddEffect: does not model `Activator.CreateInstance` failing for a registered type, for example one without a public parameterless constructor or whose constructor throws. Such types are assumed absent from the registry.
- Asset payloads (`AnimationData`, `AudioData`, `ParticleEffectData`, `ObjAsset`). These are opaque engine handles.
- `BezierCurve3D` and `BezierPoint3D` internals, and curve evaluation. These belong to an external library; a key point is only four fields here.
- The `(float)` narrowing in `Duration`. Times are reals, and the model has no floating-point rounding.
- `TotalTime`, the `Name` property, `GetClipTime`, the serialization markers and the unused `ExecutionTargetInputType` enum.
- `CollisionMoveType`, `CollisionShape`, `EffectApplyType` and `EffectApplyTarget` are declared outside this file. Only the members the code names are modelled; the move and shape enums get one extra case for every other member, and the two apply enums are opaque codes.
- `ItemEffect` is not part of this model beyond its `Enabled` flag and the registry index of the class it instantiates.
- The firing policy of each trigger flag and the sampling of a collider's position along its movement. The clip file does not implement them.

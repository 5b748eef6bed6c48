# Agent attributes and species identifiers

A model of the `Agent` class of the predator-prey simulation (`actor-critic/agents.py`) and of the identifier generator `generate_uuid` (`actor-critic/tools.py`).

An `Agent` holds four attributes: food reserve, maximal food reserve, generation and uuid. `__init__` assigns all four directly (agents.py:34-37); after initialisation, each is written only through a property setter. Every setter checks, in this fixed order:

1. the type of the value (`TypeError`);
2. its range or length (`ValueError`);
3. for the three write-once attributes, whether the stored value is truthy (`RuntimeError`);
4. and only then assigns.

`generate_uuid` puts a two-character species prefix in front of the 32 hex digits of a random uuid4, or raises `RuntimeError` for an unknown species.

Files:

- `py_values.dfy` (module `PyValues`): the Python values the setters distinguish. `IntV`, `StrV` and `NoneV` are the int, str and None cases. `FloatV` stands for any other object. The module also gives Python truthiness, the three exceptions, and an `Outcome` (normal return or raise).
- `tools.dfy` (module `Tools`): `GenerateUuid`, which takes the uuid4 hex as a parameter. `SpeciesOfUuid` reads the kind back from the prefix.
- `agents.dfy` (module `Agents`): the attributes as a value `AgentState`. Each setter is a function `Write*` returning the outcome and the new attributes. `Construct` models `__init__`. `Run` applies a series of assignments, with each exception caught by the caller. Class `Agent` is the object itself. Its setter methods `modifies this`, and each one's `ensures` ties the outcome and the new fields to the matching `Write*` function. The getters are the functions `FoodReserveValue`, `MaxFoodReserveValue`, `GenerationValue` and `UuidValue`.

Three behaviours of the code a reader may not expect:

- The code never clamps `food_reserve` against `max_food_reserve`. `FoodReserveNotClamped` and `FoodReserveIsLastAccepted` state this.
- A second `max_food_reserve` write does not always raise the "already set" error. A value below the current food reserve raises `ValueError` first (`MaxFoodReserveRangeBeforeLock`).
- A stored `0` does not lock `max_food_reserve` or `generation`, because the lock is a truth test.

## Model

| member | source | states |
|---|---|---|
| `Agents.Initial` | actor-critic/agents.py:33-37 | before any setter runs, food reserve is 0 and the other three attributes are None, which satisfies the attribute invariant |
| `Agents.WriteFoodReserve` | actor-critic/agents.py:50-62 | the setter keeps the invariant; success changes only food_reserve; a raise changes nothing |
| `Agents.WriteMaxFoodReserve` | actor-critic/agents.py:70-87 | the setter keeps the invariant; success changes only max_food_reserve and stores a value no smaller than the current food reserve; a raise changes nothing |
| `Agents.WriteGeneration` | actor-critic/agents.py:95-110 | the setter keeps the invariant; success changes only generation; a raise changes nothing |
| `Agents.WriteUuid` | actor-critic/agents.py:118-133 | the setter keeps the invariant (a stored uuid is at least 34 long); success changes only uuid; a raise changes nothing |
| `Agents.Construct` | actor-critic/agents.py:30-41 | construction succeeds exactly when food_reserve is a non-negative int and max_food_reserve an int at least as large; it then yields those two values with generation and uuid None |
| `Agents.FoodReserveSetter` | actor-critic/agents.py:53-62 | a non-negative int returns normally and is stored exactly, nothing else changing; TypeError if and only if the value is not an int; ValueError if and only if it is a negative int |
| `Agents.FoodReserveNotClamped` | actor-critic/agents.py:53-62 | a food reserve above an already stored max_food_reserve is accepted and stored unchanged |
| `Agents.MaxFoodReserveSetter` | actor-critic/agents.py:73-81 | TypeError if and only if the value is not an int, whatever is stored; ValueError if and only if it is an int below the current food reserve; a non-int changes nothing |
| `Agents.MaxFoodReserveRangeBeforeLock` | actor-critic/agents.py:78-84 | an int below the current food reserve raises ValueError and changes nothing, even when the value is already set |
| `Agents.MaxFoodReserveWriteOnce` | actor-critic/agents.py:83-87 | an in-range int is stored if and only if the stored value is None or 0; otherwise RuntimeError and nothing changes |
| `Agents.GenerationWriteOnce` | actor-critic/agents.py:98-110 | TypeError if and only if not an int; ValueError if and only if negative; a non-negative int overwrites None or 0 and otherwise raises RuntimeError |
| `Agents.UuidWriteOnce` | actor-critic/agents.py:121-133 | TypeError if and only if not a str; ValueError if and only if shorter than 34 (longer is accepted); otherwise stored if and only if no non-empty uuid is stored, else RuntimeError |
| `Agents.ConstructWithoutMaxFails` | actor-critic/agents.py:30-41 | the default max_food_reserve of None always makes construction fail, with TypeError once food_reserve is accepted |
| `Agents.ConstructErrors` | actor-critic/agents.py:40-41 | a failed construction raises the food_reserve setter's exception (TypeError for a non-int, ValueError for a negative int), and otherwise the max_food_reserve setter's (TypeError for a non-int, ValueError for an int below the food reserve) |
| `Agents.ConstructIgnoresGeneration` | actor-critic/agents.py:30-41 | the generation argument and extra keyword arguments do not affect construction |
| `Agents.GeneratedUuidFitsAgent` | actor-critic/agents.py:27 | an identifier from generate_uuid is exactly 34 long and the uuid setter of an agent without a uuid accepts it |
| `Agents.ApplyChangesOnlyItsAttribute` | actor-critic/agents.py:53-133 | a failing assignment changes no attribute; any assignment leaves the other three attributes alone |
| `Agents.RunPreservesValid` | actor-critic/agents.py:50-133 | every series of assignments keeps the type and range invariant of all four attributes |
| `Agents.LockedAttributesStayLocked` | actor-critic/agents.py:83-133 | once max_food_reserve, generation or uuid holds a truthy value, no series of assignments changes it |
| `Agents.RunSnoc` | actor-critic/agents.py:50-133 | running a series and then one more assignment equals running the extended series |
| `Agents.FoodReserveIsLastAccepted` | actor-critic/agents.py:50-62 | after any series of assignments, food_reserve is the value of the last accepted food_reserve assignment (or the initial value), whatever max_food_reserve holds |
| `Agents.Agent.constructor` | actor-critic/agents.py:33-37 | a new object starts with the initial attributes |
| `Agents.Agent.FoodReserveValue` | actor-critic/agents.py:45-48 | the `food_reserve` getter returns the stored int |
| `Agents.Agent.MaxFoodReserveValue` | actor-critic/agents.py:65-68 | the `max_food_reserve` getter returns the stored value (None or the int): None exactly when nothing is stored, and a truthy value exactly when a non-zero int is stored (the lock test of line 83) |
| `Agents.Agent.GenerationValue` | actor-critic/agents.py:90-93 | the `generation` getter returns the stored value (None or the int): None exactly when nothing is stored, and a truthy value exactly when a non-zero int is stored (the lock test of line 106) |
| `Agents.Agent.UuidValue` | actor-critic/agents.py:113-116 | the `uuid` getter returns the stored value (None or the str): None exactly when nothing is stored, and a truthy value exactly when a non-empty str is stored (the lock test of line 129) |
| `Agents.Agent.New` | actor-critic/agents.py:30-41 | the object is returned exactly when construction succeeds, and it is fresh with the attributes `Construct` gives |
| `Agents.Agent.SetFoodReserve` | actor-critic/agents.py:50-62 | the outcome and the new fields are those `WriteFoodReserve` gives for the old fields |
| `Agents.Agent.SetMaxFoodReserve` | actor-critic/agents.py:70-87 | the outcome and the new fields are those `WriteMaxFoodReserve` gives for the old fields |
| `Agents.Agent.SetGeneration` | actor-critic/agents.py:95-110 | the outcome and the new fields are those `WriteGeneration` gives for the old fields |
| `Agents.Agent.SetUuid` | actor-critic/agents.py:118-133 | the outcome and the new fields are those `WriteUuid` gives for the old fields |
| `Tools.Prefix` | actor-critic/tools.py:12-19 | each species prefix is two characters long |
| `Tools.GenerateUuid` | actor-critic/tools.py:6-24 | raises RuntimeError if and only if species is truthy and neither "predator" nor "prey"; otherwise returns a two-character prefix followed by the unchanged hex, of length len(hex) + 2 |
| `Tools.SpeciesOfUuid` | actor-critic/tools.py:12-19 | a decoded kind is one whose prefix the identifier starts with |
| `Tools.PrefixPerSpecies` | actor-critic/tools.py:12-19 | "predator" gives "J_" + hex, "prey" gives "B_" + hex, None or "" gives "__" + hex |
| `Tools.FalsySpeciesUnnamed` | actor-critic/tools.py:18-19 | every falsy species (None, "", 0, 0.0) yields "__" + hex |
| `Tools.UuidRoundTrip` | actor-critic/tools.py:12-24 | the kind read back from a generated identifier, passed again with its hex part, regenerates the same identifier |
| `Tools.KindsNeverCollide` | actor-critic/tools.py:12-19 | identifiers of different kinds differ, whatever the hex |

## Left out

- `uuid.uuid4()` randomness: the 32 hex digits are a parameter of `GenerateUuid`, required to be 32 lower-case hex digits.
- GenerateUuid: takes `species` as a plain parameter. `generate_uuid(*, species=None)` (tools.py:6) is keyword-only, so a positional call such as `generate_uuid("prey")` raises TypeError; argument binding is not modelled.
- `species is "predator"` compares object identity. The result depends on string interning. The model uses string equality.
- `__slots__` (agents.py:23-24) lacks a comma, so Python makes the one slot `'_uuid_UUID_LENGTH'`. `self._uuid = None` (agents.py:37) would then raise AttributeError. Adding the comma would not be enough: a slot `'_UUID_LENGTH'` clashes with the class variable `_UUID_LENGTH = 34` (agents.py:27), and Python refuses the class definition. The evidently intended slot list is the four attributes `_food_reserve`, `_max_food_reserve`, `_generation` and `_uuid`. The model gives the initialisation with those four. Slot mechanics are not modelled.
- Construct: does not model the binding of `__init__`'s arguments (agents.py:30-31). They are keyword-only and `food_reserve` has no default, so `Agent()` or a positional call raises TypeError before any setter runs. `Construct` and `Agent.New` always receive a food-reserve value.
- `isinstance(True, int)` is true in Python, so the setters accept booleans. The model has no boolean value.
- `FloatV` stands for every value that is not an int, str or None. Only its truthiness and its failing the type checks matter.
- The exception messages are not modelled, only the exception kind.
- The `numpy` import and the `generate_uuid` import of agents.py (lines 3 and 5) are not used by `Agent`. Nothing in `Agent` calls the generator. `GeneratedUuidFitsAgent` states only that the two fit together.
- Predator and Prey subclasses, procreation, breeding probability, kin, memory and orientation are not part of this model. The modelled files do not contain them.

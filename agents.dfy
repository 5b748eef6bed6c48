/** The Agent class of actor-critic/agents.py: four attributes, each written
    after initialisation only through a validating property setter that checks, in this order,
    the type (TypeError), the range or length (ValueError), for the three
    write-once attributes whether the current value is truthy (RuntimeError),
    and only then assigns.

    The pure part (AgentState and the Write* functions) states what one
    setter call does; class Agent is the object itself, whose setter methods
    are proved to behave as those functions say.

    Known defect of the source: `__slots__` (agents.py:23-24) lacks a comma
    between '_uuid' and '_UUID_LENGTH', so Python joins them into the one
    slot name '_uuid_UUID_LENGTH' and `self._uuid = None` (agents.py:37)
    raises AttributeError. Adding the comma alone would not help: a slot
    named '_UUID_LENGTH' clashes with the class variable of that name
    (agents.py:27) and Python refuses the class definition. The evidently
    intended slot list is the four attributes `_food_reserve`,
    `_max_food_reserve`, `_generation` and `_uuid`; the model gives the
    initialisation of lines 34-37 with those four. */
module Agents {
  import opened PyValues
  import Tools

  /** `_UUID_LENGTH`: the minimum uuid length, a 2-character prefix plus the
      32 hex digits of a uuid4. */
  const UuidLength: int := 34

  /** The four attributes `_food_reserve`, `_max_food_reserve`,
      `_generation` and `_uuid`. */
  datatype AgentState = AgentState(
    foodReserve: int,
    maxFoodReserve: Option<int>,
    generation: Option<int>,
    uuid: Option<string>)

  /** The outcome of a setter call and the attributes afterwards. */
  datatype Step = Step(outcome: Outcome, state: AgentState)

  /** Every stored value has passed its setter's type and range checks.
      Note what is NOT here: food_reserve <= max_food_reserve, which the
      setters do not maintain. */
  predicate Valid(st: AgentState) {
    && st.foodReserve >= 0
    && (st.maxFoodReserve.Some? ==> st.maxFoodReserve.value >= 0)
    && (st.generation.Some? ==> st.generation.value >= 0)
    && (st.uuid.Some? ==> |st.uuid.value| >= UuidLength)
  }

  /** The attributes as `__init__` first sets them, before any setter runs. */
  function Initial(): (st: AgentState)
    ensures Valid(st) && st.foodReserve == 0
    ensures st.maxFoodReserve.None? && st.generation.None? && st.uuid.None?
  {
    AgentState(0, None, None, None)
  }

  // ---------------------------------------------------------------------
  // One setter call

  /** `food_reserve` setter: a non-negative int, with no comparison against
      max_food_reserve. */
  function WriteFoodReserve(st: AgentState, v: Value): (r: Step)
    ensures Valid(st) ==> Valid(r.state)
    ensures r.outcome.Ok? ==> r.state == st.(foodReserve := r.state.foodReserve)
    ensures !r.outcome.Ok? ==> r.state == st
  {
    if !v.IntV? then Step(Raised(TypeError), st)
    else if v.i < 0 then Step(Raised(ValueError), st)
    else Step(Ok, st.(foodReserve := v.i))
  }

  /** `max_food_reserve` setter: an int no smaller than the current
      food_reserve, refused once a truthy value is stored. */
  function WriteMaxFoodReserve(st: AgentState, v: Value): (r: Step)
    ensures Valid(st) ==> Valid(r.state)
    ensures r.outcome.Ok? ==> r.state == st.(maxFoodReserve := r.state.maxFoodReserve)
    ensures r.outcome.Ok? ==> r.state.maxFoodReserve.Some? && r.state.maxFoodReserve.value >= st.foodReserve
    ensures !r.outcome.Ok? ==> r.state == st
  {
    if !v.IntV? then Step(Raised(TypeError), st)
    else if v.i < st.foodReserve then Step(Raised(ValueError), st)
    else if Truthy(IntOrNone(st.maxFoodReserve)) then Step(Raised(RuntimeError), st)
    else Step(Ok, st.(maxFoodReserve := Some(v.i)))
  }

  /** `generation` setter: a non-negative int, refused once a truthy value
      is stored. */
  function WriteGeneration(st: AgentState, v: Value): (r: Step)
    ensures Valid(st) ==> Valid(r.state)
    ensures r.outcome.Ok? ==> r.state == st.(generation := r.state.generation)
    ensures !r.outcome.Ok? ==> r.state == st
  {
    if !v.IntV? then Step(Raised(TypeError), st)
    else if v.i < 0 then Step(Raised(ValueError), st)
    else if Truthy(IntOrNone(st.generation)) then Step(Raised(RuntimeError), st)
    else Step(Ok, st.(generation := Some(v.i)))
  }

  /** `uuid` setter: a str at least UuidLength long, refused once a
      non-empty uuid is stored. */
  function WriteUuid(st: AgentState, v: Value): (r: Step)
    ensures Valid(st) ==> Valid(r.state)
    ensures r.outcome.Ok? ==> r.state == st.(uuid := r.state.uuid)
    ensures !r.outcome.Ok? ==> r.state == st
  {
    if !v.StrV? then Step(Raised(TypeError), st)
    else if |v.s| < UuidLength then Step(Raised(ValueError), st)
    else if Truthy(StrOrNone(st.uuid)) then Step(Raised(RuntimeError), st)
    else Step(Ok, st.(uuid := Some(v.s)))
  }

  /** `Agent(food_reserve=..., max_food_reserve=..., generation=..., **kwargs)`:
      the initial attributes, then the food_reserve setter, then the
      max_food_reserve setter. The generation argument and the extra keyword
      arguments are accepted and ignored. */
  function Construct(foodReserve: Value, maxFoodReserve: Value, generation: Value,
                     kwargs: map<string, Value>): (r: Step)
    ensures r.outcome.Ok? <==>
      foodReserve.IntV? && maxFoodReserve.IntV? && 0 <= foodReserve.i <= maxFoodReserve.i
    ensures r.outcome.Ok? ==>
      r.state == AgentState(foodReserve.i, Some(maxFoodReserve.i), None, None)
  {
    var afterFood := WriteFoodReserve(Initial(), foodReserve);
    if !afterFood.outcome.Ok? then afterFood
    else WriteMaxFoodReserve(afterFood.state, maxFoodReserve)
  }

  // ---------------------------------------------------------------------
  // Properties of single calls

  /** A non-negative int is stored exactly; a negative int raises ValueError
      and anything else TypeError. */
  lemma FoodReserveSetter(st: AgentState, v: Value)
    ensures WriteFoodReserve(st, v).outcome == Raised(TypeError) <==> !v.IntV?
    ensures WriteFoodReserve(st, v).outcome == Raised(ValueError) <==> v.IntV? && v.i < 0
    ensures v.IntV? && v.i >= 0 ==> WriteFoodReserve(st, v) == Step(Ok, st.(foodReserve := v.i))
  {
  }

  /** No clamping: food_reserve may be set above an already stored
      max_food_reserve, and is then stored unchanged. */
  lemma FoodReserveNotClamped(st: AgentState, n: int)
    requires st.maxFoodReserve.Some? && n > st.maxFoodReserve.value >= 0
    ensures WriteFoodReserve(st, IntV(n)) == Step(Ok, st.(foodReserve := n))
    ensures WriteFoodReserve(st, IntV(n)).state.foodReserve > st.maxFoodReserve.value
  {
  }

  /** A non-int raises TypeError, whatever is stored; an int below the
      current food_reserve raises ValueError; either way nothing changes. */
  lemma MaxFoodReserveSetter(st: AgentState, v: Value)
    ensures WriteMaxFoodReserve(st, v).outcome == Raised(TypeError) <==> !v.IntV?
    ensures WriteMaxFoodReserve(st, v).outcome == Raised(ValueError) <==> v.IntV? && v.i < st.foodReserve
    ensures !v.IntV? ==> WriteMaxFoodReserve(st, v).state == st
  {
  }

  /** The range check comes before the already-set check: a too small int
      raises ValueError even when max_food_reserve is already set. */
  lemma MaxFoodReserveRangeBeforeLock(st: AgentState, m: int)
    requires m < st.foodReserve
    ensures WriteMaxFoodReserve(st, IntV(m)) == Step(Raised(ValueError), st)
  {
  }

  /** An int in range is stored exactly when the stored max_food_reserve is
      None or 0; a non-zero one makes the write raise RuntimeError. */
  lemma MaxFoodReserveWriteOnce(st: AgentState, m: int)
    requires m >= st.foodReserve
    ensures WriteMaxFoodReserve(st, IntV(m)) ==
      if st.maxFoodReserve.None? || st.maxFoodReserve.value == 0
      then Step(Ok, st.(maxFoodReserve := Some(m)))
      else Step(Raised(RuntimeError), st)
  {
  }

  /** Only non-negative ints are accepted; a stored None or 0 can be
      overwritten, any other stored generation makes the write raise
      RuntimeError. */
  lemma GenerationWriteOnce(st: AgentState, v: Value)
    ensures WriteGeneration(st, v).outcome == Raised(TypeError) <==> !v.IntV?
    ensures WriteGeneration(st, v).outcome == Raised(ValueError) <==> v.IntV? && v.i < 0
    ensures v.IntV? && v.i >= 0 ==>
      WriteGeneration(st, v) ==
        if st.generation.None? || st.generation.value == 0
        then Step(Ok, st.(generation := Some(v.i)))
        else Step(Raised(RuntimeError), st)
  {
  }

  /** Only a str of length at least UuidLength is accepted (longer ones
      too); once a non-empty uuid is stored every such write raises
      RuntimeError. */
  lemma UuidWriteOnce(st: AgentState, v: Value)
    ensures WriteUuid(st, v).outcome == Raised(TypeError) <==> !v.StrV?
    ensures WriteUuid(st, v).outcome == Raised(ValueError) <==> v.StrV? && |v.s| < UuidLength
    ensures v.StrV? && |v.s| >= UuidLength ==>
      WriteUuid(st, v) ==
        if st.uuid.None? || st.uuid.value == ""
        then Step(Ok, st.(uuid := Some(v.s)))
        else Step(Raised(RuntimeError), st)
  {
  }

  /** Leaving max_food_reserve out passes None to the int check, so
      construction without it always fails: with TypeError once the
      food_reserve is accepted. */
  lemma ConstructWithoutMaxFails(foodReserve: Value, generation: Value, kwargs: map<string, Value>)
    ensures !Construct(foodReserve, NoneV, generation, kwargs).outcome.Ok?
    ensures foodReserve.IntV? && foodReserve.i >= 0 ==>
      Construct(foodReserve, NoneV, generation, kwargs).outcome == Raised(TypeError)
  {
  }

  /** Which exception a failed construction raises: the food_reserve
      setter's, if it fails, and otherwise the max_food_reserve setter's. */
  lemma ConstructErrors(foodReserve: Value, maxFoodReserve: Value, generation: Value, kwargs: map<string, Value>)
    ensures !foodReserve.IntV? ==>
      Construct(foodReserve, maxFoodReserve, generation, kwargs).outcome == Raised(TypeError)
    ensures foodReserve.IntV? && foodReserve.i < 0 ==>
      Construct(foodReserve, maxFoodReserve, generation, kwargs).outcome == Raised(ValueError)
    ensures foodReserve.IntV? && foodReserve.i >= 0 && !maxFoodReserve.IntV? ==>
      Construct(foodReserve, maxFoodReserve, generation, kwargs).outcome == Raised(TypeError)
    ensures foodReserve.IntV? && foodReserve.i >= 0 && maxFoodReserve.IntV? && maxFoodReserve.i < foodReserve.i ==>
      Construct(foodReserve, maxFoodReserve, generation, kwargs).outcome == Raised(ValueError)
  {
  }

  /** The generation and extra keyword arguments have no effect. */
  lemma ConstructIgnoresGeneration(foodReserve: Value, maxFoodReserve: Value,
                                   g1: Value, g2: Value, k1: map<string, Value>, k2: map<string, Value>)
    ensures Construct(foodReserve, maxFoodReserve, g1, k1) == Construct(foodReserve, maxFoodReserve, g2, k2)
  {
  }

  /** An identifier from generate_uuid is exactly UuidLength long and is
      accepted by the uuid setter of an agent without a uuid. */
  lemma GeneratedUuidFitsAgent(st: AgentState, species: Value, hex: string)
    requires Tools.IsUuid4Hex(hex)
    requires Tools.GenerateUuid(species, hex).Success?
    requires st.uuid.None?
    ensures |Tools.GenerateUuid(species, hex).value| == UuidLength
    ensures var uid := Tools.GenerateUuid(species, hex).value;
      WriteUuid(st, StrV(uid)) == Step(Ok, st.(uuid := Some(uid)))
  {
  }

  // ---------------------------------------------------------------------
  // A lifetime of setter calls

  /** An assignment to one of the four properties. */
  datatype Write =
    | FoodReserve(v: Value)
    | MaxFoodReserve(v: Value)
    | Generation(v: Value)
    | Uuid(v: Value)

  function Apply(st: AgentState, w: Write): Step {
    match w
    case FoodReserve(v) => WriteFoodReserve(st, v)
    case MaxFoodReserve(v) => WriteMaxFoodReserve(st, v)
    case Generation(v) => WriteGeneration(st, v)
    case Uuid(v) => WriteUuid(st, v)
  }

  /** The attributes after a series of assignments, each exception being
      caught by the caller. */
  function Run(st: AgentState, ws: seq<Write>): AgentState
    decreases |ws|
  {
    if ws == [] then st else Run(Apply(st, ws[0]).state, ws[1..])
  }

  /** A failing assignment leaves every attribute as it was; a successful
      one changes only its own attribute. */
  lemma ApplyChangesOnlyItsAttribute(st: AgentState, w: Write)
    ensures !Apply(st, w).outcome.Ok? ==> Apply(st, w).state == st
    ensures !w.FoodReserve? ==> Apply(st, w).state.foodReserve == st.foodReserve
    ensures !w.MaxFoodReserve? ==> Apply(st, w).state.maxFoodReserve == st.maxFoodReserve
    ensures !w.Generation? ==> Apply(st, w).state.generation == st.generation
    ensures !w.Uuid? ==> Apply(st, w).state.uuid == st.uuid
  {
  }

  /** Every series of assignments keeps the type and range invariant. */
  lemma {:induction false} RunPreservesValid(st: AgentState, ws: seq<Write>)
    requires Valid(st)
    ensures Valid(Run(st, ws))
    decreases |ws|
  {
    if ws != [] {
      RunPreservesValid(Apply(st, ws[0]).state, ws[1..]);
    }
  }

  /** Once max_food_reserve, generation or uuid holds a truthy value, no
      series of assignments changes it again. */
  lemma {:induction false} LockedAttributesStayLocked(st: AgentState, ws: seq<Write>)
    ensures Truthy(IntOrNone(st.maxFoodReserve)) ==> Run(st, ws).maxFoodReserve == st.maxFoodReserve
    ensures Truthy(IntOrNone(st.generation)) ==> Run(st, ws).generation == st.generation
    ensures Truthy(StrOrNone(st.uuid)) ==> Run(st, ws).uuid == st.uuid
    decreases |ws|
  {
    if ws != [] {
      LockedAttributesStayLocked(Apply(st, ws[0]).state, ws[1..]);
    }
  }

  /** The value of the last accepted food_reserve assignment in `ws`, if any. */
  function LastAcceptedFoodReserve(ws: seq<Write>): Option<int>
    decreases |ws|
  {
    if ws == [] then None
    else
      var w := ws[|ws| - 1];
      if w.FoodReserve? && w.v.IntV? && w.v.i >= 0 then Some(w.v.i)
      else LastAcceptedFoodReserve(ws[..|ws| - 1])
  }

  /** Running a series and then one more assignment is running the longer series. */
  lemma {:induction false} RunSnoc(st: AgentState, ws: seq<Write>, w: Write)
    ensures Run(st, ws + [w]) == Apply(Run(st, ws), w).state
    decreases |ws|
  {
    if ws != [] {
      assert (ws + [w])[0] == ws[0];
      assert (ws + [w])[1..] == ws[1..] + [w];
      RunSnoc(Apply(st, ws[0]).state, ws[1..], w);
    }
  }

  /** food_reserve is always the value of the last accepted food_reserve
      assignment, whatever max_food_reserve holds: nothing clamps it. */
  lemma {:induction false} FoodReserveIsLastAccepted(st: AgentState, ws: seq<Write>)
    ensures Run(st, ws).foodReserve ==
      match LastAcceptedFoodReserve(ws)
      case None => st.foodReserve
      case Some(n) => n
    decreases |ws|
  {
    if ws != [] {
      var init, w := ws[..|ws| - 1], ws[|ws| - 1];
      assert ws == init + [w];
      RunSnoc(st, init, w);
      FoodReserveIsLastAccepted(st, init);
    }
  }

  // ---------------------------------------------------------------------
  // The object

  class Agent {
    var foodReserve: int
    var maxFoodReserve: Option<int>
    var generation: Option<int>
    var uuid: Option<string>

    /** The four attributes as a value. */
    function State(): AgentState
      reads this
    {
      AgentState(foodReserve, maxFoodReserve, generation, uuid)
    }

    /** The `food_reserve` property getter. */
    function FoodReserveValue(): (v: Value)
      reads this
      ensures v.IntV? && v.i == foodReserve
    {
      IntV(foodReserve)
    }

    /** The `max_food_reserve` property getter. */
    function MaxFoodReserveValue(): (v: Value)
      reads this
      ensures v == IntOrNone(maxFoodReserve)
      ensures v == NoneV <==> maxFoodReserve.None?
      ensures Truthy(v) <==> maxFoodReserve.Some? && maxFoodReserve.value != 0
    {
      IntOrNone(maxFoodReserve)
    }

    /** The `generation` property getter. */
    function GenerationValue(): (v: Value)
      reads this
      ensures v == IntOrNone(generation)
      ensures v == NoneV <==> generation.None?
      ensures Truthy(v) <==> generation.Some? && generation.value != 0
    {
      IntOrNone(generation)
    }

    /** The `uuid` property getter. */
    function UuidValue(): (v: Value)
      reads this
      ensures v == StrOrNone(uuid)
      ensures v == NoneV <==> uuid.None?
      ensures Truthy(v) <==> uuid.Some? && uuid.value != ""
    {
      StrOrNone(uuid)
    }

    /** The first four statements of `__init__`. */
    constructor ()
      ensures State() == Initial()
    {
      foodReserve := 0;
      maxFoodReserve := None;
      generation := None;
      uuid := None;
    }

    /** `Agent(food_reserve=..., max_food_reserve=..., generation=..., **kwargs)`:
        the new agent, or null when `__init__` raises. */
    static method New(food: Value, maxFood: Value, gen: Value, kwargs: map<string, Value>)
      returns (o: Outcome, a: Agent?)
      ensures o == Construct(food, maxFood, gen, kwargs).outcome
      ensures o.Ok? <==> a != null
      ensures a != null ==> fresh(a) && a.State() == Construct(food, maxFood, gen, kwargs).state
    {
      var agent := new Agent();
      o := agent.SetFoodReserve(food);
      if o.Ok? {
        o := agent.SetMaxFoodReserve(maxFood);
      }
      a := if o.Ok? then agent else null;
    }

    method SetFoodReserve(v: Value) returns (o: Outcome)
      modifies this
      ensures Step(o, State()) == WriteFoodReserve(old(State()), v)
    {
      if !v.IntV? {
        o := Raised(TypeError);
      } else if v.i < 0 {
        o := Raised(ValueError);
      } else {
        foodReserve := v.i;
        o := Ok;
      }
    }

    method SetMaxFoodReserve(v: Value) returns (o: Outcome)
      modifies this
      ensures Step(o, State()) == WriteMaxFoodReserve(old(State()), v)
    {
      if !v.IntV? {
        o := Raised(TypeError);
      } else if v.i < FoodReserveValue().i {
        o := Raised(ValueError);
      } else if Truthy(MaxFoodReserveValue()) {
        o := Raised(RuntimeError);
      } else {
        maxFoodReserve := Some(v.i);
        o := Ok;
      }
    }

    method SetGeneration(v: Value) returns (o: Outcome)
      modifies this
      ensures Step(o, State()) == WriteGeneration(old(State()), v)
    {
      if !v.IntV? {
        o := Raised(TypeError);
      } else if v.i < 0 {
        o := Raised(ValueError);
      } else if Truthy(GenerationValue()) {
        o := Raised(RuntimeError);
      } else {
        generation := Some(v.i);
        o := Ok;
      }
    }

    method SetUuid(v: Value) returns (o: Outcome)
      modifies this
      ensures Step(o, State()) == WriteUuid(old(State()), v)
    {
      if !v.StrV? {
        o := Raised(TypeError);
      } else if |v.s| < UuidLength {
        o := Raised(ValueError);
      } else if Truthy(UuidValue()) {
        o := Raised(RuntimeError);
      } else {
        uuid := Some(v.s);
        o := Ok;
      }
    }
  }
}

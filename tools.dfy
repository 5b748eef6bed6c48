/** generate_uuid of actor-critic/tools.py: a species prefix in front of the
    hex form of a random uuid4. The random draw is not modelled; its 32 hex
    digits are a parameter. */
module Tools {
  import opened PyValues

  /** Length of `uuid.uuid4().hex`. */
  const HexLength: int := 32

  predicate IsHexDigit(c: char) {
    '0' <= c <= '9' || 'a' <= c <= 'f'
  }

  /** What `uuid.uuid4().hex` returns: 32 lower-case hex digits. */
  predicate IsUuid4Hex(hex: string) {
    |hex| == HexLength && forall i :: 0 <= i < |hex| ==> IsHexDigit(hex[i])
  }

  datatype Result<T> = Success(value: T) | Failure(error: PyError)

  /** The three kinds of identifier generate_uuid produces. */
  datatype Species = Predator | Prey | Unnamed

  /** The two-character prefix of each kind. */
  function Prefix(sp: Species): (p: string)
    ensures |p| == 2
  {
    match sp
    case Predator => "J_"
    case Prey => "B_"
    case Unnamed => "__"
  }

  /** The `species` argument that asks for each kind (None for Unnamed). */
  function SpeciesArgument(sp: Species): Value {
    match sp
    case Predator => StrV("predator")
    case Prey => StrV("prey")
    case Unnamed => NoneV
  }

  /** generate_uuid(species=species) when uuid4 yields `hex`.
      The source compares with `is`, whose result on strings depends on
      interning; the model reads it as string equality. Any falsy species
      (None, "", 0) takes the third branch. */
  function GenerateUuid(species: Value, hex: string): (r: Result<string>)
    requires IsUuid4Hex(hex)
    ensures r.Failure? <==> Truthy(species) && species != StrV("predator") && species != StrV("prey")
    ensures r.Failure? ==> r.error == RuntimeError
    ensures r.Success? ==> |r.value| == |hex| + 2 && r.value[2..] == hex
    ensures r.Success? ==> exists sp :: r.value[..2] == Prefix(sp)
  {
    if species == StrV("predator") then
      assert ("J_" + hex)[..2] == Prefix(Predator);
      Success("J_" + hex)
    else if species == StrV("prey") then
      assert ("B_" + hex)[..2] == Prefix(Prey);
      Success("B_" + hex)
    else if !Truthy(species) then
      assert ("__" + hex)[..2] == Prefix(Unnamed);
      Success("__" + hex)
    else
      Failure(RuntimeError)
  }

  /** Reads the kind back from an identifier's prefix: the partner of GenerateUuid. */
  function SpeciesOfUuid(uid: string): (r: Option<Species>)
    ensures r.Some? ==> |uid| >= 2 && uid[..2] == Prefix(r.value)
  {
    if |uid| < 2 then None
    else if uid[..2] == "J_" then Some(Predator)
    else if uid[..2] == "B_" then Some(Prey)
    else if uid[..2] == "__" then Some(Unnamed)
    else None
  }

  /** "predator" gets "J_", "prey" gets "B_", and no species gets "__". */
  lemma PrefixPerSpecies(hex: string)
    requires IsUuid4Hex(hex)
    ensures GenerateUuid(StrV("predator"), hex) == Success("J_" + hex)
    ensures GenerateUuid(StrV("prey"), hex) == Success("B_" + hex)
    ensures GenerateUuid(NoneV, hex) == Success("__" + hex)
    ensures GenerateUuid(StrV(""), hex) == Success("__" + hex)
  {
  }

  /** Every falsy species (None, "", 0, 0.0) gets the "__" prefix. */
  lemma FalsySpeciesUnnamed(species: Value, hex: string)
    requires IsUuid4Hex(hex)
    requires !Truthy(species)
    ensures GenerateUuid(species, hex) == Success("__" + hex)
  {
  }

  /** Round trip: the kind read back from a generated identifier, passed
      again with the identifier's hex part, regenerates the same identifier;
      the hex part is the uuid4 hex unchanged. */
  lemma UuidRoundTrip(species: Value, hex: string)
    requires IsUuid4Hex(hex)
    requires GenerateUuid(species, hex).Success?
    ensures var uid := GenerateUuid(species, hex).value;
      && SpeciesOfUuid(uid).Some?
      && uid[2..] == hex
      && GenerateUuid(SpeciesArgument(SpeciesOfUuid(uid).value), uid[2..]) == Success(uid)
  {
  }

  /** Identifiers of different kinds never coincide, whatever the hex. */
  lemma KindsNeverCollide(sp1: Species, sp2: Species, hex1: string, hex2: string)
    requires IsUuid4Hex(hex1) && IsUuid4Hex(hex2)
    requires sp1 != sp2
    ensures GenerateUuid(SpeciesArgument(sp1), hex1) != GenerateUuid(SpeciesArgument(sp2), hex2)
  {
  }
}

/** EntityId: an immutable identifier wrapping a string that is not blank
    (src/domain/value-objects/EntityId.ts). `EntityId.generate` draws a random
    UUID and is not part of this model. */
module EntityIds {
  import opened DomainErrors
  import opened Text

  /** The check of `validate`: `!id || id.trim().length === 0`. */
  predicate IsInvalidId(id: string) {
    |id| == 0 || |Trim(id)| == 0
  }

  /** The values the private constructor lets through. */
  type IdValue = s: string | !IsInvalidId(s) witness "id"

  datatype EntityId = EntityId(value: IdValue)

  /** `EntityId.fromString(id)`: fails on an empty or whitespace-only string,
      otherwise wraps it untrimmed, so that `toString` gives it back. */
  function FromString(id: string): (r: Result<EntityId>)
    ensures r.Ok? <==> !AllWhitespace(id)
    ensures r.Ok? ==> ToString(r.value) == id
    ensures r.Err? ==> r.error == EmptyId
  {
    BlankIffAllWhitespace(id);
    if IsInvalidId(id) then Err(EmptyId) else Ok(EntityId(id))
  }

  /** `e.toString()`: never empty or all whitespace. */
  function ToString(e: EntityId): (s: string)
    ensures !AllWhitespace(s)
  {
    BlankIffAllWhitespace(e.value);
    e.value
  }

  /** `a.equals(b)`: the wrapped strings are equal, which is value equality
      of EntityId. */
  function Equals(a: EntityId, b: EntityId): (eq: bool)
    ensures eq <==> ToString(a) == ToString(b)
    ensures eq <==> a == b
  {
    a.value == b.value
  }

  /** Every EntityId holds at least one character that is not whitespace. */
  lemma ValueNotBlank(e: EntityId)
    ensures exists k :: 0 <= k < |e.value| && !IsWhitespace(e.value[k])
  {
    BlankIffAllWhitespace(e.value);
  }

  lemma EqualsIsEquivalence(a: EntityId, b: EntityId, c: EntityId)
    ensures Equals(a, a)
    ensures Equals(a, b) ==> Equals(b, a)
    ensures Equals(a, b) && Equals(b, c) ==> Equals(a, c)
  {
  }
}

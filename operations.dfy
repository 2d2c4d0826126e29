/** The operation shapes of the generated Pokemon service; only their `NAME`s matter here. */
module Operations {

  /** `GetPokemonSpecies::NAME`. */
  const GetPokemonSpeciesName: string := "GetPokemonSpecies"

  /** `EmptyOperation::NAME`. */
  const EmptyOperationName: string := "EmptyOperation"
}

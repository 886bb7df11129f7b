/** The catalog records: the shape the creature API returns and the
    normalised entry the game keeps (src/app/models/Pokemon.ts). */
module PokemonModel {

  /** `sprites.other['official-artwork']`: only `front_default` is read. */
  datatype OfficialArtwork = OfficialArtwork(frontDefault: string)

  datatype OtherSprites = OtherSprites(officialArtwork: OfficialArtwork)

  datatype Sprites = Sprites(other: OtherSprites)

  /** One record as the API returns it. */
  datatype PokemonApiResponse = PokemonApiResponse(name: string, sprites: Sprites)

  /** A catalog entry: the name shown as an option, the revealed image and the silhouette. */
  datatype Pokemon = Pokemon(name: string, image: string, silhouette: string)

  /** The artwork URL nested three levels inside a record. */
  function ArtworkUrl(r: PokemonApiResponse): string
  {
    r.sprites.other.officialArtwork.frontDefault
  }

  /** The object literal built for one record. */
  function TransformOne(r: PokemonApiResponse): (p: Pokemon)
    ensures p.name == r.name
    ensures p.image == ArtworkUrl(r) && p.silhouette == ArtworkUrl(r)
  {
    Pokemon(r.name, ArtworkUrl(r), ArtworkUrl(r))
  }

  /** `transformPokemonData`: an element-wise map over the API records. */
  function TransformPokemonData(rs: seq<PokemonApiResponse>): (ps: seq<Pokemon>)
    ensures |ps| == |rs|
    ensures forall i :: 0 <= i < |rs| ==> ps[i].name == rs[i].name
    ensures forall i :: 0 <= i < |rs| ==>
      ps[i].image == ArtworkUrl(rs[i]) && ps[i].silhouette == ps[i].image
  {
    if rs == [] then [] else [TransformOne(rs[0])] + TransformPokemonData(rs[1..])
  }

  /** The record an entry was built from: an entry fixes the name and the artwork URL. */
  function ToApiResponse(p: Pokemon): PokemonApiResponse
  {
    PokemonApiResponse(p.name, Sprites(OtherSprites(OfficialArtwork(p.image))))
  }

  /** Normalising loses nothing the API record holds: the record is recovered from the entry. */
  lemma TransformRoundTrip(rs: seq<PokemonApiResponse>)
    ensures forall i :: 0 <= i < |rs| ==> ToApiResponse(TransformPokemonData(rs)[i]) == rs[i]
  {
  }

  /** Every entry whose image and silhouette agree comes from exactly one record. */
  lemma EntryRoundTrip(p: Pokemon)
    requires p.image == p.silhouette
    ensures TransformOne(ToApiResponse(p)) == p
  {
  }

  /** The map distributes over concatenation, so order is kept: the records of a
      batch may be normalised in any grouping with the same result. */
  lemma TransformAppend(xs: seq<PokemonApiResponse>, ys: seq<PokemonApiResponse>)
    ensures TransformPokemonData(xs + ys) == TransformPokemonData(xs) + TransformPokemonData(ys)
  {
  }

  /** An empty `front_default` passes through as empty image and silhouette, with no error. */
  lemma EmptyArtworkPassesThrough(rs: seq<PokemonApiResponse>, i: nat)
    requires i < |rs| && ArtworkUrl(rs[i]) == ""
    ensures TransformPokemonData(rs)[i].image == "" && TransformPokemonData(rs)[i].silhouette == ""
  {
  }
}

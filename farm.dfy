/**
 * The session's record types (app-context.tsx): a farmer profile with its
 * farm parcels, and the two interface languages.
 */
module Farm {
  import opened Text

  datatype Language = En | Ml

  /** The language code stored in the profile and used to pick a locale table. */
  function LanguageCode(l: Language): string {
    match l
    case En => "en"
    case Ml => "ml"
  }

  /**
   * One farm parcel. The land area is a number of acres in the source; here it
   * is kept in tenths of an acre (25 stands for 2.5 acres).
   */
  datatype FarmParcel = FarmParcel(
    landArea: int,
    crops: string,
    soilType: string,
    irrigationMethod: string)

  datatype FarmerProfile = FarmerProfile(
    name: string,
    village: string,
    location: Option<string>,
    language: Option<Language>,
    photoUrl: Option<string>,
    farmParcels: seq<FarmParcel>)
}

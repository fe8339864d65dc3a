/** The seven news-search categories a profile may select (src/lib/types.ts). */
module NewsCategories {

  datatype NewsCategory =
    | GeographicArea
    | TrackRoadTrail
    | RunningTech
    | RunningApparel
    | MarathonMajors
    | Nutrition
    | Training

  /** The stored spelling of a category. */
  function Key(c: NewsCategory): string {
    match c
    case GeographicArea => "geographic_area"
    case TrackRoadTrail => "track_road_trail"
    case RunningTech => "running_tech"
    case RunningApparel => "running_apparel"
    case MarathonMajors => "marathon_majors"
    case Nutrition => "nutrition"
    case Training => "training"
  }

  /** The categories in the order the profile form lists them. */
  const AllCategories: seq<NewsCategory> :=
    [GeographicArea, TrackRoadTrail, RunningTech, RunningApparel, MarathonMajors, Nutrition, Training]

  /** Every category is listed, and no two categories share a stored spelling. */
  lemma KeysIdentifyCategories(a: NewsCategory, b: NewsCategory)
    ensures a in AllCategories
    ensures Key(a) == Key(b) ==> a == b
  {
  }
}

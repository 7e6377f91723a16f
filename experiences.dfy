/**
 * `GET /api/experiences` and `GET /api/experiences/:id` over the in-memory
 * catalog, with the fixed availability every experience is given.
 */
module Experiences {

  import opened Wrappers

  datatype Experience = Experience(
    id: string,
    title: string,
    image: string,
    price: int,
    description: string,
    longDescription: string)

  /** The catalog the server starts with. */
  const Catalog: seq<Experience> := [
    Experience("1", "Kayaking", "https://images.unsplash.com/photo-1544551763-46a013bb70d5", 899,
      "Guided small-group experience. Certified guide. Safety first with gear included.",
      "Guided small-group experience. Certified guide. Safety first with gear included. Helmet and life jacket. All skill levels welcome in kayaking."),
    Experience("2", "Mountain Hiking", "https://images.unsplash.com/photo-1551632811-561732d1e306", 799,
      "Explore scenic mountain trails with experienced guides.",
      "Explore scenic mountain trails with experienced guides. Beautiful views and wildlife sightings. Suitable for moderate fitness levels."),
    Experience("3", "Scuba Diving", "https://images.unsplash.com/photo-1544551763-46a013bb70d5", 1299,
      "Discover underwater wonders with certified instructors.",
      "Discover underwater wonders with certified instructors. All equipment provided. Training session included for beginners.")
  ]

  datatype Availability = Availability(dates: seq<string>, times: seq<string>)

  const AvailableSlots: Availability := Availability(
    ["Oct 22", "Oct 23", "Oct 24", "Oct 25", "Oct 26"],
    ["09:00 am", "11:00 am", "01:00 pm"])

  /** `{ ...experience, availability }` */
  datatype ExperienceDetails = ExperienceDetails(experience: Experience, availability: Availability)

  datatype DetailsResponse = NotFound | Found(details: ExperienceDetails) {
    function Status(): int {
      if NotFound? then 404 else 200
    }
  }

  /** `GET /`: the catalog, as it is. */
  function ListExperiences(catalog: seq<Experience>): (r: seq<Experience>)
    ensures r == catalog
  {
    catalog
  }

  /** `catalog.find(exp => exp.id === id)`, as the position of the first match. */
  function FindIndex(catalog: seq<Experience>, id: string): (r: Option<nat>)
    ensures r.None? <==> forall i | 0 <= i < |catalog| :: catalog[i].id != id
    ensures r.Some? ==> r.value < |catalog| && catalog[r.value].id == id
    ensures r.Some? ==> forall j | 0 <= j < r.value :: catalog[j].id != id
    decreases |catalog|
  {
    if catalog == [] then None
    else if catalog[0].id == id then Some(0)
    else match FindIndex(catalog[1..], id)
      case None => None
      case Some(k) => Some(k + 1)
  }

  /** `GET /:id` */
  function GetExperience(catalog: seq<Experience>, id: string): (r: DetailsResponse)
    ensures r.NotFound? <==> forall i | 0 <= i < |catalog| :: catalog[i].id != id
    ensures r.Found? ==> exists k | 0 <= k < |catalog| ::
      && r.details.experience == catalog[k]
      && (forall j | 0 <= j < k :: catalog[j].id != id)
    ensures r.Found? ==> r.details.experience.id == id
    ensures r.Found? ==> r.details.availability == AvailableSlots
  {
    match FindIndex(catalog, id)
    case None => NotFound
    case Some(k) => Found(ExperienceDetails(catalog[k], AvailableSlots))
  }

  /** Every found experience offers the same five dates and three times. */
  lemma AvailabilityIsFixed(catalog: seq<Experience>, id1: string, id2: string)
    requires GetExperience(catalog, id1).Found? && GetExperience(catalog, id2).Found?
    ensures GetExperience(catalog, id1).details.availability == GetExperience(catalog, id2).details.availability
    ensures |GetExperience(catalog, id1).details.availability.dates| == 5
    ensures |GetExperience(catalog, id1).details.availability.times| == 3
  {
  }

  /** The three catalog ids are found, at their prices; any other id is a 404. */
  lemma CatalogLookups(id: string)
    requires id != "1" && id != "2" && id != "3"
    ensures GetExperience(Catalog, "1").Found? && GetExperience(Catalog, "1").details.experience.price == 899
    ensures GetExperience(Catalog, "1").details.experience.title == "Kayaking"
    ensures GetExperience(Catalog, "3").Found? && GetExperience(Catalog, "3").details.experience.title == "Scuba Diving"
    ensures GetExperience(Catalog, id).Status() == 404
  {
    assert Catalog[0].id == "1" && Catalog[2].id == "3";
    assert "1" != "3" && "2" != "3";
  }
}

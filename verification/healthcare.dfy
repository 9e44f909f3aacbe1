/**
 * The healthcare page: the facility directory, the facility-type badge
 * classifier, the map search query and the call link.
 */
module Healthcare {
  import JsText

  /** A listed facility; the rating is kept in tenths (4.5 is 45). */
  datatype Facility = Facility(
    name: string,
    kind: string,
    address: string,
    phone: string,
    ratingTenths: int,
    timing: string,
    specialties: seq<string>,
    distance: string)

  const Facilities: seq<Facility> := [
    Facility("AIIMS Delhi", "Government Hospital", "Ansari Nagar, New Delhi, Delhi 110029", "011-26588500",
      45, "24/7 Emergency", ["Cardiology", "Neurology", "Oncology", "Emergency"], "2.3 km"),
    Facility("Apollo Hospital", "Private Hospital", "Press Enclave Road, Sarita Vihar, Delhi 110076", "011-26925858",
      43, "24/7", ["Multi-specialty", "Emergency", "ICU"], "3.7 km"),
    Facility("Safdarjung Hospital", "Government Hospital", "Ansari Nagar West, New Delhi, Delhi 110029", "011-26165060",
      40, "24/7 Emergency", ["General Medicine", "Surgery", "Emergency"], "4.1 km"),
    Facility("Max Super Speciality Hospital", "Private Hospital", "1, Press Enclave Road, Sarita Vihar, Delhi 110076", "011-26515050",
      44, "24/7", ["Cardiac Surgery", "Neurosurgery", "Emergency"], "5.2 km"),
    Facility("Primary Health Center", "Government Clinic", "Block A, Sarita Vihar, Delhi 110076", "011-26923456",
      38, "8:00 AM - 8:00 PM", ["General Medicine", "Vaccination", "Maternal Care"], "1.5 km"),
    Facility("Community Health Centre", "Government Clinic", "Sector 19, Dwarka, Delhi 110075", "011-28085000",
      39, "9:00 AM - 5:00 PM", ["General Medicine", "Pediatrics", "Women Health"], "6.8 km")
  ]

  const GovernmentHospitalClass := "bg-indigo-100 text-indigo-800 border-indigo-200"
  const PrivateHospitalClass := "bg-purple-100 text-purple-800 border-purple-200"
  const GovernmentClinicClass := "bg-emerald-100 text-emerald-800 border-emerald-200"
  const DefaultTypeClass := "bg-gray-100 text-gray-800 border-gray-200"

  /** The badge classes for a facility type, matched case-insensitively. */
  function TypeColor(kind: string): (r: string)
    ensures r == GovernmentHospitalClass <==> JsText.ToLower(kind) == "government hospital"
    ensures r == PrivateHospitalClass <==> JsText.ToLower(kind) == "private hospital"
    ensures r == GovernmentClinicClass <==> JsText.ToLower(kind) == "government clinic"
    ensures r == DefaultTypeClass <==> JsText.ToLower(kind) !in {"government hospital", "private hospital", "government clinic"}
  {
    match JsText.ToLower(kind)
    case "government hospital" => GovernmentHospitalClass
    case "private hospital" => PrivateHospitalClass
    case "government clinic" => GovernmentClinicClass
    case _ => DefaultTypeClass
  }

  /** The classifier ignores letter case. */
  lemma TypeColorIgnoresCase(a: string, b: string)
    requires JsText.ToLower(a) == JsText.ToLower(b)
    ensures TypeColor(a) == TypeColor(b)
    ensures TypeColor(JsText.ToLower(a)) == TypeColor(a)
  {
    JsText.ToLowerIdempotent(a);
  }

  /** The three types as the directory spells them. */
  const ListedKinds: set<string> := {"Government Hospital", "Private Hospital", "Government Clinic"}

  /** Each type as the directory spells it gets its specific badge. */
  lemma ListedKindsHaveBadges(k: string)
    requires k in ListedKinds
    ensures TypeColor(k) != DefaultTypeClass
  {
    var lower := JsText.ToLower(k);
    if k == "Government Hospital" {
      assert lower == "government hospital";
    } else if k == "Private Hospital" {
      assert lower == "private hospital";
    } else {
      assert lower == "government clinic";
    }
  }

  /** Every listed facility gets one of the three specific badges. */
  lemma FacilitiesHaveKnownTypes(i: nat)
    requires i < |Facilities|
    ensures TypeColor(Facilities[i].kind) != DefaultTypeClass
  {
    assert Facilities[i].kind in ListedKinds;
    ListedKindsHaveBadges(Facilities[i].kind);
  }

  const NearWord := " near "
  const CurrentLocation := "current location"

  /** The map search query: the type, " near ", then the location or "current location" when empty. */
  function SearchQuery(searchType: string, location: string): (q: string)
    ensures |q| >= |searchType| + |NearWord|
    ensures q[..|searchType|] == searchType
    ensures q[|searchType|..|searchType| + |NearWord|] == NearWord
    ensures location != "" ==> q[|searchType| + |NearWord|..] == location
    ensures location == "" ==> q[|searchType| + |NearWord|..] == CurrentLocation
  {
    searchType + NearWord + (if location == "" then CurrentLocation else location)
  }

  /** The query determines the location it was built from, given the search type. */
  lemma SearchQueryInjective(searchType: string, l1: string, l2: string)
    requires l1 != "" && l2 != "" && SearchQuery(searchType, l1) == SearchQuery(searchType, l2)
    ensures l1 == l2
  {
  }

  /** The dial link: "tel:" followed by the phone string unchanged. */
  function CallLink(phone: string): (link: string)
    ensures |link| == |phone| + 4
    ensures link[..4] == "tel:" && link[4..] == phone
  {
    "tel:" + phone
  }
}

/** The fixed configuration of the app: the two daily attendance windows, the office
    geofence and the medicine catalogue with unit prices and profit margins. */
module Constants {
  import opened Types

  /** A daily window written as two `"HH:MM"` clock strings. */
  datatype Window = Window(start: string, end: string)

  const LoginWindow: Window := Window("10:00", "10:20")
  const LogoutWindow: Window := Window("19:00", "19:20")

  const OfficeLocation: Location := Location(19.0760, 72.8777)

  const GeofenceRadiusMeters: real := 10000.0

  datatype Medicine = Medicine(name: string, price: real, profitMargin: real)

  const Catalogue: seq<Medicine> := [
    Medicine("ElderVit Plus", 250.0, 0.15),
    Medicine("CardioSafe 50", 450.0, 0.20),
    Medicine("ImmunoBoost XL", 800.0, 0.25),
    Medicine("PainRelief Forte", 120.0, 0.10),
    Medicine("Elder Liquid", 180.0, 0.12),
    Medicine("GastroCure", 180.0, 0.20),
    Medicine("CardioSafe 80", 48.0, 0.12),
    Medicine("Capsules Liquid", 19.20, 0.01),
    Medicine("Losartan Liquid", 95.0, 0.23),
    Medicine("Fluconozole Tables IP", 10.0, 0.10),
    Medicine("Vitamin B Complex", 280.0, 0.52)
  ]

  /** Every catalogue entry has a positive price and a margin strictly between 0 and 1,
      and no two entries share a name, so a name selects at most one entry. */
  lemma CatalogueWellFormed()
    ensures |Catalogue| == 11
    ensures forall i :: 0 <= i < |Catalogue| ==>
      Catalogue[i].price > 0.0 && 0.0 < Catalogue[i].profitMargin < 1.0
    ensures forall i, j :: 0 <= i < j < |Catalogue| ==> Catalogue[i].name != Catalogue[j].name
  {
  }
}

/** The static plan catalog and the empty registration record. */
module Constants {
  import opened Types

  const Hotspot := WifiPlan(
    "hotspot", "Paket Hotspot", "upto 3 Mb", 60000,
    ["Ideal untuk 1 Perangkat HP", "Akses Media Sosial Ringan", "Sistem Voucher Bulanan", "Cocok untuk Pelajar"],
    "Pengguna personal, pelajar, akses ringan di HP.",
    "bg-orange-50 border-orange-200")

  const Hemat := WifiPlan(
    "hemat", "Paket Hemat", "", 165000,
    ["Ideal untuk 2-3 perangkat", "Browsing & Chatting lancar", "Email & Tugas Sekolah", "Support 24/7"],
    "Pengguna ringan, anak kost, atau penggunaan minimal.",
    "bg-slate-50 border-slate-200")

  const Home := WifiPlan(
    "home", "Paket Keluarga", "", 200000,
    ["Ideal untuk 3-5 perangkat", "Streaming HD lancar", "Zoom/Google Meet stabil"],
    "Keluarga kecil, bekerja dari rumah (WFH), streaming film.",
    "bg-blue-50 border-blue-200")

  /** The catalog, in display order. */
  const WifiPlans: seq<WifiPlan> := [Hotspot, Hemat, Home]

  /** The record every session starts from. */
  const InitialFormData := FormData("", "", "", "", "", "", None, None)

  /** Catalog ids are pairwise distinct. */
  ghost predicate DistinctIds(plans: seq<WifiPlan>)
  {
    forall i, j :: 0 <= i < j < |plans| ==> plans[i].id != plans[j].id
  }

  /** Three plans, in the order hotspot, hemat, home, with distinct ids. */
  lemma CatalogShape()
    ensures |WifiPlans| == 3
    ensures WifiPlans[0].id == "hotspot" && WifiPlans[1].id == "hemat" && WifiPlans[2].id == "home"
    ensures DistinctIds(WifiPlans)
  {
  }

  /** The monthly prices, and only the hotspot plan names a speed. */
  lemma CatalogPricesAndSpeeds()
    ensures WifiPlans[0].price == 60000 && WifiPlans[1].price == 165000 && WifiPlans[2].price == 200000
    ensures forall i :: 0 <= i < |WifiPlans| ==> (WifiPlans[i].speed != "" <==> WifiPlans[i].id == "hotspot")
  {
  }

  /** Every text field of the initial record is empty; plan and photo are absent. */
  lemma InitialFormDataEmpty()
    ensures InitialFormData.fullName == "" && InitialFormData.email == "" && InitialFormData.phone == ""
    ensures InitialFormData.address == "" && InitialFormData.nik == "" && InitialFormData.installationDate == ""
    ensures InitialFormData.selectedPlanId == None && InitialFormData.housePhotoFile == None
  {
  }
}

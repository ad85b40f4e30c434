/**
 * The demo domain records a session carries, and the values `initSession`
 * seeds them with. Identifiers, scan and plan statuses, dates, ages, costs,
 * the scans' AI-processed flags and tooth positions of the seed are kept;
 * the free-text values (names, phone numbers, diagnoses, procedure kinds,
 * urgencies, clinic names, durations, warranties, instalment terms, offer
 * details, plan and lead procedure descriptions, lead statuses, genders)
 * are left empty.
 */
module Records {

  datatype Scan = Scan(id: int, date: string, status: string, aiProcessed: bool)

  datatype Procedure = Procedure(kind: string, position: string, urgency: string)

  datatype TreatmentPlan = TreatmentPlan(diagnoses: seq<string>, procedures: seq<Procedure>)

  /** A clinic's offer; the floating-point rating is not part of this model. */
  datatype ClinicOffer = ClinicOffer(clinic: string, cost: int, duration: string, warranty: string,
                                     installment: string, details: string)

  /** A patient's treatment plan as a clinic receives it; `status` moves new -> calculated -> offer_sent. */
  datatype IncomingPlan = IncomingPlan(id: int, age: int, gender: string, date: string,
                                       procedures: string, status: string)

  datatype Lead = Lead(id: int, name: string, phone: string, plan: string, cost: int, status: string)

  /** Everything a session holds besides its authentication state and selected clinic. */
  datatype DomainRecords = DomainRecords(patientScans: seq<Scan>, treatmentPlan: TreatmentPlan,
                                         clinicOffers: seq<ClinicOffer>, incomingPlans: seq<IncomingPlan>,
                                         leads: seq<Lead>)

  const SeedScans: seq<Scan> := [
    Scan(1, "2025-11-15", "ready", true),
    Scan(2, "2025-12-05", "processing", false)
  ]

  const SeedTreatmentPlan: TreatmentPlan := TreatmentPlan(
    ["", "", ""],
    [Procedure("", "3.7", ""), Procedure("", "2.5", ""), Procedure("", "1.6", "")]
  )

  const SeedClinicOffers: seq<ClinicOffer> := [
    ClinicOffer("", 185000, "", "", "", ""),
    ClinicOffer("", 165000, "", "", "", ""),
    ClinicOffer("", 225000, "", "", "", "")
  ]

  const SeedIncomingPlans: seq<IncomingPlan> := [
    IncomingPlan(1, 35, "", "2025-12-08", "", "new"),
    IncomingPlan(2, 42, "", "2025-12-07", "", "offer_sent"),
    IncomingPlan(3, 28, "", "2025-12-09", "", "new")
  ]

  const SeedLeads: seq<Lead> := [
    Lead(1, "", "", "", 165000, ""),
    Lead(2, "", "", "", 280000, "")
  ]

  const SeedRecords: DomainRecords :=
    DomainRecords(SeedScans, SeedTreatmentPlan, SeedClinicOffers, SeedIncomingPlans, SeedLeads)
}

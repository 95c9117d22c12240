/** The static disease table `DISEASE_TREATMENT` and its total lookup. */
module KnowledgeBase {

  datatype KnowledgeEntry = KnowledgeEntry(cause: string, treatment: string, prevention: string)

  /** The label the policy treats specially and the table falls back to. */
  const Healthy: string := "Healthy"

  /** The seven disease labels the table describes, besides `Healthy`. */
  const Diseases: set<string> := {
    "Anthracnose", "Bacterial Canker", "Powdery Mildew", "Die Back",
    "Sooty Mould", "Gall Midge", "Cutting Weevil"
  }

  const DiseaseTreatment: map<string, KnowledgeEntry> := map[
    "Anthracnose" := KnowledgeEntry(
      "Fungal infection causing dark sunken lesions on leaves and fruits.",
      "Spray Carbendazim 0.1% or Copper Oxychloride 0.3%",
      "Avoid overhead irrigation and prune infected parts"),
    "Bacterial Canker" := KnowledgeEntry(
      "Bacterial disease causing cracking and oozing lesions.",
      "Spray Streptocycline (0.01%) with Copper fungicide",
      "Use disease-free planting material"),
    "Powdery Mildew" := KnowledgeEntry(
      "White powdery fungal growth on leaves and panicles.",
      "Spray Sulphur 0.2% or Hexaconazole",
      "Maintain proper air circulation"),
    "Die Back" := KnowledgeEntry(
      "Fungal disease causing drying of branches from tips.",
      "Prune affected branches and spray Carbendazim",
      "Apply Bordeaux paste on cut surfaces"),
    "Sooty Mould" := KnowledgeEntry(
      "Fungal growth on honeydew secreted by insects.",
      "Control insects using Imidacloprid",
      "Manage aphids and scale insects"),
    "Gall Midge" := KnowledgeEntry(
      "Insect pest damaging flowers and young shoots.",
      "Spray Thiamethoxam or Lambda-cyhalothrin",
      "Timely pest monitoring"),
    "Cutting Weevil" := KnowledgeEntry(
      "Beetle cutting tender shoots and buds.",
      "Spray Chlorpyrifos 0.05%",
      "Remove and destroy affected shoots"),
    "Healthy" := KnowledgeEntry(
      "No disease detected.",
      "No treatment required",
      "Maintain good orchard hygiene")
  ]

  /** The table describes exactly the seven diseases and `Healthy`. */
  lemma TableKeys()
    ensures DiseaseTreatment.Keys == Diseases + {Healthy}
    ensures Healthy !in Diseases
  {
  }

  /** `DISEASE_TREATMENT.get(label, DISEASE_TREATMENT["Healthy"])`: a label the table
      knows gets its own entry, any other label the `Healthy` entry; never a failure. */
  function Lookup(name: string): (e: KnowledgeEntry)
    ensures e in DiseaseTreatment.Values
    ensures name in DiseaseTreatment ==> e == DiseaseTreatment[name]
    ensures name !in DiseaseTreatment ==> e == DiseaseTreatment[Healthy]
  {
    if name in DiseaseTreatment then DiseaseTreatment[name] else DiseaseTreatment[Healthy]
  }

  /** A label outside the seven diseases and `Healthy` (a label set drifted away from the
      table) is described as healthy. */
  lemma UnknownLabelFallsBack(name: string)
    requires name !in Diseases && name != Healthy
    ensures Lookup(name) == KnowledgeEntry(
      "No disease detected.", "No treatment required", "Maintain good orchard hygiene")
  {
    TableKeys();
  }

  /** Every disease label gets an entry distinct from the healthy one. */
  lemma DiseaseEntriesDiffer(name: string)
    requires name in Diseases
    ensures Lookup(name) != Lookup(Healthy)
  {
  }
}

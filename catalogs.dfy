/**
 * The two constant catalogs of server.py: `TREATMENTS` (treatment text per
 * class name and tier) and the table inside `generate_recommendations`.
 */
module Catalogs {

  /** The class name the detector uses for a healthy leaf. */
  const HealthyLabel: string := "en bonne etat"

  /** The class names both catalogs know. */
  const KnownDiseases: set<string> :=
    {"Mouche de olivier", "Tuberculose", "cochenille noire", "oeil_de_paon", "psylle", HealthyLabel}

  /** Treatment text per class name, then per tier ("low", "medium", "high"). */
  const Treatments: map<string, map<string, string>> := map[
    "Mouche de olivier" := map[
      "low" := "Surveillance recommandée. Pièges à phéromones conseillés.",
      "medium" := "Traitement biologique recommandé (spinotoram).",
      "high" := "Intervention chimique nécessaire (deltaméthrine)."],
    "Tuberculose" := map[
      "low" := "Tailler les branches atteintes.",
      "medium" := "Application de bouillie bordelaise.",
      "high" := "Traitement fongicide urgent (cuivre + mancozèbe)."],
    "cochenille noire" := map[
      "low" := "Lavage des arbres avec de l'eau sous pression.",
      "medium" := "Application d'huile horticole.",
      "high" := "Traitement avec un insecticide systémique."],
    "oeil_de_paon" := map[
      "low" := "Tailler les branches atteintes pour aérer la couronne.",
      "medium" := "Application de fongicides à base de cuivre.",
      "high" := "Traitement fongicide intensif et élimination des parties très atteintes."],
    "psylle" := map[
      "low" := "Surveillance et piégeage.",
      "medium" := "Traitement avec des insecticides doux (savon insecticide).",
      "high" := "Traitement chimique (diméthoate ou imidaclopride)."],
    HealthyLabel := map[
      "low" := "Continuer les bonnes pratiques culturales.",
      "medium" := "Continuer les bonnes pratiques culturales.",
      "high" := "Continuer les bonnes pratiques culturales."]
  ]

  /** The tier the handler always reads, whatever the severity. */
  const TreatmentTier: string := "high"

  /** The text given when no treatment is catalogued. */
  const DefaultTreatment: string := "Consulter un spécialiste"

  /** The advice lists of `generate_recommendations`, including its "default" entry. */
  const Recommendations: map<string, seq<string>> := map[
    "Mouche de olivier" := [
      "Installer des pièges à phéromones",
      "Éliminer les fruits tombés au sol",
      "Traiter tôt le matin"],
    "Tuberculose" := [
      "Désinfecter les outils de taille",
      "Éviter l'irrigation par aspersion",
      "Brûler les branches infectées"],
    "cochenille noire" := [
      "Favoriser les prédateurs naturels (coccinelles)",
      "Tailler les branches très infestées",
      "Éviter les excès d'engrais azotés"],
    "oeil_de_paon" := [
      "Éviter les excès d'humidité",
      "Ramasser et brûler les feuilles tombées",
      "Éclaircir la couronne pour améliorer la circulation d'air"],
    "psylle" := [
      "Tailler les pousses atteintes",
      "Éviter les excès d'azote",
      "Utiliser des pièges chromatiques"],
    HealthyLabel := [
      "Continuer les bonnes pratiques culturales",
      "Surveillance mensuelle recommandée"],
    "default" := DefaultRecommendations
  ]

  /** The three-item list given for any name without its own entry. */
  const DefaultRecommendations: seq<string> := [
    "Isoler la plante affectée",
    "Désinfecter les outils après usage",
    "Consulter un expert agricole"]

  /** `TREATMENTS.get(name, {}).get('high', "Consulter un spécialiste")`. */
  function Treatment(name: string): (t: string)
    ensures name in Treatments ==> t == Treatments[name][TreatmentTier]
    ensures name !in Treatments ==> t == DefaultTreatment
  {
    var tiers := if name in Treatments then Treatments[name] else map[];
    if TreatmentTier in tiers then tiers[TreatmentTier] else DefaultTreatment
  }

  /** `generate_recommendations(disease)`. */
  function GenerateRecommendations(disease: string): (r: seq<string>)
    ensures disease in KnownDiseases ==> r == Recommendations[disease]
    ensures disease !in KnownDiseases ==> r == DefaultRecommendations
  {
    if disease in Recommendations then Recommendations[disease] else Recommendations["default"]
  }

  /** Both catalogs know the same class names; the advice table adds "default". */
  lemma CatalogsAgree()
    ensures Treatments.Keys == KnownDiseases
    ensures Recommendations.Keys == KnownDiseases + {"default"}
  {
  }

  /** Every catalogued name has the three tiers "low", "medium" and "high". */
  lemma TreatmentsHaveAllTiers(name: string)
    requires name in Treatments
    ensures Treatments[name].Keys == {"low", "medium", "high"}
  {
  }

  /**
   * A catalogued name gets its "high" tier text, any other name the fixed
   * fallback; the "low" and "medium" tiers are never given.
   */
  lemma TreatmentIsHighTier(name: string)
    ensures name in Treatments ==> Treatment(name) == Treatments[name]["high"]
    ensures name !in Treatments ==> Treatment(name) == DefaultTreatment
    ensures name in KnownDiseases - {HealthyLabel} ==>
      Treatment(name) != Treatments[name]["low"] && Treatment(name) != Treatments[name]["medium"]
  {
  }

  /**
   * A known name gets its own list; every other name, "default" included,
   * gets the three-item default list, and no known name shares that list.
   */
  lemma RecommendationsFallBack(disease: string)
    ensures disease in KnownDiseases ==> GenerateRecommendations(disease) == Recommendations[disease]
    ensures GenerateRecommendations(disease) == DefaultRecommendations <==> disease !in KnownDiseases
    ensures disease !in KnownDiseases ==> |GenerateRecommendations(disease)| == 3
    ensures 2 <= |GenerateRecommendations(disease)| <= 3
  {
  }
}

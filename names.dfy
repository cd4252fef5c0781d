/**
 * The display-name tables that turn a checkbox value into the Russian label
 * stored with a trigger, symptom or medication (app.js:390-418). A value
 * missing from its table is passed through unchanged.
 */
module Names {

  const TriggerNames: map<string, string> :=
    map["sleep_deprivation" := "Недосып",
        "head_tilt" := "Работа с наклоном головы",
        "neck_spasm" := "Шейный спазм",
        "stress" := "Стресс/тревога",
        "weather" := "Погодные изменения",
        "temperature" := "Температурный дискомфорт"]

  const SymptomNames: map<string, string> :=
    map["rhythm_disruption" := "Перебои ритма",
        "tinnitus" := "Шум в ушах",
        "occipital_pain" := "Затылочная боль",
        "instability" := "Неустойчивость"]

  const MedicationNames: map<string, string> :=
    map["aminalon" := "Аминалон",
        "magnesium_b6" := "Магний + B6"]

  /** `names[value] || value` over one of the tables above. */
  function LookupOr(names: map<string, string>, value: string): string
  {
    if value in names && names[value] != "" then names[value] else value
  }

  /** `getTriggerName`: the six trigger kinds are translated, anything else is returned as given. */
  function TriggerName(value: string): (r: string)
    ensures r == value <==> value !in TriggerNames
    ensures value in TriggerNames ==> r == TriggerNames[value]
  {
    LookupOr(TriggerNames, value)
  }

  /** `getSymptomName`: the four symptom kinds are translated, anything else is returned as given. */
  function SymptomName(value: string): (r: string)
    ensures r == value <==> value !in SymptomNames
    ensures value in SymptomNames ==> r == SymptomNames[value]
  {
    LookupOr(SymptomNames, value)
  }

  /** `getMedicationName`: the two medications are translated, anything else is returned as given. */
  function MedicationName(value: string): (r: string)
    ensures r == value <==> value !in MedicationNames
    ensures value in MedicationNames ==> r == MedicationNames[value]
  {
    LookupOr(MedicationNames, value)
  }
}

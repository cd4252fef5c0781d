/**
 * The records the health log keeps. An entry is the object the form builds
 * (app.js, handleFormSubmit) after the store has stamped its `id` and `zone`.
 * Timestamps are integers; the form's ISO date string and its parsing by
 * `new Date` are outside the model.
 */
module Entries {
  import opened Wrappers

  /** A two-element `[low, high]` array as used by the zone table and the profile. */
  datatype Range = Range(lo: int, hi: int)

  /** `entry.sleep`: clock times as the form gives them (or null) and a 1..5 quality. */
  datatype Sleep = Sleep(start: Option<string>, end: Option<string>, quality: int)

  /** One ticked trigger; `details` is the extra text some triggers carry, or null. */
  datatype Trigger = Trigger(name: string, value: string, details: Option<string>)

  /**
   * One symptom; `intensity` is the slider text for occipital pain, or null;
   * `details` is the free text of the "other" symptom.
   */
  datatype Symptom = Symptom(name: string, value: string, intensity: Option<string>, details: Option<string>)

  /** One medication; `dose` is the dose text, or null; `details` as for symptoms. */
  datatype Medication = Medication(name: string, value: string, dose: Option<string>, details: Option<string>)

  /**
   * One observation. `zone` is a string because the store keeps whatever it
   * was given on load; entries added through the store carry a zone key.
   */
  datatype Entry = Entry(
    id: int,
    datetime: int,
    systolic: int,
    diastolic: int,
    pulse: int,
    sleep: Option<Sleep>,
    wellness: int,
    triggers: seq<Trigger>,
    symptoms: seq<Symptom>,
    medications: seq<Medication>,
    notes: string,
    zone: string)
}

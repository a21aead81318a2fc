/** The compiled-in configuration of the chore picker (house_duty.py:6-21). */
module Config {

  /** The fixed, ordered list of chores (HAUS_DUTYS). */
  const Chores: seq<string> := [
    "Küche putzen",
    "Bad putzen",
    "Wohnzimmer aufräumen",
    "Wischen und Staubsaugen",
    "Notion Todo"
  ]

  /** Weight of a chore that was never done or was done long ago (BASIS_GEWICHT). */
  const BaseWeight: int := 10

  /** Weight removed per day of recency (REDUKTIONS_FAKTOR_PRO_TAG). */
  const DecayPerDay: int := 2

  /** Floor that keeps every chore drawable (MIN_GEWICHT). */
  const MinWeight: int := 1

}

/**
 * The zone table `ZONES` and the classifier `calculateZone` (app.js:4-29,
 * app.js:80-92), with the two display tables `getZoneEmoji` and
 * `getZoneName` (app.js:163-181).
 */
module Zones {
  import opened Entries

  /** The four tiers, least severe first. */
  datatype Zone = Green | Yellow | Orange | Red
  {
    /** The key under which the tier appears in `ZONES` and in an entry's `zone`. */
    function Key(): string
    {
      match this
      case Green => "green"
      case Yellow => "yellow"
      case Orange => "orange"
      case Red => "red"
    }

    function Severity(): nat
    {
      match this
      case Green => 0
      case Yellow => 1
      case Orange => 2
      case Red => 3
    }
  }

  /** One row of `ZONES`: ranges for each reading and a display colour. */
  datatype ZoneBounds = ZoneBounds(systolic: Range, diastolic: Range, pulse: Range, color: string)

  /** The `ZONES` table. Only the systolic and diastolic lower bounds are ever consulted. */
  function Bounds(z: Zone): ZoneBounds
  {
    match z
    case Green => ZoneBounds(Range(128, 140), Range(78, 90), Range(65, 85), "#28a745")
    case Yellow => ZoneBounds(Range(141, 150), Range(91, 100), Range(86, 100), "#ffc107")
    case Orange => ZoneBounds(Range(151, 170), Range(101, 105), Range(101, 130), "#fd7e14")
    case Red => ZoneBounds(Range(171, 999), Range(106, 999), Range(131, 999), "#dc3545")
  }

  /**
   * `calculateZone`: the tiers are tried from red down, each matching when the
   * systolic OR the diastolic reading reaches the tier's lower bound; green
   * is the fall-through. Pulse is not consulted.
   */
  function CalculateZone(e: Entry): (z: Zone)
    ensures z == Red <==> e.systolic >= 171 || e.diastolic >= 106
    ensures z == Orange <==> e.systolic < 171 && e.diastolic < 106 && (e.systolic >= 151 || e.diastolic >= 101)
    ensures z == Yellow <==> e.systolic < 151 && e.diastolic < 101 && (e.systolic >= 141 || e.diastolic >= 91)
    ensures z == Green <==> e.systolic <= 140 && e.diastolic <= 90
  {
    var systolic, diastolic := e.systolic, e.diastolic;
    if systolic >= Bounds(Red).systolic.lo || diastolic >= Bounds(Red).diastolic.lo then Red
    else if systolic >= Bounds(Orange).systolic.lo || diastolic >= Bounds(Orange).diastolic.lo then Orange
    else if systolic >= Bounds(Yellow).systolic.lo || diastolic >= Bounds(Yellow).diastolic.lo then Yellow
    else Green
  }

  /**
   * Reference reading of the table: a tier is reached when either pressure
   * reading meets its lower bound; green is always reached.
   */
  predicate Reaches(e: Entry, z: Zone)
  {
    z == Green || e.systolic >= Bounds(z).systolic.lo || e.diastolic >= Bounds(z).diastolic.lo
  }

  /** The classifier picks the most severe tier that the readings reach. */
  lemma CalculateZoneIsMostSevereReached(e: Entry, z: Zone)
    ensures Reaches(e, CalculateZone(e))
    ensures Reaches(e, z) ==> z.Severity() <= CalculateZone(e).Severity()
  {
  }

  /** Only the two pressure readings matter: pulse, sleep, notes and the rest do not. */
  lemma ZoneDependsOnlyOnPressure(e1: Entry, e2: Entry)
    requires e1.systolic == e2.systolic && e1.diastolic == e2.diastolic
    ensures CalculateZone(e1) == CalculateZone(e2)
  {
  }

  /** Raising either pressure reading never lowers the tier. */
  lemma ZoneMonotone(e1: Entry, e2: Entry)
    requires e1.systolic <= e2.systolic && e1.diastolic <= e2.diastolic
    ensures CalculateZone(e1).Severity() <= CalculateZone(e2).Severity()
  {
  }

  const ZoneKeys: set<string> := {"green", "yellow", "orange", "red"}

  const ZoneEmojis: map<string, string> :=
    map["green" := "🟢", "yellow" := "🟡", "orange" := "🟠", "red" := "🔴"]

  const ZoneNames: map<string, string> :=
    map["green" := "Зелёная зона", "yellow" := "Жёлтая зона",
        "orange" := "Оранжевая зона", "red" := "Красная зона"]

  /** `getZoneEmoji`: a coloured circle for a zone key, `''` for anything else. */
  function ZoneEmoji(zone: string): (r: string)
    ensures r == "" <==> zone !in ZoneKeys
    ensures zone in ZoneKeys ==> |r| == 1
  {
    if zone in ZoneEmojis then ZoneEmojis[zone] else ""
  }

  /** `getZoneName`: the Russian display name of a zone key, `''` for anything else. */
  function ZoneName(zone: string): (r: string)
    ensures r == "" <==> zone !in ZoneKeys
  {
    if zone in ZoneNames then ZoneNames[zone] else ""
  }

  /**
   * Every tier the classifier can produce has an emoji and a name, and
   * different tiers are displayed differently.
   */
  lemma ZoneDisplayDistinguishesTiers(z1: Zone, z2: Zone)
    ensures ZoneEmoji(z1.Key()) != "" && ZoneName(z1.Key()) != ""
    ensures z1 != z2 ==> ZoneEmoji(z1.Key()) != ZoneEmoji(z2.Key())
    ensures z1 != z2 ==> ZoneName(z1.Key()) != ZoneName(z2.Key())
  {
  }
}

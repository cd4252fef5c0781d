/**
 * The Markdown export `exportToMarkdown` (app.js:98-161). The functions
 * below give the document the export must produce; the methods build it the
 * way the source does, one `md +=` at a time inside nested loops, and are
 * proved to produce exactly that document. The locale date rendering
 * `new Date(datetime).toLocaleString('ru-RU')` is a parameter `formatDate`.
 */
module Markdown {
  import opened Wrappers
  import opened Text
  import opened Entries
  import opened Zones

  const Header := "# Журнал показателей здоровья\n\n"
  const Rule := "---\n\n"
  const SleepHeading := "**Сон:**\n"
  const TriggersHeading := "**Триггеры:**\n"
  const SymptomsHeading := "**Симптомы:**\n"
  const MedicationsHeading := "**Препараты:**\n"
  const NotesLabel := "**Заметки:** "
  const NotGiven := "не указано"

  /** The concatenation of `line(x)` over `items`, in order. */
  function Lines<T>(items: seq<T>, line: T -> string): string
  {
    if items == [] then "" else Lines(items[..|items| - 1], line) + line(items[|items| - 1])
  }

  /** Regrouping a concatenation, stated once so that long renderings need not be unfolded. */
  lemma AppendAssoc(a: string, b: string, c: string)
    ensures (a + b) + c == a + (b + c)
  {
  }

  lemma LinesSnoc<T>(items: seq<T>, x: T, line: T -> string)
    ensures Lines(items + [x], line) == Lines(items, line) + line(x)
  {
    assert (items + [x])[..|items|] == items;
  }

  /** One more item of a prefix adds its line at the end. */
  lemma LinesPrefixStep<T>(items: seq<T>, i: nat, line: T -> string)
    requires i < |items|
    ensures Lines(items[..i + 1], line) == Lines(items[..i], line) + line(items[i])
  {
    assert items[..i + 1][..i] == items[..i];
  }

  lemma AppendEmpty(a: string)
    ensures a + "" == a && "" + a == a
  {
  }

  /** Lines of a concatenation are the lines of each part, in order. */
  lemma {:induction false} LinesAppend<T>(a: seq<T>, b: seq<T>, line: T -> string)
    ensures Lines(a + b, line) == Lines(a, line) + Lines(b, line)
    decreases |b|
  {
    if b == [] {
      assert a + b == a;
    } else {
      var last := |b| - 1;
      assert (a + b)[..|a + b| - 1] == a + b[..last];
      LinesAppend(a, b[..last], line);
    }
  }

  function TriggerLine(t: Trigger): string
  {
    "- " + t.name + (if Truthy(t.details) then " (" + t.details.value + ")" else "") + "\n"
  }

  function SymptomLine(s: Symptom): string
  {
    "- " + s.name + (if Truthy(s.intensity) then " (интенсивность: " + s.intensity.value + "/5)" else "") + "\n"
  }

  function MedicationLine(m: Medication): string
  {
    "- " + m.name + (if Truthy(m.dose) then " (" + m.dose.value + " мг)" else "") + "\n"
  }

  /** The date heading and the pressure, pulse and zone lines every section opens with. */
  function SectionHead(e: Entry, formatDate: int -> string): string
  {
    ("## " + formatDate(e.datetime) + "\n\n")
    + ("**АД:** " + IntToString(e.systolic) + "/" + IntToString(e.diastolic) + " мм рт.ст.\n")
    + ("**Пульс:** " + IntToString(e.pulse) + " уд/мин\n")
    + ("**Зона:** " + ZoneEmoji(e.zone) + " " + ZoneName(e.zone) + "\n\n")
  }

  /** The sleep block: present exactly when the entry has a sleep record. */
  function SleepBlock(sleep: Option<Sleep>): (r: string)
    ensures r == "" <==> sleep.None?
    ensures sleep.Some? ==> SleepHeading <= r
  {
    if sleep.None? then ""
    else
      SleepHeading
      + ("- Засыпание: " + OrElse(sleep.value.start, NotGiven) + "\n")
      + ("- Пробуждение: " + OrElse(sleep.value.end, NotGiven) + "\n")
      + ("- Качество: " + IntToString(sleep.value.quality) + "/5\n\n")
  }

  function WellnessLine(e: Entry): string
  {
    "**Самочувствие:** " + IntToString(e.wellness) + "/5\n\n"
  }

  /** The trigger block: present exactly when there is at least one trigger. */
  function TriggersBlock(ts: seq<Trigger>): (r: string)
    ensures r == "" <==> ts == []
    ensures ts != [] ==> TriggersHeading <= r
  {
    if |ts| > 0 then TriggersHeading + Lines(ts, TriggerLine) + "\n" else ""
  }

  /** The symptom block: present exactly when there is at least one symptom. */
  function SymptomsBlock(ss: seq<Symptom>): (r: string)
    ensures r == "" <==> ss == []
    ensures ss != [] ==> SymptomsHeading <= r
  {
    if |ss| > 0 then SymptomsHeading + Lines(ss, SymptomLine) + "\n" else ""
  }

  /** The medication block: present exactly when there is at least one medication. */
  function MedicationsBlock(ms: seq<Medication>): (r: string)
    ensures r == "" <==> ms == []
    ensures ms != [] ==> MedicationsHeading <= r
  {
    if |ms| > 0 then MedicationsHeading + Lines(ms, MedicationLine) + "\n" else ""
  }

  /** The notes line: present exactly when the notes are not empty. */
  function NotesBlock(notes: string): (r: string)
    ensures r == "" <==> notes == ""
    ensures notes != "" ==> NotesLabel <= r
  {
    if notes != "" then NotesLabel + notes + "\n\n" else ""
  }

  /** The concatenation of a sequence of strings. */
  function Concat(parts: seq<string>): string
  {
    if parts == [] then "" else Concat(parts[..|parts| - 1]) + parts[|parts| - 1]
  }

  lemma ConcatPrefixStep(parts: seq<string>, k: nat)
    requires k < |parts|
    ensures Concat(parts[..k + 1]) == Concat(parts[..k]) + parts[k]
  {
    assert parts[..k + 1][..k] == parts[..k];
  }

  lemma ConcatOfFirstFour(parts: seq<string>)
    requires |parts| >= 4
    ensures Concat(parts[..4]) == parts[0] + parts[1] + parts[2] + parts[3]
  {
    assert parts[..0] == [];
    AppendEmpty(parts[0]);
    ConcatPrefixStep(parts, 0);
    ConcatPrefixStep(parts, 1);
    ConcatPrefixStep(parts, 2);
    ConcatPrefixStep(parts, 3);
  }

  lemma ConcatOfEight(parts: seq<string>)
    requires |parts| == 8
    ensures Concat(parts) == parts[0] + parts[1] + parts[2] + parts[3] + parts[4] + parts[5] + parts[6] + parts[7]
  {
    assert parts[..8] == parts;
    ConcatOfFirstFour(parts);
    ConcatPrefixStep(parts, 4);
    ConcatPrefixStep(parts, 5);
    ConcatPrefixStep(parts, 6);
    ConcatPrefixStep(parts, 7);
  }

  /** The blocks of one entry's section, in the order the export writes them. */
  function SectionParts(e: Entry, formatDate: int -> string): seq<string>
  {
    [SectionHead(e, formatDate), SleepBlock(e.sleep), WellnessLine(e), TriggersBlock(e.triggers),
     SymptomsBlock(e.symptoms), MedicationsBlock(e.medications), NotesBlock(e.notes), Rule]
  }

  /** The section of one entry: fixed lines, the optional groups in a fixed order, then the rule. */
  function Section(e: Entry, formatDate: int -> string): string
  {
    Concat(SectionParts(e, formatDate))
  }

  lemma SectionShape(e: Entry, formatDate: int -> string)
    ensures Section(e, formatDate)
         == SectionHead(e, formatDate) + SleepBlock(e.sleep) + WellnessLine(e) + TriggersBlock(e.triggers)
            + SymptomsBlock(e.symptoms) + MedicationsBlock(e.medications) + NotesBlock(e.notes) + Rule
  {
    ConcatOfEight(SectionParts(e, formatDate));
  }

  /** Every section, whatever the entry holds, closes with the rule. */
  lemma SectionEndsWithRule(e: Entry, formatDate: int -> string)
    ensures |Section(e, formatDate)| >= |Rule|
    ensures Section(e, formatDate)[|Section(e, formatDate)| - |Rule|..] == Rule
  {
    var parts := SectionParts(e, formatDate);
    assert parts[..8] == parts;
    ConcatPrefixStep(parts, 7);
    var body := Concat(parts[..7]);
    assert Section(e, formatDate) == body + Rule;
    assert (body + Rule)[|body|..] == Rule;
  }

  /** The per-entry renderer the export applies to each entry. */
  function SectionOf(formatDate: int -> string): Entry -> string
  {
    e => Section(e, formatDate)
  }

  /** One section per entry, in stored order. */
  function Sections(entries: seq<Entry>, formatDate: int -> string): string
  {
    Lines(entries, SectionOf(formatDate))
  }

  /** The whole document. */
  function Document(entries: seq<Entry>, formatDate: int -> string): (r: string)
    ensures Header <= r
  {
    Header + Sections(entries, formatDate)
  }

  /** An empty log exports as the header alone. */
  lemma DocumentOfEmpty(formatDate: int -> string)
    ensures Document([], formatDate) == Header
  {
  }

  /** The most recently added entry, at the head of the log, is the first section after the header. */
  lemma DocumentOfPrepend(e: Entry, entries: seq<Entry>, formatDate: int -> string)
    ensures Document([e] + entries, formatDate) == Header + Section(e, formatDate) + Sections(entries, formatDate)
  {
    var render := SectionOf(formatDate);
    LinesAppend([e], entries, render);
    LinesSnoc([], e, render);
    assert [] + [e] == [e];
    var first := render(e);
    assert Lines([e], render) == "" + first;
    assert "" + first == first;
    AppendAssoc(Header, first, Lines(entries, render));
  }

  /** An entry with no optional group yields the fixed lines and the rule only. */
  lemma BareSection(e: Entry, formatDate: int -> string)
    requires e.sleep.None? && e.triggers == [] && e.symptoms == [] && e.medications == [] && e.notes == ""
    ensures Section(e, formatDate) == SectionHead(e, formatDate) + WellnessLine(e) + Rule
  {
    SectionShape(e, formatDate);
    var head, wellness := SectionHead(e, formatDate), WellnessLine(e);
    assert head + "" + wellness + "" + "" + "" + "" + Rule == head + wellness + Rule;
  }

  method AppendTriggerLines(md0: string, ts: seq<Trigger>) returns (md: string)
    ensures md == md0 + Lines(ts, TriggerLine)
  {
    md := md0;
    var i := 0;
    while i < |ts|
      invariant 0 <= i <= |ts|
      invariant md == md0 + Lines(ts[..i], TriggerLine)
    {
      var trigger := ts[i];
      ghost var before := md;
      md := md + ("- " + trigger.name);
      ghost var line := "- " + trigger.name;
      var extra := "";
      if Truthy(trigger.details) {
        extra := " (" + trigger.details.value + ")";
        md := md + extra;
      } else {
        AppendEmpty(md);
      }
      AppendAssoc(before, line, extra);
      line := line + extra;
      md := md + "\n";
      AppendAssoc(before, line, "\n");
      line := line + "\n";
      assert line == TriggerLine(trigger);
      LinesPrefixStep(ts, i, TriggerLine);
      AppendAssoc(md0, Lines(ts[..i], TriggerLine), line);
      i := i + 1;
    }
    assert ts[..i] == ts;
  }

  method AppendSymptomLines(md0: string, ss: seq<Symptom>) returns (md: string)
    ensures md == md0 + Lines(ss, SymptomLine)
  {
    md := md0;
    var i := 0;
    while i < |ss|
      invariant 0 <= i <= |ss|
      invariant md == md0 + Lines(ss[..i], SymptomLine)
    {
      var symptom := ss[i];
      ghost var before := md;
      md := md + ("- " + symptom.name);
      ghost var line := "- " + symptom.name;
      var extra := "";
      if Truthy(symptom.intensity) {
        extra := " (интенсивность: " + symptom.intensity.value + "/5)";
        md := md + extra;
      } else {
        AppendEmpty(md);
      }
      AppendAssoc(before, line, extra);
      line := line + extra;
      md := md + "\n";
      AppendAssoc(before, line, "\n");
      line := line + "\n";
      assert line == SymptomLine(symptom);
      LinesPrefixStep(ss, i, SymptomLine);
      AppendAssoc(md0, Lines(ss[..i], SymptomLine), line);
      i := i + 1;
    }
    assert ss[..i] == ss;
  }

  method AppendMedicationLines(md0: string, ms: seq<Medication>) returns (md: string)
    ensures md == md0 + Lines(ms, MedicationLine)
  {
    md := md0;
    var i := 0;
    while i < |ms|
      invariant 0 <= i <= |ms|
      invariant md == md0 + Lines(ms[..i], MedicationLine)
    {
      var med := ms[i];
      ghost var before := md;
      md := md + ("- " + med.name);
      ghost var line := "- " + med.name;
      var extra := "";
      if Truthy(med.dose) {
        extra := " (" + med.dose.value + " мг)";
        md := md + extra;
      } else {
        AppendEmpty(md);
      }
      AppendAssoc(before, line, extra);
      line := line + extra;
      md := md + "\n";
      AppendAssoc(before, line, "\n");
      line := line + "\n";
      assert line == MedicationLine(med);
      LinesPrefixStep(ms, i, MedicationLine);
      AppendAssoc(md0, Lines(ms[..i], MedicationLine), line);
      i := i + 1;
    }
    assert ms[..i] == ms;
  }

  /** `if (entry.sleep) { ... }`: four appends, or none. */
  method AppendSleepBlock(md0: string, sleep: Option<Sleep>) returns (md: string)
    ensures md == md0 + SleepBlock(sleep)
  {
    md := md0;
    if sleep.Some? {
      ghost var block := SleepHeading;
      md := md + SleepHeading;
      var piece := "- Засыпание: " + OrElse(sleep.value.start, NotGiven) + "\n";
      AppendAssoc(md0, block, piece);
      md, block := md + piece, block + piece;
      piece := "- Пробуждение: " + OrElse(sleep.value.end, NotGiven) + "\n";
      AppendAssoc(md0, block, piece);
      md, block := md + piece, block + piece;
      piece := "- Качество: " + IntToString(sleep.value.quality) + "/5\n\n";
      AppendAssoc(md0, block, piece);
      md, block := md + piece, block + piece;
    } else {
      assert md0 + "" == md0;
    }
  }

  /** `if (entry.triggers && entry.triggers.length > 0) { ... }` */
  method AppendTriggersBlock(md0: string, ts: seq<Trigger>) returns (md: string)
    ensures md == md0 + TriggersBlock(ts)
  {
    md := md0;
    if |ts| > 0 {
      md := md + TriggersHeading;
      md := AppendTriggerLines(md, ts);
      AppendAssoc(md0, TriggersHeading, Lines(ts, TriggerLine));
      AppendAssoc(md0, TriggersHeading + Lines(ts, TriggerLine), "\n");
      md := md + "\n";
    } else {
      assert md0 + "" == md0;
    }
  }

  /** `if (entry.symptoms && entry.symptoms.length > 0) { ... }` */
  method AppendSymptomsBlock(md0: string, ss: seq<Symptom>) returns (md: string)
    ensures md == md0 + SymptomsBlock(ss)
  {
    md := md0;
    if |ss| > 0 {
      md := md + SymptomsHeading;
      md := AppendSymptomLines(md, ss);
      AppendAssoc(md0, SymptomsHeading, Lines(ss, SymptomLine));
      AppendAssoc(md0, SymptomsHeading + Lines(ss, SymptomLine), "\n");
      md := md + "\n";
    } else {
      assert md0 + "" == md0;
    }
  }

  /** `if (entry.medications && entry.medications.length > 0) { ... }` */
  method AppendMedicationsBlock(md0: string, ms: seq<Medication>) returns (md: string)
    ensures md == md0 + MedicationsBlock(ms)
  {
    md := md0;
    if |ms| > 0 {
      md := md + MedicationsHeading;
      md := AppendMedicationLines(md, ms);
      AppendAssoc(md0, MedicationsHeading, Lines(ms, MedicationLine));
      AppendAssoc(md0, MedicationsHeading + Lines(ms, MedicationLine), "\n");
      md := md + "\n";
    } else {
      assert md0 + "" == md0;
    }
  }

  /** `if (entry.notes) { ... }` */
  method AppendNotesBlock(md0: string, notes: string) returns (md: string)
    ensures md == md0 + NotesBlock(notes)
  {
    md := md0;
    if notes != "" {
      var piece := NotesLabel + notes + "\n\n";
      md := md + piece;
    } else {
      assert md0 + "" == md0;
    }
  }

  /** The body of the per-entry `forEach` callback. */
  method AppendSection(md0: string, e: Entry, formatDate: int -> string) returns (md: string)
    ensures md == md0 + Section(e, formatDate)
  {
    var date := formatDate(e.datetime);
    var piece := "## " + date + "\n\n";
    ghost var section := piece;
    md := md0 + piece;
    piece := "**АД:** " + IntToString(e.systolic) + "/" + IntToString(e.diastolic) + " мм рт.ст.\n";
    AppendAssoc(md0, section, piece);
    md, section := md + piece, section + piece;
    piece := "**Пульс:** " + IntToString(e.pulse) + " уд/мин\n";
    AppendAssoc(md0, section, piece);
    md, section := md + piece, section + piece;
    piece := "**Зона:** " + ZoneEmoji(e.zone) + " " + ZoneName(e.zone) + "\n\n";
    AppendAssoc(md0, section, piece);
    md, section := md + piece, section + piece;
    assert section == SectionHead(e, formatDate);

    md := AppendSleepBlock(md, e.sleep);
    AppendAssoc(md0, section, SleepBlock(e.sleep));
    section := section + SleepBlock(e.sleep);

    piece := "**Самочувствие:** " + IntToString(e.wellness) + "/5\n\n";
    AppendAssoc(md0, section, piece);
    md, section := md + piece, section + piece;

    md := AppendTriggersBlock(md, e.triggers);
    AppendAssoc(md0, section, TriggersBlock(e.triggers));
    section := section + TriggersBlock(e.triggers);

    md := AppendSymptomsBlock(md, e.symptoms);
    AppendAssoc(md0, section, SymptomsBlock(e.symptoms));
    section := section + SymptomsBlock(e.symptoms);

    md := AppendMedicationsBlock(md, e.medications);
    AppendAssoc(md0, section, MedicationsBlock(e.medications));
    section := section + MedicationsBlock(e.medications);

    md := AppendNotesBlock(md, e.notes);
    AppendAssoc(md0, section, NotesBlock(e.notes));
    section := section + NotesBlock(e.notes);

    AppendAssoc(md0, section, Rule);
    md, section := md + Rule, section + Rule;
    SectionShape(e, formatDate);
  }

  /** One more entry of the log adds its section at the end of the document so far. */
  lemma DocumentStep(entries: seq<Entry>, i: nat, formatDate: int -> string)
    requires i < |entries|
    ensures Header + Lines(entries[..i + 1], SectionOf(formatDate))
         == (Header + Lines(entries[..i], SectionOf(formatDate))) + Section(entries[i], formatDate)
  {
    LinesPrefixStep(entries, i, SectionOf(formatDate));
    AppendAssoc(Header, Lines(entries[..i], SectionOf(formatDate)), SectionOf(formatDate)(entries[i]));
  }

  /** The outer loop of `exportToMarkdown` over a log's entries. */
  method BuildDocument(entries: seq<Entry>, formatDate: int -> string) returns (md: string)
    ensures md == Document(entries, formatDate)
  {
    md := Header;
    var i := 0;
    AppendEmpty(Header);
    while i < |entries|
      invariant 0 <= i <= |entries|
      invariant md == Header + Lines(entries[..i], SectionOf(formatDate))
    {
      md := AppendSection(md, entries[i], formatDate);
      DocumentStep(entries, i, formatDate);
      i := i + 1;
    }
    assert entries[..i] == entries;
  }
}

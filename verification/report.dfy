/** Composition of one subscriber's registry and its paragraph layout
    (main.py:572-684). */
module Report {
  import opened Wrappers
  import Seqs
  import Decimal
  import opened Consumption

  /** One paragraph of the document. `Figure` stands for a paragraph that
      interpolates a number between fixed text; the number is kept exact.
      Readings and consumptions are printed with one decimal place and the
      ratio as Python prints the stored value; neither rendering is modelled. */
  datatype Para =
    | Heading(text: string)
    | Text(text: string)
    | Figure(prefix: string, value: real, suffix: string)

  /** A utility whose current reading is present, with its computed consumption. */
  datatype Section = Section(utility: Utility, delta: Delta)

  /** A signatory block from the settings; a missing key reads as "". */
  datatype Signature = Signature(position: string, name: string)

  /** The composed registry of one subscriber for one period. */
  datatype Registry = Registry(
    subscriber: string,
    monthName: string,
    year: int,
    sections: seq<Section>,
    signatures: seq<Signature>)

  /** The sections for the utilities `us`, in that order, skipping each
      utility whose current reading is absent. */
  function Sections(us: seq<Utility>, current: Reading, previous: Option<Reading>, ratio: Option<real>): (r: seq<Section>)
    ensures |r| <= |us|
    ensures forall i :: 0 <= i < |r| ==> Field(current, r[i].utility).Some?
    ensures forall i :: 0 <= i < |r| ==>
              ComputeDelta(Field(current, r[i].utility), PreviousField(previous, r[i].utility),
                           Multiplier(r[i].utility, ratio)) == Some(r[i].delta)
  {
    if |us| == 0 then []
    else
      var u := us[0];
      var rest := Sections(us[1..], current, previous, ratio);
      match ComputeDelta(Field(current, u), PreviousField(previous, u), Multiplier(u, ratio))
      case None => rest
      case Some(d) => [Section(u, d)] + rest
  }

  function UtilitiesOf(ss: seq<Section>): (us: seq<Utility>)
    ensures |us| == |ss|
    ensures forall i :: 0 <= i < |ss| ==> us[i] == ss[i].utility
  {
    if |ss| == 0 then [] else [ss[0].utility] + UtilitiesOf(ss[1..])
  }

  /** Builds the registry of a subscriber from the current record, the
      optional previous record and the stored transformation ratio. */
  function Compose(subscriber: string, monthName: string, year: int, ratio: Option<real>,
                   current: Reading, previous: Option<Reading>, signatures: seq<Signature>): (r: Registry)
    ensures r.subscriber == subscriber && r.monthName == monthName && r.year == year
    ensures r.signatures == signatures
    ensures forall i :: 0 <= i < |r.sections| ==>
              ComputeDelta(Field(current, r.sections[i].utility),
                           PreviousField(previous, r.sections[i].utility),
                           Multiplier(r.sections[i].utility, ratio)) == Some(r.sections[i].delta)
  {
    Registry(subscriber, monthName, year, Sections(Utilities, current, previous, ratio), signatures)
  }

  /** The utilities reported are exactly those whose current reading is
      present, in the order of `us`. */
  lemma {:induction false} SectionsSelectPresent(us: seq<Utility>, current: Reading, previous: Option<Reading>, ratio: Option<real>)
    ensures UtilitiesOf(Sections(us, current, previous, ratio)) == Seqs.Filter(us, u => Field(current, u).Some?)
  {
    if |us| > 0 {
      SectionsSelectPresent(us[1..], current, previous, ratio);
    }
  }

  /** A utility has a section iff its current reading is present; the
      previous record plays no part in the decision. */
  lemma SectionPresentIffCurrent(current: Reading, previous: Option<Reading>, ratio: Option<real>, u: Utility)
    ensures u in UtilitiesOf(Sections(Utilities, current, previous, ratio)) <==> Field(current, u).Some?
  {
    SectionsSelectPresent(Utilities, current, previous, ratio);
    Seqs.FilterMembers(Utilities, (v: Utility) => Field(current, v).Some?);
    assert u in Utilities;
  }

  /** Sections keep the fixed order electricity, water, wastewater, gas. */
  lemma SectionsInFixedOrder(current: Reading, previous: Option<Reading>, ratio: Option<real>)
    ensures Seqs.IsSubsequence(UtilitiesOf(Sections(Utilities, current, previous, ratio)), Utilities)
  {
    SectionsSelectPresent(Utilities, current, previous, ratio);
    Seqs.FilterIsSubsequence(Utilities, (v: Utility) => Field(current, v).Some?);
  }

  /** Each section starts from the stored previous value of its column,
      and from zero when there is no previous record or its column is NULL. */
  lemma SectionsPreviousBaseline(us: seq<Utility>, current: Reading, previous: Option<Reading>, ratio: Option<real>)
    ensures forall i :: 0 <= i < |Sections(us, current, previous, ratio)| ==>
              var s := Sections(us, current, previous, ratio)[i];
              (previous.None? || Field(previous.value, s.utility).None? ==> s.delta.previous == 0.0) &&
              (previous.Some? && Field(previous.value, s.utility).Some? ==>
                 s.delta.previous == Field(previous.value, s.utility).value)
  {
  }

  /** Only the electricity section is scaled, by the effective ratio; every
      other section keeps multiplier 1 and its plain consumption. */
  predicate ScaledByRatio(s: Section, ratio: Option<real>) {
    (s.utility != Electricity ==> s.delta.multiplier == 1.0 && s.delta.adjusted == s.delta.consumption) &&
    (s.utility == Electricity ==>
       s.delta.multiplier == EffectiveRatio(ratio) &&
       s.delta.adjusted == s.delta.consumption * EffectiveRatio(ratio))
  }

  /** Every section is scaled as `ScaledByRatio` says. */
  lemma SectionsMultiplier(us: seq<Utility>, current: Reading, previous: Option<Reading>, ratio: Option<real>)
    ensures forall i :: 0 <= i < |Sections(us, current, previous, ratio)| ==>
              ScaledByRatio(Sections(us, current, previous, ratio)[i], ratio)
  {
    var ss := Sections(us, current, previous, ratio);
    forall i | 0 <= i < |ss|
      ensures ScaledByRatio(ss[i], ratio)
    {
      DeltaMultiplier(ss[i].utility, ratio, Field(current, ss[i].utility), PreviousField(previous, ss[i].utility), ss[i].delta);
    }
  }

  lemma DeltaMultiplier(u: Utility, ratio: Option<real>, c: Option<real>, p: Option<real>, d: Delta)
    requires ComputeDelta(c, p, Multiplier(u, ratio)) == Some(d)
    ensures u != Electricity ==> d.multiplier == 1.0 && d.adjusted == d.consumption
    ensures u == Electricity ==> d.multiplier == EffectiveRatio(ratio) && d.adjusted == d.consumption * EffectiveRatio(ratio)
  {
  }

  /** A record whose four readings are all NULL yields a registry without sections. */
  lemma AllNullRecordHasNoSections(previous: Option<Reading>, ratio: Option<real>)
    ensures Sections(Utilities, Reading(None, None, None, None), previous, ratio) == []
  {
    var empty := Reading(None, None, None, None);
    assert Sections(Utilities[3..], empty, previous, ratio) == [];
    assert Sections(Utilities[2..], empty, previous, ratio) == [];
    assert Sections(Utilities[1..], empty, previous, ratio) == [];
  }

  // ---------------------------------------------------------------- layout

  const KWh := " кВт·ч"
  const CubicMetres := " м³"
  const RatioPrefix := "   - коэффициент трансформации: "
  const RatioTotalPrefix := "   - итого потребление с учетом КТ: "
  const DueLine := "   ИТОГО к оплате: ______________________ руб."
  const WaterTariff := "   Тариф: ______________ руб./м³"

  /** The three reading lines shared by metered sections. */
  function ReadingLines(d: Delta, unit: string): seq<Para> {
    [Figure("   - на начало периода: ", d.previous, unit),
     Figure("   - на конец периода: ", d.current, unit),
     Figure("   - итого потребление: ", d.consumption, unit)]
  }

  /** The ratio lines, present only when the ratio in force differs from 1. */
  function RatioLines(d: Delta): (ps: seq<Para>)
    ensures ps == [] <==> d.multiplier == 1.0
  {
    if d.multiplier != 1.0 then
      [Figure(RatioPrefix, d.multiplier, ""), Figure(RatioTotalPrefix, d.adjusted, KWh)]
    else []
  }

  /** The tariff and payment lines that close the electricity section. */
  const ElectricityTail: seq<Para> :=
    [Text("2. Тариф за потребленную электроэнергию: ______________ руб./кВт·ч"),
     Text(DueLine),
     Text("3. Тариф за заявленную мощность: _______________ руб./кВт"),
     Text("   Заявленная мощность: _________________ кВт"),
     Text("   ИТОГО к оплате: ________________ руб."),
     Text("   ВСЕГО к оплате (п.2 + п.3): ________________ руб."),
     Text("")]

  /** The tariff and payment lines that close the water, wastewater and gas sections. */
  const CubicMetreTail: seq<Para> := [Text(WaterTariff), Text(DueLine), Text("")]

  /** The numbered title paragraph of each section. */
  function SectionTitle(u: Utility): (t: string)
    ensures |t| > 0 && t[|t| - 1] == ':'
  {
    match u
    case Electricity => "1. Показания счетчика электроэнергии:"
    case Water => "4. Показания счетчика воды:"
    case Wastewater => "5. Водоотведение:"
    case Gas => "6. Показания счетчика газа:"
  }

  /** One of the four section titles. */
  predicate IsTitleText(t: string) {
    t == SectionTitle(Electricity) || t == SectionTitle(Water) || t == SectionTitle(Wastewater) || t == SectionTitle(Gas)
  }

  predicate IsTitle(p: Para) {
    p.Text? && IsTitleText(p.text)
  }

  /** Paragraphs none of which is a section title. */
  predicate NoTitle(ps: seq<Para>) {
    forall i :: 0 <= i < |ps| ==> !IsTitle(ps[i])
  }

  /** Different utilities have different titles. */
  lemma SectionTitleInjective(u: Utility, v: Utility)
    ensures SectionTitle(u) == SectionTitle(v) <==> u == v
  {
  }

  /** A metered section: its numbered title, the three reading lines, then `rest`. */
  function MeteredSection(title: string, d: Delta, unit: string, rest: seq<Para>): (ps: seq<Para>)
    requires |rest| > 0
    ensures |ps| == 4 + |rest| && ps[|ps| - 1] == rest[|rest| - 1]
    ensures ps[1].Figure? && ps[1].value == d.previous
    ensures ps[2].Figure? && ps[2].value == d.current
    ensures ps[3].Figure? && ps[3].value == d.consumption
  {
    [Text(title)] + ReadingLines(d, unit) + rest
  }

  /** The numbered paragraphs of one section, ending with an empty paragraph.
      Every section shows its consumption; the metered ones (all but
      wastewater) also show the start and end readings, in that order. */
  function RenderSection(s: Section): (ps: seq<Para>)
    ensures |ps| >= 5 && ps[|ps| - 1] == Text("")
    ensures exists i :: 0 <= i < |ps| && ps[i].Figure? && ps[i].value == s.delta.consumption
    ensures s.utility != Wastewater ==>
              ps[1].Figure? && ps[1].value == s.delta.previous &&
              ps[2].Figure? && ps[2].value == s.delta.current &&
              ps[3].Figure? && ps[3].value == s.delta.consumption
    ensures s.utility == Wastewater ==> ps[1].Figure? && ps[1].value == s.delta.consumption
  {
    var ps :=
      match s.utility
      case Electricity =>
        MeteredSection(SectionTitle(Electricity), s.delta, KWh, RatioLines(s.delta) + ElectricityTail)
      case Water =>
        MeteredSection(SectionTitle(Water), s.delta, CubicMetres, CubicMetreTail)
      case Wastewater =>
        [Text(SectionTitle(Wastewater)), Figure("", s.delta.consumption, CubicMetres)] + CubicMetreTail
      case Gas =>
        MeteredSection(SectionTitle(Gas), s.delta, CubicMetres, CubicMetreTail);
    assert ps[if s.utility == Wastewater then 1 else 3].value == s.delta.consumption;
    ps
  }

  predicate IsRatioLine(p: Para) {
    p.Figure? && p.prefix == RatioPrefix
  }

  /** The transformation-ratio line appears in a section iff it is the
      electricity section and the ratio in force is not 1; when it
      appears it shows that ratio. */
  lemma RatioLineIffRatioNotOne(s: Section)
    ensures (exists i :: 0 <= i < |RenderSection(s)| && IsRatioLine(RenderSection(s)[i]))
            <==> s.utility == Electricity && s.delta.multiplier != 1.0
    ensures s.utility == Electricity && s.delta.multiplier != 1.0 ==>
              RenderSection(s)[4] == Figure(RatioPrefix, s.delta.multiplier, "") &&
              RenderSection(s)[5] == Figure(RatioTotalPrefix, s.delta.adjusted, KWh)
  {
    var ps := RenderSection(s);
    if s.utility == Electricity && s.delta.multiplier != 1.0 {
      assert IsRatioLine(ps[4]);
    } else {
      forall i | 0 <= i < |ps|
        ensures !IsRatioLine(ps[i])
      {
      }
    }
  }

  function RenderSections(ss: seq<Section>): seq<Para> {
    if |ss| == 0 then [] else RenderSection(ss[0]) + RenderSections(ss[1..])
  }

  /** Joining title-free paragraphs gives title-free paragraphs. */
  lemma NoTitleConcat(a: seq<Para>, b: seq<Para>)
    requires NoTitle(a) && NoTitle(b)
    ensures NoTitle(a + b)
  {
    forall i | 0 <= i < |a + b|
      ensures !IsTitle((a + b)[i])
    {
      if i >= |a| {
        assert (a + b)[i] == b[i - |a|];
      }
    }
  }

  /** The tariff lines of every section carry no section number. */
  lemma TailsHaveNoTitle()
    ensures NoTitle(ElectricityTail) && NoTitle(CubicMetreTail)
  {
  }

  /** Paragraphs after a title and no other title. */
  lemma TitleThen(title: string, rest: seq<Para>)
    requires NoTitle(rest)
    ensures forall i :: 1 <= i < |[Text(title)] + rest| ==> !IsTitle(([Text(title)] + rest)[i])
  {
    assert forall i :: 1 <= i < |[Text(title)] + rest| ==> ([Text(title)] + rest)[i] == rest[i - 1];
  }

  /** A section opens with its own title and has no other title paragraph. */
  lemma SectionTitleOnlyFirst(s: Section)
    ensures RenderSection(s)[0] == Text(SectionTitle(s.utility))
    ensures forall i :: 1 <= i < |RenderSection(s)| ==> !IsTitle(RenderSection(s)[i])
  {
    var d := s.delta;
    var title := SectionTitle(s.utility);
    TailsHaveNoTitle();
    match s.utility
    case Electricity =>
      NoTitleConcat(RatioLines(d), ElectricityTail);
      NoTitleConcat(ReadingLines(d, KWh), RatioLines(d) + ElectricityTail);
      TitleThen(title, ReadingLines(d, KWh) + (RatioLines(d) + ElectricityTail));
      assert RenderSection(s) == [Text(title)] + (ReadingLines(d, KWh) + (RatioLines(d) + ElectricityTail));
    case Water =>
      NoTitleConcat(ReadingLines(d, CubicMetres), CubicMetreTail);
      TitleThen(title, ReadingLines(d, CubicMetres) + CubicMetreTail);
      assert RenderSection(s) == [Text(title)] + (ReadingLines(d, CubicMetres) + CubicMetreTail);
    case Wastewater =>
      NoTitleConcat([Figure("", d.consumption, CubicMetres)], CubicMetreTail);
      TitleThen(title, [Figure("", d.consumption, CubicMetres)] + CubicMetreTail);
      assert RenderSection(s) == [Text(title)] + ([Figure("", d.consumption, CubicMetres)] + CubicMetreTail);
    case Gas =>
      NoTitleConcat(ReadingLines(d, CubicMetres), CubicMetreTail);
      TitleThen(title, ReadingLines(d, CubicMetres) + CubicMetreTail);
      assert RenderSection(s) == [Text(title)] + (ReadingLines(d, CubicMetres) + CubicMetreTail);
  }

  /** A section shows the title of utility `u` iff it is the section of `u`. */
  lemma TitleInSectionIff(s: Section, u: Utility)
    ensures Text(SectionTitle(u)) in RenderSection(s) <==> s.utility == u
  {
    SectionTitleOnlyFirst(s);
    SectionTitleInjective(u, s.utility);
    TitleOnlyAtHead(RenderSection(s), Text(SectionTitle(u)));
  }

  /** In paragraphs whose only title is the first, a title occurs iff it is the first. */
  lemma TitleOnlyAtHead(ps: seq<Para>, x: Para)
    requires |ps| > 0 && forall i :: 1 <= i < |ps| ==> !IsTitle(ps[i])
    requires IsTitle(x)
    ensures x in ps <==> ps[0] == x
  {
  }

  /** The rendered sections show the title of `u` iff `u` has a section. */
  lemma {:induction false} TitleInSectionsIff(ss: seq<Section>, u: Utility)
    ensures Text(SectionTitle(u)) in RenderSections(ss) <==> u in UtilitiesOf(ss)
  {
    if |ss| > 0 {
      TitleInSectionIff(ss[0], u);
      TitleInSectionsIff(ss[1..], u);
      assert UtilitiesOf(ss) == [ss[0].utility] + UtilitiesOf(ss[1..]);
    }
  }

  /** Every section's consumption is shown somewhere in the rendered sections. */
  lemma {:induction false} RenderSectionsShowConsumption(ss: seq<Section>, k: int)
    requires 0 <= k < |ss|
    ensures exists i :: 0 <= i < |RenderSections(ss)| && RenderSections(ss)[i].Figure?
                        && RenderSections(ss)[i].value == ss[k].delta.consumption
  {
    if k > 0 {
      RenderSectionsShowConsumption(ss[1..], k - 1);
      assert ss[1..][k - 1] == ss[k];
    }
    assert RenderSections(ss) == RenderSection(ss[0]) + RenderSections(ss[1..]);
    FigureInConcat(RenderSection(ss[0]), RenderSections(ss[1..]), ss[k].delta.consumption);
  }

  /** A figure in either part is a figure in the concatenation. */
  lemma FigureInConcat(a: seq<Para>, b: seq<Para>, v: real)
    requires (exists i :: 0 <= i < |a| && a[i].Figure? && a[i].value == v)
          || (exists i :: 0 <= i < |b| && b[i].Figure? && b[i].value == v)
    ensures exists i :: 0 <= i < |a + b| && (a + b)[i].Figure? && (a + b)[i].value == v
  {
    if exists i :: 0 <= i < |a| && a[i].Figure? && a[i].value == v {
      var i :| 0 <= i < |a| && a[i].Figure? && a[i].value == v;
      assert (a + b)[i] == a[i];
    } else {
      var i :| 0 <= i < |b| && b[i].Figure? && b[i].value == v;
      assert (a + b)[|a| + i] == b[i];
    }
  }

  /** A signatory block is printed only when both its position and its name are non-empty. */
  predicate Complete(s: Signature) {
    s.position != "" && s.name != ""
  }

  /** The position, a space and the name, then a tab and the blank for the signature. */
  function SignatureLine(s: Signature): (p: Para)
    ensures p.Text?
    ensures |p.text| == |s.position| + 1 + |s.name| + |SignatureBlank|
    ensures p.text[..|s.position|] == s.position && p.text[|s.position|] == ' '
    ensures p.text[|s.position| + 1..|s.position| + 1 + |s.name|] == s.name
    ensures p.text[|p.text| - |SignatureBlank|..] == SignatureBlank
  {
    Text(s.position + " " + s.name + SignatureBlank)
  }

  const SignatureBlank := "\t/____________/"

  /** One line per complete signatory block, in settings order. */
  function SignatureLines(ss: seq<Signature>): (ps: seq<Para>)
    ensures |ps| <= |ss|
  {
    if |ss| == 0 then []
    else (if Complete(ss[0]) then [SignatureLine(ss[0])] else []) + SignatureLines(ss[1..])
  }

  /** The signature lines are the lines of the complete blocks, in order:
      incomplete blocks are dropped and nothing else changes. */
  lemma {:induction false} SignatureLinesAreCompleteBlocks(ss: seq<Signature>)
    ensures |SignatureLines(ss)| == |Seqs.Filter(ss, Complete)|
    ensures forall i :: 0 <= i < |SignatureLines(ss)| ==>
              SignatureLines(ss)[i] == SignatureLine(Seqs.Filter(ss, Complete)[i])
  {
    if |ss| > 0 {
      SignatureLinesAreCompleteBlocks(ss[1..]);
    }
  }

  /** The acknowledgement block that closes every registry. */
  const Closing: seq<Para> := [Text("Согласовано:"), Text("Арендатор ___________________/________________/")]

  /** The title line that opens every registry. */
  const Title := "РЕЕСТР\nвозмещения затрат за потребление электроэнергии и воды\n"

  /** The period line: "за <month name> <year> г." and a line break. */
  function PeriodLine(monthName: string, year: int): (t: string)
    ensures |t| > |monthName| + 3 && t[..3] == "за " && t[3..3 + |monthName|] == monthName
    ensures t[|t| - |PeriodEnd|..] == PeriodEnd
  {
    "за " + monthName + " " + Decimal.IntToString(year) + PeriodEnd
  }

  const PeriodEnd := " г.\n"

  /** Registries for the same month name but different years have different
      period lines. */
  lemma PeriodLineDistinguishesYears(monthName: string, y1: int, y2: int)
    requires PeriodLine(monthName, y1) == PeriodLine(monthName, y2)
    ensures y1 == y2
  {
    CancelAround("за " + monthName + " ", Decimal.IntToString(y1), Decimal.IntToString(y2), PeriodEnd);
    Decimal.IntToStringInjective(y1, y2);
  }

  /** A common prefix and suffix cancel. */
  lemma CancelAround<T>(h: seq<T>, a: seq<T>, b: seq<T>, e: seq<T>)
    requires h + a + e == h + b + e
    ensures a == b
  {
    assert |a| == |b|;
    assert a == (h + a + e)[|h|..|h| + |a|];
    assert b == (h + b + e)[|h|..|h| + |b|];
  }

  /** The three centred bold lines: title, period, subscriber. */
  function Header(r: Registry): (ps: seq<Para>)
    ensures |ps| == 3 && ps[0].Heading? && ps[1].Heading? && ps[2].Heading?
    ensures ps[0].text == Title
    ensures |ps[1].text| > |r.monthName| + 3 && ps[1].text[..3] == "за " && ps[1].text[3..3 + |r.monthName|] == r.monthName
    ensures ps[1].text == "за " + r.monthName + " " + Decimal.IntToString(r.year) + " г.\n"
    ensures ps[2].text == r.subscriber + "\n"
  {
    [Heading(Title), Heading(PeriodLine(r.monthName, r.year)), Heading(r.subscriber + "\n")]
  }

  /** The whole document: header, sections, signature lines, closing block. */
  function Render(r: Registry): (doc: seq<Para>)
    ensures |doc| >= 5
    ensures doc[..3] == Header(r)
    ensures doc[|doc| - 2..] == Closing
  {
    var head := Header(r);
    var body := RenderSections(r.sections) + SignatureLines(r.signatures);
    var doc := head + body + Closing;
    assert doc[..3] == head;
    assert doc[|doc| - 2..] == Closing;
    doc
  }

  /** A record whose four readings are all NULL renders as the header, the
      signature lines and the closing block, with no utility section. */
  lemma AllNullRecordRendersNoSections(subscriber: string, monthName: string, year: int, ratio: Option<real>,
                                       previous: Option<Reading>, signatures: seq<Signature>)
    ensures var r := Compose(subscriber, monthName, year, ratio, Reading(None, None, None, None), previous, signatures);
            Render(r) == Header(r) + SignatureLines(signatures) + Closing
  {
    AllNullRecordHasNoSections(previous, ratio);
    var r := Compose(subscriber, monthName, year, ratio, Reading(None, None, None, None), previous, signatures);
    assert RenderSections(r.sections) == [];
    assert Header(r) + [] == Header(r);
  }

  /** The signature lines sit immediately before the closing block, which is always last. */
  lemma RenderEndsWithSignaturesAndClosing(r: Registry)
    ensures var doc := Render(r);
            var n := |SignatureLines(r.signatures)|;
            doc[|doc| - 2 - n..] == SignatureLines(r.signatures) + Closing
  {
    var front := Header(r) + RenderSections(r.sections);
    var tail := SignatureLines(r.signatures) + Closing;
    assert Render(r) == front + tail;
  }

  /** The rendered sections fill the document between the header and the
      signature lines. */
  lemma RenderPlacesSections(r: Registry)
    ensures var doc := Render(r);
            3 + |RenderSections(r.sections)| == |doc| - 2 - |SignatureLines(r.signatures)| &&
            doc[3..|doc| - 2 - |SignatureLines(r.signatures)|] == RenderSections(r.sections)
  {
    MiddleOfFour(Header(r), RenderSections(r.sections), SignatureLines(r.signatures), Closing);
  }

  /** The second of four parts is the slice between the first and the last two. */
  lemma MiddleOfFour<T>(a: seq<T>, b: seq<T>, c: seq<T>, d: seq<T>)
    ensures var s := a + (b + c) + d;
            |s| - |d| - |c| == |a| + |b| && s[|a|..|s| - |d| - |c|] == b
  {
    var s := a + (b + c) + d;
    assert s == (a + b) + (c + d);
    assert (a + b)[|a|..] == b;
  }

  /** Every section's consumption appears in the document. */
  lemma RenderShowsEveryConsumption(r: Registry, k: int)
    requires 0 <= k < |r.sections|
    ensures exists i :: 0 <= i < |Render(r)| && Render(r)[i].Figure? && Render(r)[i].value == r.sections[k].delta.consumption
  {
    var body := RenderSections(r.sections);
    RenderSectionsShowConsumption(r.sections, k);
    var j :| 0 <= j < |body| && body[j].Figure? && body[j].value == r.sections[k].delta.consumption;
    RenderPlacesSections(r);
    assert Render(r)[3 + j] == body[j];
  }

  /** Signature lines end with the signature blank, so none is a section title. */
  lemma {:induction false} SignatureLinesHaveNoTitle(ss: seq<Signature>)
    ensures NoTitle(SignatureLines(ss))
  {
    if |ss| > 0 {
      SignatureLinesHaveNoTitle(ss[1..]);
      var first := if Complete(ss[0]) then [SignatureLine(ss[0])] else [];
      if Complete(ss[0]) {
        var t := SignatureLine(ss[0]).text;
        assert t[|t| - 1] == SignatureBlank[|SignatureBlank| - 1] == '/';
      }
      assert NoTitle(first);
      NoTitleConcat(first, SignatureLines(ss[1..]));
    }
  }

  /** The document shows the title of utility `u` iff `u` has a section. */
  lemma TitleInRenderIff(r: Registry, u: Utility)
    ensures Text(SectionTitle(u)) in Render(r) <==> u in UtilitiesOf(r.sections)
  {
    var title := Text(SectionTitle(u));
    InFour(title, Header(r), RenderSections(r.sections), SignatureLines(r.signatures), Closing);
    TitleInSectionsIff(r.sections, u);
    SignatureLinesHaveNoTitle(r.signatures);
    HeaderAndClosingHaveNoTitle(r);
    NoTitleExcludes(Header(r), u);
    NoTitleExcludes(SignatureLines(r.signatures), u);
    NoTitleExcludes(Closing, u);
  }

  /** Membership in a four-part document is membership in one of its parts. */
  lemma InFour<T>(x: T, a: seq<T>, b: seq<T>, c: seq<T>, d: seq<T>)
    ensures x in a + (b + c) + d <==> x in a || x in b || x in c || x in d
  {
  }

  /** Header lines are headings and the closing lines are not numbered. */
  lemma HeaderAndClosingHaveNoTitle(r: Registry)
    ensures NoTitle(Header(r)) && NoTitle(Closing)
  {
  }

  /** Title-free paragraphs contain no section title. */
  lemma NoTitleExcludes(ps: seq<Para>, u: Utility)
    requires NoTitle(ps)
    ensures Text(SectionTitle(u)) !in ps
  {
    assert IsTitle(Text(SectionTitle(u)));
  }

  /** A utility's section title is printed in the registry iff its current
      reading is present, whatever the previous record holds. */
  lemma SectionTitleInDocumentIff(subscriber: string, monthName: string, year: int, ratio: Option<real>,
                                  current: Reading, previous: Option<Reading>, signatures: seq<Signature>, u: Utility)
    ensures Text(SectionTitle(u)) in Render(Compose(subscriber, monthName, year, ratio, current, previous, signatures))
            <==> Field(current, u).Some?
  {
    var r := Compose(subscriber, monthName, year, ratio, current, previous, signatures);
    TitleInRenderIff(r, u);
    SectionPresentIffCurrent(current, previous, ratio, u);
  }

  /** An electricity meter read 100 last period and 120 now, with ratio 5:
      consumption 20, ratio-adjusted consumption 100, and the section shows both. */
  lemma ElectricityExample()
    ensures var d := Delta(100.0, 120.0, 20.0, 5.0, 100.0);
            && ComputeDelta(Some(120.0), Some(100.0), Multiplier(Electricity, Some(5.0))) == Some(d)
            && RenderSection(Section(Electricity, d))[3] == Figure("   - итого потребление: ", 20.0, KWh)
            && RenderSection(Section(Electricity, d))[5] == Figure(RatioTotalPrefix, 100.0, KWh)
  {
    RatioLineIffRatioNotOne(Section(Electricity, Delta(100.0, 120.0, 20.0, 5.0, 100.0)));
  }
}

/** The dashboard's readouts of one sensor packet and one fruit analysis:
    the weather label from the rain sensor, the weather text with its
    time-of-day fallback, the location label from the ultrasonic distance,
    and whether a disease or a treatment advice is to be shown. */
module Readouts {
  import opened JsStrings

  /** The weather label for an analog rain reading (4095 dry, 0 pouring). */
  function RainLabel(rain: int): (text: string)
    ensures rain < 1500 <==> text == "Mưa to"
    ensures 1500 <= rain < 2500 <==> text == "Có mưa nhỏ"
    ensures 2500 <= rain < 3500 <==> text == "Nhiều mây"
    ensures 3500 <= rain <==> text == "Nắng ráo"
  {
    if rain < 1500 then "Mưa to"
    else if rain < 2500 then "Có mưa nhỏ"
    else if rain < 3500 then "Nhiều mây"
    else "Nắng ráo"
  }

  /** A drier reading never shows a wetter label. */
  lemma RainLabelMonotone(wetter: int, drier: int)
    requires wetter <= drier
    ensures RainRank(RainLabel(wetter)) <= RainRank(RainLabel(drier))
  {
  }

  /** The labels from wettest (0) to driest (3). */
  function RainRank(text: string): nat
  {
    if text == "Mưa to" then 0
    else if text == "Có mưa nhỏ" then 1
    else if text == "Nhiều mây" then 2
    else 3
  }

  const MorningText := "Buổi sáng, trời trong"
  const AfternoonText := "Buổi chiều, có nắng"
  const EveningText := "Buổi tối, trời mát"

  /** The text for the hour of day, used when the reading has no weather text. */
  function HourText(hour: int): (text: string)
    ensures 6 <= hour < 12 <==> text == MorningText
    ensures 12 <= hour < 18 <==> text == AfternoonText
    ensures !(6 <= hour < 18) <==> text == EveningText
  {
    if 6 <= hour < 12 then MorningText
    else if 12 <= hour < 18 then AfternoonText
    else EveningText
  }

  /** `updatePlantInfoUI`'s weather text: the reading's own text unless it is
      missing, empty, "--" or blank, in which case the hour decides. */
  function WeatherText(weatherInfo: Option<string>, hour: int): (text: string)
    ensures Truthy(weatherInfo) && weatherInfo.value != "--" && !IsBlank(weatherInfo.value) ==> text == weatherInfo.value
    ensures !(Truthy(weatherInfo) && weatherInfo.value != "--" && !IsBlank(weatherInfo.value)) ==> text == HourText(hour)
  {
    var shown := if Truthy(weatherInfo) then weatherInfo.value else "--";
    if shown == "--" || IsBlank(shown) then HourText(hour) else shown
  }

  /** The weather text is never blank. */
  lemma WeatherTextNeverBlank(weatherInfo: Option<string>, hour: int)
    ensures !IsBlank(WeatherText(weatherInfo, hour))
  {
    var text := WeatherText(weatherInfo, hour);
    if text == HourText(hour) {
      assert text[0] == 'B';
    }
  }

  /** The location label for an ultrasonic distance in cm. */
  function LocationStatus(distance: real): (text: string)
    ensures distance < 10.0 <==> text == "Đang chăm sóc"
    ensures 10.0 <= distance <==> text == "Vườn 1"
  {
    if distance < 10.0 then "Đang chăm sóc" else "Vườn 1"
  }

  /** The disease and advice fields of a fruit analysis. */
  datatype Analysis = Analysis(benhTrenQua: Option<string>, benhTrenLa: Option<string>, deXuatXuLy: Option<string>)

  const NoDisease := "Không"
  const NoTreatment := "Không cần xử lý"

  /** A disease is shown when the fruit or leaf field is present and not "none": exactly
      when the health box lists a disease line. */
  predicate HasDisease(a: Analysis)
    ensures HasDisease(a) <==> DiseaseLines(a) != []
  {
    (Truthy(a.benhTrenQua) && a.benhTrenQua.value != NoDisease) ||
    (Truthy(a.benhTrenLa) && a.benhTrenLa.value != NoDisease)
  }

  /** Advice is shown when it is present and not "no treatment needed"; the box then
      ends with an advice line. */
  predicate HasAdvice(a: Analysis)
    ensures HasAdvice(a) ==> AdviceLines(a) != []
  {
    Truthy(a.deXuatXuLy) && a.deXuatXuLy.value != NoTreatment
  }

  /** One line of the health box: a fruit or leaf disease, or the treatment advice. */
  datatype HealthLine = FruitDisease(name: string) | LeafDisease(name: string) | Advice(text: string)

  /** What is drawn under an analysed fruit: a report (with a red border when `alarm`)
      holding its lines, or the "healthy" badge. */
  datatype HealthBox = HealthReport(alarm: bool, lines: seq<HealthLine>) | Healthy

  /** The disease lines of the report, fruit first. */
  function DiseaseLines(a: Analysis): seq<HealthLine>
  {
    (if Truthy(a.benhTrenQua) && a.benhTrenQua.value != NoDisease then [FruitDisease(a.benhTrenQua.value)] else []) +
    (if Truthy(a.benhTrenLa) && a.benhTrenLa.value != NoDisease then [LeafDisease(a.benhTrenLa.value)] else [])
  }

  /** The advice paragraph: any present advice, each ';' written as ".<br>". */
  function AdviceLines(a: Analysis): seq<HealthLine>
  {
    if Truthy(a.deXuatXuLy) then [Advice(ReplaceAllChar(a.deXuatXuLy.value, ';', ".<br>"))] else []
  }

  /** The box rendered for an analysis. */
  function HealthBoxOf(a: Analysis): HealthBox
  {
    if HasDisease(a) || HasAdvice(a) then HealthReport(HasDisease(a), DiseaseLines(a) + AdviceLines(a))
    else Healthy
  }

  /** A report is never empty and is red exactly when it lists a disease; the healthy
      badge appears exactly when neither test holds. */
  lemma HealthBoxShape(a: Analysis)
    ensures HealthBoxOf(a).Healthy? <==> !HasDisease(a) && !HasAdvice(a)
    ensures HealthBoxOf(a).HealthReport? ==> HealthBoxOf(a).lines != []
    ensures HealthBoxOf(a).HealthReport? ==>
      (HealthBoxOf(a).alarm <==> exists i :: 0 <= i < |HealthBoxOf(a).lines| && !HealthBoxOf(a).lines[i].Advice?)
  {
    var box := HealthBoxOf(a);
    if box.HealthReport? {
      var d, v := DiseaseLines(a), AdviceLines(a);
      assert box.lines == d + v;
      if box.alarm {
        assert box.lines[0] == d[0];
      } else {
        assert d == [];
        assert forall i :: 0 <= i < |box.lines| ==> box.lines[i] == v[i];
      }
    }
  }

  /** The advice paragraph keeps no ';'. */
  lemma AdviceHasNoSemicolon(a: Analysis)
    ensures forall l :: l in AdviceLines(a) ==> l.Advice? && ';' !in l.text
  {
    if Truthy(a.deXuatXuLy) {
      ReplaceAllCharRemoves(a.deXuatXuLy.value, ';', ".<br>");
    }
  }

  /** The advice paragraph is not filtered like `hasAdvice`: next to a disease, the
      "no treatment needed" advice is still printed. */
  lemma NoTreatmentStillPrinted(a: Analysis)
    requires HasDisease(a) && a.deXuatXuLy == Some(NoTreatment)
    ensures !HasAdvice(a)
    ensures HealthBoxOf(a) == HealthReport(true, DiseaseLines(a) + [Advice(NoTreatment)])
  {
    NoTreatmentVerbatim(a);
  }

  lemma NoTreatmentVerbatim(a: Analysis)
    requires a.deXuatXuLy == Some(NoTreatment)
    ensures AdviceLines(a) == [Advice(NoTreatment)]
  {
    var text := a.deXuatXuLy.value;
    assert ';' !in text;
    AdviceVerbatim(a, text);
  }

  /** Advice without ';' is printed as it is. */
  lemma AdviceVerbatim(a: Analysis, text: string)
    requires a.deXuatXuLy == Some(text) && text != "" && ';' !in text
    ensures AdviceLines(a) == [Advice(text)]
  {
    ReplaceAllCharFree(text, ';', ".<br>");
  }
}

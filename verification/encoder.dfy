/**
 * The feature encoder of the heart-disease screening page: the labels
 * picked in the form and its numeric inputs become the 15-slot vector the
 * pre-trained classifier was fitted on.
 */
module Encoder {
  import opened Wrappers
  import opened Text

  // ---------------------------------------------------------------------
  // The form: option strings of each select box and one submission
  // ---------------------------------------------------------------------

  const SexOptions: seq<string> := ["Laki-laki (M)", "Perempuan (F)"]
  const ChestPainOptions: seq<string> :=
    ["ASY: Asymptomatic", "ATA: Atypical Angina", "NAP: Non-Anginal", "TA: Typical Angina"]
  /** Fasting blood sugar and exercise angina share the answers "no", "yes". */
  const YesNoOptions: seq<string> := ["Tidak", "Ya"]
  const EcgOptions: seq<string> :=
    ["Normal", "ST: Abnormalitas ST-T", "LVH: Left Ventricular Hypertrophy"]
  const SlopeOptions: seq<string> := ["Up", "Flat", "Down"]

  /** One submission of the form, as the widgets hand it over. */
  datatype FormInput = FormInput(
    age: int,
    sex: string,
    cpType: string,
    restingBp: int,
    cholesterol: int,
    fastingBs: string,
    restingEcg: string,
    maxHr: int,
    exAngina: string,
    oldpeak: real,
    stSlope: string)

  /** The inputs the form can produce: the number-input bounds and the
      select-box options. */
  predicate FromForm(x: FormInput)
    ensures FromForm(x) ==> x.stSlope in SlopeMap
  {
    && 1 <= x.age <= 120
    && x.sex in SexOptions
    && x.cpType in ChestPainOptions
    && 0 <= x.restingBp <= 250
    && 0 <= x.cholesterol <= 700
    && x.fastingBs in YesNoOptions
    && x.restingEcg in EcgOptions
    && 50 <= x.maxHr <= 250
    && x.exAngina in YesNoOptions
    && -5.0 <= x.oldpeak <= 10.0
    && x.stSlope in SlopeOptions
  }

  // ---------------------------------------------------------------------
  // The feature vector: positions and names
  // ---------------------------------------------------------------------

  /** Column names of the encoded row, in the order the classifier was fitted on. */
  const FeatureNames: seq<string> := [
    "age", "restingbp", "cholesterol", "fastingbs", "maxhr", "oldpeak",
    "sex_encoded", "cp_ATA", "cp_NAP", "cp_TA",
    "exerciseangina_encoded", "st_slope_encoded", "ecg_ST", "ecg_LVH",
    "Cholesterol_missing"]

  const AGE: nat := 0
  const RESTING_BP: nat := 1
  const CHOLESTEROL: nat := 2
  const FASTING_BS: nat := 3
  const MAX_HR: nat := 4
  const OLDPEAK: nat := 5
  const SEX: nat := 6
  const CP_ATA: nat := 7
  const CP_NAP: nat := 8
  const CP_TA: nat := 9
  const EX_ANGINA: nat := 10
  const ST_SLOPE: nat := 11
  const ECG_ST: nat := 12
  const ECG_LVH: nat := 13
  const CHOL_MISSING: nat := 14

  /** The slot constants name the columns of FeatureNames, which are all distinct. */
  lemma FeatureNamesLayout()
    ensures |FeatureNames| == 15
    ensures forall i, j :: 0 <= i < j < |FeatureNames| ==> FeatureNames[i] != FeatureNames[j]
    ensures FeatureNames[AGE] == "age" && FeatureNames[RESTING_BP] == "restingbp"
    ensures FeatureNames[CHOLESTEROL] == "cholesterol" && FeatureNames[FASTING_BS] == "fastingbs"
    ensures FeatureNames[MAX_HR] == "maxhr" && FeatureNames[OLDPEAK] == "oldpeak"
    ensures FeatureNames[SEX] == "sex_encoded" && FeatureNames[CP_ATA] == "cp_ATA"
    ensures FeatureNames[CP_NAP] == "cp_NAP" && FeatureNames[CP_TA] == "cp_TA"
    ensures FeatureNames[EX_ANGINA] == "exerciseangina_encoded"
    ensures FeatureNames[ST_SLOPE] == "st_slope_encoded"
    ensures FeatureNames[ECG_ST] == "ecg_ST" && FeatureNames[ECG_LVH] == "ecg_LVH"
    ensures FeatureNames[CHOL_MISSING] == "Cholesterol_missing"
  {
  }

  /** The slots that hold a 0/1 indicator. */
  const IndicatorSlots: set<nat> :=
    {FASTING_BS, SEX, CP_ATA, CP_NAP, CP_TA, EX_ANGINA, ECG_ST, ECG_LVH, CHOL_MISSING}

  // ---------------------------------------------------------------------
  // Per-field encodings
  // ---------------------------------------------------------------------

  /** A 0/1 indicator, as `1 if cond else 0`. */
  function Flag(b: bool): (r: real)
    ensures r == 0.0 || r == 1.0
    ensures r == 1.0 <==> b
  {
    if b then 1.0 else 0.0
  }

  /** `1 if code in label else 0`: the label mentions the code anywhere. */
  function Mentions(text: string, code: string): (r: real)
    ensures r == 0.0 || r == 1.0
    ensures r == 1.0 <==> Contains(text, code)
  {
    Flag(Contains(text, code))
  }

  /** `1 if answer == "Ya" else 0`: only the exact answer "yes" counts. */
  function YesFlag(text: string): (r: real)
    ensures r == 0.0 || r == 1.0
    ensures r == 1.0 <==> text == YesNoOptions[1]
  {
    Flag(text == "Ya")
  }

  /** The ST-slope dictionary. */
  const SlopeMap: map<string, int> := map["Up" := 0, "Flat" := 1, "Down" := 2]

  /** The dictionary's keys are exactly the slope options, each mapped to its
      position among them. */
  lemma SlopeMapIsOptionPositions()
    ensures SlopeMap.Keys == set k | 0 <= k < |SlopeOptions| :: SlopeOptions[k]
    ensures forall k :: 0 <= k < |SlopeOptions| ==> SlopeMap[SlopeOptions[k]] == k
  {
    assert SlopeOptions[0] in SlopeMap && SlopeOptions[1] in SlopeMap && SlopeOptions[2] in SlopeMap;
  }

  /** Dictionary lookup of the ST slope; None is the KeyError an unknown label raises.
      The code of a known label is its position in SlopeOptions. */
  function SlopeCode(text: string): (r: Option<int>)
    ensures r.Some? <==> text in SlopeOptions
    ensures r.Some? ==> 0 <= r.value < |SlopeOptions| && SlopeOptions[r.value] == text
  {
    if text in SlopeMap then Some(SlopeMap[text]) else None
  }

  /** Training-set mean that stands in for an unmeasured cholesterol reading. */
  const ImputedCholesterol: real := 237.0

  /** A reading of 0 means "not measured" and is replaced by the imputed mean,
      so the sentinel 0 never reaches the classifier; a real reading is kept. */
  function CholesterolValue(cholesterol: int): (r: real)
    ensures r != 0.0
    ensures cholesterol != 0 ==> r == cholesterol as real
  {
    if cholesterol != 0 then cholesterol as real else ImputedCholesterol
  }

  // ---------------------------------------------------------------------
  // The encoder
  // ---------------------------------------------------------------------

  datatype EncodeError = UnknownSlope(slope: string)

  /** The 15-slot row the page builds from one submission, or the KeyError
      of the ST-slope lookup. */
  function Encode(x: FormInput): (r: Result<seq<real>, EncodeError>)
    ensures r.Failure? <==> x.stSlope !in SlopeOptions
    ensures r.Failure? ==> r.error == UnknownSlope(x.stSlope)
    ensures r.Success? ==> |r.value| == |FeatureNames|
    // every indicator slot holds 0 or 1
    ensures r.Success? ==> forall i :: i in IndicatorSlots ==> r.value[i] == 0.0 || r.value[i] == 1.0
    // the slope slot holds the position of the label among the slope options
    ensures r.Success? ==> r.value[ST_SLOPE] in {0.0, 1.0, 2.0} && SlopeOptions[r.value[ST_SLOPE].Floor] == x.stSlope
  {
    match SlopeCode(x.stSlope)
    case None => Failure(UnknownSlope(x.stSlope))
    case Some(slope) =>
      var v := [
        x.age as real, x.restingBp as real, CholesterolValue(x.cholesterol),
        YesFlag(x.fastingBs), x.maxHr as real, x.oldpeak,
        Mentions(x.sex, "Laki-laki"),
        Mentions(x.cpType, "ATA"), Mentions(x.cpType, "NAP"), Mentions(x.cpType, "TA"),
        YesFlag(x.exAngina), slope as real,
        Mentions(x.restingEcg, "ST"), Mentions(x.restingEcg, "LVH"),
        Flag(x.cholesterol == 0)];
      assert v[ST_SLOPE] == slope as real && v[ST_SLOPE].Floor == slope;
      Success(v)
  }

  // ---------------------------------------------------------------------
  // What each slot of a successful encoding holds
  // ---------------------------------------------------------------------

  /** Age, resting blood pressure, maximum heart rate and oldpeak are copied unchanged. */
  lemma NumericPassThrough(x: FormInput)
    requires Encode(x).Success?
    ensures Encode(x).value[AGE] == x.age as real
    ensures Encode(x).value[RESTING_BP] == x.restingBp as real
    ensures Encode(x).value[MAX_HR] == x.maxHr as real
    ensures Encode(x).value[OLDPEAK] == x.oldpeak
  {
  }

  /** A zero reading becomes the imputed mean with the missing flag set;
      any other reading is copied with the flag clear. */
  lemma CholesterolImputation(x: FormInput)
    requires Encode(x).Success?
    ensures x.cholesterol == 0 ==> Encode(x).value[CHOLESTEROL] == ImputedCholesterol
    ensures x.cholesterol != 0 ==> Encode(x).value[CHOLESTEROL] == x.cholesterol as real
    ensures Encode(x).value[CHOL_MISSING] == 1.0 <==> x.cholesterol == 0
  {
  }

  /** Sex is tested by substring, fasting blood sugar and exercise angina by
      exact comparison with "Ya". */
  lemma AnswerFlags(x: FormInput)
    requires Encode(x).Success?
    ensures Encode(x).value[SEX] == 1.0 <==> Contains(x.sex, "Laki-laki")
    ensures Encode(x).value[FASTING_BS] == 1.0 <==> x.fastingBs == "Ya"
    ensures Encode(x).value[EX_ANGINA] == 1.0 <==> x.exAngina == "Ya"
  {
  }

  /** Each chest-pain and ECG indicator is set exactly when its code occurs
      somewhere in the chosen label. */
  lemma CodeIndicators(x: FormInput)
    requires Encode(x).Success?
    ensures Encode(x).value[CP_ATA] == 1.0 <==> Contains(x.cpType, "ATA")
    ensures Encode(x).value[CP_NAP] == 1.0 <==> Contains(x.cpType, "NAP")
    ensures Encode(x).value[CP_TA] == 1.0 <==> Contains(x.cpType, "TA")
    ensures Encode(x).value[ECG_ST] == 1.0 <==> Contains(x.restingEcg, "ST")
    ensures Encode(x).value[ECG_LVH] == 1.0 <==> Contains(x.restingEcg, "LVH")
  {
  }

  // ---------------------------------------------------------------------
  // The form's option strings under the substring tests
  // ---------------------------------------------------------------------

  /** Chest pain ASY, the reference level, sets no indicator. */
  lemma AsymptomaticIndicators(cp: string)
    requires cp == ChestPainOptions[0]
    ensures Mentions(cp, "ATA") == 0.0 && Mentions(cp, "NAP") == 0.0 && Mentions(cp, "TA") == 0.0
  {
    MissingCharExcludes(cp, "ATA", 1);
    MissingCharExcludes(cp, "NAP", 0);
    MissingCharExcludes(cp, "TA", 0);
  }

  /** Chest pain ATA sets cp_ATA and also cp_TA, because "TA" occurs inside "ATA". */
  lemma AtypicalAnginaIndicators(cp: string)
    requires cp == ChestPainOptions[1]
    ensures Mentions(cp, "ATA") == 1.0 && Mentions(cp, "NAP") == 0.0 && Mentions(cp, "TA") == 1.0
  {
    assert OccursAt(cp, "ATA", 0) && OccursAt(cp, "TA", 1);
    MissingCharExcludes(cp, "NAP", 0);
  }

  /** Chest pain NAP sets cp_NAP only. */
  lemma NonAnginalIndicators(cp: string)
    requires cp == ChestPainOptions[2]
    ensures Mentions(cp, "ATA") == 0.0 && Mentions(cp, "NAP") == 1.0 && Mentions(cp, "TA") == 0.0
  {
    assert OccursAt(cp, "NAP", 0);
    MissingCharExcludes(cp, "ATA", 1);
    MissingCharExcludes(cp, "TA", 0);
  }

  /** Chest pain TA sets cp_TA only. */
  lemma TypicalAnginaIndicators(cp: string)
    requires cp == ChestPainOptions[3]
    ensures Mentions(cp, "ATA") == 0.0 && Mentions(cp, "NAP") == 0.0 && Mentions(cp, "TA") == 1.0
  {
    assert OccursAt(cp, "TA", 0);
    MissingPairExcludes(cp, "ATA");
    MissingCharExcludes(cp, "NAP", 0);
  }

  /** Resting ECG "Normal" sets neither indicator. */
  lemma NormalEcgIndicators(ecg: string)
    requires ecg == EcgOptions[0]
    ensures Mentions(ecg, "ST") == 0.0 && Mentions(ecg, "LVH") == 0.0
  {
    MissingCharExcludes(ecg, "ST", 0);
    MissingCharExcludes(ecg, "LVH", 0);
  }

  /** Resting ECG "ST" sets ecg_ST only. */
  lemma StAbnormalityIndicators(ecg: string)
    requires ecg == EcgOptions[1]
    ensures Mentions(ecg, "ST") == 1.0 && Mentions(ecg, "LVH") == 0.0
  {
    assert OccursAt(ecg, "ST", 0);
    MissingCharExcludes(ecg, "LVH", 0);
  }

  /** Resting ECG "LVH" sets ecg_LVH only. */
  lemma LvhIndicators(ecg: string)
    requires ecg == EcgOptions[2]
    ensures Mentions(ecg, "ST") == 0.0 && Mentions(ecg, "LVH") == 1.0
  {
    assert OccursAt(ecg, "LVH", 0);
    MissingCharExcludes(ecg, "ST", 0);
  }

  /** Sex: the male option is encoded 1, the female option 0. */
  lemma SexOptionFlags(sex: string)
    requires sex in SexOptions
    ensures Mentions(sex, "Laki-laki") == 1.0 <==> sex == SexOptions[0]
  {
    if sex == SexOptions[0] {
      assert OccursAt(sex, "Laki-laki", 0);
    } else {
      MissingCharExcludes(sex, "Laki-laki", 0);
    }
  }

  /** For every label whatsoever, cp_ATA = 1 forces cp_TA = 1: no input
      sets cp_ATA alone. */
  lemma AtaForcesTa(x: FormInput)
    requires Encode(x).Success? && Encode(x).value[CP_ATA] == 1.0
    ensures Encode(x).value[CP_TA] == 1.0
  {
    CodeIndicators(x);
    assert OccursAt("ATA", "TA", 1);
    ContainsTransitive(x.cpType, "ATA", "TA");
  }

  // ---------------------------------------------------------------------
  // Nothing a form submission says is lost
  // ---------------------------------------------------------------------

  /** The chest-pain option a row's three indicators stand for. */
  function DecodeChestPain(ata: real, nap: real, ta: real): string
  {
    if nap == 1.0 then ChestPainOptions[2]
    else if ata == 1.0 then ChestPainOptions[1]
    else if ta == 1.0 then ChestPainOptions[3]
    else ChestPainOptions[0]
  }

  /** The resting-ECG option a row's two indicators stand for. */
  function DecodeEcg(st: real, lvh: real): string
  {
    if st == 1.0 then EcgOptions[1]
    else if lvh == 1.0 then EcgOptions[2]
    else EcgOptions[0]
  }

  /** The yes/no answer a 0/1 flag stands for. */
  function DecodeAnswer(flag: real): string
  {
    if flag == 1.0 then YesNoOptions[1] else YesNoOptions[0]
  }

  /** The slope option whose position the slope slot holds. */
  function DecodeSlope(code: real): string
  {
    var k := code.Floor;
    if 0 <= k < |SlopeOptions| then SlopeOptions[k] else ""
  }

  /** Reads a form submission back from an encoded row. */
  function Decode(v: seq<real>): FormInput
    requires |v| == |FeatureNames|
  {
    FormInput(
      age := v[AGE].Floor,
      sex := if v[SEX] == 1.0 then SexOptions[0] else SexOptions[1],
      cpType := DecodeChestPain(v[CP_ATA], v[CP_NAP], v[CP_TA]),
      restingBp := v[RESTING_BP].Floor,
      cholesterol := if v[CHOL_MISSING] == 1.0 then 0 else v[CHOLESTEROL].Floor,
      fastingBs := DecodeAnswer(v[FASTING_BS]),
      restingEcg := DecodeEcg(v[ECG_ST], v[ECG_LVH]),
      maxHr := v[MAX_HR].Floor,
      exAngina := DecodeAnswer(v[EX_ANGINA]),
      oldpeak := v[OLDPEAK],
      stSlope := DecodeSlope(v[ST_SLOPE]))
  }

  /** Every chest-pain option is told apart by its three indicators, ATA's
      double indicator included. */
  lemma ChestPainRoundTrip(cp: string)
    requires cp in ChestPainOptions
    ensures DecodeChestPain(Mentions(cp, "ATA"), Mentions(cp, "NAP"), Mentions(cp, "TA")) == cp
  {
    if cp == ChestPainOptions[0] {
      AsymptomaticIndicators(cp);
    } else if cp == ChestPainOptions[1] {
      AtypicalAnginaIndicators(cp);
    } else if cp == ChestPainOptions[2] {
      NonAnginalIndicators(cp);
    } else {
      TypicalAnginaIndicators(cp);
    }
  }

  /** Every resting-ECG option is told apart by its two indicators. */
  lemma EcgRoundTrip(ecg: string)
    requires ecg in EcgOptions
    ensures DecodeEcg(Mentions(ecg, "ST"), Mentions(ecg, "LVH")) == ecg
  {
    if ecg == EcgOptions[0] {
      NormalEcgIndicators(ecg);
    } else if ecg == EcgOptions[1] {
      StAbnormalityIndicators(ecg);
    } else {
      LvhIndicators(ecg);
    }
  }

  /** Every submission the form can produce is encoded without error, and can
      be read back from its row: the imputed cholesterol is told apart from a
      real reading by the missing flag, and ATA's double indicator from every
      other chest-pain option. */
  lemma DecodeEncode(x: FormInput)
    requires FromForm(x)
    ensures Encode(x).Success?
    ensures Decode(Encode(x).value) == x
  {
    var v := Encode(x).value;
    NumericPassThrough(x);
    CholesterolImputation(x);
    AnswerFlags(x);
    CodeIndicators(x);
    ChestPainRoundTrip(x.cpType);
    EcgRoundTrip(x.restingEcg);
    SexOptionFlags(x.sex);
    var d := Decode(v);
    assert d.sex == x.sex;
    assert d.cpType == x.cpType;
    assert d.restingEcg == x.restingEcg;
    assert d.fastingBs == x.fastingBs;
    assert d.exAngina == x.exAngina;
    assert d.cholesterol == x.cholesterol;
    assert d.stSlope == x.stSlope;
  }

  /** Two different form submissions never produce the same row. */
  lemma EncodeInjective(x: FormInput, y: FormInput)
    requires FromForm(x) && FromForm(y)
    requires Encode(x) == Encode(y)
    ensures x == y
  {
    DecodeEncode(x);
    DecodeEncode(y);
  }

  /** The imputed mean alone could be confused with a real reading of 237;
      the missing flag is what separates them. */
  lemma MissingFlagSeparatesImputation(x: FormInput)
    requires FromForm(x) && x.cholesterol == 0
    ensures var y := x.(cholesterol := 237);
      FromForm(y) && Encode(x).value[CHOLESTEROL] == Encode(y).value[CHOLESTEROL]
      && Encode(x).value[CHOL_MISSING] == 1.0 && Encode(y).value[CHOL_MISSING] == 0.0
  {
  }

  // ---------------------------------------------------------------------
  // Worked submissions
  // ---------------------------------------------------------------------

  /** A 50-year-old man, asymptomatic, every flag "no", slope Up. */
  const ScenarioA: FormInput := FormInput(
    50, "Laki-laki (M)", "ASY: Asymptomatic", 120, 200, "Tidak", "Normal", 150, "Tidak", 0.0, "Up")

  lemma ScenarioAEncoding()
    ensures Encode(ScenarioA) ==
      Success([50.0, 120.0, 200.0, 0.0, 150.0, 0.0, 1.0, 0.0, 0.0, 0.0, 0.0, 0.0, 0.0, 0.0, 0.0])
  {
    var x := ScenarioA;
    SexOptionFlags(x.sex);
    AsymptomaticIndicators(x.cpType);
    NormalEcgIndicators(x.restingEcg);
  }

  /** The same man with no cholesterol reading: only the cholesterol slot
      (now the imputed mean) and the missing flag change. */
  lemma ScenarioBEncoding()
    ensures Encode(ScenarioA.(cholesterol := 0)) ==
      Success([50.0, 120.0, 237.0, 0.0, 150.0, 0.0, 1.0, 0.0, 0.0, 0.0, 0.0, 0.0, 0.0, 0.0, 1.0])
  {
    var x := ScenarioA.(cholesterol := 0);
    SexOptionFlags(x.sex);
    AsymptomaticIndicators(x.cpType);
    NormalEcgIndicators(x.restingEcg);
  }

  /** The chest-pain slots are not one-hot as written: a submission the form
      can produce sets two of them. */
  lemma AtypicalAnginaSetsTwoIndicators()
    ensures var x := ScenarioA.(cpType := ChestPainOptions[1]);
      FromForm(x) && Encode(x).Success?
      && Encode(x).value[CP_ATA] == 1.0 && Encode(x).value[CP_TA] == 1.0
  {
    AtypicalAnginaIndicators(ChestPainOptions[1]);
  }

  // ---------------------------------------------------------------------
  // One-hot chest-pain encoding, as the trained columns mean it
  // ---------------------------------------------------------------------

  /** cp_ATA, cp_NAP, cp_TA set by the option's code before the colon, so
      that "TA" no longer matches the ATA option; ASY stays the reference
      level. At most one indicator is set, whatever the label. */
  function OneHotChestPain(cp: string): (r: seq<real>)
    ensures |r| == 3
    ensures forall i :: 0 <= i < 3 ==> r[i] == 0.0 || r[i] == 1.0
    ensures forall i, j :: 0 <= i < j < 3 ==> r[i] == 0.0 || r[j] == 0.0
  {
    assert "ATA:" <= cp ==> cp[0] == 'A';
    assert "NAP:" <= cp ==> cp[0] == 'N';
    assert "TA:" <= cp ==> cp[0] == 'T';
    [Flag("ATA:" <= cp), Flag("NAP:" <= cp), Flag("TA:" <= cp)]
  }

  /** The row with the chest-pain slots one-hot encoded; every other slot
      is the one Encode produces. */
  function EncodeOneHot(x: FormInput): (r: Result<seq<real>, EncodeError>)
    ensures r.Failure? <==> Encode(x).Failure?
    ensures r.Success? ==> |r.value| == |FeatureNames|
    ensures r.Success? ==> r.value[CP_ATA..CP_TA + 1] == OneHotChestPain(x.cpType)
    ensures r.Success? ==> forall i :: 0 <= i < |FeatureNames| && i !in {CP_ATA, CP_NAP, CP_TA}
                                   ==> r.value[i] == Encode(x).value[i]
  {
    match Encode(x)
    case Failure(e) => Failure(e)
    case Success(v) =>
      var cp := OneHotChestPain(x.cpType);
      Success(v[CP_ATA := cp[0]][CP_NAP := cp[1]][CP_TA := cp[2]])
  }

  /** On the form's chest-pain options the one-hot indicators are those of
      the option's position, ASY (position 0) setting none. */
  lemma OneHotOfOptions(cp: string)
    requires cp in ChestPainOptions
    ensures OneHotChestPain(cp) ==
      [Flag(cp == ChestPainOptions[1]), Flag(cp == ChestPainOptions[2]), Flag(cp == ChestPainOptions[3])]
  {
    if cp == ChestPainOptions[0] {
      assert cp[0] == 'A' && cp[1] == 'S';
    } else if cp == ChestPainOptions[1] {
      assert cp[..4] == "ATA:" && cp[0] == 'A';
    } else if cp == ChestPainOptions[2] {
      assert cp[..4] == "NAP:" && cp[0] == 'N';
    } else {
      assert cp[..3] == "TA:" && cp[0] == 'T';
    }
  }

  /** On the form's chest-pain options the one-hot triple and the substring
      triple agree on cp_ATA and cp_NAP, and differ on cp_TA exactly for ATA. */
  lemma OneHotVersusSubstring(cp: string)
    requires cp in ChestPainOptions
    ensures OneHotChestPain(cp)[0] == Mentions(cp, "ATA")
    ensures OneHotChestPain(cp)[1] == Mentions(cp, "NAP")
    ensures OneHotChestPain(cp)[2] != Mentions(cp, "TA") <==> cp == ChestPainOptions[1]
  {
    OneHotOfOptions(cp);
    if cp == ChestPainOptions[0] {
      AsymptomaticIndicators(cp);
    } else if cp == ChestPainOptions[1] {
      AtypicalAnginaIndicators(cp);
    } else if cp == ChestPainOptions[2] {
      NonAnginalIndicators(cp);
    } else {
      TypicalAnginaIndicators(cp);
    }
  }

  /** On every form submission the one-hot row equals the row as written,
      except in slot cp_TA, and there exactly when ATA was chosen. */
  lemma OneHotDiffersOnlyForAtypical(x: FormInput)
    requires FromForm(x)
    ensures EncodeOneHot(x).Success? && Encode(x).Success?
    ensures forall i :: 0 <= i < |FeatureNames| && i != CP_TA ==> EncodeOneHot(x).value[i] == Encode(x).value[i]
    ensures EncodeOneHot(x).value[CP_TA] != Encode(x).value[CP_TA] <==> x.cpType == ChestPainOptions[1]
  {
    CodeIndicators(x);
    OneHotVersusSubstring(x.cpType);
    var w, v := EncodeOneHot(x).value, Encode(x).value;
    assert w[CP_ATA] == w[CP_ATA..CP_TA + 1][0] && w[CP_NAP] == w[CP_ATA..CP_TA + 1][1];
    assert w[CP_TA] == w[CP_ATA..CP_TA + 1][2];
  }
}

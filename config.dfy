/** The static configuration tables: the four length tiers and the six stage definitions. */
module Config {
  import opened Types

  datatype LengthConfig = LengthConfig(labelText: string, description: string)
  datatype CharTarget = CharTarget(min: int, max: int)

  /** A stage definition: its type tag, its display name and its short description. */
  datatype StepConfig = StepConfig(tag: string, name: string, description: string)

  const LengthKeys: set<string> := {"BRIEF", "SHORT", "MEDIUM", "LONG"}

  const LengthConfigTable: map<string, LengthConfig> := map[
    "BRIEF" := LengthConfig("1,000자 내외 (단신/속보)", "핵심 정보와 신속한 전달"),
    "SHORT" := LengthConfig("2,000~3,000자 (심층 보도)", "핵심 쟁점과 분석 중심"),
    "MEDIUM" := LengthConfig("3,000~5,000자 (기획 연재)", "다양한 인터뷰와 데이터 포함"),
    "LONG" := LengthConfig("5,000자 이상 (대하 르포)", "역사적 배경부터 미래 전망까지 망라")
  ]

  const LengthTargetChars: map<string, CharTarget> := map[
    "BRIEF" := CharTarget(800, 1200),
    "SHORT" := CharTarget(1800, 3200),
    "MEDIUM" := CharTarget(2800, 5200),
    "LONG" := CharTarget(4800, 6000)
  ]

  const StepsConfig: seq<StepConfig> := [
    StepConfig("TOPIC", "Topic Smith", "뉴스 가치 분석 및 기사 방향 확정"),
    StepConfig("ANGLE", "Angle Smith", "독보적인 보도 관점(Angle) 설정"),
    StepConfig("READER", "Reader Smith", "전문 용어 해설 및 배경 지식 보강"),
    StepConfig("STRUCTURE", "Structure Smith", "전체 기사 구성안 및 소제목 설계"),
    StepConfig("DRAFT", "Draft Smith", "본문 집중 집필 (설계도 기반)"),
    StepConfig("FINAL", "Final Check", "최종 퇴고 및 팩트 체크 문장 다듬기")
  ]

  /** Both length tables are keyed by exactly the four tier keys. */
  lemma LengthTablesKeys()
    ensures LengthConfigTable.Keys == LengthKeys
    ensures LengthTargetChars.Keys == LengthKeys
    ensures forall len: ArticleLength :: len.Key() in LengthKeys
    ensures forall k :: k in LengthKeys ==> exists len: ArticleLength :: len.Key() == k
  {
    assert Brief.Key() == "BRIEF" && Short.Key() == "SHORT";
    assert Medium.Key() == "MEDIUM" && Long.Key() == "LONG";
  }

  /** `LENGTH_CONFIG[targetLength]`: defined for every tier. */
  function LengthGuide(len: ArticleLength): (c: LengthConfig)
    ensures len.Key() in LengthConfigTable && c == LengthConfigTable[len.Key()]
  {
    LengthTablesKeys();
    LengthConfigTable[len.Key()]
  }

  /** `LENGTH_TARGET_CHARS[targetLength]`: defined for every tier, with 0 < min < max. */
  function TargetChars(len: ArticleLength): (t: CharTarget)
    ensures len.Key() in LengthTargetChars && t == LengthTargetChars[len.Key()]
    ensures 0 < t.min < t.max
  {
    LengthTablesKeys();
    LengthTargetChars[len.Key()]
  }

  /** Both bounds of the tiers grow strictly from BRIEF through LONG. */
  lemma TiersIncrease()
    ensures TargetChars(Brief).min < TargetChars(Short).min < TargetChars(Medium).min < TargetChars(Long).min
    ensures TargetChars(Brief).max < TargetChars(Short).max < TargetChars(Medium).max < TargetChars(Long).max
  {
  }

  /** Six stages whose names, in order, are the names of the `WritingStep` values. */
  lemma StepsConfigMatchesSteps()
    ensures |StepsConfig| == StepCount
    ensures forall i :: 0 <= i < StepCount ==> StepsConfig[i].name == StepAt(i).Name()
  {
  }

  /** The type tags are pairwise distinct. */
  lemma StepTagsDistinct()
    ensures forall i, j :: 0 <= i < j < |StepsConfig| ==> StepsConfig[i].tag != StepsConfig[j].tag
  {
  }

  /** `configs.find(c => c.name === name)`: the first definition with that name, if any. */
  function FindByName(configs: seq<StepConfig>, name: string): (r: Option<StepConfig>)
    ensures r.None? <==> forall i :: 0 <= i < |configs| ==> configs[i].name != name
    ensures r.Some? ==> exists i :: 0 <= i < |configs| && configs[i] == r.value && r.value.name == name
                                    && forall j :: 0 <= j < i ==> configs[j].name != name
    decreases |configs|
  {
    if configs == [] then None
    else if configs[0].name == name then Some(configs[0])
    else
      var r := FindByName(configs[1..], name);
      assert r.Some? ==> exists i :: 0 <= i < |configs[1..]| && configs[1..][i] == r.value && r.value.name == name
                                      && forall j :: 0 <= j < i ==> configs[1..][j].name != name;
      if r.Some? then
        var i :| 0 <= i < |configs[1..]| && configs[1..][i] == r.value && r.value.name == name
                 && forall j :: 0 <= j < i ==> configs[1..][j].name != name;
        assert configs[i + 1] == r.value;
        assert forall j :: 0 <= j < i + 1 ==> configs[j].name != name by {
          forall j | 0 <= j < i + 1 ensures configs[j].name != name {
            if j > 0 { assert configs[j] == configs[1..][j - 1]; }
          }
        }
        r
      else r
  }

  /** The service's lookup by stage name always finds that stage's own definition. */
  lemma {:induction false} LookupByStepName(w: WritingStep)
    ensures FindByName(StepsConfig, w.Name()) == Some(StepsConfig[w.Index()])
  {
    StepsConfigMatchesSteps();
    var r := FindByName(StepsConfig, w.Name());
    assert StepsConfig[w.Index()].name == w.Name();
    var i :| 0 <= i < |StepsConfig| && StepsConfig[i] == r.value && r.value.name == w.Name()
             && forall j :: 0 <= j < i ==> StepsConfig[j].name != w.Name();
    NamesDistinct(StepAt(i), w);
    StepAtIndex(w);
  }
}

/** The severity scale, the property-key lookup every severity-keyed object
    literal of the service performs, and the shape of the service's fixed content:
    per-severity text tables, cost options and mock scenarios. */
module Tables {
  import opened Js
  import opened Oracle

  datatype Severity = Low | Medium | High | Critical {
    /** The string the source stores in the severity slot. */
    function Name(): (n: string)
      ensures n != ""
    {
      match this
      case Low => "low"
      case Medium => "medium"
      case High => "high"
      case Critical => "critical"
    }

    /** Position on the scale, for monotonicity statements. */
    function Rank(): nat {
      match this
      case Low => 0
      case Medium => 1
      case High => 2
      case Critical => 3
    }
  }

  /** The own keys of every severity-keyed object literal in the source. */
  const SeverityKeys: map<string, Severity> :=
    map["low" := Low, "medium" := Medium, "high" := High, "critical" := Critical]

  /** `table[severity]` on a severity-keyed object literal. */
  function SeverityLookup(severity: JsValue): Lookup<Severity> {
    LookupIn(SeverityKeys, severity)
  }

  /** The table a selector ends up using when the lookup neither hits an inherited
      member nor throws: `table[severity] || table['medium']`. */
  function TableSeverity(severity: JsValue): Severity {
    match SeverityLookup(severity)
    case Own(s) => s
    case _ => Medium
  }

  /** A selector fails on this severity: converting it to a key throws, or the key
      names an Object.prototype member, which is no list to sort. */
  predicate SelectorThrows(severity: JsValue) {
    SeverityLookup(severity).Unconvertible? || SeverityLookup(severity).Inherited?
  }

  lemma {:induction false} NameLooksUpItself(s: Severity)
    ensures SeverityLookup(Str(s.Name())) == Own(s)
    ensures TableSeverity(Str(s.Name())) == s
  {
    assert KeyName(Str(s.Name())) == Some(s.Name());
    assert s.Name() in SeverityKeys && SeverityKeys[s.Name()] == s;
  }

  /** No severity name is an Object.prototype member, so each of those members is
      found by inheritance on every severity-keyed table. */
  lemma {:induction false} PrototypeKeysInherited(k: string)
    requires k in ObjectPrototypeMembers
    ensures SeverityLookup(Str(k)) == Inherited(k)
  {
    assert "low" !in ObjectPrototypeMembers && "medium" !in ObjectPrototypeMembers;
    assert "high" !in ObjectPrototypeMembers && "critical" !in ObjectPrototypeMembers;
  }

  /** One priced option of costsBySeverity. */
  datatype CostOption = CostOption(min: nat, max: nat, note: string)

  /** One of the mock scenarios of getFallbackAnalysis. */
  datatype Scenario = Scenario(
    diagnosis: string,
    confidence: real,
    severity: Severity,
    teethCondition: string,
    boneStructure: string,
    gumHealth: string,
    rootCanals: string,
    cavities: seq<string>,
    periodontalStatus: string,
    immediate: seq<string>,
    shortTerm: seq<string>,
    longTerm: seq<string>,
    riskFactors: seq<string>)
  {
    /** Every text is non-empty and the confidence positive, so that no slot of a
        report built from the scenario is falsy. */
    predicate Complete() {
      && diagnosis != "" && confidence > 0.0 && teethCondition != "" && boneStructure != ""
      && gumHealth != "" && rootCanals != "" && periodontalStatus != ""
      && (forall i :: 0 <= i < |cavities| ==> cavities[i] != "")
    }
  }

  /** The fixed content the service draws from: recommendationsBySeverity,
      findingsByCategory, riskFactorsByCategory, costsBySeverity and mockScenarios.
      The proofs rely only on the shape Fits states; Content.Source holds the text. */
  datatype Catalog = Catalog(
    recommendations: Severity -> seq<string>,
    findings: Severity -> seq<string>,
    riskFactors: Severity -> seq<string>,
    costs: Severity -> seq<CostOption>,
    scenarios: seq<Scenario>)
  {
    predicate FitsAt(s: Severity) {
      && |recommendations(s)| == 7 && Distinct(recommendations(s))
      && |findings(s)| == 7 && Distinct(findings(s))
      && |riskFactors(s)| == (if s == Low then 4 else 5) && Distinct(riskFactors(s))
      && |costs(s)| == 4
      && (forall i :: 0 <= i < |costs(s)| ==> costs(s)[i].min <= costs(s)[i].max)
    }

    /** Seven distinct recommendations and seven distinct findings per severity,
        four distinct risk factors for low and five for the others, four cost
        intervals per severity, and ten complete scenarios. */
    predicate Fits() {
      && FitsAt(Low) && FitsAt(Medium) && FitsAt(High) && FitsAt(Critical)
      && |scenarios| == 10
      && (forall i :: 0 <= i < |scenarios| ==> scenarios[i].Complete())
    }
  }

  lemma FitsEverywhere(c: Catalog, s: Severity)
    requires c.Fits()
    ensures c.FitsAt(s)
  {
  }
}

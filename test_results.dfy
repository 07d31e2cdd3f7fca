/**
 * The results panel (src/components/TestResults.tsx): the risk-tier
 * classifier behind `getRiskBadge`, the icon choice of `getStatusIcon`, the
 * badge variant of a test case, and the literal rows these are applied to.
 * Rendered badges and icons are modelled by enumerations.
 */
module TestResults {
  import opened Wrappers

  /** The three badges `getRiskBadge` can render. */
  datatype RiskTier = HighRisk | MediumRisk | LowRisk {
    /** The badge text. */
    function Label(): string {
      match this
      case HighRisk => "High Risk"
      case MediumRisk => "Medium Risk"
      case LowRisk => "Low Risk"
    }

    /** The order of the tiers, lowest first. */
    function Rank(): nat {
      match this
      case LowRisk => 0
      case MediumRisk => 1
      case HighRisk => 2
    }
  }

  const HighThreshold := 80
  const MediumThreshold := 60

  /** `getRiskBadge`: the first test that holds, `score >= 80`, then `score >= 60`. */
  function RiskBadge(score: int): RiskTier {
    if score >= HighThreshold then HighRisk
    else if score >= MediumThreshold then MediumRisk
    else LowRisk
  }

  /** The three tiers partition the scores at 60 and 80. */
  lemma RiskBadgeTiers(score: int)
    ensures RiskBadge(score) == HighRisk <==> score >= 80
    ensures RiskBadge(score) == MediumRisk <==> 60 <= score < 80
    ensures RiskBadge(score) == LowRisk <==> score < 60
  {
  }

  /** A higher score never gets a lower tier. */
  lemma RiskBadgeMonotone(a: int, b: int)
    requires a <= b
    ensures RiskBadge(a).Rank() <= RiskBadge(b).Rank()
  {
  }

  /** The tier labels are distinct, so a status string names at most one tier. */
  lemma LabelsDistinct(s: RiskTier, t: RiskTier)
    ensures s.Label() == t.Label() <==> s == t
  {
    if s != t {
      // the labels already differ in their first character
      assert s.Label()[0] != t.Label()[0];
    }
  }

  /** One row of the "Suspicious Activity Detected" table. */
  datatype DetectionResult = DetectionResult(
    accountId: string,
    riskScore: int,
    pattern: string,
    transactions: nat,
    totalAmount: nat,
    status: string)

  const DetectionResults: seq<DetectionResult> := [
    DetectionResult("ACC123456", 95, "Structuring", 8, 76400, "High Risk"),
    DetectionResult("ACC789012", 78, "Velocity", 12, 145000, "Medium Risk"),
    DetectionResult("ACC456789", 88, "Cross-border", 5, 89000, "High Risk")
  ]

  /** The table renders `getRiskBadge(riskScore)`, not `status`; the two agree
      on every literal row (95 is High, 78 is Medium, 88 is High), and the
      tier a row's `status` names is the only one with that label. */
  lemma DetectionStatusAgrees()
    ensures forall k :: 0 <= k < |DetectionResults| ==>
              DetectionResults[k].status == RiskBadge(DetectionResults[k].riskScore).Label()
    ensures forall k, t: RiskTier :: 0 <= k < |DetectionResults| && t.Label() == DetectionResults[k].status ==>
              t == RiskBadge(DetectionResults[k].riskScore)
  {
    forall k, t: RiskTier | 0 <= k < |DetectionResults| && t.Label() == DetectionResults[k].status
      ensures t == RiskBadge(DetectionResults[k].riskScore)
    {
      LabelsDistinct(t, RiskBadge(DetectionResults[k].riskScore));
    }
  }

  /** The three icons `getStatusIcon` can render. */
  datatype StatusIcon = CheckCircle | AlertTriangle | XCircle

  /** `getStatusIcon`: a switch over the status string, `null` by default. */
  function GetStatusIcon(status: string): Option<StatusIcon> {
    if status == "passed" then Some(CheckCircle)
    else if status == "warning" then Some(AlertTriangle)
    else if status == "failed" then Some(XCircle)
    else None
  }

  /** passed, warning and failed get three distinct icons; any other status
      gets none. */
  lemma StatusIconCases(status: string)
    ensures GetStatusIcon("passed") == Some(CheckCircle)
    ensures GetStatusIcon("warning") == Some(AlertTriangle)
    ensures GetStatusIcon("failed") == Some(XCircle)
    ensures GetStatusIcon(status).Some? <==> status in ["passed", "warning", "failed"]
  {
  }

  /** Two statuses that get an icon get the same icon only if they are equal. */
  lemma StatusIconInjective(s: string, t: string)
    requires GetStatusIcon(s).Some? && GetStatusIcon(s) == GetStatusIcon(t)
    ensures s == t
  {
  }

  /** The two `Badge` variants of a test case. */
  datatype BadgeVariant = Default | Secondary

  /** `test.status === 'passed' ? 'default' : 'secondary'`. */
  function TestCaseVariant(status: string): BadgeVariant {
    if status == "passed" then Default else Secondary
  }

  /** The variant is 'default' exactly when the status is 'passed', which is
      exactly when the icon is the check mark. */
  lemma TestCaseVariantIff(status: string)
    ensures TestCaseVariant(status) == Default <==> status == "passed"
    ensures TestCaseVariant(status) == Default <==> GetStatusIcon(status) == Some(CheckCircle)
  {
  }

  /** One entry of the "Test Case Results" list. */
  datatype TestCase = TestCase(name: string, status: string, details: string)

  const TestCases: seq<TestCase> := [
    TestCase("Structuring Detection", "passed", "15/15 test cases passed"),
    TestCase("False Positive Rate", "passed", "Below 5% threshold"),
    TestCase("Performance Benchmark", "passed", "Processing 10k records/sec"),
    TestCase("Edge Case Handling", "warning", "2 minor issues identified")
  ]

  /** Number of test cases in `cases` that get the 'default' badge. */
  function DefaultCount(cases: seq<TestCase>): nat {
    if cases == [] then 0
    else DefaultCount(cases[..|cases| - 1])
         + (if TestCaseVariant(cases[|cases| - 1].status) == Default then 1 else 0)
  }

  /** Every literal test case gets an icon; three get the 'default' badge and
      one, the warning, gets 'secondary'. */
  lemma TestCasesRendering()
    ensures forall k :: 0 <= k < |TestCases| ==> GetStatusIcon(TestCases[k].status).Some?
    ensures DefaultCount(TestCases) == 3
    ensures TestCaseVariant(TestCases[3].status) == Secondary
  {
    var c := TestCases;
    assert c[..1][..0] == [];
    assert DefaultCount(c[..1]) == 1;
    assert c[..2][..1] == c[..1];
    assert DefaultCount(c[..2]) == 2;
    assert c[..3][..2] == c[..2];
    assert DefaultCount(c[..3]) == 3;
    assert c[..3] == c[..|c| - 1];
  }
}

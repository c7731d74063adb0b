/** The builder's six-part architecture score (`calculateArchitectureScore`): fixed points
    added into six counters by presence of service names and by node and connection counts,
    each counter capped at 100, the six averaged with `Math.round`, and the average mapped to
    a letter grade. Presence is `serviceNames.includes`, i.e. membership in the name list. */
module Scoring {
  import opened Architecture

  /** `points` when the condition holds, nothing otherwise: one line of a point table. */
  function Award(condition: bool, points: nat): (awarded: nat)
    ensures awarded <= points
    ensures awarded == points <==> condition || points == 0
  {
    if condition then points else 0
  }

  /** The security point table. */
  function SecurityPoints(names: seq<string>): (points: nat)
    ensures points <= 100
  {
    Award("IAM" in names, 25) + Award("VPC" in names, 20) + Award("WAF" in names, 15) +
    Award("Cognito" in names, 15) + Award("KMS" in names, 10) + Award("CloudTrail" in names, 10) +
    Award("GuardDuty" in names, 5)
  }

  /** The performance point table; "well connected" means at least as many connections as nodes. */
  function PerformancePoints(names: seq<string>, connectionCount: nat): (points: nat)
    ensures points <= 100
  {
    Award("CloudFront" in names, 25) + Award("ElastiCache" in names, 20) +
    Award("Route 53" in names, 15) + Award("API Gateway" in names, 15) +
    Award("Lambda" in names, 20) + Award(connectionCount >= |names|, 5)
  }

  /** The cost-efficiency point table; the last line rewards Lambda without EC2. */
  function CostPoints(names: seq<string>): (points: nat)
    ensures points <= 100
  {
    Award("Lambda" in names, 25) + Award("S3" in names, 15) + Award("DynamoDB" in names, 15) +
    Award("Auto Scaling" in names, 20) + Award("CloudFront" in names, 10) +
    Award("EC2" !in names && "Lambda" in names, 15)
  }

  /** The reliability point table. */
  function ReliabilityPoints(names: seq<string>, connectionCount: nat): (points: nat)
    ensures points <= 100
  {
    Award("ELB" in names || "ALB" in names || "NLB" in names, 25) +
    Award("Auto Scaling" in names, 20) + Award("Route 53" in names, 15) +
    Award("RDS" in names || "Aurora" in names, 15) + Award("S3" in names, 15) +
    Award(connectionCount >= 2, 10)
  }

  /** The scalability point table. */
  function ScalabilityPoints(names: seq<string>): (points: nat)
    ensures points <= 100
  {
    Award("Auto Scaling" in names, 30) + Award("Lambda" in names, 25) +
    Award("DynamoDB" in names, 20) + Award("CloudFront" in names, 15) +
    Award("ELB" in names || "ALB" in names, 10)
  }

  /** The best-practices point table. `categoryCount` is the length of the per-node category
      list, so "at least three categories" counts nodes, repeated categories included. */
  function BestPracticePoints(names: seq<string>, categoryCount: nat, connectionCount: nat): (points: nat)
    ensures points <= 100
  {
    Award("CloudWatch" in names, 20) + Award("CloudTrail" in names, 15) + Award("IAM" in names, 20) +
    Award(categoryCount >= 3, 15) + Award(connectionCount >= |names|, 15) + Award(|names| >= 5, 15)
  }

  /** `Math.min(points, 100)`. */
  function Cap(points: nat): (capped: nat)
    ensures capped <= 100 && capped <= points
    ensures capped == points || capped == 100
  {
    if points < 100 then points else 100
  }

  /** `Math.round(sum / 6)`: JavaScript rounds halves upwards. */
  function RoundedMean(sum: nat): (total: nat)
    ensures 6 * total <= sum + 3 < 6 * total + 6
  {
    (sum + 3) / 6
  }

  /** The rounded mean is within half a point of the exact mean, and at most 100 for six
      scores of at most 100. */
  lemma RoundedMeanBounds(sum: nat)
    ensures 6 * RoundedMean(sum) - 3 <= sum < 6 * RoundedMean(sum) + 3
    ensures sum <= 600 ==> RoundedMean(sum) <= 100
    ensures sum == 600 ==> RoundedMean(sum) == 100
  {
  }

  /** The letter grade of a total. */
  function GradeFor(total: nat): (grade: Grade)
    ensures total >= 95 <==> grade == APlus
    ensures total < 60 <==> grade == F
  {
    if total >= 95 then APlus
    else if total >= 90 then A
    else if total >= 85 then BPlus
    else if total >= 80 then B
    else if total >= 75 then CPlus
    else if total >= 70 then C
    else if total >= 60 then D
    else F
  }

  /** Grades ranked from F (0) to A+ (7). */
  function GradeRank(grade: Grade): (rank: nat)
    ensures rank <= 7
  {
    match grade
    case F => 0
    case D => 1
    case C => 2
    case CPlus => 3
    case B => 4
    case BPlus => 5
    case A => 6
    case APlus => 7
  }

  /** The lowest total that earns each grade. */
  function Threshold(grade: Grade): (lowest: nat)
    ensures lowest <= 95
  {
    match grade
    case APlus => 95
    case A => 90
    case BPlus => 85
    case B => 80
    case CPlus => 75
    case C => 70
    case D => 60
    case F => 0
  }

  /** The grade one step up (A+ has none). */
  function Better(grade: Grade): (next: Grade)
    requires grade != APlus
    ensures GradeRank(next) == GradeRank(grade) + 1
  {
    match grade
    case A => APlus
    case BPlus => A
    case B => BPlus
    case CPlus => B
    case C => CPlus
    case D => C
    case F => D
  }

  /** A total earns a grade exactly when it reaches that grade's threshold but not the threshold
      of the grade above: the grade is a step function with steps at 60, 70, 75, 80, 85, 90, 95. */
  lemma GradeIsStep(total: nat, grade: Grade)
    ensures GradeFor(total) == grade <==>
            total >= Threshold(grade) && (grade == APlus || total < Threshold(Better(grade)))
  {
  }

  /** A higher total never earns a lower grade. */
  lemma GradeIsMonotone(t1: nat, t2: nat)
    requires t1 <= t2
    ensures GradeRank(GradeFor(t1)) <= GradeRank(GradeFor(t2))
  {
  }

  /** The score the point tables prescribe. */
  function ScoreFor(names: seq<string>, categoryCount: nat, connectionCount: nat): (score: ArchitectureScore)
  {
    var security := Cap(SecurityPoints(names));
    var performance := Cap(PerformancePoints(names, connectionCount));
    var costEfficiency := Cap(CostPoints(names));
    var reliability := Cap(ReliabilityPoints(names, connectionCount));
    var scalability := Cap(ScalabilityPoints(names));
    var bestPractices := Cap(BestPracticePoints(names, categoryCount, connectionCount));
    var total := RoundedMean(security + performance + costEfficiency + reliability + scalability + bestPractices);
    ArchitectureScore(security, performance, costEfficiency, reliability, scalability, bestPractices,
                      total, GradeFor(total))
  }

  /** `calculateArchitectureScore`: six counters filled by the point tables, capped, averaged and graded. */
  method CalculateArchitectureScore(names: seq<string>, categories: seq<string>, connections: seq<Connection>)
    returns (score: ArchitectureScore)
    ensures score == ScoreFor(names, |categories|, |connections|)
    ensures score.security == SecurityPoints(names)
    ensures score.performance == PerformancePoints(names, |connections|)
    ensures score.costEfficiency == CostPoints(names)
    ensures score.reliability == ReliabilityPoints(names, |connections|)
    ensures score.scalability == ScalabilityPoints(names)
    ensures score.bestPractices == BestPracticePoints(names, |categories|, |connections|)
    ensures score.total <= 100
    ensures 6 * score.total - 3 <= score.security + score.performance + score.costEfficiency +
              score.reliability + score.scalability + score.bestPractices < 6 * score.total + 3
    ensures score.grade == GradeFor(score.total)
  {
    var security := ScoreSecurity(names);
    var performance := ScorePerformance(names, |connections|);
    var costEfficiency := ScoreCost(names);
    var reliability := ScoreReliability(names, |connections|);
    var scalability := ScoreScalability(names);
    var bestPractices := ScoreBestPractices(names, |categories|, |connections|);

    // Cap every counter at 100
    security := Cap(security);
    performance := Cap(performance);
    costEfficiency := Cap(costEfficiency);
    reliability := Cap(reliability);
    scalability := Cap(scalability);
    bestPractices := Cap(bestPractices);

    var sum := security + performance + costEfficiency + reliability + scalability + bestPractices;
    var total := RoundedMean(sum);
    RoundedMeanBounds(sum);
    score := ArchitectureScore(security, performance, costEfficiency, reliability, scalability, bestPractices,
                               total, GradeFor(total));
  }

  /** The security counter. */
  method ScoreSecurity(names: seq<string>) returns (security: nat)
    ensures security == SecurityPoints(names)
  {
    security := 0;
    if "IAM" in names { security := security + 25; }
    if "VPC" in names { security := security + 20; }
    if "WAF" in names { security := security + 15; }
    if "Cognito" in names { security := security + 15; }
    if "KMS" in names { security := security + 10; }
    if "CloudTrail" in names { security := security + 10; }
    if "GuardDuty" in names { security := security + 5; }
  }

  /** The performance counter. */
  method ScorePerformance(names: seq<string>, connectionCount: nat) returns (performance: nat)
    ensures performance == PerformancePoints(names, connectionCount)
  {
    performance := 0;
    if "CloudFront" in names { performance := performance + 25; }
    if "ElastiCache" in names { performance := performance + 20; }
    if "Route 53" in names { performance := performance + 15; }
    if "API Gateway" in names { performance := performance + 15; }
    if "Lambda" in names { performance := performance + 20; }
    if connectionCount >= |names| { performance := performance + 5; }
  }

  /** The cost-efficiency counter. */
  method ScoreCost(names: seq<string>) returns (costEfficiency: nat)
    ensures costEfficiency == CostPoints(names)
  {
    costEfficiency := 0;
    if "Lambda" in names { costEfficiency := costEfficiency + 25; }
    if "S3" in names { costEfficiency := costEfficiency + 15; }
    if "DynamoDB" in names { costEfficiency := costEfficiency + 15; }
    if "Auto Scaling" in names { costEfficiency := costEfficiency + 20; }
    if "CloudFront" in names { costEfficiency := costEfficiency + 10; }
    if "EC2" !in names && "Lambda" in names { costEfficiency := costEfficiency + 15; }
  }

  /** The reliability counter. */
  method ScoreReliability(names: seq<string>, connectionCount: nat) returns (reliability: nat)
    ensures reliability == ReliabilityPoints(names, connectionCount)
  {
    reliability := 0;
    if "ELB" in names || "ALB" in names || "NLB" in names { reliability := reliability + 25; }
    if "Auto Scaling" in names { reliability := reliability + 20; }
    if "Route 53" in names { reliability := reliability + 15; }
    if "RDS" in names || "Aurora" in names { reliability := reliability + 15; }
    if "S3" in names { reliability := reliability + 15; }
    if connectionCount >= 2 { reliability := reliability + 10; }
  }

  /** The scalability counter. */
  method ScoreScalability(names: seq<string>) returns (scalability: nat)
    ensures scalability == ScalabilityPoints(names)
  {
    scalability := 0;
    if "Auto Scaling" in names { scalability := scalability + 30; }
    if "Lambda" in names { scalability := scalability + 25; }
    if "DynamoDB" in names { scalability := scalability + 20; }
    if "CloudFront" in names { scalability := scalability + 15; }
    if "ELB" in names || "ALB" in names { scalability := scalability + 10; }
  }

  /** The best-practices counter. */
  method ScoreBestPractices(names: seq<string>, categoryCount: nat, connectionCount: nat)
    returns (bestPractices: nat)
    ensures bestPractices == BestPracticePoints(names, categoryCount, connectionCount)
  {
    bestPractices := 0;
    if "CloudWatch" in names { bestPractices := bestPractices + 20; }
    if "CloudTrail" in names { bestPractices := bestPractices + 15; }
    if "IAM" in names { bestPractices := bestPractices + 20; }
    if categoryCount >= 3 { bestPractices := bestPractices + 15; }
    if connectionCount >= |names| { bestPractices := bestPractices + 15; }
    if |names| >= 5 { bestPractices := bestPractices + 15; }
  }

  /** Each point table adds up to exactly 100: the services (and counts) it rewards reach 100,
      so with the bound on each table the `Math.min` cap never lowers a counter. */
  lemma TablesReachFullMarks()
    ensures SecurityPoints(["IAM", "VPC", "WAF", "Cognito", "KMS", "CloudTrail", "GuardDuty"]) == 100
    ensures PerformancePoints(["CloudFront", "ElastiCache", "Route 53", "API Gateway", "Lambda"], 5) == 100
    ensures CostPoints(["Lambda", "S3", "DynamoDB", "Auto Scaling", "CloudFront"]) == 100
    ensures ReliabilityPoints(["ELB", "Auto Scaling", "Route 53", "RDS", "S3"], 2) == 100
    ensures ScalabilityPoints(["Auto Scaling", "Lambda", "DynamoDB", "CloudFront", "ELB"]) == 100
    ensures BestPracticePoints(["CloudWatch", "CloudTrail", "IAM", "S3", "EC2"], 5, 5) == 100
  {
    SecurityFullMarks();
    PerformanceFullMarks();
    CostFullMarks();
    ReliabilityFullMarks();
    ScalabilityFullMarks();
    BestPracticeFullMarks();
  }

  lemma SecurityFullMarks()
    ensures SecurityPoints(["IAM", "VPC", "WAF", "Cognito", "KMS", "CloudTrail", "GuardDuty"]) == 100
  {
    var names := ["IAM", "VPC", "WAF", "Cognito", "KMS", "CloudTrail", "GuardDuty"];
    assert "IAM" == names[0] && "VPC" == names[1] && "WAF" == names[2] && "Cognito" == names[3];
    assert "KMS" == names[4] && "CloudTrail" == names[5] && "GuardDuty" == names[6];
  }

  lemma PerformanceFullMarks()
    ensures PerformancePoints(["CloudFront", "ElastiCache", "Route 53", "API Gateway", "Lambda"], 5) == 100
  {
    var names := ["CloudFront", "ElastiCache", "Route 53", "API Gateway", "Lambda"];
    assert "CloudFront" == names[0] && "ElastiCache" == names[1] && "Route 53" == names[2];
    assert "API Gateway" == names[3] && "Lambda" == names[4];
  }

  lemma CostFullMarks()
    ensures CostPoints(["Lambda", "S3", "DynamoDB", "Auto Scaling", "CloudFront"]) == 100
  {
    var names := ["Lambda", "S3", "DynamoDB", "Auto Scaling", "CloudFront"];
    assert "Lambda" == names[0] && "S3" == names[1] && "DynamoDB" == names[2];
    assert "Auto Scaling" == names[3] && "CloudFront" == names[4];
    assert "EC2" !in names by {
      forall i | 0 <= i < |names| ensures names[i] != "EC2" {
        assert names[i][0] != 'E';
      }
    }
  }

  lemma ReliabilityFullMarks()
    ensures ReliabilityPoints(["ELB", "Auto Scaling", "Route 53", "RDS", "S3"], 2) == 100
  {
    var names := ["ELB", "Auto Scaling", "Route 53", "RDS", "S3"];
    assert "ELB" == names[0] && "Auto Scaling" == names[1] && "Route 53" == names[2];
    assert "RDS" == names[3] && "S3" == names[4];
  }

  lemma ScalabilityFullMarks()
    ensures ScalabilityPoints(["Auto Scaling", "Lambda", "DynamoDB", "CloudFront", "ELB"]) == 100
  {
    var names := ["Auto Scaling", "Lambda", "DynamoDB", "CloudFront", "ELB"];
    assert "Auto Scaling" == names[0] && "Lambda" == names[1] && "DynamoDB" == names[2];
    assert "CloudFront" == names[3] && "ELB" == names[4];
  }

  lemma BestPracticeFullMarks()
    ensures BestPracticePoints(["CloudWatch", "CloudTrail", "IAM", "S3", "EC2"], 5, 5) == 100
  {
    var names := ["CloudWatch", "CloudTrail", "IAM", "S3", "EC2"];
    assert "CloudWatch" == names[0] && "CloudTrail" == names[1] && "IAM" == names[2];
  }

  /** A lone EC2 node with no connections scores zero everywhere and grades F. */
  lemma SingleEc2Scores()
    ensures ScoreFor(["EC2"], 1, 0) == ArchitectureScore(0, 0, 0, 0, 0, 0, 0, F)
  {
    var names := ["EC2"];
    assert SecurityPoints(names) == 0;
    assert PerformancePoints(names, 0) == 0;
    assert CostPoints(names) == 0;
    assert ReliabilityPoints(names, 0) == 0;
    assert ScalabilityPoints(names) == 0;
    assert BestPracticePoints(names, 1, 0) == 0;
  }
}

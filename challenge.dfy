/** Challenge mode: timed design scenarios, the four-part evaluation of a submitted canvas
    (`calculateScore`) with its feedback, recommendations and badges, the session state the
    page keeps (`startChallenge`, `resetChallenge`, `submitSolution`, the one-second tick),
    and the `m:ss` timer text. */
module Challenge {
  import opened Basics
  import opened Text
  import opened Services
  import Scoring

  datatype Difficulty = Beginner | Intermediate | Advanced

  datatype Scenario = Scenario(
    id: string,
    title: string,
    description: string,
    requirements: seq<string>,
    difficulty: Difficulty,
    timeLimit: nat,
    targetServices: seq<string>,
    bonusServices: seq<string>)

  const GlobalWebApp := Scenario(
    "global-web-app",
    "Global Web Application",
    "Design a fault-tolerant web application that serves 100,000 users globally with low latency and minimal downtime. The application should handle traffic spikes and provide consistent performance worldwide.",
    ["Support 100,000+ concurrent users", "Global low latency (< 200ms)", "99.9% uptime requirement",
     "Handle traffic spikes (10x normal load)", "Secure user authentication"],
    Intermediate, 15,
    ["CloudFront", "S3", "Lambda", "DynamoDB", "Cognito"],
    ["WAF", "Route 53", "API Gateway"])

  const DataAnalyticsPipeline := Scenario(
    "data-analytics-pipeline",
    "Real-time Data Analytics",
    "Build a scalable data pipeline that ingests, processes, and analyzes real-time streaming data from IoT devices. The solution should handle millions of events per hour and provide real-time dashboards.",
    ["Process 1M+ events per hour", "Real-time processing (< 1 second latency)",
     "Cost-effective storage for historical data", "Interactive dashboards and alerts",
     "Data backup and disaster recovery"],
    Advanced, 20,
    ["Kinesis", "Lambda", "S3", "Redshift", "QuickSight"],
    ["CloudWatch", "SNS", "Glue", "Athena"])

  const ServerlessApi := Scenario(
    "serverless-api",
    "Serverless API Backend",
    "Create a serverless REST API that handles user management, authentication, and data storage. The API should auto-scale and be cost-effective for variable workloads.",
    ["RESTful API endpoints", "User authentication and authorization", "Auto-scaling based on demand",
     "Pay-per-use pricing model", "API rate limiting and monitoring"],
    Beginner, 10,
    ServerlessApiTargets,
    ["CloudWatch", "X-Ray", "WAF"])

  const ServerlessApiTargets: seq<string> := ["API Gateway", "Lambda", "DynamoDB", "Cognito"]

  /** `CHALLENGE_SCENARIOS`, in display order. */
  const Scenarios: seq<Scenario> := [GlobalWebApp, DataAnalyticsPipeline, ServerlessApi]

  /** A placed service (challenge nodes carry no label). */
  datatype ChallengeNode = ChallengeNode(id: string, service: AwsService, x: int, y: int)

  /** A connection (challenge connections carry no type or label). */
  datatype Link = Link(id: string, fromServiceId: string, toServiceId: string)

  datatype ScoreBreakdown = ScoreBreakdown(resilience: nat, costEfficiency: nat, performance: nat, security: nat, total: nat)

  datatype ChallengeResult = ChallengeResult(
    score: ScoreBreakdown, feedback: seq<string>, badges: seq<string>, recommendations: seq<string>)

  /** `canvasServices.map(cs => cs.service.name)`. The challenge page keeps its own canvas
      record, which has no label, so it has its own projection of the service names. */
  function NamesOf(nodes: seq<ChallengeNode>): (names: seq<string>)
    ensures |names| == |nodes|
    ensures forall i :: 0 <= i < |nodes| ==> names[i] == nodes[i].service.name
  {
    if nodes == [] then [] else [nodes[0].service.name] + NamesOf(nodes[1..])
  }

  // Point tables

  /** The storage services the resilience table counts. */
  predicate IsStorage(name: string)
  {
    name in ["S3", "DynamoDB", "RDS"]
  }

  /** At least one placed name is a storage service exactly when S3, DynamoDB or RDS is placed. */
  lemma StorageCount(names: seq<string>)
    ensures |Filter(names, IsStorage)| >= 1 <==> "S3" in names || "DynamoDB" in names || "RDS" in names
  {
    var stored := Filter(names, IsStorage);
    if "S3" in names {
      assert IsStorage("S3");
      assert "S3" in stored;
    } else if "DynamoDB" in names {
      assert IsStorage("DynamoDB");
      assert "DynamoDB" in stored;
    } else if "RDS" in names {
      assert IsStorage("RDS");
      assert "RDS" in stored;
    }
  }

  function ResiliencePoints(names: seq<string>, connectionCount: nat): (points: nat)
    ensures points <= 100
  {
    Scoring.Award("Auto Scaling" in names, 20) + Scoring.Award("ELB" in names || "ALB" in names, 15) +
    Scoring.Award("Route 53" in names, 10) + Scoring.Award(connectionCount >= 3, 15) +
    Scoring.Award("S3" in names || "DynamoDB" in names || "RDS" in names, 20) +
    Scoring.Award("Lambda" in names && "DynamoDB" in names, 20)
  }

  function CostEfficiencyPoints(names: seq<string>): (points: nat)
    ensures points <= 100
  {
    Scoring.Award("Lambda" in names, 25) + Scoring.Award("S3" in names, 20) +
    Scoring.Award("CloudFront" in names, 15) + Scoring.Award("DynamoDB" in names, 15) +
    Scoring.Award("EC2" !in names && "Lambda" in names, 25)
  }

  function PerformancePoints(names: seq<string>): (points: nat)
    ensures points <= 100
  {
    Scoring.Award("CloudFront" in names, 30) + Scoring.Award("ElastiCache" in names, 25) +
    Scoring.Award("Lambda" in names, 20) + Scoring.Award("API Gateway" in names, 15) +
    Scoring.Award("Route 53" in names, 10)
  }

  function SecurityPoints(names: seq<string>): (points: nat)
    ensures points <= 100
  {
    Scoring.Award("IAM" in names, 20) + Scoring.Award("Cognito" in names, 20) +
    Scoring.Award("WAF" in names, 20) + Scoring.Award("VPC" in names, 15) +
    Scoring.Award("KMS" in names, 15) + Scoring.Award("CloudTrail" in names, 10)
  }

  /** `Math.round(sum / 4)`: halves round upwards. */
  function RoundedQuarter(sum: nat): (total: nat)
    ensures 4 * total <= sum + 2 < 4 * total + 4
    ensures sum <= 400 ==> total <= 100
  {
    (sum + 2) / 4
  }

  /** The capped sub-scores and their rounded mean. */
  function ScoresFor(names: seq<string>, connectionCount: nat): (scores: ScoreBreakdown)
    ensures scores.resilience <= 100 && scores.costEfficiency <= 100
    ensures scores.performance <= 100 && scores.security <= 100 && scores.total <= 100
  {
    var resilience := Scoring.Cap(ResiliencePoints(names, connectionCount));
    var costEfficiency := Scoring.Cap(CostEfficiencyPoints(names));
    var performance := Scoring.Cap(PerformancePoints(names));
    var security := Scoring.Cap(SecurityPoints(names));
    ScoreBreakdown(resilience, costEfficiency, performance, security,
                   RoundedQuarter(resilience + costEfficiency + performance + security))
  }

  // Feedback, recommendations and badges

  const RedundancyFeedback := "Consider adding redundancy with Auto Scaling, Load Balancers, or multi-AZ deployments"
  const ServerlessFeedback := "Look for serverless alternatives to reduce costs"
  const CachingFeedback := "Add CloudFront and caching layers to improve response times"
  const SecurityFeedback := "Strengthen security with IAM, VPC, and authentication services"

  const FaultToleranceAdvice := "Add Auto Scaling and Load Balancer for better fault tolerance"
  const LambdaAdvice := "Consider Lambda instead of EC2 for variable workloads"
  const DeliveryAdvice := "Implement CloudFront for global content delivery"
  const AccessControlAdvice := "Add IAM and Cognito for proper access control"

  const ArchitectureMaster := "Architecture Master"
  const CloudExpert := "Cloud Expert"
  const AvailabilityHero := "Highly Available Hero"
  const CostChampion := "Cost-Saving Champion"
  const SpeedDemon := "Speed Demon"
  const SecuritySpecialist := "Security Specialist"
  const RequirementsMaster := "Requirements Master"

  function FeedbackFor(scores: ScoreBreakdown): seq<string>
  {
    When(scores.resilience < 50, RedundancyFeedback) +
    When(scores.costEfficiency < 50, ServerlessFeedback) +
    When(scores.performance < 50, CachingFeedback) +
    When(scores.security < 50, SecurityFeedback)
  }

  function RecommendationsFor(scores: ScoreBreakdown): seq<string>
  {
    When(scores.resilience < 50, FaultToleranceAdvice) +
    When(scores.costEfficiency < 50, LambdaAdvice) +
    When(scores.performance < 50, DeliveryAdvice) +
    When(scores.security < 50, AccessControlAdvice)
  }

  /** Every target service of the scenario is among the placed names. */
  predicate CoversTargets(targets: seq<string>, names: seq<string>)
  {
    |Filter(targets, (t: string) => t in names)| == |targets|
  }

  /** The badges earned by the overall total. */
  function TotalBadges(total: nat): seq<string>
  {
    When(total >= 90, ArchitectureMaster) + When(total >= 80, CloudExpert)
  }

  /** The badges earned by sub-scores of 80 or more. */
  function DimensionBadges(scores: ScoreBreakdown): seq<string>
  {
    When(scores.resilience >= 80, AvailabilityHero) +
    When(scores.costEfficiency >= 80, CostChampion) +
    When(scores.performance >= 80, SpeedDemon) +
    When(scores.security >= 80, SecuritySpecialist)
  }

  function BadgesFor(scores: ScoreBreakdown, targets: seq<string>, names: seq<string>): seq<string>
  {
    TotalBadges(scores.total) + DimensionBadges(scores) + When(CoversTargets(targets, names), RequirementsMaster)
  }

  /** The result `calculateScore` returns: all zeros and nothing else without a scenario. */
  function ResultFor(scenario: Option<Scenario>, names: seq<string>, connectionCount: nat): ChallengeResult
  {
    if scenario.None? then ChallengeResult(ScoreBreakdown(0, 0, 0, 0, 0), [], [], [])
    else
      var scores := ScoresFor(names, connectionCount);
      ChallengeResult(scores, FeedbackFor(scores), BadgesFor(scores, scenario.value.targetServices, names),
                      RecommendationsFor(scores))
  }

  /** `calculateScore` for the selected scenario, the placed names and the number of connections. */
  method CalculateScore(scenario: Option<Scenario>, names: seq<string>, connectionCount: nat)
    returns (result: ChallengeResult)
    ensures result == ResultFor(scenario, names, connectionCount)
  {
    if scenario.None? {
      return ChallengeResult(ScoreBreakdown(0, 0, 0, 0, 0), [], [], []);
    }
    var scores := ScoreCanvas(names, connectionCount);
    var feedback, recommendations := GenerateFeedback(scores);
    var badges := AwardBadges(scores, scenario.value.targetServices, names);
    result := ChallengeResult(scores, feedback, badges, recommendations);
  }

  /** The four sub-scores, capped at 100, and their rounded mean. */
  method ScoreCanvas(names: seq<string>, connectionCount: nat) returns (scores: ScoreBreakdown)
    ensures scores == ScoresFor(names, connectionCount)
  {
    var resilience := ScoreResilience(names, connectionCount);
    var costEfficiency := ScoreCostEfficiency(names);
    var performance := ScorePerformance(names);
    var security := ScoreSecurity(names);

    // Cap scores at 100
    resilience := Scoring.Cap(resilience);
    costEfficiency := Scoring.Cap(costEfficiency);
    performance := Scoring.Cap(performance);
    security := Scoring.Cap(security);

    var total := RoundedQuarter(resilience + costEfficiency + performance + security);
    scores := ScoreBreakdown(resilience, costEfficiency, performance, security, total);
  }

  method ScoreResilience(names: seq<string>, connectionCount: nat) returns (resilience: nat)
    ensures resilience == ResiliencePoints(names, connectionCount)
  {
    resilience := 0;
    if "Auto Scaling" in names { resilience := resilience + 20; }
    if "ELB" in names || "ALB" in names { resilience := resilience + 15; }
    if "Route 53" in names { resilience := resilience + 10; }
    if connectionCount >= 3 { resilience := resilience + 15; }
    StorageCount(names);
    if |Filter(names, IsStorage)| >= 1 { resilience := resilience + 20; }
    if "Lambda" in names && "DynamoDB" in names { resilience := resilience + 20; }
  }

  method ScoreCostEfficiency(names: seq<string>) returns (costEfficiency: nat)
    ensures costEfficiency == CostEfficiencyPoints(names)
  {
    costEfficiency := 0;
    if "Lambda" in names { costEfficiency := costEfficiency + 25; }
    if "S3" in names { costEfficiency := costEfficiency + 20; }
    if "CloudFront" in names { costEfficiency := costEfficiency + 15; }
    if "DynamoDB" in names { costEfficiency := costEfficiency + 15; }
    if "EC2" !in names && "Lambda" in names { costEfficiency := costEfficiency + 25; }
  }

  method ScorePerformance(names: seq<string>) returns (performance: nat)
    ensures performance == PerformancePoints(names)
  {
    performance := 0;
    if "CloudFront" in names { performance := performance + 30; }
    if "ElastiCache" in names { performance := performance + 25; }
    if "Lambda" in names { performance := performance + 20; }
    if "API Gateway" in names { performance := performance + 15; }
    if "Route 53" in names { performance := performance + 10; }
  }

  method ScoreSecurity(names: seq<string>) returns (security: nat)
    ensures security == SecurityPoints(names)
  {
    security := 0;
    if "IAM" in names { security := security + 20; }
    if "Cognito" in names { security := security + 20; }
    if "WAF" in names { security := security + 20; }
    if "VPC" in names { security := security + 15; }
    if "KMS" in names { security := security + 15; }
    if "CloudTrail" in names { security := security + 10; }
  }

  /** One feedback line and one recommendation for each dimension below 50. */
  method GenerateFeedback(scores: ScoreBreakdown) returns (feedback: seq<string>, recommendations: seq<string>)
    ensures feedback == FeedbackFor(scores) && recommendations == RecommendationsFor(scores)
  {
    feedback, recommendations := [], [];
    if scores.resilience < 50 {
      feedback := feedback + [RedundancyFeedback];
      recommendations := recommendations + [FaultToleranceAdvice];
    }
    assert feedback == When(scores.resilience < 50, RedundancyFeedback);
    assert recommendations == When(scores.resilience < 50, FaultToleranceAdvice);
    if scores.costEfficiency < 50 {
      feedback := feedback + [ServerlessFeedback];
      recommendations := recommendations + [LambdaAdvice];
    }
    assert feedback == When(scores.resilience < 50, RedundancyFeedback) +
                       When(scores.costEfficiency < 50, ServerlessFeedback);
    assert recommendations == When(scores.resilience < 50, FaultToleranceAdvice) +
                              When(scores.costEfficiency < 50, LambdaAdvice);
    if scores.performance < 50 {
      feedback := feedback + [CachingFeedback];
      recommendations := recommendations + [DeliveryAdvice];
    }
    assert feedback == When(scores.resilience < 50, RedundancyFeedback) +
                       When(scores.costEfficiency < 50, ServerlessFeedback) +
                       When(scores.performance < 50, CachingFeedback);
    assert recommendations == When(scores.resilience < 50, FaultToleranceAdvice) +
                              When(scores.costEfficiency < 50, LambdaAdvice) +
                              When(scores.performance < 50, DeliveryAdvice);
    if scores.security < 50 {
      feedback := feedback + [SecurityFeedback];
      recommendations := recommendations + [AccessControlAdvice];
    }
  }

  /** Badges in their fixed order, then "Requirements Master" when every target is used. */
  method AwardBadges(scores: ScoreBreakdown, targets: seq<string>, names: seq<string>) returns (badges: seq<string>)
    ensures badges == BadgesFor(scores, targets, names)
  {
    badges := [];
    if scores.total >= 90 { badges := badges + [ArchitectureMaster]; }
    if scores.total >= 80 { badges := badges + [CloudExpert]; }
    assert badges == TotalBadges(scores.total);
    var dimensions := [];
    if scores.resilience >= 80 { dimensions := dimensions + [AvailabilityHero]; }
    if scores.costEfficiency >= 80 { dimensions := dimensions + [CostChampion]; }
    assert dimensions == When(scores.resilience >= 80, AvailabilityHero) + When(scores.costEfficiency >= 80, CostChampion);
    if scores.performance >= 80 { dimensions := dimensions + [SpeedDemon]; }
    assert dimensions == When(scores.resilience >= 80, AvailabilityHero) + When(scores.costEfficiency >= 80, CostChampion) +
                         When(scores.performance >= 80, SpeedDemon);
    if scores.security >= 80 { dimensions := dimensions + [SecuritySpecialist]; }
    assert dimensions == DimensionBadges(scores);
    badges := badges + dimensions;
    var usedTargetServices := Filter(targets, (t: string) => t in names);
    if |usedTargetServices| == |targets| { badges := badges + [RequirementsMaster]; }
  }

  // Properties of the evaluation

  /** Without a scenario the result is all zeros with no feedback, badges or recommendations. */
  lemma NoScenarioResult(names: seq<string>, connectionCount: nat)
    ensures ResultFor(None, names, connectionCount).score == ScoreBreakdown(0, 0, 0, 0, 0)
    ensures ResultFor(None, names, connectionCount).feedback == []
    ensures ResultFor(None, names, connectionCount).badges == []
    ensures ResultFor(None, names, connectionCount).recommendations == []
  {
  }

  /** The resilience table adds up to exactly 100. */
  lemma ResilienceFullMarks()
    ensures ResiliencePoints(["Auto Scaling", "ELB", "Route 53", "Lambda", "DynamoDB"], 3) == 100
  {
    var r := ["Auto Scaling", "ELB", "Route 53", "Lambda", "DynamoDB"];
    assert "Auto Scaling" == r[0] && "ELB" == r[1] && "Route 53" == r[2] && "Lambda" == r[3] && "DynamoDB" == r[4];
  }

  /** The cost table adds up to exactly 100, the last 25 for Lambda without EC2. */
  lemma CostEfficiencyFullMarks()
    ensures CostEfficiencyPoints(["Lambda", "S3", "CloudFront", "DynamoDB"]) == 100
  {
    var c := ["Lambda", "S3", "CloudFront", "DynamoDB"];
    assert "Lambda" == c[0] && "S3" == c[1] && "CloudFront" == c[2] && "DynamoDB" == c[3];
    forall i | 0 <= i < |c| ensures c[i] != "EC2" {
      assert c[i][0] != 'E';
    }
  }

  /** The performance table adds up to exactly 100. */
  lemma PerformanceFullMarks()
    ensures PerformancePoints(["CloudFront", "ElastiCache", "Lambda", "API Gateway", "Route 53"]) == 100
  {
    var p := ["CloudFront", "ElastiCache", "Lambda", "API Gateway", "Route 53"];
    assert "CloudFront" == p[0] && "ElastiCache" == p[1] && "Lambda" == p[2] && "API Gateway" == p[3] && "Route 53" == p[4];
  }

  /** The security table adds up to exactly 100. */
  lemma SecurityFullMarks()
    ensures SecurityPoints(["IAM", "Cognito", "WAF", "VPC", "KMS", "CloudTrail"]) == 100
  {
    var s := ["IAM", "Cognito", "WAF", "VPC", "KMS", "CloudTrail"];
    assert "IAM" == s[0] && "Cognito" == s[1] && "WAF" == s[2] && "VPC" == s[3] && "KMS" == s[4] && "CloudTrail" == s[5];
  }

  /** The number of sub-scores below 50. */
  function WeakDimensions(scores: ScoreBreakdown): (count: nat)
    ensures count <= 4
  {
    (if scores.resilience < 50 then 1 else 0) + (if scores.costEfficiency < 50 then 1 else 0) +
    (if scores.performance < 50 then 1 else 0) + (if scores.security < 50 then 1 else 0)
  }

  /** Feedback and recommendations come in pairs, one pair per dimension below 50. */
  lemma FeedbackPairsUp(scores: ScoreBreakdown)
    ensures |FeedbackFor(scores)| == |RecommendationsFor(scores)| == WeakDimensions(scores)
  {
  }

  /** The feedback lines differ from one another, and so do the recommendations. */
  lemma ChallengeMessagesDistinct(scores: ScoreBreakdown)
    ensures NoDuplicates(FeedbackFor(scores))
    ensures NoDuplicates(RecommendationsFor(scores))
  {
    assert |RedundancyFeedback| == 85 && |ServerlessFeedback| == 48;
    assert |CachingFeedback| == 59 && |SecurityFeedback| == 62;
    assert |FaultToleranceAdvice| == 61 && |LambdaAdvice| == 53;
    assert |DeliveryAdvice| == 48 && |AccessControlAdvice| == 45;
    var f1 := When(scores.resilience < 50, RedundancyFeedback);
    var f2 := f1 + When(scores.costEfficiency < 50, ServerlessFeedback);
    var f3 := f2 + When(scores.performance < 50, CachingFeedback);
    AppendFresh([], scores.resilience < 50, RedundancyFeedback);
    AppendFresh(f1, scores.costEfficiency < 50, ServerlessFeedback);
    AppendFresh(f2, scores.performance < 50, CachingFeedback);
    AppendFresh(f3, scores.security < 50, SecurityFeedback);
    var r1 := When(scores.resilience < 50, FaultToleranceAdvice);
    var r2 := r1 + When(scores.costEfficiency < 50, LambdaAdvice);
    var r3 := r2 + When(scores.performance < 50, DeliveryAdvice);
    AppendFresh([], scores.resilience < 50, FaultToleranceAdvice);
    AppendFresh(r1, scores.costEfficiency < 50, LambdaAdvice);
    AppendFresh(r2, scores.performance < 50, DeliveryAdvice);
    AppendFresh(r3, scores.security < 50, AccessControlAdvice);
  }

  /** An empty canvas scores zero everywhere and gets all four feedback lines and
      recommendations, and no badge when the scenario has targets. */
  lemma EmptyCanvasResult(scenario: Scenario)
    requires scenario.targetServices != []
    ensures ResultFor(Some(scenario), [], 0).score == ScoreBreakdown(0, 0, 0, 0, 0)
    ensures ResultFor(Some(scenario), [], 0).feedback ==
            [RedundancyFeedback, ServerlessFeedback, CachingFeedback, SecurityFeedback]
    ensures ResultFor(Some(scenario), [], 0).recommendations ==
            [FaultToleranceAdvice, LambdaAdvice, DeliveryAdvice, AccessControlAdvice]
    ensures ResultFor(Some(scenario), [], 0).badges == []
  {
    var zero := ScoreBreakdown(0, 0, 0, 0, 0);
    EmptyCanvasScores();
    assert FeedbackFor(zero) == [RedundancyFeedback, ServerlessFeedback, CachingFeedback, SecurityFeedback];
    assert RecommendationsFor(zero) == [FaultToleranceAdvice, LambdaAdvice, DeliveryAdvice, AccessControlAdvice];
    MissingTarget(scenario.targetServices, [], scenario.targetServices[0]);
    assert BadgesFor(zero, scenario.targetServices, []) == [];
  }

  lemma EmptyCanvasScores()
    ensures ScoresFor([], 0) == ScoreBreakdown(0, 0, 0, 0, 0)
  {
  }

  /** A total of 90 or more earns "Architecture Master" and then "Cloud Expert" first. */
  lemma TopTotalBadges(scores: ScoreBreakdown, targets: seq<string>, names: seq<string>)
    requires scores.total >= 90
    ensures BadgesFor(scores, targets, names)[..2] == [ArchitectureMaster, CloudExpert]
  {
    assert TotalBadges(scores.total) == [ArchitectureMaster, CloudExpert];
  }

  /** "Requirements Master" is awarded exactly when every target service is placed. */
  lemma RequirementsMasterExactly(scores: ScoreBreakdown, targets: seq<string>, names: seq<string>)
    ensures RequirementsMaster in BadgesFor(scores, targets, names) <==> forall t :: t in targets ==> t in names
  {
    FilterKeepsAll(targets, (t: string) => t in names);
    var others := [ArchitectureMaster, CloudExpert, AvailabilityHero, CostChampion, SpeedDemon, SecuritySpecialist];
    assert others[0][0] == 'A' && others[1][0] == 'C' && others[2][0] == 'H';
    assert others[3][0] == 'C' && others[4][0] == 'S' && others[5][0] == 'S' && RequirementsMaster[0] == 'R';
  }

  /** A target that is not placed loses "Requirements Master". */
  lemma MissingTarget(targets: seq<string>, names: seq<string>, t: string)
    requires t in targets && t !in names
    ensures !CoversTargets(targets, names)
  {
    FilterKeepsAll(targets, (u: string) => u in names);
  }

  /** On the serverless-api scenario, API Gateway, Lambda, DynamoDB and Cognito together meet
      the requirements. */
  lemma ServerlessApiCovered()
    ensures CoversTargets(ServerlessApi.targetServices, ["API Gateway", "Lambda", "DynamoDB", "Cognito"])
  {
    assert ServerlessApi.targetServices == ServerlessApiTargets;
    FilterKeepsAll(ServerlessApiTargets, (t: string) => t in ServerlessApiTargets);
  }

  /** On the serverless-api scenario, leaving out any one of the four target services loses
      the requirements. */
  lemma ServerlessApiMissingOne(i: nat)
    requires i < 4
    ensures var full := ["API Gateway", "Lambda", "DynamoDB", "Cognito"];
            !CoversTargets(ServerlessApi.targetServices, full[..i] + full[i + 1..])
  {
    var full := ServerlessApiTargets;
    assert ServerlessApi.targetServices == full;
    var dropped := full[..i] + full[i + 1..];
    assert |full[0]| == 11 && |full[1]| == 6 && |full[2]| == 8 && |full[3]| == 7;
    forall k | 0 <= k < |dropped| ensures dropped[k] != full[i] {
      if k < i {
        assert dropped[k] == full[k];
      } else {
        assert dropped[k] == full[k + 1];
      }
    }
    MissingTarget(full, dropped, full[i]);
  }

  // Timer text

  /** `formatTime`: whole minutes, a colon, and the seconds padded to two digits. */
  function FormatTime(seconds: nat): (text: string)
    ensures |text| >= 4 && text[|text| - 3] == ':'
  {
    PaddedSeconds(seconds % 60);
    NatToString(seconds / 60) + ":" + PadStart2(NatToString(seconds % 60))
  }

  /** The two-digit seconds field reads back as the seconds of the minute. */
  lemma PaddedSeconds(secs: nat)
    requires secs < 60
    ensures |PadStart2(NatToString(secs))| == 2
    ensures forall i :: 0 <= i < 2 ==> '0' <= PadStart2(NatToString(secs))[i] <= '9'
    ensures DigitsValue(PadStart2(NatToString(secs))) == secs
  {
    NatToStringRoundTrip(secs);
    var s := NatToString(secs);
    if secs < 10 {
      var p := PadStart2(s);
      assert p == ['0'] + s;
      assert p[..1] == ['0'];
    } else {
      assert NatToString(secs / 10) == [Digit(secs / 10)];
    }
  }

  /** The minutes before the colon are written without leading zeros, and reading them and the
      seconds after it gives back the input. */
  lemma FormatTimeRoundTrip(seconds: nat)
    ensures var text := FormatTime(seconds);
            var colon := |text| - 3;
            text[..colon] == NatToString(seconds / 60) &&
            (forall i :: 0 <= i < colon ==> '0' <= text[i] <= '9') &&
            (forall i :: colon < i < |text| ==> '0' <= text[i] <= '9') &&
            DigitsValue(text[..colon]) * 60 + DigitsValue(text[colon + 1..]) == seconds
  {
    var mins, secs := NatToString(seconds / 60), PadStart2(NatToString(seconds % 60));
    PaddedSeconds(seconds % 60);
    NatToStringRoundTrip(seconds / 60);
    ColonSplit(mins, secs);
  }

  /** The two sides of `left + ":" + right`, when `right` is two characters long. */
  lemma ColonSplit(left: string, right: string)
    requires |right| == 2
    ensures var text := left + ":" + right;
            |text| - 3 == |left| && text[..|left|] == left && text[|left| + 1..] == right
  {
    var text := left + ":" + right;
    assert text[..|left|] == left;
    assert text[|left| + 1..] == right;
  }

  // The session

  class Session {
    var scenario: Option<Scenario>
    var nodes: seq<ChallengeNode>
    var connections: seq<Link>
    var selected: Option<string>
    var isConnecting: bool
    var connectingFrom: Option<string>
    var timeRemaining: int
    var result: Option<ChallengeResult>
    var showModelSolution: bool
    var isSubmitted: bool

    /** The scenario picker, before any challenge starts. */
    constructor()
      ensures scenario == None && nodes == [] && connections == [] && selected == None
      ensures !isConnecting && connectingFrom == None && timeRemaining == 0
      ensures result == None && !showModelSolution && !isSubmitted
    {
      scenario := None;
      nodes := [];
      connections := [];
      selected := None;
      isConnecting := false;
      connectingFrom := None;
      timeRemaining := 0;
      result := None;
      showModelSolution := false;
      isSubmitted := false;
    }

    /** The remaining time is never negative and never exceeds the scenario's limit. */
    predicate Valid()
      reads this
    {
      0 <= timeRemaining && (scenario.Some? ==> timeRemaining <= scenario.value.timeLimit * 60)
    }

    /** The one-second interval is installed exactly in this state. */
    predicate TimerRunning()
      reads this
    {
      scenario.Some? && timeRemaining > 0 && !isSubmitted
    }

    /** `startChallenge`. */
    method StartChallenge(s: Scenario)
      modifies this
      ensures scenario == Some(s) && timeRemaining == s.timeLimit * 60
      ensures nodes == [] && connections == [] && result == None
      ensures !isSubmitted && !showModelSolution
      ensures selected == old(selected) && isConnecting == old(isConnecting) && connectingFrom == old(connectingFrom)
      ensures Valid()
    {
      scenario := Some(s);
      timeRemaining := s.timeLimit * 60;
      nodes := [];
      connections := [];
      result := None;
      isSubmitted := false;
      showModelSolution := false;
    }

    /** `resetChallenge`: back to the picker; the remaining time is left as it was. */
    method ResetChallenge()
      modifies this
      ensures scenario == None && nodes == [] && connections == [] && result == None
      ensures !isSubmitted && !showModelSolution
      ensures timeRemaining == old(timeRemaining)
      ensures selected == old(selected) && isConnecting == old(isConnecting) && connectingFrom == old(connectingFrom)
      ensures old(Valid()) ==> Valid()
      ensures !TimerRunning()
    {
      scenario := None;
      nodes := [];
      connections := [];
      result := None;
      isSubmitted := false;
      showModelSolution := false;
    }

    /** `submitSolution`: the evaluation of the current canvas is stored and the session is
        marked submitted. */
    method Submit()
      modifies this
      ensures result == Some(ResultFor(scenario, NamesOf(nodes), |connections|))
      ensures isSubmitted
      ensures scenario == old(scenario) && nodes == old(nodes) && connections == old(connections)
      ensures timeRemaining == old(timeRemaining) && showModelSolution == old(showModelSolution)
      ensures selected == old(selected) && isConnecting == old(isConnecting) && connectingFrom == old(connectingFrom)
      ensures !TimerRunning()
      ensures old(Valid()) ==> Valid()
    {
      var r := CalculateScore(scenario, NamesOf(nodes), |connections|);
      result := Some(r);
      isSubmitted := true;
    }

    /** One firing of the one-second interval. Without a running timer nothing happens; with
        more than one second left the time goes down by one; otherwise the solution is
        submitted and the time set to 0. */
    method Tick()
      modifies this
      ensures !old(TimerRunning()) ==>
                timeRemaining == old(timeRemaining) && isSubmitted == old(isSubmitted) && result == old(result)
      ensures old(TimerRunning()) && old(timeRemaining) > 1 ==>
                timeRemaining == old(timeRemaining) - 1 && !isSubmitted && result == old(result)
      ensures old(TimerRunning()) && old(timeRemaining) <= 1 ==>
                timeRemaining == 0 && isSubmitted &&
                result == Some(ResultFor(scenario, NamesOf(nodes), |connections|))
      ensures scenario == old(scenario) && nodes == old(nodes) && connections == old(connections)
      ensures selected == old(selected) && isConnecting == old(isConnecting) && connectingFrom == old(connectingFrom)
      ensures showModelSolution == old(showModelSolution)
      ensures old(Valid()) ==> Valid()
    {
      if !TimerRunning() {
        return;
      }
      if timeRemaining <= 1 {
        Submit();
        timeRemaining := 0;
      } else {
        timeRemaining := timeRemaining - 1;
      }
    }

    /** The Connect Services / Cancel Connect button, shown only before submission. */
    method ToggleConnecting()
      requires !isSubmitted
      modifies this
      ensures isConnecting == !old(isConnecting)
      ensures scenario == old(scenario) && nodes == old(nodes) && connections == old(connections)
      ensures selected == old(selected) && connectingFrom == old(connectingFrom)
      ensures timeRemaining == old(timeRemaining) && result == old(result)
      ensures showModelSolution == old(showModelSolution) && isSubmitted == old(isSubmitted)
    {
      isConnecting := !isConnecting;
    }

    /** `handleServiceClick`, with the same connect-mode logic as the builder. */
    method ServiceClick(serviceId: string, stamp: string)
      modifies this
      ensures nodes == old(nodes)
      ensures old(isConnecting && connectingFrom.Some? && connectingFrom.value != "" && connectingFrom.value != serviceId) ==>
                connections == old(connections) +
                  [Link(old(connectingFrom).value + "-" + serviceId + "-" + stamp, old(connectingFrom).value, serviceId)] &&
                !isConnecting && connectingFrom == None && selected == old(selected)
      ensures old(isConnecting) && !old(connectingFrom.Some? && connectingFrom.value != "" && connectingFrom.value != serviceId) ==>
                connections == old(connections) && isConnecting && connectingFrom == Some(serviceId) &&
                selected == old(selected)
      ensures !old(isConnecting) ==>
                connections == old(connections) && !isConnecting && connectingFrom == old(connectingFrom) &&
                selected == (if old(selected) == Some(serviceId) then None else Some(serviceId))
      ensures scenario == old(scenario) && timeRemaining == old(timeRemaining) && isSubmitted == old(isSubmitted)
      ensures result == old(result) && showModelSolution == old(showModelSolution)
    {
      if isConnecting {
        if connectingFrom.Some? && connectingFrom.value != "" && connectingFrom.value != serviceId {
          var from := connectingFrom.value;
          connections := connections + [Link(from + "-" + serviceId + "-" + stamp, from, serviceId)];
          isConnecting := false;
          connectingFrom := None;
        } else {
          connectingFrom := Some(serviceId);
        }
      } else {
        selected := if selected == Some(serviceId) then None else Some(serviceId);
      }
    }

    /** `removeService`: the node goes with exactly the connections touching it. */
    method RemoveService(serviceId: string)
      modifies this
      ensures nodes == Filter(old(nodes), (n: ChallengeNode) => n.id != serviceId)
      ensures connections == Filter(old(connections), (c: Link) => c.fromServiceId != serviceId && c.toServiceId != serviceId)
      ensures forall c :: c in connections <==>
                c in old(connections) && c.fromServiceId != serviceId && c.toServiceId != serviceId
      ensures selected == None
      ensures scenario == old(scenario) && timeRemaining == old(timeRemaining) && isSubmitted == old(isSubmitted)
      ensures isConnecting == old(isConnecting) && connectingFrom == old(connectingFrom)
      ensures result == old(result) && showModelSolution == old(showModelSolution)
    {
      nodes := Filter(nodes, (n: ChallengeNode) => n.id != serviceId);
      connections := Filter(connections, (c: Link) => c.fromServiceId != serviceId && c.toServiceId != serviceId);
      selected := None;
    }
  }
}

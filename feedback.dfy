/** The builder's detailed feedback (`generateDetailedFeedback`): strengths and weaknesses by
    presence of service names, a block of three recommendations chosen by grade band, and the
    certifications the placed services align with. */
module Feedback {
  import opened Basics
  import opened Architecture
  import opened Scoring

  const ServerlessStrength := "Serverless architecture for cost optimization"
  const DeliveryStrength := "Global content delivery for performance"
  const IdentityStrength := "Proper identity and access management"
  const ScalingStrength := "Dynamic scaling capabilities"
  const IsolationStrength := "Network isolation and security"

  const NoMonitoringWeakness := "No monitoring and observability solution"
  const NoIdentityWeakness := "Missing identity and access management"
  const ExposedEc2Weakness := "EC2 instances not in isolated network"
  const UncachedDatabaseWeakness := "Database performance could be improved with caching"

  const DeveloperCertification := "AWS Certified Developer - Associate"
  const ArchitectCertification := "AWS Certified Solutions Architect - Associate"
  const SecurityCertification := "AWS Certified Security - Specialty"
  const SysOpsCertification := "AWS Certified SysOps Administrator - Associate"

  /** Recommendation blocks, in the order each band pushes them. */
  const FundamentalsAdvice := "Start with fundamental AWS security services like IAM and VPC"
  const MonitoringAdvice := "Add monitoring with CloudWatch for basic observability"
  const ManagedServicesAdvice := "Consider managed services to reduce operational overhead"
  const CachingAdvice := "Implement caching strategies with ElastiCache or CloudFront"
  const LoadBalancingAdvice := "Add load balancing for improved availability"
  const AutoScalingAdvice := "Enable auto scaling for cost optimization"
  const AdvancedSecurityAdvice := "Implement advanced security with WAF and GuardDuty"
  const DisasterRecoveryAdvice := "Add disaster recovery and backup strategies"
  const SavingsAdvice := "Optimize costs with Reserved Instances or Savings Plans"
  const EventDrivenAdvice := "Consider advanced patterns like event-driven architecture"
  const InfrastructureAsCodeAdvice := "Implement infrastructure as code with CloudFormation"
  const TracingAdvice := "Add advanced monitoring with X-Ray and custom metrics"

  function StrengthsFor(names: seq<string>): seq<string>
  {
    When("Lambda" in names, ServerlessStrength) +
    When("CloudFront" in names, DeliveryStrength) +
    When("IAM" in names, IdentityStrength) +
    When("Auto Scaling" in names, ScalingStrength) +
    When("VPC" in names, IsolationStrength)
  }

  function WeaknessesFor(names: seq<string>): seq<string>
  {
    When("CloudWatch" !in names, NoMonitoringWeakness) +
    When("IAM" !in names, NoIdentityWeakness) +
    When("VPC" !in names && "EC2" in names, ExposedEc2Weakness) +
    When("RDS" in names && "ElastiCache" !in names, UncachedDatabaseWeakness)
  }

  const FoundationBlock := [FundamentalsAdvice, MonitoringAdvice, ManagedServicesAdvice]
  const AvailabilityBlock := [CachingAdvice, LoadBalancingAdvice, AutoScalingAdvice]
  const HardeningBlock := [AdvancedSecurityAdvice, DisasterRecoveryAdvice, SavingsAdvice]
  const AdvancedBlock := [EventDrivenAdvice, InfrastructureAsCodeAdvice, TracingAdvice]

  /** The block of three recommendations of each grade band. */
  function RecommendationsFor(grade: Grade): (block: seq<string>)
    ensures |block| == 3
  {
    if grade == F || grade == D then FoundationBlock
    else if grade == C || grade == CPlus then AvailabilityBlock
    else if grade == B || grade == BPlus then HardeningBlock
    else AdvancedBlock
  }

  /** The service groups behind each certification (`serviceNames.some(name => [...].includes(name))`). */
  predicate DeveloperServices(names: seq<string>)
  {
    "Lambda" in names || "API Gateway" in names || "DynamoDB" in names
  }

  predicate ArchitectServices(names: seq<string>)
  {
    "VPC" in names || "EC2" in names || "ELB" in names || "Auto Scaling" in names
  }

  predicate SecurityServices(names: seq<string>)
  {
    "IAM" in names || "KMS" in names || "CloudTrail" in names || "WAF" in names
  }

  predicate SysOpsServices(names: seq<string>)
  {
    "CloudWatch" in names || "CloudFormation" in names || "Systems Manager" in names
  }

  function CertificationsFor(names: seq<string>): seq<string>
  {
    When(DeveloperServices(names), DeveloperCertification) +
    When(ArchitectServices(names), ArchitectCertification) +
    When(SecurityServices(names), SecurityCertification) +
    When(SysOpsServices(names), SysOpsCertification)
  }

  function FeedbackFor(names: seq<string>, grade: Grade): DetailedFeedback
  {
    DetailedFeedback(StrengthsFor(names), WeaknessesFor(names), RecommendationsFor(grade), CertificationsFor(names))
  }

  /** `generateDetailedFeedback`. The source also receives the total, which it does not read. */
  method GenerateDetailedFeedback(names: seq<string>, grade: Grade) returns (feedback: DetailedFeedback)
    ensures feedback == FeedbackFor(names, grade)
  {
    var strengths := IdentifyStrengths(names);
    var weaknesses := IdentifyWeaknesses(names);
    var recommendations := Recommend(grade);
    var certificationAlignment := AlignCertifications(names);
    feedback := DetailedFeedback(strengths, weaknesses, recommendations, certificationAlignment);
  }

  method IdentifyStrengths(names: seq<string>) returns (strengths: seq<string>)
    ensures strengths == StrengthsFor(names)
  {
    strengths := [];
    if "Lambda" in names { strengths := strengths + [ServerlessStrength]; }
    assert strengths == When("Lambda" in names, ServerlessStrength);
    if "CloudFront" in names { strengths := strengths + [DeliveryStrength]; }
    assert strengths == When("Lambda" in names, ServerlessStrength) +
                        When("CloudFront" in names, DeliveryStrength);
    if "IAM" in names { strengths := strengths + [IdentityStrength]; }
    assert strengths == When("Lambda" in names, ServerlessStrength) +
                        When("CloudFront" in names, DeliveryStrength) +
                        When("IAM" in names, IdentityStrength);
    if "Auto Scaling" in names { strengths := strengths + [ScalingStrength]; }
    assert strengths == When("Lambda" in names, ServerlessStrength) +
                        When("CloudFront" in names, DeliveryStrength) +
                        When("IAM" in names, IdentityStrength) +
                        When("Auto Scaling" in names, ScalingStrength);
    if "VPC" in names { strengths := strengths + [IsolationStrength]; }
  }

  method IdentifyWeaknesses(names: seq<string>) returns (weaknesses: seq<string>)
    ensures weaknesses == WeaknessesFor(names)
  {
    weaknesses := [];
    if "CloudWatch" !in names { weaknesses := weaknesses + [NoMonitoringWeakness]; }
    assert weaknesses == When("CloudWatch" !in names, NoMonitoringWeakness);
    if "IAM" !in names { weaknesses := weaknesses + [NoIdentityWeakness]; }
    assert weaknesses == When("CloudWatch" !in names, NoMonitoringWeakness) +
                         When("IAM" !in names, NoIdentityWeakness);
    if "VPC" !in names && "EC2" in names { weaknesses := weaknesses + [ExposedEc2Weakness]; }
    assert weaknesses == When("CloudWatch" !in names, NoMonitoringWeakness) +
                         When("IAM" !in names, NoIdentityWeakness) +
                         When("VPC" !in names && "EC2" in names, ExposedEc2Weakness);
    if "RDS" in names && "ElastiCache" !in names { weaknesses := weaknesses + [UncachedDatabaseWeakness]; }
  }

  method Recommend(grade: Grade) returns (recommendations: seq<string>)
    ensures recommendations == RecommendationsFor(grade)
  {
    recommendations := [];
    if grade == F || grade == D {
      recommendations := recommendations + [FundamentalsAdvice];
      recommendations := recommendations + [MonitoringAdvice];
      recommendations := recommendations + [ManagedServicesAdvice];
    } else if grade == C || grade == CPlus {
      recommendations := recommendations + [CachingAdvice];
      recommendations := recommendations + [LoadBalancingAdvice];
      recommendations := recommendations + [AutoScalingAdvice];
    } else if grade == B || grade == BPlus {
      recommendations := recommendations + [AdvancedSecurityAdvice];
      recommendations := recommendations + [DisasterRecoveryAdvice];
      recommendations := recommendations + [SavingsAdvice];
    } else {
      recommendations := recommendations + [EventDrivenAdvice];
      recommendations := recommendations + [InfrastructureAsCodeAdvice];
      recommendations := recommendations + [TracingAdvice];
    }
  }

  method AlignCertifications(names: seq<string>) returns (certificationAlignment: seq<string>)
    ensures certificationAlignment == CertificationsFor(names)
  {
    certificationAlignment := [];
    if DeveloperServices(names) {
      certificationAlignment := certificationAlignment + [DeveloperCertification];
    }
    assert certificationAlignment ==
           When(DeveloperServices(names), DeveloperCertification);
    if ArchitectServices(names) {
      certificationAlignment := certificationAlignment + [ArchitectCertification];
    }
    assert certificationAlignment ==
           When(DeveloperServices(names), DeveloperCertification) +
           When(ArchitectServices(names), ArchitectCertification);
    if SecurityServices(names) {
      certificationAlignment := certificationAlignment + [SecurityCertification];
    }
    assert certificationAlignment ==
           When(DeveloperServices(names), DeveloperCertification) +
           When(ArchitectServices(names), ArchitectCertification) +
           When(SecurityServices(names), SecurityCertification);
    if SysOpsServices(names) {
      certificationAlignment := certificationAlignment + [SysOpsCertification];
    }
  }

  /** The messages of each list differ from one another (they differ in length). */
  lemma MessagesDistinct()
    ensures NoDuplicates([ServerlessStrength, DeliveryStrength, IdentityStrength, ScalingStrength, IsolationStrength])
    ensures NoDuplicates([NoMonitoringWeakness, NoIdentityWeakness, ExposedEc2Weakness, UncachedDatabaseWeakness])
    ensures NoDuplicates([DeveloperCertification, ArchitectCertification, SecurityCertification, SysOpsCertification])
  {
    var strengths := [ServerlessStrength, DeliveryStrength, IdentityStrength, ScalingStrength, IsolationStrength];
    assert |strengths[0]| == 45 && |strengths[1]| == 39 && |strengths[2]| == 37;
    assert |strengths[3]| == 28 && |strengths[4]| == 30;
    var weaknesses := [NoMonitoringWeakness, NoIdentityWeakness, ExposedEc2Weakness, UncachedDatabaseWeakness];
    assert |weaknesses[0]| == 40 && |weaknesses[1]| == 38 && |weaknesses[2]| == 37 && |weaknesses[3]| == 51;
    var certifications := [DeveloperCertification, ArchitectCertification, SecurityCertification, SysOpsCertification];
    assert |certifications[0]| == 35 && |certifications[1]| == 45;
    assert |certifications[2]| == 34 && |certifications[3]| == 46;
  }

  /** Each strength is listed exactly when its service is placed, and at most once. */
  lemma StrengthsExact(names: seq<string>)
    ensures ServerlessStrength in StrengthsFor(names) <==> "Lambda" in names
    ensures DeliveryStrength in StrengthsFor(names) <==> "CloudFront" in names
    ensures IdentityStrength in StrengthsFor(names) <==> "IAM" in names
    ensures ScalingStrength in StrengthsFor(names) <==> "Auto Scaling" in names
    ensures IsolationStrength in StrengthsFor(names) <==> "VPC" in names
    ensures NoDuplicates(StrengthsFor(names))
  {
    MessagesDistinct();
    var all := [ServerlessStrength, DeliveryStrength, IdentityStrength, ScalingStrength, IsolationStrength];
    assert all[0] != all[1] && all[0] != all[2] && all[0] != all[3] && all[0] != all[4];
    assert all[1] != all[2] && all[1] != all[3] && all[1] != all[4];
    assert all[2] != all[3] && all[2] != all[4] && all[3] != all[4];
    var s1 := When("Lambda" in names, ServerlessStrength);
    var s2 := s1 + When("CloudFront" in names, DeliveryStrength);
    var s3 := s2 + When("IAM" in names, IdentityStrength);
    var s4 := s3 + When("Auto Scaling" in names, ScalingStrength);
    AppendFresh([], "Lambda" in names, ServerlessStrength);
    AppendFresh(s1, "CloudFront" in names, DeliveryStrength);
    AppendFresh(s2, "IAM" in names, IdentityStrength);
    AppendFresh(s3, "Auto Scaling" in names, ScalingStrength);
    AppendFresh(s4, "VPC" in names, IsolationStrength);
  }

  /** Each weakness is listed exactly when its condition holds, and at most once. */
  lemma WeaknessesExact(names: seq<string>)
    ensures NoMonitoringWeakness in WeaknessesFor(names) <==> "CloudWatch" !in names
    ensures NoIdentityWeakness in WeaknessesFor(names) <==> "IAM" !in names
    ensures ExposedEc2Weakness in WeaknessesFor(names) <==> "VPC" !in names && "EC2" in names
    ensures UncachedDatabaseWeakness in WeaknessesFor(names) <==> "RDS" in names && "ElastiCache" !in names
    ensures NoDuplicates(WeaknessesFor(names))
  {
    MessagesDistinct();
    var all := [NoMonitoringWeakness, NoIdentityWeakness, ExposedEc2Weakness, UncachedDatabaseWeakness];
    assert all[0] != all[1] && all[0] != all[2] && all[0] != all[3];
    assert all[1] != all[2] && all[1] != all[3] && all[2] != all[3];
    var w1 := When("CloudWatch" !in names, NoMonitoringWeakness);
    var w2 := w1 + When("IAM" !in names, NoIdentityWeakness);
    var w3 := w2 + When("VPC" !in names && "EC2" in names, ExposedEc2Weakness);
    AppendFresh([], "CloudWatch" !in names, NoMonitoringWeakness);
    AppendFresh(w1, "IAM" !in names, NoIdentityWeakness);
    AppendFresh(w2, "VPC" !in names && "EC2" in names, ExposedEc2Weakness);
    AppendFresh(w3, "RDS" in names && "ElastiCache" !in names, UncachedDatabaseWeakness);
  }

  /** Each certification is listed exactly when one of its services is placed, and at most once. */
  lemma CertificationsExact(names: seq<string>)
    ensures DeveloperCertification in CertificationsFor(names) <==>
            "Lambda" in names || "API Gateway" in names || "DynamoDB" in names
    ensures ArchitectCertification in CertificationsFor(names) <==>
            "VPC" in names || "EC2" in names || "ELB" in names || "Auto Scaling" in names
    ensures SecurityCertification in CertificationsFor(names) <==>
            "IAM" in names || "KMS" in names || "CloudTrail" in names || "WAF" in names
    ensures SysOpsCertification in CertificationsFor(names) <==>
            "CloudWatch" in names || "CloudFormation" in names || "Systems Manager" in names
    ensures NoDuplicates(CertificationsFor(names))
  {
    MessagesDistinct();
    var all := [DeveloperCertification, ArchitectCertification, SecurityCertification, SysOpsCertification];
    assert all[0] != all[1] && all[0] != all[2] && all[0] != all[3];
    assert all[1] != all[2] && all[1] != all[3] && all[2] != all[3];
    var c1 := When(DeveloperServices(names), DeveloperCertification);
    var c2 := c1 + When(ArchitectServices(names), ArchitectCertification);
    var c3 := c2 + When(SecurityServices(names), SecurityCertification);
    AppendFresh([], DeveloperServices(names), DeveloperCertification);
    AppendFresh(c1, ArchitectServices(names), ArchitectCertification);
    AppendFresh(c2, SecurityServices(names), SecurityCertification);
    AppendFresh(c3, SysOpsServices(names), SysOpsCertification);
  }

  /** The grade band of the recommendations: F/D, C/C+, B/B+ and A/A+, lowest first. */
  function Band(grade: Grade): (band: nat)
    ensures band <= 3
  {
    GradeRank(grade) / 2
  }

  /** There are always exactly three recommendations, all different. */
  lemma RecommendationsAreThree(grade: Grade)
    ensures |RecommendationsFor(grade)| == 3
    ensures NoDuplicates(RecommendationsFor(grade))
  {
    var r := RecommendationsFor(grade);
    AdviceLengths();
    assert |r[0]| != |r[1]| && |r[0]| != |r[2]| && |r[1]| != |r[2]|;
  }

  /** Two grades receive the same block exactly when they are in the same band, and blocks of
      different bands share no item. */
  lemma RecommendationsByBand(g1: Grade, g2: Grade)
    ensures RecommendationsFor(g1) == RecommendationsFor(g2) <==> Band(g1) == Band(g2)
    ensures Band(g1) != Band(g2) ==>
            forall m :: m in RecommendationsFor(g1) ==> m !in RecommendationsFor(g2)
  {
    var r1, r2 := RecommendationsFor(g1), RecommendationsFor(g2);
    if Band(g1) != Band(g2) {
      forall m | m in r1 ensures m !in r2 {
        BlockLengths(g1, m);
        if m in r2 {
          BlockLengths(g2, m);
        }
      }
      assert r1[0] in r1;
    }
  }

  /** The lengths of the items of each band's block: twelve different numbers. */
  predicate HasBandLength(band: nat, length: nat)
  {
    if band == 0 then length == 61 || length == 54 || length == 56
    else if band == 1 then length == 59 || length == 44 || length == 41
    else if band == 2 then length == 50 || length == 43 || length == 55
    else length == 57 || length == 52 || length == 53
  }

  lemma BlockLengths(grade: Grade, m: string)
    requires m in RecommendationsFor(grade)
    ensures HasBandLength(Band(grade), |m|)
  {
    AdviceLengths();
  }

  /** The twelve recommendations have twelve different lengths. */
  lemma AdviceLengths()
    ensures |FundamentalsAdvice| == 61 && |MonitoringAdvice| == 54 && |ManagedServicesAdvice| == 56
    ensures |CachingAdvice| == 59 && |LoadBalancingAdvice| == 44 && |AutoScalingAdvice| == 41
    ensures |AdvancedSecurityAdvice| == 50 && |DisasterRecoveryAdvice| == 43 && |SavingsAdvice| == 55
    ensures |EventDrivenAdvice| == 57 && |InfrastructureAsCodeAdvice| == 52 && |TracingAdvice| == 53
  {
  }

  /** The recommendation block in terms of the total: below 70, 70 to 79, 80 to 89, 90 and over. */
  lemma RecommendationsByTotal(total: nat)
    ensures RecommendationsFor(GradeFor(total)) ==
            if total < 70 then RecommendationsFor(F)
            else if total < 80 then RecommendationsFor(C)
            else if total < 90 then RecommendationsFor(B)
            else RecommendationsFor(A)
  {
  }

  /** A lone EC2 node graded F: no strengths; missing monitoring, missing identity management and
      an unisolated EC2 instance; the fundamentals block; alignment with Solutions Architect only. */
  lemma SingleEc2Feedback()
    ensures FeedbackFor(["EC2"], F) ==
            DetailedFeedback([], [NoMonitoringWeakness, NoIdentityWeakness, ExposedEc2Weakness],
                             [FundamentalsAdvice, MonitoringAdvice, ManagedServicesAdvice],
                             [ArchitectCertification])
  {
    var names := ["EC2"];
    assert "EC2" == names[0];
    assert StrengthsFor(names) == [];
    assert WeaknessesFor(names) == [NoMonitoringWeakness, NoIdentityWeakness, ExposedEc2Weakness];
    assert CertificationsFor(names) == [ArchitectCertification];
  }
}

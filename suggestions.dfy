/** The builder's rule-based advisor: a fixed sequence of independent rules over the names of
    the placed services, each of which, when it fires, appends one advisory record. */
module Suggestions {
  import opened Basics
  import opened Architecture

  /** The thirteen rules, in evaluation order. */
  datatype Rule =
    | MissingIam | Ec2WithoutVpc | MissingWaf | MissingCdn | MissingCache
    | MissingAutoScaling | ServerlessAlternative | MultiAz | MissingLoadBalancer
    | MissingMonitoring | MissingAuditTrail | MissingApiGateway | MissingEventBus

  /** The rule evaluated at step `i`, for 0 <= i < 13. */
  function RuleAt(i: nat): Rule
    requires i < 13
  {
    if i == 0 then MissingIam
    else if i == 1 then Ec2WithoutVpc
    else if i == 2 then MissingWaf
    else if i == 3 then MissingCdn
    else if i == 4 then MissingCache
    else if i == 5 then MissingAutoScaling
    else if i == 6 then ServerlessAlternative
    else if i == 7 then MultiAz
    else if i == 8 then MissingLoadBalancer
    else if i == 9 then MissingMonitoring
    else if i == 10 then MissingAuditTrail
    else if i == 11 then MissingApiGateway
    else MissingEventBus
  }

  /** The step at which each rule is evaluated: the inverse of `RuleAt`. */
  function Rank(r: Rule): (i: nat)
    ensures i < 13 && RuleAt(i) == r
  {
    match r
    case MissingIam => 0
    case Ec2WithoutVpc => 1
    case MissingWaf => 2
    case MissingCdn => 3
    case MissingCache => 4
    case MissingAutoScaling => 5
    case ServerlessAlternative => 6
    case MultiAz => 7
    case MissingLoadBalancer => 8
    case MissingMonitoring => 9
    case MissingAuditTrail => 10
    case MissingApiGateway => 11
    case MissingEventBus => 12
  }

  /** The guard of each rule. `present` is the set of placed service names (a name is in it
      exactly when `serviceNames.includes(name)` holds) and `count` is `serviceNames.length`,
      which counts repeated services. */
  predicate Fires(r: Rule, present: set<string>, count: nat)
  {
    match r
    case MissingIam =>
      ("RDS" in present || "DynamoDB" in present || "Redshift" in present) &&
      ("EC2" in present || "Lambda" in present || "ECS" in present) && "IAM" !in present
    case Ec2WithoutVpc => "EC2" in present && "VPC" !in present
    case MissingWaf => ("API Gateway" in present || "ALB" in present || "CloudFront" in present) && "WAF" !in present
    case MissingCdn => "S3" in present && "CloudFront" !in present
    case MissingCache => ("RDS" in present || "Aurora" in present) && "ElastiCache" !in present
    case MissingAutoScaling => "EC2" in present && "Auto Scaling" !in present
    case ServerlessAlternative => "EC2" in present && ("API Gateway" in present || "S3" in present)
    case MultiAz => "RDS" in present && "RDS" !in present
    case MissingLoadBalancer => "EC2" in present && !("ELB" in present || "ALB" in present || "NLB" in present)
    case MissingMonitoring => count > 2 && "CloudWatch" !in present
    case MissingAuditTrail => count > 3 && "CloudTrail" !in present
    case MissingApiGateway => "Lambda" in present && "API Gateway" !in present
    case MissingEventBus => "DynamoDB" in present && "Lambda" in present && "EventBridge" !in present
  }

  /** The record each rule appends; its fields are given one by one below. */
  function Advice(r: Rule): Suggestion
  {
    Suggestion(Message(r), ProposedServices(r), PriorityOf(r), CategoryOf(r), Impact(r), Reasoning(r))
  }

  /** The headline of each record. */
  function Message(r: Rule): string
  {
    match r
    case MissingIam => "Critical security gap: No IAM service detected with compute and database services"
    case Ec2WithoutVpc => "EC2 instances should run in isolated VPC networks"
    case MissingWaf => "Web applications need WAF protection against common attacks"
    case MissingCdn => "Add CloudFront CDN for global content delivery and reduced latency"
    case MissingCache => "Consider ElastiCache to reduce database load and improve response times"
    case MissingAutoScaling => "Auto Scaling optimizes costs by adjusting capacity based on demand"
    case ServerlessAlternative => "Consider serverless alternatives (Lambda) to reduce infrastructure costs"
    case MultiAz => "Enable Multi-AZ deployment for database high availability"
    case MissingLoadBalancer => "Add load balancing for high availability and traffic distribution"
    case MissingMonitoring => "CloudWatch is essential for monitoring and observability"
    case MissingAuditTrail => "Enable CloudTrail for audit logging and compliance"
    case MissingApiGateway => "API Gateway provides managed HTTP endpoints for Lambda functions"
    case MissingEventBus => "Consider EventBridge for event-driven architecture patterns"
  }

  /** The services each record proposes to add; the Multi-AZ record proposes none. */
  function ProposedServices(r: Rule): (services: seq<string>)
    ensures |services| == (if r == MultiAz then 0 else 1)
  {
    match r
    case MissingIam => ["IAM"]
    case Ec2WithoutVpc => ["VPC"]
    case MissingWaf => ["WAF"]
    case MissingCdn => ["CloudFront"]
    case MissingCache => ["ElastiCache"]
    case MissingAutoScaling => ["Auto Scaling"]
    case ServerlessAlternative => ["Lambda"]
    case MultiAz => []
    case MissingLoadBalancer => ["ALB"]
    case MissingMonitoring => ["CloudWatch"]
    case MissingAuditTrail => ["CloudTrail"]
    case MissingApiGateway => ["API Gateway"]
    case MissingEventBus => ["EventBridge"]
  }

  /** Priority of each record. */
  function PriorityOf(r: Rule): Priority
  {
    match r
    case MissingIam => Critical
    case Ec2WithoutVpc => Critical
    case MissingWaf => High
    case MissingCdn => Medium
    case MissingCache => Medium
    case MissingAutoScaling => Medium
    case ServerlessAlternative => Low
    case MultiAz => High
    case MissingLoadBalancer => High
    case MissingMonitoring => Medium
    case MissingAuditTrail => Medium
    case MissingApiGateway => Medium
    case MissingEventBus => Low
  }

  /** Category of each record. */
  function CategoryOf(r: Rule): SuggestionCategory
  {
    match r
    case MissingIam => Security
    case Ec2WithoutVpc => Security
    case MissingWaf => Security
    case MissingCdn => Performance
    case MissingCache => Performance
    case MissingAutoScaling => Cost
    case ServerlessAlternative => Cost
    case MultiAz => Reliability
    case MissingLoadBalancer => Reliability
    case MissingMonitoring => BestPractice
    case MissingAuditTrail => BestPractice
    case MissingApiGateway => BestPractice
    case MissingEventBus => BestPractice
  }

  /** Impact of each record, on the 1-10 scale. */
  function Impact(r: Rule): (impact: nat)
    ensures 1 <= impact <= 10
  {
    match r
    case MissingIam => 10
    case Ec2WithoutVpc => 9
    case MissingWaf => 8
    case MissingCdn => 7
    case MissingCache => 6
    case MissingAutoScaling => 7
    case ServerlessAlternative => 6
    case MultiAz => 8
    case MissingLoadBalancer => 8
    case MissingMonitoring => 6
    case MissingAuditTrail => 5
    case MissingApiGateway => 7
    case MissingEventBus => 5
  }

  /** The explanation attached to each record. */
  function Reasoning(r: Rule): string
  {
    match r
    case MissingIam => "IAM is essential for secure access control between services. Without it, your architecture has major security vulnerabilities."
    case Ec2WithoutVpc => "VPC provides network isolation and security controls essential for production workloads."
    case MissingWaf => "WAF protects against OWASP Top 10 vulnerabilities and DDoS attacks."
    case MissingCdn => "CloudFront reduces latency by caching content at edge locations worldwide."
    case MissingCache => "In-memory caching significantly reduces database queries and improves application performance."
    case MissingAutoScaling => "Auto Scaling prevents over-provisioning and reduces costs during low-demand periods."
    case ServerlessAlternative => "Lambda eliminates idle time costs and scales automatically with usage."
    case MultiAz => "Multi-AZ provides automatic failover and data durability across availability zones."
    case MissingLoadBalancer => "Load balancers distribute traffic and provide failover capabilities."
    case MissingMonitoring => "Monitoring is crucial for maintaining system health and troubleshooting issues."
    case MissingAuditTrail => "CloudTrail provides audit logs for security and compliance requirements."
    case MissingApiGateway => "API Gateway handles authentication, throttling, and request/response transformation."
    case MissingEventBus => "EventBridge enables loose coupling and event-driven microservices architecture."
  }

  /** The rules among the first `k` whose guard holds, in evaluation order. */
  function FiredRules(present: set<string>, count: nat, k: nat): seq<Rule>
    requires k <= 13
  {
    if k == 0 then []
    else if Fires(RuleAt(k - 1), present, count) then FiredRules(present, count, k - 1) + [RuleAt(k - 1)]
    else FiredRules(present, count, k - 1)
  }

  /** The records of a list of rules, in the same order. */
  function AdviceList(rules: seq<Rule>): (records: seq<Suggestion>)
    ensures |records| == |rules|
  {
    if rules == [] then [] else AdviceList(rules[..|rules| - 1]) + [Advice(rules[|rules| - 1])]
  }

  /** The record at position `i` is the record of the rule at position `i`, message and
      reasoning included; the string-free fields are also given one by one, as those are what
      the other lemmas need. */
  lemma {:induction false} AdviceListAt(rules: seq<Rule>, i: nat)
    requires i < |rules|
    ensures AdviceList(rules)[i] == Advice(rules[i])
    ensures AdviceList(rules)[i].suggestedServices == ProposedServices(rules[i])
    ensures AdviceList(rules)[i].priority == PriorityOf(rules[i])
    ensures AdviceList(rules)[i].category == CategoryOf(rules[i])
    ensures AdviceList(rules)[i].impact == Impact(rules[i])
  {
    if i < |rules| - 1 {
      AdviceListAt(rules[..|rules| - 1], i);
    }
  }

  /** The rules that fire for a canvas whose service names are `names`. */
  function FiredFor(names: seq<string>): seq<Rule>
  {
    FiredRules(NameSet(names), |names|, 13)
  }

  /** The suggestions for a non-empty canvas: the records of the rules that fire, in rule order. */
  function SuggestionsFor(names: seq<string>): seq<Suggestion>
  {
    AdviceList(FiredFor(names))
  }

  /** `generateSuggestions` for a non-empty canvas: every rule is evaluated in order, and each one
      that fires contributes its record. */
  method GenerateSuggestions(names: seq<string>) returns (suggestions: seq<Suggestion>)
    ensures suggestions == SuggestionsFor(names)
  {
    var fired := EvaluateRules(NameSet(names), |names|);
    suggestions := AdviceList(fired);
  }

  /** The chain of guarded pushes, one `if` per rule in source order, recording which rules fire;
      the chain is cut along the source's own section comments. */
  method EvaluateRules(present: set<string>, count: nat) returns (fired: seq<Rule>)
    ensures fired == FiredRules(present, count, 13)
  {
    fired := [];
    fired := SecurityRules(present, count, fired);
    fired := PerformanceRules(present, count, fired);
    fired := CostRules(present, count, fired);
    fired := ReliabilityRules(present, count, fired);
    fired := BestPracticeRules(present, count, fired);
    fired := AdvancedRules(present, count, fired);
  }

  /** The critical security checks: rules 0 to 2, pushed onto the records of the rules before them. */
  method SecurityRules(present: set<string>, count: nat, before: seq<Rule>) returns (fired: seq<Rule>)
    requires before == FiredRules(present, count, 0)
    ensures fired == FiredRules(present, count, 3)
  {
    fired := before;
    if Fires(MissingIam, present, count) {
      fired := fired + [MissingIam];
    }
    assert fired == FiredRules(present, count, 1);
    if Fires(Ec2WithoutVpc, present, count) {
      fired := fired + [Ec2WithoutVpc];
    }
    assert fired == FiredRules(present, count, 2);
    if Fires(MissingWaf, present, count) {
      fired := fired + [MissingWaf];
    }
  }

  /** The performance checks: rules 3 to 4, pushed onto the records of the rules before them. */
  method PerformanceRules(present: set<string>, count: nat, before: seq<Rule>) returns (fired: seq<Rule>)
    requires before == FiredRules(present, count, 3)
    ensures fired == FiredRules(present, count, 5)
  {
    fired := before;
    if Fires(MissingCdn, present, count) {
      fired := fired + [MissingCdn];
    }
    assert fired == FiredRules(present, count, 4);
    if Fires(MissingCache, present, count) {
      fired := fired + [MissingCache];
    }
  }

  /** The cost checks: rules 5 to 6, pushed onto the records of the rules before them. */
  method CostRules(present: set<string>, count: nat, before: seq<Rule>) returns (fired: seq<Rule>)
    requires before == FiredRules(present, count, 5)
    ensures fired == FiredRules(present, count, 7)
  {
    fired := before;
    if Fires(MissingAutoScaling, present, count) {
      fired := fired + [MissingAutoScaling];
    }
    assert fired == FiredRules(present, count, 6);
    if Fires(ServerlessAlternative, present, count) {
      fired := fired + [ServerlessAlternative];
    }
  }

  /** The reliability and high-availability checks: rules 7 to 8, pushed onto the records of the rules before them. */
  method ReliabilityRules(present: set<string>, count: nat, before: seq<Rule>) returns (fired: seq<Rule>)
    requires before == FiredRules(present, count, 7)
    ensures fired == FiredRules(present, count, 9)
  {
    fired := before;
    if Fires(MultiAz, present, count) {
      fired := fired + [MultiAz];
    }
    assert fired == FiredRules(present, count, 8);
    if Fires(MissingLoadBalancer, present, count) {
      fired := fired + [MissingLoadBalancer];
    }
  }

  /** The best-practice checks: rules 9 to 11, pushed onto the records of the rules before them. */
  method BestPracticeRules(present: set<string>, count: nat, before: seq<Rule>) returns (fired: seq<Rule>)
    requires before == FiredRules(present, count, 9)
    ensures fired == FiredRules(present, count, 12)
  {
    fired := before;
    if Fires(MissingMonitoring, present, count) {
      fired := fired + [MissingMonitoring];
    }
    assert fired == FiredRules(present, count, 10);
    if Fires(MissingAuditTrail, present, count) {
      fired := fired + [MissingAuditTrail];
    }
    assert fired == FiredRules(present, count, 11);
    if Fires(MissingApiGateway, present, count) {
      fired := fired + [MissingApiGateway];
    }
  }

  /** The advanced-pattern check: rules 12 to 12, pushed onto the records of the rules before them. */
  method AdvancedRules(present: set<string>, count: nat, before: seq<Rule>) returns (fired: seq<Rule>)
    requires before == FiredRules(present, count, 12)
    ensures fired == FiredRules(present, count, 13)
  {
    fired := before;
    if Fires(MissingEventBus, present, count) {
      fired := fired + [MissingEventBus];
    }
  }

  /** A rule is among those fired by the first `k` steps exactly when its guard holds and it is
      evaluated within those steps, and the fired rules keep the evaluation order. */
  lemma {:induction false} FiredRulesSpec(present: set<string>, count: nat, k: nat)
    requires k <= 13
    ensures forall r :: r in FiredRules(present, count, k) <==> Fires(r, present, count) && Rank(r) < k
    ensures forall i, j :: 0 <= i < j < |FiredRules(present, count, k)| ==>
              Rank(FiredRules(present, count, k)[i]) < Rank(FiredRules(present, count, k)[j])
  {
    if k > 0 {
      FiredRulesSpec(present, count, k - 1);
      assert forall r :: Rank(r) == k - 1 <==> r == RuleAt(k - 1);
    }
  }

  /** The Multi-AZ guard asks for RDS to be both present and absent, so it never fires. */
  lemma MultiAzNeverFires(names: seq<string>)
    ensures MultiAz !in FiredFor(names)
  {
    FiredRulesSpec(NameSet(names), |names|, 13);
  }

  /** Every emitted record proposes exactly one service, its impact is on the 1-10 scale,
      and no rule contributes twice. */
  lemma SuggestionsShape(names: seq<string>)
    ensures forall i :: 0 <= i < |SuggestionsFor(names)| ==>
              |SuggestionsFor(names)[i].suggestedServices| == 1 && 1 <= SuggestionsFor(names)[i].impact <= 10
    ensures NoDuplicates(FiredFor(names))
  {
    var fired := FiredFor(names);
    FiredRulesSpec(NameSet(names), |names|, 13);
    forall i | 0 <= i < |fired|
      ensures |AdviceList(fired)[i].suggestedServices| == 1 && 1 <= AdviceList(fired)[i].impact <= 10
    {
      assert fired[i] in fired;
      AdviceListAt(fired, i);
    }
  }

  /** Apart from the serverless rule, a record only proposes services the canvas lacks. */
  lemma ProposalsAreMissing(names: seq<string>, r: Rule)
    requires r in FiredFor(names) && r != ServerlessAlternative
    ensures forall n :: n in ProposedServices(r) ==> n !in names
  {
    FiredRulesSpec(NameSet(names), |names|, 13);
  }

  /** The serverless rule does not look for Lambda, so it can propose Lambda to a canvas that
      already holds it. */
  lemma ServerlessMayProposePresent()
    ensures ServerlessAlternative in FiredFor(["EC2", "S3", "Lambda"])
    ensures ProposedServices(ServerlessAlternative) == ["Lambda"]
  {
    var names := ["EC2", "S3", "Lambda"];
    FiredRulesSpec(NameSet(names), |names|, 13);
    assert Fires(ServerlessAlternative, NameSet(names), |names|);
  }

  /** A canvas holding one EC2 instance draws exactly three suggestions: an isolated network
      (critical), Auto Scaling (medium) and a load balancer (high), in that order. */
  lemma SingleEc2Suggestions()
    ensures FiredFor(["EC2"]) == [Ec2WithoutVpc, MissingAutoScaling, MissingLoadBalancer]
  {
    assert NameSet(["EC2"]) == {"EC2"};
    Ec2AllRules();
  }

  /** All thirteen rules on a lone EC2 instance. */
  lemma Ec2AllRules()
    ensures FiredRules({"EC2"}, 1, 13) == [Ec2WithoutVpc, MissingAutoScaling, MissingLoadBalancer]
  {
    Ec2FirstEightRules();
    assert FiredRules({"EC2"}, 1, 9) == [Ec2WithoutVpc, MissingAutoScaling, MissingLoadBalancer];
  }

  /** The first eight rules on a lone EC2 instance: only the network and Auto Scaling rules fire. */
  lemma Ec2FirstEightRules()
    ensures FiredRules({"EC2"}, 1, 8) == [Ec2WithoutVpc, MissingAutoScaling]
  {
    assert FiredRules({"EC2"}, 1, 5) == [Ec2WithoutVpc];
  }

  /** The rank used by the display sort: critical 4, high 3, medium 2, low 1. */
  function PriorityOrder(p: Priority): (rank: nat)
    ensures 1 <= rank <= 4
    ensures p == Critical <==> rank == 4
    ensures p == Low <==> rank == 1
  {
    match p
    case Critical => 4
    case High => 3
    case Medium => 2
    case Low => 1
  }

  /** The test "has priority `p`" on items whose priority is read by `key`. */
  function HasPriority<T>(key: T -> Priority, p: Priority): T -> bool
  {
    x => key(x) == p
  }

  /** A stable sort by descending `PriorityOrder(key(x))`, which is what `Array.prototype.sort`
      does with the comparator `order[b.priority] - order[a.priority]`: the items of each
      priority, in their original order, from critical down to low. */
  function SortByPriority<T(!new)>(s: seq<T>, key: T -> Priority): seq<T>
  {
    Filter(s, HasPriority(key, Critical)) + Filter(s, HasPriority(key, High)) +
    Filter(s, HasPriority(key, Medium)) + Filter(s, HasPriority(key, Low))
  }

  /** The order in which the suggestion panel shows the suggestions. */
  function SortForDisplay(s: seq<Suggestion>): seq<Suggestion>
  {
    SortByPriority(s, (m: Suggestion) => m.priority)
  }

  /** The sorted list runs from the highest priority to the lowest. */
  lemma SortedByPriority<T(!new)>(s: seq<T>, key: T -> Priority)
    ensures forall i, j :: 0 <= i < j < |SortByPriority(s, key)| ==>
              PriorityOrder(key(SortByPriority(s, key)[i])) >= PriorityOrder(key(SortByPriority(s, key)[j]))
  {
    var c, h, m, l := Filter(s, HasPriority(key, Critical)), Filter(s, HasPriority(key, High)),
                      Filter(s, HasPriority(key, Medium)), Filter(s, HasPriority(key, Low));
    var r := SortByPriority(s, key);
    assert r == c + h + m + l;
    forall i | 0 <= i < |r|
      ensures PriorityOrder(key(r[i])) == 4 - (if i < |c| then 0 else if i < |c| + |h| then 1 else if i < |c| + |h| + |m| then 2 else 3)
    {
      if i < |c| {
        assert r[i] == c[i];
      } else if i < |c| + |h| {
        assert r[i] == h[i - |c|];
      } else if i < |c| + |h| + |m| {
        assert r[i] == m[i - |c| - |h|];
      } else {
        assert r[i] == l[i - |c| - |h| - |m|];
      }
    }
  }

  /** The sorted list holds the same items, with the same multiplicities. */
  lemma SortIsPermutation<T(!new)>(s: seq<T>, key: T -> Priority)
    ensures multiset(SortByPriority(s, key)) == multiset(s)
  {
    ClassesPartition(s, key);
  }

  /** The four priority classes together hold every item once. */
  lemma {:induction false} ClassesPartition<T(!new)>(s: seq<T>, key: T -> Priority)
    ensures multiset(Filter(s, HasPriority(key, Critical))) + multiset(Filter(s, HasPriority(key, High))) +
            multiset(Filter(s, HasPriority(key, Medium))) + multiset(Filter(s, HasPriority(key, Low))) == multiset(s)
  {
    if s != [] {
      ClassesPartition(s[1..], key);
      assert s == [s[0]] + s[1..];
      assert multiset(s) == multiset{s[0]} + multiset(s[1..]);
      ClassesStep(s, key);
    }
  }

  /** The first item lands in exactly one priority class. */
  lemma ClassesStep<T(!new)>(s: seq<T>, key: T -> Priority)
    requires s != []
    ensures multiset(Filter(s, HasPriority(key, Critical))) + multiset(Filter(s, HasPriority(key, High))) +
            multiset(Filter(s, HasPriority(key, Medium))) + multiset(Filter(s, HasPriority(key, Low))) ==
            multiset{s[0]} + (multiset(Filter(s[1..], HasPriority(key, Critical))) + multiset(Filter(s[1..], HasPriority(key, High))) +
                              multiset(Filter(s[1..], HasPriority(key, Medium))) + multiset(Filter(s[1..], HasPriority(key, Low))))
  {
    FilterConsMultiset(s, HasPriority(key, Critical));
    FilterConsMultiset(s, HasPriority(key, High));
    FilterConsMultiset(s, HasPriority(key, Medium));
    FilterConsMultiset(s, HasPriority(key, Low));
  }

  /** Stability: the items of any one priority appear in the sorted list exactly as, and in
      the same order as, in the original list. */
  lemma SortIsStable<T(!new)>(s: seq<T>, key: T -> Priority, p: Priority)
    ensures Filter(SortByPriority(s, key), HasPriority(key, p)) == Filter(s, HasPriority(key, p))
  {
    var P := HasPriority(key, p);
    FilterOfSort(s, key, P);
    ConcatOfOne(Filter(Filter(s, HasPriority(key, Critical)), P), Filter(Filter(s, HasPriority(key, High)), P),
                Filter(Filter(s, HasPriority(key, Medium)), P), Filter(Filter(s, HasPriority(key, Low)), P));
    SameClass(s, key, p);
    match p {
      case Critical =>
        OtherClass(s, key, High, p);
        OtherClass(s, key, Medium, p);
        OtherClass(s, key, Low, p);
      case High =>
        OtherClass(s, key, Critical, p);
        OtherClass(s, key, Medium, p);
        OtherClass(s, key, Low, p);
      case Medium =>
        OtherClass(s, key, Critical, p);
        OtherClass(s, key, High, p);
        OtherClass(s, key, Low, p);
      case Low =>
        OtherClass(s, key, Critical, p);
        OtherClass(s, key, High, p);
        OtherClass(s, key, Medium, p);
    }
  }

  /** Filtering the sorted list filters each priority class separately. */
  lemma FilterOfSort<T(!new)>(s: seq<T>, key: T -> Priority, P: T -> bool)
    ensures Filter(SortByPriority(s, key), P) ==
            Filter(Filter(s, HasPriority(key, Critical)), P) + Filter(Filter(s, HasPriority(key, High)), P) +
            Filter(Filter(s, HasPriority(key, Medium)), P) + Filter(Filter(s, HasPriority(key, Low)), P)
  {
    var c, h, m, l := Filter(s, HasPriority(key, Critical)), Filter(s, HasPriority(key, High)),
                      Filter(s, HasPriority(key, Medium)), Filter(s, HasPriority(key, Low));
    FilterAppend(c + h + m, l, P);
    FilterAppend(c + h, m, P);
    FilterAppend(c, h, P);
  }

  /** The items of priority `p` among those of priority `p` are all of them. */
  lemma SameClass<T(!new)>(s: seq<T>, key: T -> Priority, p: Priority)
    ensures Filter(Filter(s, HasPriority(key, p)), HasPriority(key, p)) == Filter(s, HasPriority(key, p))
  {
    FilterAll(Filter(s, HasPriority(key, p)), HasPriority(key, p));
  }

  /** No item of priority `q` has a different priority `p`. */
  lemma OtherClass<T(!new)>(s: seq<T>, key: T -> Priority, q: Priority, p: Priority)
    requires q != p
    ensures Filter(Filter(s, HasPriority(key, q)), HasPriority(key, p)) == []
  {
    FilterNone(Filter(s, HasPriority(key, q)), HasPriority(key, p));
  }

  /** Sorting an already sorted list changes nothing, so re-rendering is harmless even though
      the panel sorts the stored list in place. */
  lemma SortIsIdempotent<T(!new)>(s: seq<T>, key: T -> Priority)
    ensures SortByPriority(SortByPriority(s, key), key) == SortByPriority(s, key)
  {
    SortIsStable(s, key, Critical);
    SortIsStable(s, key, High);
    SortIsStable(s, key, Medium);
    SortIsStable(s, key, Low);
  }
}

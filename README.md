# AWS learning hub: a verified model of its rule engines

This project models the deterministic core of an AWS learning web application in Dafny:

- **The architecture builder.** The user places AWS services on a canvas and connects them. The page then runs a fixed table of advisory rules (`generateSuggestions`). It scores the design on six point tables, capped, averaged and graded A+ to F (`calculateArchitectureScore`). It writes strengths, weaknesses, a three-item recommendation block chosen by grade band, and certification alignment (`generateDetailedFeedback`). Around this sit the canvas edits: connect mode, removal with cascading edge deletion, clearing, templates, suggested services on a grid, moves, the highlighted certification tracks, and the render-time priority sort.
- **The timed challenge.** The user picks one of three scenarios and builds an architecture against a countdown. `calculateScore` computes four capped sub-scores, their rounded mean, paired feedback and recommendations for weak dimensions, threshold badges and "Requirements Master". The session fields change through start, reset, submit and a one-second tick. `formatTime` renders the clock.
- **The catalogue page.** The service filter (tab, search, category, certification track), the favourites toggle, "clear filters" and the deduplicated category list.
- **The news page.** The first-match colour classifier, its label and legend, and the relative "N days ago" text.
- **The health dashboard.** The per-status tally, the overall percentage and the overall colour.
- **The learning coach.** The canned reply chosen for a question, and the message list with its delayed replies.

Modules follow the pages:

| module | models |
|---|---|
| `Basics` | shared sequence helpers |
| `Text` | ASCII lower-casing, substring search, decimal digits |
| `Services` | catalogue records |
| `Architecture` | builder records |
| `Suggestions` | the builder's advisory rules |
| `Scoring` | the builder's scoring |
| `Feedback` | the builder's feedback |
| `Canvas` | the builder page state, as a class |
| `Challenge` | challenge scoring and the session, as a class |
| `Home` | the catalogue page |
| `News` | the news page |
| `Health` | the health dashboard |
| `Coach` | the learning coach |

Code that changes things step by step is imperative Dafny. This covers:

- the `+=` counters and `push` chains;
- the `reduce`;
- the page state that React setters replace.

Each such method is proved equal to a declarative specification function, and the properties are proved about that function. Identifiers that the source builds from `Date.now()` or `Math.random()` are explicit `stamp` parameters. Timers are explicit method calls.

## Model

| member | source | states |
|---|---|---|
| Text.ToLower | client/src/pages/home.tsx:60-63 | `toLowerCase` keeps the length and lowers each character in place |
| Text.ToLowerIdempotent | client/src/pages/home.tsx:60-63 | lowering twice is lowering once |
| Text.ContainsIsOccurrence | client/src/pages/home.tsx:61-63 | `includes` holds exactly when the pattern occurs as a contiguous slice |
| Text.NatToString | client/src/pages/challenge-mode.tsx:337-339 | `toString` of a whole number gives decimal digits with no leading zero |
| Text.NatToStringRoundTrip | client/src/pages/challenge-mode.tsx:337-339 | the digits read back as the number |
| Text.PadStart2 | client/src/pages/challenge-mode.tsx:339 | `padStart(2, '0')` makes a shorter text two characters long, the text at the end and '0' in every padded position, and leaves a longer one unchanged |
| Services.FindByName | client/src/pages/architecture-builder.tsx:681 | `find` by name: the result is in the catalogue and has the name; none exactly when no entry has it; the first such entry |
| Architecture.NamesOf | client/src/pages/architecture-builder.tsx:291 | one name per node, in node order |
| Architecture.CategoriesOf | client/src/pages/architecture-builder.tsx:292 | one category per node, repeats included, so its length is the node count |
| Architecture.NameSet | client/src/pages/architecture-builder.tsx:291-298 | `includes` on the name list is membership in this set, which is no larger than the list |
| Architecture.ConnectionColor | client/src/pages/architecture-builder.tsx:766-774 | sync is #3B82F6, async #10B981, data #8B5CF6, network #F59E0B (each exactly for its type), all seven-character hex colours |
| Suggestions.Rank | client/src/pages/architecture-builder.tsx:295-444 | each of the thirteen rules has one evaluation step, and `RuleAt` inverts it |
| Suggestions.ProposedServices | client/src/pages/architecture-builder.tsx:301-431 | every record proposes one service, except the Multi-AZ record, which proposes none |
| Suggestions.Impact | client/src/pages/architecture-builder.tsx:304-440 | every impact is on the 1-10 scale |
| Suggestions.AdviceListAt | client/src/pages/architecture-builder.tsx:299-443 | the i-th pushed record is the record of the i-th fired rule: its message, proposed services, priority, category, impact and reasoning |
| Suggestions.GenerateSuggestions | client/src/pages/architecture-builder.tsx:283-446 | for a non-empty canvas, the list is the records of the rules that fire, in rule order |
| Suggestions.EvaluateRules | client/src/pages/architecture-builder.tsx:295-444 | the chain of thirteen guarded pushes records exactly the rules whose guards hold, in order |
| Suggestions.SecurityRules | client/src/pages/architecture-builder.tsx:295-329 | the critical security checks extend the fired list by the rules 0-2 that fire |
| Suggestions.PerformanceRules | client/src/pages/architecture-builder.tsx:331-352 | the performance checks extend it by rules 3-4 |
| Suggestions.CostRules | client/src/pages/architecture-builder.tsx:354-375 | the cost checks extend it by rules 5-6 |
| Suggestions.ReliabilityRules | client/src/pages/architecture-builder.tsx:377-398 | the reliability checks extend it by rules 7-8 |
| Suggestions.BestPracticeRules | client/src/pages/architecture-builder.tsx:400-432 | the best-practice checks extend it by rules 9-11 |
| Suggestions.AdvancedRules | client/src/pages/architecture-builder.tsx:434-444 | the advanced-pattern check extends it by rule 12 |
| Suggestions.FiredRulesSpec | client/src/pages/architecture-builder.tsx:295-444 | a rule is fired exactly when its guard holds; fired rules keep evaluation order and never repeat |
| Suggestions.MultiAzNeverFires | client/src/pages/architecture-builder.tsx:378-387 | the Multi-AZ guard (RDS present and absent) never holds, so that record is never emitted |
| Suggestions.SuggestionsShape | client/src/pages/architecture-builder.tsx:299-443 | every emitted record proposes exactly one service with impact 1-10, and no rule fires twice |
| Suggestions.ProposalsAreMissing | client/src/pages/architecture-builder.tsx:296-444 | apart from the serverless rule, a fired rule only proposes services the canvas lacks |
| Suggestions.ServerlessMayProposePresent | client/src/pages/architecture-builder.tsx:366-375 | the serverless rule can propose Lambda to a canvas that already has Lambda |
| Suggestions.SingleEc2Suggestions | client/src/pages/architecture-builder.tsx:309-398 | a lone EC2 node draws exactly the VPC (critical), Auto Scaling (medium) and load balancer (high) records |
| Suggestions.Ec2AllRules | client/src/pages/architecture-builder.tsx:295-444 | all thirteen rules on a lone EC2 node fire those three |
| Suggestions.Ec2FirstEightRules | client/src/pages/architecture-builder.tsx:295-375 | the first eight rules on a lone EC2 node fire the VPC and Auto Scaling rules |
| Suggestions.PriorityOrder | client/src/pages/architecture-builder.tsx:1017 | critical ranks 4, low ranks 1, every rank is 1-4 |
| Suggestions.SortedByPriority | client/src/pages/architecture-builder.tsx:1015-1019 | the displayed list runs from critical down to low |
| Suggestions.SortIsPermutation | client/src/pages/architecture-builder.tsx:1015-1019 | sorting keeps the same records with the same multiplicities |
| Suggestions.ClassesPartition | client/src/pages/architecture-builder.tsx:1015-1019 | the four priority classes together hold every record once |
| Suggestions.SortIsStable | client/src/pages/architecture-builder.tsx:1015-1019 | records of equal priority keep rule-evaluation order |
| Suggestions.SortIsIdempotent | client/src/pages/architecture-builder.tsx:1015-1019 | sorting the sorted list changes nothing, so re-rendering is harmless |
| Scoring.Award | client/src/pages/architecture-builder.tsx:458 | a line of a point table never gives more than its points, and gives all of them exactly when its condition holds |
| Scoring.SecurityPoints | client/src/pages/architecture-builder.tsx:458-464 | the security table never exceeds 100 |
| Scoring.PerformancePoints | client/src/pages/architecture-builder.tsx:467-472 | the performance table never exceeds 100 |
| Scoring.CostPoints | client/src/pages/architecture-builder.tsx:475-480 | the cost table never exceeds 100 |
| Scoring.ReliabilityPoints | client/src/pages/architecture-builder.tsx:483-488 | the reliability table never exceeds 100 |
| Scoring.ScalabilityPoints | client/src/pages/architecture-builder.tsx:491-495 | the scalability table never exceeds 100 |
| Scoring.BestPracticePoints | client/src/pages/architecture-builder.tsx:498-503 | the best-practices table never exceeds 100 |
| Scoring.Cap | client/src/pages/architecture-builder.tsx:506-511 | `Math.min(x, 100)` is at most 100 and at most x, and equals one of them |
| Scoring.RoundedMean | client/src/pages/architecture-builder.tsx:513 | `Math.round(sum / 6)` rounds halves up |
| Scoring.RoundedMeanBounds | client/src/pages/architecture-builder.tsx:513 | the total is within half a point of the exact mean and at most 100 |
| Scoring.GradeFor | client/src/pages/architecture-builder.tsx:516-524 | A+ exactly from 95, F exactly below 60 |
| Scoring.GradeRank | client/src/pages/architecture-builder.tsx:516-524 | grades ranked from F = 0 up to A+ = 7 |
| Scoring.Threshold | client/src/pages/architecture-builder.tsx:517-523 | the lowest total of each grade is at most 95 |
| Scoring.Better | client/src/pages/architecture-builder.tsx:516-524 | the next grade up ranks one higher |
| Scoring.GradeIsStep | client/src/pages/architecture-builder.tsx:516-524 | a total earns a grade exactly when it reaches that grade's threshold but not the next one (60/70/75/80/85/90/95) |
| Scoring.GradeIsMonotone | client/src/pages/architecture-builder.tsx:516-524 | a higher total never earns a lower grade |
| Scoring.CalculateArchitectureScore | client/src/pages/architecture-builder.tsx:453-535 | each sub-score is its point table; the total (at most 100) is within half a point of the mean; the grade is the grade of the total |
| Scoring.ScoreSecurity | client/src/pages/architecture-builder.tsx:457-464 | the `+=` chain computes the security table |
| Scoring.ScorePerformance | client/src/pages/architecture-builder.tsx:466-472 | the `+=` chain computes the performance table |
| Scoring.ScoreCost | client/src/pages/architecture-builder.tsx:474-480 | the `+=` chain computes the cost table |
| Scoring.ScoreReliability | client/src/pages/architecture-builder.tsx:482-488 | the `+=` chain computes the reliability table |
| Scoring.ScoreScalability | client/src/pages/architecture-builder.tsx:490-495 | the `+=` chain computes the scalability table |
| Scoring.ScoreBestPractices | client/src/pages/architecture-builder.tsx:497-503 | the `+=` chain computes the best-practices table |
| Scoring.TablesReachFullMarks | client/src/pages/architecture-builder.tsx:458-503 | each table reaches exactly 100 on its full set of services, so its `Math.min` cap is reached but never exceeded |
| Scoring.SecurityFullMarks | client/src/pages/architecture-builder.tsx:458-464 | the security table's services reach 100 |
| Scoring.PerformanceFullMarks | client/src/pages/architecture-builder.tsx:467-472 | the performance table's services with five connections reach 100 |
| Scoring.CostFullMarks | client/src/pages/architecture-builder.tsx:475-480 | the cost table's five services reach 100 |
| Scoring.ReliabilityFullMarks | client/src/pages/architecture-builder.tsx:483-488 | the reliability table's services with two connections reach 100 |
| Scoring.ScalabilityFullMarks | client/src/pages/architecture-builder.tsx:491-495 | the scalability table's services reach 100 |
| Scoring.BestPracticeFullMarks | client/src/pages/architecture-builder.tsx:498-503 | the best-practices table's conditions reach 100 |
| Scoring.SingleEc2Scores | client/src/pages/architecture-builder.tsx:453-524 | a lone unconnected EC2 node scores 0 everywhere and grades F |
| Feedback.RecommendationsFor | client/src/pages/architecture-builder.tsx:560-576 | every grade gets a block of three |
| Feedback.GenerateDetailedFeedback | client/src/pages/architecture-builder.tsx:540-598 | the four lists are the strengths, weaknesses, band block and certifications the rules prescribe |
| Feedback.IdentifyStrengths | client/src/pages/architecture-builder.tsx:546-551 | the push chain computes the strengths |
| Feedback.IdentifyWeaknesses | client/src/pages/architecture-builder.tsx:553-557 | the push chain computes the weaknesses |
| Feedback.Recommend | client/src/pages/architecture-builder.tsx:559-576 | the grade chain pushes the band's block |
| Feedback.AlignCertifications | client/src/pages/architecture-builder.tsx:578-590 | the push chain computes the certification alignment |
| Feedback.MessagesDistinct | client/src/pages/architecture-builder.tsx:547-589 | the messages within each list are pairwise different |
| Feedback.StrengthsExact | client/src/pages/architecture-builder.tsx:546-551 | each strength is listed exactly when its service is placed, at most once |
| Feedback.WeaknessesExact | client/src/pages/architecture-builder.tsx:553-557 | each weakness is listed exactly when its condition holds, at most once |
| Feedback.CertificationsExact | client/src/pages/architecture-builder.tsx:578-590 | each certification is listed exactly when one of its services is placed, at most once |
| Feedback.Band | client/src/pages/architecture-builder.tsx:560-572 | four bands numbered 0-3 (F/D, C/C+, B/B+, A/A+) |
| Feedback.RecommendationsAreThree | client/src/pages/architecture-builder.tsx:559-576 | always exactly three recommendations, all different |
| Feedback.RecommendationsByBand | client/src/pages/architecture-builder.tsx:559-576 | two grades get the same block exactly when they share a band; blocks of different bands share no item |
| Feedback.BlockLengths | client/src/pages/architecture-builder.tsx:561-575 | each recommendation has its band's length signature |
| Feedback.AdviceLengths | client/src/pages/architecture-builder.tsx:561-575 | the twelve recommendations have twelve different lengths |
| Feedback.RecommendationsByTotal | client/src/pages/architecture-builder.tsx:516-576 | the block by total: below 70, 70-79, 80-89, 90 and over |
| Feedback.SingleEc2Feedback | client/src/pages/architecture-builder.tsx:546-590 | the feedback for a lone EC2 node graded F |
| Canvas.TemplateNode | client/src/pages/architecture-builder.tsx:683-689 | a template node sits at the template position with the catalogue service; its label is the template label when that is non-empty, otherwise the service name |
| Canvas.NodeFor | client/src/pages/architecture-builder.tsx:681-690 | a template entry yields a node exactly when its name is in the catalogue, and that node is the template node of the first catalogue service with the name |
| Canvas.TemplateNodes | client/src/pages/architecture-builder.tsx:680-691 | at most one node per template entry; every node holds a catalogue service |
| Canvas.TemplateNodesComplete | client/src/pages/architecture-builder.tsx:680-691 | every template entry whose name is in the catalogue has its node among the new nodes |
| Canvas.TemplateNodesOrdered | client/src/pages/architecture-builder.tsx:680-691 | every new node is the node of a template entry, and the entries they come from strictly increase, so template order is kept |
| Canvas.FindEndpoint | client/src/pages/architecture-builder.tsx:695-700 | the first node whose service name or label is the key; none exactly when no node has either |
| Canvas.EdgeFor | client/src/pages/architecture-builder.tsx:695-710 | a template connection yields an edge exactly when both ends resolve; the edge joins the resolved nodes with the template's type and label |
| Canvas.TemplateConnections | client/src/pages/architecture-builder.tsx:694-711 | at most one edge per template connection, and every edge joins two of the new nodes |
| Canvas.TemplateConnectionsComplete | client/src/pages/architecture-builder.tsx:694-711 | every template connection whose two ends resolve has its edge among the new connections |
| Canvas.TemplateConnectionsOrdered | client/src/pages/architecture-builder.tsx:694-711 | every new edge is the edge of a template connection, and the connections they come from strictly increase, so template order is kept |
| Canvas.TracksOf | client/src/pages/architecture-builder.tsx:781 | a null track list contributes nothing |
| Canvas.CertificationsOf | client/src/pages/architecture-builder.tsx:779-783 | the union of every node's tracks |
| Canvas.MoveNodes | client/src/pages/architecture-builder.tsx:844-852 | only the node with the id moves, by the deltas; the others stay |
| Canvas.GridSlot | client/src/pages/architecture-builder.tsx:757-758 | x in 100-580 and y from 100, both on a 120-pixel grid (five cells per row) |
| Canvas.GridSlotsDistinct | client/src/pages/architecture-builder.tsx:757-758 | different node counts get different grid cells |
| Canvas.Evaluation | client/src/pages/architecture-builder.tsx:283-448 | an empty canvas gives no suggestions and a null score and feedback; otherwise the rule, score and feedback results |
| Canvas.TemplateNodesPass | client/src/pages/architecture-builder.tsx:680-691 | the first `forEach` builds the template nodes |
| Canvas.TemplateConnectionsPass | client/src/pages/architecture-builder.tsx:694-711 | the second `forEach` builds the template connections |
| Canvas.Builder.constructor | client/src/pages/architecture-builder.tsx:246-259 | the initial page state |
| Canvas.Builder.Evaluate | client/src/pages/architecture-builder.tsx:600-602 | the evaluation effect updates only suggestions, score and feedback |
| Canvas.Builder.ToggleConnecting | client/src/pages/architecture-builder.tsx:918 | the Connect button flips connect mode; every other field is kept |
| Canvas.Builder.ToggleCertPaths | client/src/pages/architecture-builder.tsx:891 | the Cert Paths button flips whether tracks are highlighted; every other field is kept |
| Canvas.Builder.SetConnectionType | client/src/pages/architecture-builder.tsx:906 | the type selector sets the type; every other field is kept |
| Canvas.Builder.ServiceClick | client/src/pages/architecture-builder.tsx:637-655 | as written: completes a connection from a non-empty different start, otherwise sets the start; outside connect mode it toggles the selection; never creates a self-loop; every other field is kept |
| Canvas.Builder.ServiceClickChecked | client/src/pages/architecture-builder.tsx:637-655 | the corrected click: it completes a connection only when the start is still on the canvas, otherwise it makes the clicked node the start; clicking a placed node keeps every edge closed; every other field is kept |
| Canvas.Builder.RemoveService | client/src/pages/architecture-builder.tsx:657-663 | removes the node and exactly the connections with it as an endpoint and clears the selection; connect mode and every other field are kept; closed edges stay closed |
| Canvas.Builder.ClearCanvas | client/src/pages/architecture-builder.tsx:665-671 | empties nodes, connections, selection, suggestions and name; score and feedback wait for the next evaluation; connect mode, type and cert-path toggle are kept |
| Canvas.Builder.LoadTemplate | client/src/pages/architecture-builder.tsx:673-716 | no catalogue: nothing happens; otherwise the template nodes and their resolved connections replace the canvas and the template name becomes the name, and every edge is closed; selection, connect mode, type, evaluation results and cert-path toggle are kept |
| Canvas.Builder.AddSuggestedService | client/src/pages/architecture-builder.tsx:751-764 | a found service is appended at the next grid cell; an unknown one changes nothing; every other field is kept |
| Canvas.Builder.MoveService | client/src/pages/architecture-builder.tsx:844-852 | the nodes become `MoveNodes` of the old nodes; every other field and closure are kept |
| Canvas.Builder.HighlightedCerts | client/src/pages/architecture-builder.tsx:776-784 | empty when paths are hidden, otherwise every track of every placed service |
| Canvas.Builder.SortSuggestions | client/src/pages/architecture-builder.tsx:1015-1019 | the stored list becomes its display order; every other field is kept |
| Canvas.StillPresent | client/src/pages/architecture-builder.tsx:658 | a node other than the removed one survives the filter |
| Canvas.DanglingEdgeAsWritten | client/src/pages/architecture-builder.tsx:637-663 | on a closed canvas in connect mode: click a, remove a, click z; the last connection starts at the removed a, so the canvas is no longer closed |
| Canvas.DanglingEdgeChecked | client/src/pages/architecture-builder.tsx:637-663 | the same steps with the corrected click: z becomes the new start, the connections are those left by the removal, and every edge stays closed |
| Challenge.NamesOf | client/src/pages/challenge-mode.tsx:241 | one name per node, in order |
| Challenge.StorageCount | client/src/pages/challenge-mode.tsx:255 | the storage filter is non-empty exactly when S3, DynamoDB or RDS is placed |
| Challenge.ResiliencePoints | client/src/pages/challenge-mode.tsx:251-256 | the resilience table never exceeds 100 |
| Challenge.CostEfficiencyPoints | client/src/pages/challenge-mode.tsx:259-263 | the cost table never exceeds 100 |
| Challenge.PerformancePoints | client/src/pages/challenge-mode.tsx:266-270 | the performance table never exceeds 100 |
| Challenge.SecurityPoints | client/src/pages/challenge-mode.tsx:273-278 | the security table never exceeds 100 |
| Challenge.RoundedQuarter | client/src/pages/challenge-mode.tsx:286 | `Math.round(sum / 4)` rounds halves up and stays within 100 |
| Challenge.ScoresFor | client/src/pages/challenge-mode.tsx:250-286 | every sub-score and the total are in 0-100 |
| Challenge.CalculateScore | client/src/pages/challenge-mode.tsx:231-328 | the result is the scores, paired feedback and badges of the canvas, or all zeros without a scenario |
| Challenge.ScoreCanvas | client/src/pages/challenge-mode.tsx:250-286 | the capped sub-scores and their rounded mean |
| Challenge.ScoreResilience | client/src/pages/challenge-mode.tsx:250-256 | the `+=` chain computes the resilience table |
| Challenge.ScoreCostEfficiency | client/src/pages/challenge-mode.tsx:258-263 | the `+=` chain computes the cost table |
| Challenge.ScorePerformance | client/src/pages/challenge-mode.tsx:265-270 | the `+=` chain computes the performance table |
| Challenge.ScoreSecurity | client/src/pages/challenge-mode.tsx:272-278 | the `+=` chain computes the security table |
| Challenge.GenerateFeedback | client/src/pages/challenge-mode.tsx:288-304 | one feedback line and one recommendation per dimension below 50 |
| Challenge.AwardBadges | client/src/pages/challenge-mode.tsx:306-320 | badges in fixed order, then "Requirements Master" when every target is used |
| Challenge.NoScenarioResult | client/src/pages/challenge-mode.tsx:232-239 | without a scenario: all-zero scores, no feedback, badges or recommendations |
| Challenge.ResilienceFullMarks | client/src/pages/challenge-mode.tsx:251-256 | the resilience table adds up to exactly 100 |
| Challenge.CostEfficiencyFullMarks | client/src/pages/challenge-mode.tsx:259-263 | the cost table adds up to exactly 100 |
| Challenge.PerformanceFullMarks | client/src/pages/challenge-mode.tsx:266-270 | the performance table adds up to exactly 100 |
| Challenge.SecurityFullMarks | client/src/pages/challenge-mode.tsx:273-278 | the security table adds up to exactly 100 |
| Challenge.WeakDimensions | client/src/pages/challenge-mode.tsx:289-301 | at most four dimensions are below 50 |
| Challenge.FeedbackPairsUp | client/src/pages/challenge-mode.tsx:288-304 | feedback and recommendations have equal length, one per weak dimension |
| Challenge.ChallengeMessagesDistinct | client/src/pages/challenge-mode.tsx:290-303 | no feedback line or recommendation repeats |
| Challenge.EmptyCanvasResult | client/src/pages/challenge-mode.tsx:241-327 | an empty canvas scores zero, gets all four pairs and no badge |
| Challenge.EmptyCanvasScores | client/src/pages/challenge-mode.tsx:250-286 | an empty canvas scores zero on every dimension |
| Challenge.TopTotalBadges | client/src/pages/challenge-mode.tsx:307-308 | a total of 90 or more earns "Architecture Master" then "Cloud Expert" first |
| Challenge.RequirementsMasterExactly | client/src/pages/challenge-mode.tsx:315-320 | "Requirements Master" exactly when every target service is placed |
| Challenge.MissingTarget | client/src/pages/challenge-mode.tsx:315-318 | a target that is not placed loses the badge |
| Challenge.ServerlessApiCovered | client/src/pages/challenge-mode.tsx:113 | API Gateway, Lambda, DynamoDB and Cognito cover the serverless-api targets |
| Challenge.ServerlessApiMissingOne | client/src/pages/challenge-mode.tsx:113 | dropping any one of the four does not cover them |
| Challenge.FormatTime | client/src/pages/challenge-mode.tsx:336-340 | the text has at least four characters, with the colon third from the end |
| Challenge.PaddedSeconds | client/src/pages/challenge-mode.tsx:338-339 | the padded seconds are two digits that read back as the seconds |
| Challenge.FormatTimeRoundTrip | client/src/pages/challenge-mode.tsx:336-340 | the minutes before the colon are the decimal text of seconds / 60 (no leading zero); both sides are digits, and minutes × 60 + seconds gives back the input |
| Challenge.Session.constructor | client/src/pages/challenge-mode.tsx:121-131 | the initial session state |
| Challenge.Session.StartChallenge | client/src/pages/challenge-mode.tsx:153-161 | the scenario is set, the time is the limit × 60, the canvas and result are cleared, not submitted |
| Challenge.Session.ResetChallenge | client/src/pages/challenge-mode.tsx:163-170 | back to the picker; the time, selection and connect mode are left as they were; no timer runs |
| Challenge.Session.Submit | client/src/pages/challenge-mode.tsx:330-334 | the result of the current canvas is stored and the session is submitted; every other field is kept |
| Challenge.Session.Tick | client/src/pages/challenge-mode.tsx:138-151 | without a running timer nothing happens; above 1 the time drops by one; at 1 or less it submits and sets 0; the canvas, selection, connect mode and solution toggle are kept |
| Challenge.Session.ToggleConnecting | client/src/pages/challenge-mode.tsx:758-761 | before submission, the Connect Services button flips connect mode; every other field is kept |
| Challenge.Session.ServiceClick | client/src/pages/challenge-mode.tsx:204-221 | the builder's connect-mode logic on the challenge canvas; the selection changes only outside connect mode; scenario, timer, result and submission are kept |
| Challenge.Session.RemoveService | client/src/pages/challenge-mode.tsx:223-229 | removes the node and exactly the connections touching it and clears the selection; connect mode, scenario, timer, result and submission are kept |
| Home.FilteredServices | client/src/pages/home.tsx:51-74 | nothing before loading; otherwise an order-preserving sublist holding exactly the services that pass every filter |
| Home.FavoritesTabShowsFavorites | client/src/pages/home.tsx:56-58 | on the favourites tab every shown service is a favourite |
| Home.NoFilterShowsEverything | client/src/pages/home.tsx:60-72 | empty search, both pickers on "all" and the "all" tab show the whole catalogue |
| Home.SearchIgnoresCase | client/src/pages/home.tsx:60-63 | search ignores the query's case and is a substring match on lower-cased name, full name or category |
| Home.NameFindsService | client/src/pages/home.tsx:60-63 | searching a service's own name finds it |
| Home.Toggled | client/src/pages/home.tsx:92-100 | exactly the toggled id flips membership |
| Home.ToggleTwiceRestores | client/src/pages/home.tsx:92-100 | toggling twice restores the favourites |
| Home.ClearedFiltersKeepTrackAndTab | client/src/pages/home.tsx:103-106 | after clearing, only the tab and the certification track still filter |
| Home.Categories | client/src/pages/home.tsx:108-111 | no duplicates; exactly the categories of the loaded services |
| Home.CategoriesOf | client/src/pages/home.tsx:110 | one category per service, in order |
| Home.CategoriesInFirstOccurrenceOrder | client/src/pages/home.tsx:110 | categories appear in first-occurrence order |
| Home.Catalogue.constructor | client/src/pages/home.tsx:20-25 | the initial page state |
| Home.Catalogue.ToggleFavorite | client/src/pages/home.tsx:90-101 | the favourites become `Toggled` of the old ones; nothing else changes |
| Home.Catalogue.ClearFilters | client/src/pages/home.tsx:103-106 | search and category reset; track, tab and favourites stay |
| News.OrEmpty | client/src/pages/news.tsx:84-86 | a missing field reads as "" |
| News.FieldsOf | client/src/pages/news.tsx:84-86 | the classifier reads the lower-cased title, source and snippet |
| News.FirstAccepting | client/src/pages/news.tsx:88-124 | the tone found is from the list, or the gray fallback, and it accepts the fields |
| News.ToneIsFirstMatch | client/src/pages/news.tsx:88-124 | the `if` chain picks the first accepting class of the fixed order |
| News.RejectedBefore | client/src/pages/news.tsx:88-124 | every class tried before the chosen one rejects the fields |
| News.ClassifierIsFirstMatch | client/src/pages/news.tsx:88-124 | the chosen class accepts and all earlier ones reject |
| News.ToneIndex | client/src/pages/news.tsx:88-124 | the position of each class in the order |
| News.SecurityTakesPrecedence | client/src/pages/news.tsx:88-92 | red exactly when a security or compliance test matches |
| News.GrayIsFallback | client/src/pages/news.tsx:123-124 | gray exactly when no test matches |
| News.MissingAndCase | client/src/pages/news.tsx:84-86 | a missing field classifies like an empty one, and case does not matter |
| News.ClassShape | client/src/pages/news.tsx:91-124 | the length and the hue letter of every class string |
| News.ClassesAndLabelsDistinct | client/src/pages/news.tsx:91-137 | different tones have different classes and labels |
| News.LegendFollowsTones | client/src/pages/news.tsx:141-149 | the legend lists the tones in classifier order with their class and label |
| News.LabelMatchesLegend | client/src/pages/news.tsx:128-149 | an item's label is the label of the one legend row with the item's colour |
| News.FloorDays | client/src/pages/news.tsx:67-68 | flooring hours then days equals flooring days directly |
| News.DayForm | client/src/pages/news.tsx:70-71 | from one whole day: "N day(s) ago", plural from two days |
| News.HourForm | client/src/pages/news.tsx:72-73 | from one hour to a day: "N hour(s) ago", plural from two hours |
| News.RecentForm | client/src/pages/news.tsx:74-75 | below one hour: "Recently" |
| News.FutureIsRecent | client/src/pages/news.tsx:62-79 | a future or unparseable date reads "Recently" |
| Health.StatusOf | client/src/components/health-dashboard.tsx:51 | a null or empty status counts as operational |
| Health.HealthStats | client/src/components/health-dashboard.tsx:49-57 | the reduce loop computes the fold of the step over the services |
| Health.TallyFromCounts | client/src/components/health-dashboard.tsx:49-57 | each counter grows by the number of services with that status; total by the count plus the services whose status is "total" |
| Health.TallyCounts | client/src/components/health-dashboard.tsx:49-57 | the tally counts each status |
| Health.TallyTotals | client/src/components/health-dashboard.tsx:49-57 | total is the service count unless a status reads "total"; with known statuses the three counters sum to total |
| Health.StatusesExclusive | client/src/components/health-dashboard.tsx:52 | a service has at most one known status |
| Health.CountsPartition | client/src/components/health-dashboard.tsx:50-56 | the three counters never count a service twice |
| Health.HealthPercentage | client/src/components/health-dashboard.tsx:59-61 | 100 for no services; otherwise the operational share rounded half up |
| Health.PercentageBounds | client/src/components/health-dashboard.tsx:59-61 | the percentage is 0-100: 100 when all are operational, 0 when none is |
| Health.StatusColorOfCatalogue | client/src/components/health-dashboard.tsx:63-67 | red exactly when some service has an outage, yellow when none does but one is degraded, else green |
| Coach.FirstKey | client/src/components/ai-coach.tsx:70-72 | the first key in table order contained in the question; none exactly when no key is |
| Coach.ChooseReply | client/src/components/ai-coach.tsx:65-84 | a table reply always points into the table |
| Coach.ReplyIgnoresCase | client/src/components/ai-coach.tsx:66 | a question and its lower-case form get the same reply |
| Coach.TableKeyWins | client/src/components/ai-coach.tsx:70-75 | the first contained table key decides the reply |
| Coach.FallbackOrder | client/src/components/ai-coach.tsx:76-84 | without a table key: "lambda", then "ec2", then "s3", then the generic prefix and sentence |
| Coach.Welcome | client/src/components/ai-coach.tsx:24-39 | the welcome message is from the coach and carries the four chips |
| Coach.CountsOfAppend | client/src/components/ai-coach.tsx:61 | appending a message adds one to its sender's count |
| Coach.Chat.constructor | client/src/components/ai-coach.tsx:24-40 | the panel starts with the welcome message and nothing pending |
| Coach.Chat.SendMessage | client/src/components/ai-coach.tsx:51-63 | a blank question changes nothing; otherwise it is appended, the input cleared and a reply scheduled |
| Coach.Chat.DeliverReply | client/src/components/ai-coach.tsx:65-94 | the oldest pending question's reply is appended |
| Coach.Chat.SetInput | client/src/components/ai-coach.tsx:150 | typing sets the input only |
| Coach.SendAndReply | client/src/components/ai-coach.tsx:51-94 | a non-blank send and its timer add exactly the question, then its reply |

## Left out

- Mouse input and rendering: drag and drop with float grid snapping, pan and zoom, and SVG drawing. These are UI work on floating-point coordinates.
- Export, clipboard, downloads, `window.open` and navigation. These are I/O.
- Fetching the catalogue and the news feed. The catalogue is a parameter: `None` means not loaded yet.
- Persisting favourites to localStorage.
- The server.
- Timers. A tick of the challenge clock is `Challenge.Session.Tick`. The coach's one-second reply is `Coach.Chat.DeliverReply`. Their scheduling and cancellation are not modelled.
- Challenge.Session.Tick: scores the canvas as it is when the clock runs out. In the source, the interval callback (challenge-mode.tsx:138-151) calls the `submitSolution` captured when the effect was last installed. The effect depends only on the scenario, the remaining time and the submission flag, so the automatic submission scores the canvas as of the render after the previous tick. An edit made during the last second is not scored. Render closures are not modelled.
- `Date.now()` and `Math.random()` in identifiers are replaced by `stamp` parameters. Identifier uniqueness is therefore not modelled.
- Date parsing and wall-clock reads in the news page. `News.FormatTimeAgo` takes the millisecond difference; an unparseable date is `None`. `toLocaleDateString` is not modelled.
- Case mapping is ASCII only. JavaScript's `toLowerCase` also lowers non-ASCII letters.
- Health.HealthPercentage: computed exactly with rational half-up rounding. The source rounds a floating-point quotient, which can differ only when binary rounding moves a value across .5.
- News.CategoryLabel: the label is chosen from the classified tone. The source searches the class string for the hue names; each of the seven class strings contains exactly its own hue name. The string search itself is not modelled.
- Coach chips: the model does not prove that each welcome chip's question selects its own table entry. The general rule that the first contained key wins is `Coach.TableKeyWins`. Applying it to the four literal questions needs character-level reasoning on those literals, which this model does not carry out.
- Canvas.Builder.AddSuggestedService: the source also returns early when the canvas element is not mounted. That DOM condition is not modelled.
- The three builder templates' data is not reproduced. `Canvas.Builder.LoadTemplate` takes any template.
- Static content tables, icon and colour switches, and the display-only match percentages.

## Findings

| source | as written | input that shows it | evidently intended | confidence | as-written member | corrected member |
|---|---|---|---|---|---|---|
| client/src/pages/architecture-builder.tsx:637-663 | `handleServiceClick` completes a connection from `connectingFrom` without checking that the start is still on the canvas, and `removeService` does not reset `connectingFrom` | in connect mode click node a, remove a, click node z: a connection from the removed a to z is added | a start that is no longer on the canvas is dropped, so every connection joins two placed nodes (challenge-mode.tsx:204-229 repeats the same code) | not executed | Canvas.DanglingEdgeAsWritten | Canvas.DanglingEdgeChecked |

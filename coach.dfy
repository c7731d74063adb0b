/** The learning coach panel: the canned reply chosen for a question (first matching table key,
    then three keyword fallbacks, then a generic answer) and the message list, to which a send
    appends the question at once and the reply when the one-second timer fires. */
module Coach {
  import opened Basics
  import opened Text

  datatype Sender = User | CoachSender

  /** A chat message; the timestamp is left out. Only the welcome message carries suggestions. */
  datatype CoachMessage = CoachMessage(id: string, sender: Sender, content: string, suggestions: Option<seq<string>>)

  const WhatNextKey := "what should i learn next"
  const LambdaKey := "explain aws lambda"
  const SecurityKey := "best practices for security"
  const CertificationKey := "how to prepare for certification"
  const DevOpsKey := "devops pro"
  const ArchitectKey := "solutions architect"

  const WhatNextReply := "Based on your current progress, I recommend focusing on IAM (Identity and Access Management) next. It's fundamental to AWS security and used across all services."
  const LambdaExplained := "AWS Lambda is a serverless compute service that runs code without managing servers. You pay only for compute time used. Perfect for event-driven applications!"
  const SecurityReply := "Key AWS security practices: 1) Use IAM roles instead of access keys, 2) Enable MFA, 3) Follow least privilege principle, 4) Use VPC for network isolation, 5) Enable CloudTrail for auditing."
  const CertificationReply := "For certification prep: 1) Complete hands-on labs, 2) Take practice exams, 3) Review AWS whitepapers, 4) Build real projects, 5) Join study groups or forums."
  const DevOpsReply := "For DevOps Professional certification, focus on: CodePipeline, CodeBuild, CodeDeploy, CloudFormation, ECS/EKS, monitoring with CloudWatch, and infrastructure as code patterns."
  const ArchitectReply := "For Solutions Architect, master: EC2, VPC, RDS, ELB, Auto Scaling, S3, CloudFront, Route 53, and architectural patterns like 3-tier applications and microservices."

  const LambdaFallback := "AWS Lambda is perfect for serverless applications. Start with simple functions that respond to S3 events or API Gateway requests."
  const Ec2Fallback := "EC2 is the foundation of AWS compute. Learn about instance types, security groups, and key pairs first."
  const S3Fallback := "S3 is great for storage. Focus on bucket policies, versioning, and lifecycle management for the certification."
  const GenericPrefix := "That's a great question! "
  const GenericAdvice := "For detailed guidance on specific topics, I recommend checking the official AWS documentation or completing hands-on labs."

  /** The keys of `commonResponses`, in table order. */
  const ResponseKeys: seq<string> := [WhatNextKey, LambdaKey, SecurityKey, CertificationKey, DevOpsKey, ArchitectKey]

  /** The replies of `commonResponses`, in the same order as the keys. */
  const ResponseTexts: seq<string> := [WhatNextReply, LambdaExplained, SecurityReply, CertificationReply, DevOpsReply, ArchitectReply]

  /** `Object.keys(commonResponses).find(key => lowerContent.includes(key))`, as an index. */
  function FirstKey(keys: seq<string>, lowerContent: string): (found: Option<nat>)
    ensures found.Some? ==> found.value < |keys| && Contains(lowerContent, keys[found.value])
    ensures found.Some? ==> forall j :: 0 <= j < found.value ==> !Contains(lowerContent, keys[j])
    ensures found.None? <==> forall j :: 0 <= j < |keys| ==> !Contains(lowerContent, keys[j])
  {
    if keys == [] then None
    else if Contains(lowerContent, keys[0]) then Some(0)
    else
      var rest := FirstKey(keys[1..], lowerContent);
      if rest.Some? then Some(rest.value + 1) else None
  }

  /** Which reply a question gets: a table entry (by index), one of the three keyword
      fallbacks, or the generic answer. */
  datatype Reply = TableReply(index: nat) | LambdaTip | Ec2Tip | S3Tip | GenericReply

  /** The choice `handleSendMessage` makes for a question. */
  function ChooseReply(content: string): (reply: Reply)
    ensures reply.TableReply? ==> reply.index < |ResponseKeys|
  {
    var lowerContent := ToLower(content);
    var matchingKey := FirstKey(ResponseKeys, lowerContent);
    if matchingKey.Some? then TableReply(matchingKey.value)
    else if Contains(lowerContent, "lambda") then LambdaTip
    else if Contains(lowerContent, "ec2") then Ec2Tip
    else if Contains(lowerContent, "s3") then S3Tip
    else GenericReply
  }

  /** The text of a reply. */
  function ReplyText(reply: Reply): string
    requires reply.TableReply? ==> reply.index < |ResponseTexts|
  {
    match reply
    case TableReply(i) => ResponseTexts[i]
    case LambdaTip => LambdaFallback
    case Ec2Tip => Ec2Fallback
    case S3Tip => S3Fallback
    case GenericReply => GenericPrefix + GenericAdvice
  }

  /** The reply the timer posts for a question. */
  function ReplyFor(content: string): string
  {
    ReplyText(ChooseReply(content))
  }

  /** Matching ignores letter case: a question and its lower-case form get the same reply. */
  lemma ReplyIgnoresCase(content: string)
    ensures ChooseReply(content) == ChooseReply(ToLower(content))
  {
    ToLowerIdempotent(content);
  }

  /** A table key that occurs in the lower-cased question decides the reply: the first such key
      in table order wins. */
  lemma TableKeyWins(content: string, i: nat)
    requires i < |ResponseKeys| && Contains(ToLower(content), ResponseKeys[i])
    requires forall j :: 0 <= j < i ==> !Contains(ToLower(content), ResponseKeys[j])
    ensures ChooseReply(content) == TableReply(i)
  {
    var found := FirstKey(ResponseKeys, ToLower(content));
    assert found.Some?;
    assert !(found.value < i);
  }

  /** Without a table key the keyword fallbacks apply in the order "lambda", "ec2", "s3", and
      without any of them the reply is the generic prefix and sentence. */
  lemma FallbackOrder(content: string)
    requires forall j :: 0 <= j < |ResponseKeys| ==> !Contains(ToLower(content), ResponseKeys[j])
    ensures Contains(ToLower(content), "lambda") ==> ChooseReply(content) == LambdaTip
    ensures !Contains(ToLower(content), "lambda") && Contains(ToLower(content), "ec2") ==>
              ChooseReply(content) == Ec2Tip
    ensures (!Contains(ToLower(content), "lambda") && !Contains(ToLower(content), "ec2") &&
             Contains(ToLower(content), "s3")) ==> ChooseReply(content) == S3Tip
    ensures (!Contains(ToLower(content), "lambda") && !Contains(ToLower(content), "ec2") &&
             !Contains(ToLower(content), "s3")) ==> ChooseReply(content) == GenericReply
  {
  }

  // The suggestion chips and quick actions

  const WhatNextChip := "What should I learn next?"
  const LambdaChip := "Explain AWS Lambda"
  const SecurityChip := "Best practices for security"
  const CertificationChip := "How to prepare for certification?"

  /** The chips of the welcome message, in display order. The "Next Steps" and "Security Tips"
      quick actions send the first and the third of these questions. */
  const WelcomeSuggestions: seq<string> := [WhatNextChip, LambdaChip, SecurityChip, CertificationChip]

  // The message list

  /** The welcome message: it names the learning path when one is given and is not empty. */
  function Welcome(currentPath: Option<string>): (welcome: CoachMessage)
    ensures welcome.sender == CoachSender && welcome.suggestions == Some(WelcomeSuggestions)
  {
    var content :=
      if currentPath.Some? && currentPath.value != "" then
        "I see you're working on the " + currentPath.value + " path! How can I help you today?"
      else "Hi! I'm your AWS Learning Coach. Ask me anything about your learning journey!";
    CoachMessage("welcome", CoachSender, content, Some(WelcomeSuggestions))
  }

  predicate FromUser(m: CoachMessage) { m.sender == User }
  predicate FromCoach(m: CoachMessage) { m.sender == CoachSender }

  function UserCount(messages: seq<CoachMessage>): nat
  {
    Count(messages, FromUser)
  }

  function CoachCount(messages: seq<CoachMessage>): nat
  {
    Count(messages, FromCoach)
  }

  lemma {:induction false} CountsOfAppend(messages: seq<CoachMessage>, m: CoachMessage)
    ensures UserCount(messages + [m]) == UserCount(messages) + (if m.sender == User then 1 else 0)
    ensures CoachCount(messages + [m]) == CoachCount(messages) + (if m.sender == CoachSender then 1 else 0)
  {
    if messages != [] {
      assert (messages + [m])[1..] == messages[1..] + [m];
      CountsOfAppend(messages[1..], m);
    }
  }

  /** The panel's state: the messages, the input box, and the questions whose one-second reply
      timer has not fired yet, oldest first. */
  class Chat {
    var messages: seq<CoachMessage>
    var inputValue: string
    var pending: seq<string>

    /** Every question is answered once: the coach messages after the welcome, together with the
        replies still pending, are exactly as many as the user messages. */
    predicate Valid()
      reads this
    {
      |messages| > 0 && messages[0].sender == CoachSender &&
      CoachCount(messages) - 1 + |pending| == UserCount(messages)
    }

    constructor(currentPath: Option<string>)
      ensures messages == [Welcome(currentPath)] && inputValue == "" && pending == []
      ensures Valid()
    {
      var welcome := Welcome(currentPath);
      CountsOfAppend([], welcome);
      assert [] + [welcome] == [welcome];
      messages := [welcome];
      inputValue := "";
      pending := [];
    }

    /** `handleSendMessage`: a blank question changes nothing; otherwise the question is appended
        at once, the input box is cleared and a reply is scheduled. */
    method SendMessage(content: string, stamp: string)
      requires Valid()
      modifies this
      ensures Valid()
      ensures IsBlank(content) ==>
                messages == old(messages) && inputValue == old(inputValue) && pending == old(pending)
      ensures !IsBlank(content) ==>
                messages == old(messages) + [CoachMessage(stamp, User, content, None)] &&
                inputValue == "" && pending == old(pending) + [content]
    {
      if IsBlank(content) {
        return;
      }
      CountsOfAppend(messages, CoachMessage(stamp, User, content, None));
      messages := messages + [CoachMessage(stamp, User, content, None)];
      inputValue := "";
      pending := pending + [content];
    }

    /** The oldest reply timer fires and posts the reply to its question. */
    method DeliverReply(stamp: string)
      requires Valid() && pending != []
      modifies this
      ensures Valid()
      ensures messages == old(messages) + [CoachMessage(stamp, CoachSender, ReplyFor(old(pending)[0]), None)]
      ensures pending == old(pending)[1..] && inputValue == old(inputValue)
    {
      var reply := CoachMessage(stamp, CoachSender, ReplyFor(pending[0]), None);
      CountsOfAppend(messages, reply);
      messages := messages + [reply];
      pending := pending[1..];
    }

    /** Typing into the input box. */
    method SetInput(value: string)
      modifies this
      ensures inputValue == value && messages == old(messages) && pending == old(pending)
    {
      inputValue := value;
    }
  }

  /** A non-blank question followed by its timer firing adds exactly two messages: the question,
      then its reply. */
  method SendAndReply(chat: Chat, content: string, stamp1: string, stamp2: string)
    requires chat.Valid() && chat.pending == [] && !IsBlank(content)
    modifies chat
    ensures chat.Valid() && chat.pending == []
    ensures chat.messages == old(chat.messages) +
              [CoachMessage(stamp1, User, content, None), CoachMessage(stamp2, CoachSender, ReplyFor(content), None)]
  {
    chat.SendMessage(content, stamp1);
    chat.DeliverReply(stamp2);
  }
}

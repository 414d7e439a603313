/**
  The portfolio's rule-based chat replies (`get_bot_response`): the message
  is lower-cased and stripped, the topics are tried in a fixed order, and
  the first topic any of whose keywords occurs in the message, as a plain
  substring, decides the reply.  Where the source picks a reply at random,
  the reply is some element of the topic's list.
 */
module Chatbot {
  import opened Text

  /** The reply topics, in the order they are tried; `Fallback` answers
      when no keyword occurs. */
  datatype Topic =
    | Greeting | Skills | Projects | Experience | ContactTopic
    | Location | Education | Iot | Thanks | Fallback
  {
    /** The topic's position in `Order`; `Fallback` comes after them all. */
    function Position(): (k: nat)
      ensures this != Fallback ==> k < |Order| && Order[k] == this
    {
      match this
      case Greeting => 0 case Skills => 1 case Projects => 2 case Experience => 3
      case ContactTopic => 4 case Location => 5 case Education => 6 case Iot => 7
      case Thanks => 8 case Fallback => 9
    }
  }

  /** The keyword topics in the order they are tried. */
  const Order: seq<Topic> := [Greeting, Skills, Projects, Experience, ContactTopic, Location, Education, Iot, Thanks]

  // The keywords of each topic.
  const GreetingWords: seq<string> := ["hi", "hello", "hey", "greetings"]
  const SkillWords: seq<string> := ["skill", "technology", "tech", "programming", "language"]
  const ProjectWords: seq<string> := ["project", "work", "portfolio", "built", "created"]
  const ExperienceWords: seq<string> := ["experience", "work", "job", "career", "company"]
  const ContactWords: seq<string> := ["contact", "reach", "email", "hire", "work together"]
  const LocationWords: seq<string> := ["location", "where", "based", "live"]
  const EducationWords: seq<string> := ["education", "study", "degree", "university", "college", "bachelor", "plus two"]
  const IotWords: seq<string> := ["iot", "internet of things", "sensors", "hardware", "arduino", "raspberry"]
  const ThanksWords: seq<string> := ["thank", "thanks", "appreciate"]

  /** The keywords of each topic; the fallback has none. */
  function Keywords(t: Topic): seq<string>
  {
    match t
    case Greeting => GreetingWords
    case Skills => SkillWords
    case Projects => ProjectWords
    case Experience => ExperienceWords
    case ContactTopic => ContactWords
    case Location => LocationWords
    case Education => EducationWords
    case Iot => IotWords
    case Thanks => ThanksWords
    case Fallback => []
  }

  /** `any(word in message for word in ...)`. */
  predicate Mentions(message: string, t: Topic)
  {
    exists w :: w in Keywords(t) && Contains(message, w)
  }

  /** The message as it is matched: lower-cased, then stripped. */
  function Cleaned(userMessage: string): string
  {
    Trim(Lower(userMessage))
  }

  /** The position in `Order`, from `k` on, of the first topic the message
      mentions, or `|Order|` when it mentions none of them. */
  function FirstFrom(message: string, k: nat): (j: nat)
    requires k <= |Order|
    ensures k <= j <= |Order|
    ensures j < |Order| ==> Mentions(message, Order[j])
    ensures forall i :: k <= i < j ==> !Mentions(message, Order[i])
    decreases |Order| - k
  {
    if k == |Order| then k
    else if Mentions(message, Order[k]) then k
    else FirstFrom(message, k + 1)
  }

  /** The `if`/`elif` chain: the first topic in `Order` the cleaned message
      mentions, or `Fallback` when it mentions none. */
  function Classify(userMessage: string): (t: Topic)
    ensures t != Fallback ==>
      exists j :: 0 <= j < |Order| && Order[j] == t && Mentions(Cleaned(userMessage), t) &&
        forall i :: 0 <= i < j ==> !Mentions(Cleaned(userMessage), Order[i])
    ensures t == Fallback <==> forall i :: 0 <= i < |Order| ==> !Mentions(Cleaned(userMessage), Order[i])
  {
    var j := FirstFrom(Cleaned(userMessage), 0);
    if j < |Order| then Order[j] else Fallback
  }

  // The replies; the fixed multi-line answers are represented by their
  // first line.
  const Hello1 := "Hello! I'm here to help you learn about Amit's work and skills."
  const Hello2 := "Hi there! What would you like to know about Amit?"
  const Hello3 := "Hey! I can tell you about Amit's projects, skills, or experience."
  const SkillsReply := "Amit is skilled in:"
  const ProjectsReply := "Here are some of Amit's notable projects:"
  const ExperienceReply := "Amit's professional experience includes:"
  const ContactReply := "You can reach Amit through:"
  const LocationReply := "Amit is based in Kathmandu, Nepal 🇳🇵 and available for both local and remote opportunities!"
  const EducationReply := "Amit's educational background:"
  const IotReply := "Amit has extensive IoT experience:"
  const Thanks1 := "You're welcome! Feel free to ask anything else about Amit."
  const Thanks2 := "Happy to help! Is there anything else you'd like to know?"
  const Thanks3 := "Glad I could help! Any other questions about Amit's work?"
  const Default1 := "I can help you learn about Amit's skills, projects, experience, or how to contact him. What interests you most?"
  const Default2 := "Feel free to ask about Amit's technical skills, work experience, projects, or background!"
  const Default3 := "I'm here to share information about Amit's professional work. What would you like to know?"
  const Default4 := "You can ask me about Amit's programming skills, IoT projects, work experience, or how to get in touch!"

  /** The replies a topic may give: a list to pick from for greetings,
      thanks and the fallback, one fixed answer otherwise. */
  function Replies(t: Topic): (r: seq<string>)
    ensures |r| >= 1
    ensures t == Greeting || t == Thanks || t == Fallback <==> |r| > 1
  {
    match t
    case Greeting => [Hello1, Hello2, Hello3]
    case Skills => [SkillsReply]
    case Projects => [ProjectsReply]
    case Experience => [ExperienceReply]
    case ContactTopic => [ContactReply]
    case Location => [LocationReply]
    case Education => [EducationReply]
    case Iot => [IotReply]
    case Thanks => [Thanks1, Thanks2, Thanks3]
    case Fallback => [Default1, Default2, Default3, Default4]
  }

  /** `random.choice` with its choice made explicit. */
  function Pick(rs: seq<string>, pick: nat): (r: string)
    requires |rs| >= 1
    ensures r in rs
  {
    rs[pick % |rs|]
  }

  /** Every element of a list is some pick's choice. */
  lemma PickCovers(rs: seq<string>, r: string)
    requires r in rs
    ensures exists pick: nat :: Pick(rs, pick) == r
  {
    var k :| 0 <= k < |rs| && rs[k] == r;
    assert k % |rs| == k;
    assert Pick(rs, k) == r;
  }

  /** `get_bot_response`; `pick` stands for `random.choice` and selects
      among the topic's replies. */
  function Reply(userMessage: string, pick: nat): (r: string)
    ensures r in Replies(Classify(userMessage))
  {
    Pick(Replies(Classify(userMessage)), pick)
  }

  /** The replies are exactly the topic's list: each of them is given for
      some pick. */
  lemma EveryReplyReachable(userMessage: string, r: string)
    requires r in Replies(Classify(userMessage))
    ensures exists pick: nat :: Reply(userMessage, pick) == r
  {
    var rs := Replies(Classify(userMessage));
    PickCovers(rs, r);
    var pick: nat :| Pick(rs, pick) == r;
    assert Reply(userMessage, pick) == r;
  }

  /** A greeting keyword anywhere, inside a longer word included, wins over
      every other topic: `this` and `which` are greetings. */
  lemma GreetingWins(userMessage: string)
    requires Contains(Cleaned(userMessage), "hi")
    ensures Classify(userMessage) == Greeting
  {
    assert Mentions(Cleaned(userMessage), Greeting) by {
      assert GreetingWords[0] == "hi";
    }
  }

  /** `work` is tried as a projects keyword first, so a message that
      mentions it is never answered with experience or contact. */
  lemma WorkMeansProjects(userMessage: string)
    requires Contains(Cleaned(userMessage), "work")
    ensures Classify(userMessage) in {Greeting, Skills, Projects}
  {
    assert Mentions(Cleaned(userMessage), Projects) by {
      assert ProjectWords[1] == "work";
    }
    assert Order[2] == Projects;
  }

  /** The fallback is given exactly when no keyword of any topic occurs. */
  lemma FallbackOnlyWithoutKeywords(userMessage: string)
    ensures Classify(userMessage) == Fallback <==>
      forall t :: t != Fallback ==> !Mentions(Cleaned(userMessage), t)
  {
    var m := Cleaned(userMessage);
    if Classify(userMessage) == Fallback {
      forall t | t != Fallback ensures !Mentions(m, t) {
        assert t == Order[t.Position()];
      }
    }
  }
}

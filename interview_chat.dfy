/** The placeholder chat endpoint: it validates the message, then picks a reply
    by keyword, falling back to one of ten canned replies chosen at random. */
module InterviewChat {
  import opened Options
  import opened Text
  import opened Json

  datatype ChatResponse =
    | ChatOk(response: string, conversationId: string, timestamp: string)
    | ChatError(status: nat, error: string)

  const CannedResponses: seq<string> := [
    "That's interesting! Can you tell me more about that?",
    "Thank you for sharing that with me. How did that make you feel?",
    "That's a great example. What would you do differently if you faced that situation again?",
    "I appreciate your honesty. What did you learn from that experience?",
    "That sounds challenging. How did you overcome those difficulties?",
    "Very insightful! Can you give me another example of when you demonstrated that skill?",
    "Thank you for that detailed response. What would you say are your biggest strengths?",
    "That's impressive! How do you handle stress and pressure?",
    "Great answer! What motivates you the most in your work?",
    "Excellent! Do you have any questions for me about this role?"
  ]

  const StrengthReply := "That's a great strength to have! Can you give me a specific example of when you've used this strength successfully?"
  const WeaknessReply := "It's good that you're self-aware about areas for improvement. What steps are you taking to work on this?"
  const ExperienceReply := "That's valuable experience! What was the most challenging part of that role?"
  const GoalReply := "Those are excellent goals! How do you plan to achieve them?"
  const TeamReply := "Teamwork is crucial! Can you describe a time when you had to resolve a conflict within your team?"

  /** The message passes the check exactly when it is a non-empty string. */
  predicate ValidMessage(m: Json) {
    m.JStr? && m.s != ""
  }

  /** The if-else chain of keyword tests on the lower-cased message. */
  function KeywordReply(message: string): Option<string> {
    var lower := ToLower(message);
    if Contains(lower, "strength") || Contains(lower, "strong") then Some(StrengthReply)
    else if Contains(lower, "weakness") || Contains(lower, "improve") then Some(WeaknessReply)
    else if Contains(lower, "experience") || Contains(lower, "worked") then Some(ExperienceReply)
    else if Contains(lower, "goal") || Contains(lower, "future") then Some(GoalReply)
    else if Contains(lower, "team") || Contains(lower, "collaborat") then Some(TeamReply)
    else None
  }

  /** A keyword group: any of its keywords selects its reply. */
  datatype KeywordGroup = KeywordGroup(keywords: seq<string>, reply: string)

  /** The groups in the order the endpoint tries them. */
  const KeywordGroups: seq<KeywordGroup> := [
    KeywordGroup(["strength", "strong"], StrengthReply),
    KeywordGroup(["weakness", "improve"], WeaknessReply),
    KeywordGroup(["experience", "worked"], ExperienceReply),
    KeywordGroup(["goal", "future"], GoalReply),
    KeywordGroup(["team", "collaborat"], TeamReply)
  ]

  predicate ContainsAny(text: string, keywords: seq<string>) {
    exists i :: 0 <= i < |keywords| && Contains(text, keywords[i])
  }

  /** Reference selection: the reply of the first group one of whose keywords
      occurs in `text`. */
  function FirstMatch(groups: seq<KeywordGroup>, text: string): Option<string> {
    if |groups| == 0 then None
    else if ContainsAny(text, groups[0].keywords) then Some(groups[0].reply)
    else FirstMatch(groups[1..], text)
  }

  /** The first match is the reply of the earliest matching group, and there
      is none exactly when no group matches. */
  lemma {:induction false} FirstMatchIsEarliest(groups: seq<KeywordGroup>, text: string)
    ensures FirstMatch(groups, text).None? <==> forall i :: 0 <= i < |groups| ==> !ContainsAny(text, groups[i].keywords)
    ensures FirstMatch(groups, text).Some? ==>
              exists i :: 0 <= i < |groups| && ContainsAny(text, groups[i].keywords)
                          && FirstMatch(groups, text).value == groups[i].reply
                          && forall j :: 0 <= j < i ==> !ContainsAny(text, groups[j].keywords)
  {
    if |groups| == 0 || ContainsAny(text, groups[0].keywords) {
      return;
    }
    var tail := groups[1..];
    FirstMatchIsEarliest(tail, text);
    assert forall i :: 1 <= i < |groups| ==> groups[i] == tail[i - 1];
    var r := FirstMatch(tail, text);
    if r.Some? {
      var i :| 0 <= i < |tail| && ContainsAny(text, tail[i].keywords) && r.value == tail[i].reply
               && forall j :: 0 <= j < i ==> !ContainsAny(text, tail[j].keywords);
      assert forall j :: 0 <= j < i + 1 ==> !ContainsAny(text, groups[j].keywords) by {
        forall j | 0 <= j < i + 1 ensures !ContainsAny(text, groups[j].keywords) {
          if j > 0 { assert groups[j] == tail[j - 1]; }
        }
      }
      assert groups[i + 1] == tail[i];
    }
  }

  lemma ContainsAnyPair(text: string, a: string, b: string)
    ensures ContainsAny(text, [a, b]) <==> Contains(text, a) || Contains(text, b)
  {
    if Contains(text, a) { assert [a, b][0] == a; }
    if Contains(text, b) { assert [a, b][1] == b; }
  }

  /** The keyword chain is the first-match selection over the groups in order,
      applied to the lower-cased message. */
  lemma KeywordReplyIsFirstMatch(message: string)
    ensures KeywordReply(message) == FirstMatch(KeywordGroups, ToLower(message))
  {
    var lower := ToLower(message);
    var g := KeywordGroups;
    ContainsAnyPair(lower, "strength", "strong");
    ContainsAnyPair(lower, "weakness", "improve");
    ContainsAnyPair(lower, "experience", "worked");
    ContainsAnyPair(lower, "goal", "future");
    ContainsAnyPair(lower, "team", "collaborat");
    assert g[1..] == KeywordGroups[1..];
    assert FirstMatch(g[5..], lower) == None;
    assert FirstMatch(g[4..], lower) == if ContainsAny(lower, g[4].keywords) then Some(TeamReply) else None;
    assert FirstMatch(g[3..], lower)
        == if ContainsAny(lower, g[3].keywords) then Some(GoalReply) else FirstMatch(g[4..], lower) by {
      assert g[3..][1..] == g[4..];
    }
    assert FirstMatch(g[2..], lower)
        == if ContainsAny(lower, g[2].keywords) then Some(ExperienceReply) else FirstMatch(g[3..], lower) by {
      assert g[2..][1..] == g[3..];
    }
    assert FirstMatch(g[1..], lower)
        == if ContainsAny(lower, g[1].keywords) then Some(WeaknessReply) else FirstMatch(g[2..], lower) by {
      assert g[1..][1..] == g[2..];
    }
  }

  /** Matching ignores case: a message and its lower-cased form get the same
      keyword reply. */
  lemma KeywordReplyIgnoresCase(message: string)
    ensures KeywordReply(ToLower(message)) == KeywordReply(message)
  {
    ToLowerIdempotent(message);
  }

  /** The random pick `Math.floor(Math.random() * 10)`. */
  function CannedIndex(roll: real): (i: nat)
    requires 0.0 <= roll < 1.0
    ensures i < |CannedResponses|
    ensures i as real <= roll * 10.0 < i as real + 1.0
  {
    (roll * 10.0).Floor
  }

  /** The reply text: the keyword reply if any group matches, else the canned
      reply the roll picks. */
  function ReplyText(message: string, roll: real): (r: string)
    requires 0.0 <= roll < 1.0
    ensures KeywordReply(message).Some? ==> r == KeywordReply(message).value
    ensures KeywordReply(message).None? ==> r in CannedResponses
  {
    KeywordReply(message).GetOr(CannedResponses[CannedIndex(roll)])
  }

  /** `POST`: `body` is the parsed request body (`None` when it is not JSON),
      `roll` the random number, `now` the clock and `iso` its ISO rendering. */
  function Handle(body: Option<Json>, roll: real, now: nat, iso: string): (r: ChatResponse)
    requires 0.0 <= roll < 1.0
    ensures r.ChatError? ==> (r.status == 400 && r.error == "Message is required")
                             || (r.status == 500 && r.error == "Internal server error")
    ensures r.ChatError? && r.status == 400 <==>
              body.Some? && Property(body.value, "message").Some? && !ValidMessage(Property(body.value, "message").value)
    // every present, valid message is answered
    ensures r.ChatOk? <==>
              body.Some? && Property(body.value, "message").Some? && ValidMessage(Property(body.value, "message").value)
    ensures r.ChatOk? ==>
              body.Some? && Property(body.value, "message").Some? && ValidMessage(Property(body.value, "message").value)
              && r.response == ReplyText(Property(body.value, "message").value.s, roll)
              && r.timestamp == iso
              && |r.conversationId| > 5 && r.conversationId[..5] == "conv_"
              && AllDigits(r.conversationId[5..]) && DigitsValue(r.conversationId[5..]) == now
  {
    if body.None? then ChatError(500, "Internal server error")
    else
      match Property(body.value, "message")
      case None => ChatError(500, "Internal server error")
      case Some(m) =>
        if !ValidMessage(m) then ChatError(400, "Message is required")
        else
          var id := "conv_" + NatToString(now);
          assert id[5..] == NatToString(now);
          DigitsValueOfNatToString(now);
          ChatOk(ReplyText(m.s, roll), id, iso)
  }

  /** `conversationHistory` is read but never affects the reply: adding it to
      the body changes nothing. */
  lemma {:induction false} HistoryIgnored(members: seq<Member>, history: Json, roll: real, now: nat, iso: string)
    requires 0.0 <= roll < 1.0
    ensures Handle(Some(JObj(members + [Member("conversationHistory", history)])), roll, now, iso)
         == Handle(Some(JObj(members)), roll, now, iso)
  {
    var ms := members + [Member("conversationHistory", history)];
    assert ms[..|ms| - 1] == members;
    assert ms[|ms| - 1].key != "message";
  }
}

/** The text chat of src/components/AiChat.tsx: the ordered keyword router
    that answers common questions locally, and the send handler with its
    guard, its local path and the accumulation of the streamed answer. */
module AiChat {
  import opened Types
  import opened Text
  import opened ChatStream

  /** The topics the router answers, one per branch. */
  datatype Topic = Fever | Headache | Cough | Stomach | Cold | Burn | Sleep | Diabetes | Hello | Appointment | Identity | Thanks

  /** The answer text of each topic. */
  function AnswerText(t: Topic): string {
    match t
    case Fever => "A fever is usually a sign that your body is fighting off an infection. Rest, stay hydrated, and monitor your temperature. If it exceeds 103°F (39.4°C) or lasts more than 3 days, please consult a doctor. 🌡️"
    case Headache => "Headaches can be caused by stress, dehydration, or eye strain. Try resting in a dark room and drinking water. If it's severe or accompanied by vision changes, seek medical help. 🤕"
    case Cough => "A cough can be viral or due to allergies. Stay hydrated, try honey (for those over 1 year old), and use a humidifier. If you have difficulty breathing or it lasts >3 weeks, see a doctor. 🗣️"
    case Stomach => "Stomach pain can range from indigestion to more serious issues. Try small sips of water or ginger tea. Avoid heavy foods. If the pain is severe, localized (like bottom right), or you have a high fever, seek urgent care. 🤢"
    case Cold => "For a common cold or flu, the best treatment is usually rest, plenty of fluids, and over-the-counter pain relievers if needed. Symptoms typically peak at 2-3 days and can last up to 2 weeks. 🤧"
    case Burn => "For minor burns, run cool (not cold) water over the area for 10-20 minutes. Don't use ice or butter. Cover with a sterile bandage. See a doctor if it's large, deep, or on the face/hands. 🔥"
    case Sleep => "Good sleep hygiene involves a consistent schedule, a dark/cool room, and avoiding screens 1 hour before bed. Try relaxation techniques if you're struggling to drift off. 😴"
    case Diabetes => "Diabetes is a chronic condition that affects how your body turns food into energy. It's crucial to monitor blood sugar, eat a balanced diet, and stay active as prescribed by your doctor. 🩸"
    case Hello => "Hello! I'm your MediPulse assistant. How can I help you with your health today? 😊"
    case Appointment => "You can book an appointment by clicking the 'Book' tab in the bottom navigation menu. 📅"
    case Identity => "I am MediPulse AI, your personal health assistant designed to help you track vitals and manage your medical needs. 🤖"
    case Thanks => "You're very welcome! Stay healthy! 💙"
  }

  /** One branch of the router: any of the keywords selects the topic. */
  datatype Rule = Rule(keywords: seq<string>, topic: Topic)

  /** The router's branches, in the order they are tried. */
  const Rules: seq<Rule> := [
    Rule(["fever"], Fever),
    Rule(["headache"], Headache),
    Rule(["cough"], Cough),
    Rule(["stomach", "abdominal"], Stomach),
    Rule(["cold", "flu"], Cold),
    Rule(["burn"], Burn),
    Rule(["sleep", "insomnia"], Sleep),
    Rule(["diabetes"], Diabetes),
    Rule(["hello", "hi"], Hello),
    Rule(["appointment"], Appointment),
    Rule(["who are you"], Identity),
    Rule(["thank"], Thanks)
  ]

  /** Some keyword occurs in the text (`a || b` of `includes` tests). */
  predicate AnyIn(text: string, keywords: seq<string>) {
    keywords != [] && (Contains(text, keywords[0]) || AnyIn(text, keywords[1..]))
  }

  predicate Matches(text: string, rule: Rule) {
    AnyIn(text, rule.keywords)
  }

  /** The if-chain: the topic of the first branch whose test holds. */
  function FirstMatch(text: string, rules: seq<Rule>): Option<Topic> {
    if rules == [] then None
    else if Matches(text, rules[0]) then Some(rules[0].topic)
    else FirstMatch(text, rules[1..])
  }

  /** The topic `getLocalResponse` answers, if any. */
  function LocalTopic(input: string): Option<Topic> {
    FirstMatch(ToLower(input), Rules)
  }

  /** `getLocalResponse`. */
  function LocalResponse(input: string): (r: Option<string>)
    ensures r.None? <==> forall i :: 0 <= i < |Rules| ==> !Matches(ToLower(input), Rules[i])
    ensures r.Some? ==>
      exists i :: 0 <= i < |Rules| && Matches(ToLower(input), Rules[i])
        && r.value == AnswerText(Rules[i].topic)
        && forall j :: 0 <= j < i ==> !Matches(ToLower(input), Rules[j])
  {
    var r := match LocalTopic(input) case None => None case Some(t) => Some(AnswerText(t));
    AnswerOfFirstMatch(ToLower(input), Rules, r);
    r
  }

  /** The answer of the first matching branch, for any list of branches. */
  lemma AnswerOfFirstMatch(text: string, rules: seq<Rule>, r: Option<string>)
    requires r == match FirstMatch(text, rules) case None => None case Some(t) => Some(AnswerText(t))
    ensures r.None? <==> forall i :: 0 <= i < |rules| ==> !Matches(text, rules[i])
    ensures r.Some? ==>
      exists i :: 0 <= i < |rules| && Matches(text, rules[i])
        && r.value == AnswerText(rules[i].topic)
        && forall j :: 0 <= j < i ==> !Matches(text, rules[j])
  {
    FirstMatchIsEarliest(text, rules);
  }

  /** The router answers nothing exactly when no branch matches, and
      otherwise gives the topic of the earliest matching branch. */
  lemma {:induction false} FirstMatchIsEarliest(text: string, rules: seq<Rule>)
    ensures FirstMatch(text, rules).None? <==> forall i :: 0 <= i < |rules| ==> !Matches(text, rules[i])
    ensures FirstMatch(text, rules).Some? ==>
      exists i :: 0 <= i < |rules| && Matches(text, rules[i])
        && FirstMatch(text, rules).value == rules[i].topic
        && forall j :: 0 <= j < i ==> !Matches(text, rules[j])
  {
    if rules != [] && !Matches(text, rules[0]) {
      FirstMatchIsEarliest(text, rules[1..]);
      assert forall i :: 1 <= i < |rules| ==> rules[i] == rules[1..][i - 1];
      if FirstMatch(text, rules).Some? {
        var i :| 0 <= i < |rules[1..]| && Matches(text, rules[1..][i])
          && FirstMatch(text, rules[1..]).value == rules[1..][i].topic
          && forall j :: 0 <= j < i ==> !Matches(text, rules[1..][j]);
        assert forall j :: 0 <= j < i + 1 ==> !Matches(text, rules[j]) by {
          forall j | 0 <= j < i + 1 ensures !Matches(text, rules[j]) {
            if j > 0 { assert rules[j] == rules[1..][j - 1]; }
          }
        }
      }
    } else if rules != [] {
      assert Matches(text, rules[0]);
    }
  }

  /** The local answer depends only on the lower-cased input. */
  lemma LocalResponseCaseInsensitive(input: string)
    ensures LocalResponse(ToLower(input)) == LocalResponse(input)
  {
    ToLowerIdempotent(input);
  }

  /** Order matters: an input naming both a fever and a headache gets the
      fever answer, which differs from the headache answer. */
  lemma FeverBeforeHeadache(input: string)
    requires Contains(ToLower(input), "fever") && Contains(ToLower(input), "headache")
    ensures LocalTopic(input) == Some(Fever)
  {
  }

  /** Some update among the first `n` carried text, so the bot message has
      been rewritten. */
  predicate Texted(updates: seq<StreamUpdate>, n: nat)
    requires n <= |updates|
  {
    n > 0 && (Texted(updates, n - 1) || ChunkText(updates[n - 1]) != [])
  }

  /** The stream text is empty exactly when no update carried text. */
  lemma {:induction false} StreamTextEmptyIffUntexted(updates: seq<StreamUpdate>, n: nat)
    requires n <= |updates|
    ensures StreamText(updates, n) == [] <==> !Texted(updates, n)
  {
    if n > 0 {
      StreamTextEmptyIffUntexted(updates, n - 1);
    }
  }

  /** `prev.map(msg => msg.id === id ? { ...msg, text, isTyping: false } : msg)`. */
  function SetText(msgs: seq<ChatMessage>, id: int, text: string): (r: seq<ChatMessage>)
    ensures |r| == |msgs|
    ensures forall i :: 0 <= i < |msgs| && msgs[i].id != id ==> r[i] == msgs[i]
    ensures forall i :: 0 <= i < |msgs| && msgs[i].id == id ==>
      r[i].text == text && !r[i].isTyping
      && r[i].id == id && r[i].role == msgs[i].role && r[i].sources == msgs[i].sources
  {
    seq(|msgs|, i requires 0 <= i < |msgs| =>
      if msgs[i].id == id then msgs[i].(text := text, isTyping := false) else msgs[i])
  }

  /** A later rewrite of the same message replaces an earlier one. */
  lemma SetTextTwice(msgs: seq<ChatMessage>, id: int, a: string, b: string)
    ensures SetText(SetText(msgs, id, a), id, b) == SetText(msgs, id, b)
  {
  }

  const FailureText := "I'm here to help, but I'm having a little trouble connecting to my brain. Please try asking in a different way!"

  /** The messages once the stream has been consumed: the bot message holds
      the accumulated text, or the failure text when the stream failed. */
  function Streamed(msgs: seq<ChatMessage>, botId: int, updates: seq<StreamUpdate>, failed: bool): seq<ChatMessage> {
    if failed then SetText(msgs, botId, FailureText)
    else if Texted(updates, |updates|) then SetText(msgs, botId, StreamText(updates, |updates|))
    else msgs
  }

  /** A local reply waiting for its 800 ms timer. */
  datatype LocalReply = LocalReply(botId: int, topic: Topic)

  const Greeting := "Hello! 👋 I'm MediPulse, your personal health assistant. I can provide **basic answers about medical conditions**, analyze your symptoms, and help you manage your health. How are you feeling today?"

  class Chat {
    var messages: seq<ChatMessage>
    var inputText: string
    var isProcessing: bool
    /** Local replies whose timer is running, oldest first. */
    var localTimers: seq<LocalReply>
    /** The inputs sent to the remote chat, in order. */
    var remoteRequests: seq<string>

    constructor ()
      ensures messages == [ChatMessage(1, Model, Greeting, false, None)]
      ensures inputText == [] && !isProcessing && localTimers == [] && remoteRequests == []
    {
      messages := [ChatMessage(1, Model, Greeting, false, None)];
      inputText, isProcessing := [], false;
      localTimers, remoteRequests := [], [];
    }

    /** The input field's `onChange`. */
    method InputChange(value: string)
      modifies this`inputText
      ensures inputText == value
    {
      inputText := value;
    }

    /** `handleSendMessage`, reading the clock as `now` for the user's
        message and as `later` for the placeholder. The remote stream yields
        `updates` and then fails when `failed` holds (a failure before the
        first update is `updates == []`). */
    method Send(now: int, later: int, updates: seq<StreamUpdate>, failed: bool)
      modifies this`messages, this`inputText, this`isProcessing, this`localTimers, this`remoteRequests
      ensures Blank(old(inputText)) || old(isProcessing) ==>
        messages == old(messages) && inputText == old(inputText) && isProcessing == old(isProcessing)
        && localTimers == old(localTimers) && remoteRequests == old(remoteRequests)
      ensures !Blank(old(inputText)) && !old(isProcessing) ==>
        && inputText == []
        && (LocalTopic(old(inputText)).Some? ==>
              && messages == Posted(old(messages), now, later, old(inputText)) && isProcessing
              && localTimers == old(localTimers) + [LocalReply(later + 1, LocalTopic(old(inputText)).value)]
              && remoteRequests == old(remoteRequests))
        && (LocalTopic(old(inputText)).None? ==>
              && messages == Streamed(Posted(old(messages), now, later, old(inputText)), later + 1, updates, failed)
              && !isProcessing && localTimers == old(localTimers)
              && remoteRequests == old(remoteRequests) + [old(inputText)])
    {
      var current := inputText;
      var blank := TrimsToEmpty(current);
      if blank || isProcessing {
        return;
      }
      var sent := Posted(messages, now, later, current);
      inputText := [];
      // Every answer text is a non-empty literal, so `if (localAnswer)` is
      // the test for a matching branch.
      var localAnswer := LocalTopic(current);
      if localAnswer.Some? {
        ReplyLocally(sent, LocalReply(later + 1, localAnswer.value));
      } else {
        ReplyRemotely(sent, current, later + 1, updates, failed);
      }
    }

    /** The local path: show the placeholder and start the answer's timer. */
    method ReplyLocally(sent: seq<ChatMessage>, reply: LocalReply)
      modifies this`messages, this`isProcessing, this`localTimers
      ensures messages == sent && isProcessing && localTimers == old(localTimers) + [reply]
    {
      messages := sent;
      isProcessing := true;
      localTimers := localTimers + [reply];
    }

    /** The remote path: send the input, consume the stream, and end
        processing in the `finally`. */
    method ReplyRemotely(sent: seq<ChatMessage>, input: string, botId: int, updates: seq<StreamUpdate>, failed: bool)
      modifies this`messages, this`isProcessing, this`remoteRequests
      ensures messages == Streamed(sent, botId, updates, failed) && !isProcessing
      ensures remoteRequests == old(remoteRequests) + [input]
    {
      remoteRequests := remoteRequests + [input];
      messages := StreamAnswer(sent, botId, updates, failed);
      isProcessing := false;
    }

    /** The `for await` loop over the stream and its `catch`. */
    method StreamAnswer(m0: seq<ChatMessage>, botId: int, updates: seq<StreamUpdate>, failed: bool)
      returns (m: seq<ChatMessage>)
      ensures m == Streamed(m0, botId, updates, failed)
    {
      m := m0;
      var fullText: string := [];
      for k := 0 to |updates|
        invariant fullText == StreamText(updates, k)
        invariant m == if Texted(updates, k) then SetText(m0, botId, fullText) else m0
      {
        var text := ChunkText(updates[k]);
        if text != [] {
          fullText := fullText + text;
          SetTextTwice(m0, botId, StreamText(updates, k), fullText);
          m := SetText(m, botId, fullText);
        }
      }
      if failed {
        SetTextTwice(m0, botId, fullText, FailureText);
        m := SetText(m, botId, FailureText);
      }
    }

    /** The oldest local timer fires: its answer replaces the placeholder and
        processing ends. */
    method LocalTimerFires()
      requires localTimers != []
      modifies this`messages, this`isProcessing, this`localTimers
      ensures messages == SetText(old(messages), old(localTimers)[0].botId, AnswerText(old(localTimers)[0].topic))
      ensures !isProcessing && localTimers == old(localTimers)[1..]
    {
      var t := localTimers[0];
      messages := SetText(messages, t.botId, AnswerText(t.topic));
      isProcessing := false;
      localTimers := localTimers[1..];
    }
  }
}

/**
 * The verification client of services/geminiService.ts. The model call is an
 * oracle `generate` from the request to its settled outcome; the API key read
 * from the build environment is the parameter `envKey`.
 */
module Gemini {
  import opened Wrappers
  import opened Text

  const ModelName := "gemini-2.5-flash"
  const PromptHead := "Analyze the attached image. The user's goal was: '"
  const PromptTail := "'. Does this image provide reasonable visual proof that the user has achieved this goal? Your response must be a single word: either YES or NO. Do not provide any other explanation or text."

  /** What `generateContent` is sent: the key, the model, the inline image part and the text part. */
  datatype Request = Request(apiKey: string, model: string, mimeType: Option<string>, data: Option<string>, prompt: string)

  /** The settled `generateContent` call: the reply's text, or an exception. */
  datatype Reply = Replied(text: string) | Threw

  /** `parts[i]` in JavaScript: `undefined` past the end. */
  function Element(parts: seq<string>, i: nat): Option<string> {
    if i < |parts| then Some(parts[i]) else None
  }

  /** `imageBase64.split(';')[0].split(':')[1]`. */
  function MimeType(imageBase64: string): (r: Option<string>)
    ensures r.Some? ==> ':' in imageBase64 && ':' !in r.value
  {
    var head := Split(imageBase64, ';')[0];
    assert |Split(head, ':')| > 1 ==> ':' in imageBase64 by {
      if ':' !in head {
        SplitNoSeparator(head, ':');
      } else {
        var k :| 0 <= k < |head| && head[k] == ':';
        assert imageBase64[k] == ':';
      }
    }
    Element(Split(head, ':'), 1)
  }

  /** `imageBase64.split(',')[1]`. */
  function Payload(imageBase64: string): (r: Option<string>)
    ensures r.Some? ==> ',' in imageBase64 && ',' !in r.value
  {
    assert |Split(imageBase64, ',')| > 1 ==> ',' in imageBase64 by {
      if ',' !in imageBase64 {
        SplitNoSeparator(imageBase64, ',');
      }
    }
    Element(Split(imageBase64, ','), 1)
  }

  /** The fixed instruction with the goal quoted in it. */
  function Prompt(goal: string): (p: string)
    ensures |PromptHead| + |goal| <= |p| && p[|PromptHead|..|PromptHead| + |goal|] == goal
  {
    PromptHead + goal + PromptTail
  }

  function RequestFor(apiKey: string, goal: string, imageBase64: string): Request {
    Request(apiKey, ModelName, MimeType(imageBase64), Payload(imageBase64), Prompt(goal))
  }

  /** The reply test `response.text.trim().toUpperCase() === 'YES'`: the trimmed reply is a yes-word. */
  predicate IsAffirmative(text: string)
    ensures IsAffirmative(text) <==> YesWord(Trim(text))
  {
    UpperIsYes(Trim(text));
    ToUpper(Trim(text)) == "YES"
  }

  /** Exactly the yes-words upper-case to "YES". */
  lemma UpperIsYes(w: string)
    ensures ToUpper(w) == "YES" <==> YesWord(w)
  {
    var u := ToUpper(w);
    if u == "YES" {
      assert |w| == 3;
      assert UpperChar(w[0]) == 'Y' && UpperChar(w[1]) == 'E' && UpperChar(w[2]) == 'S';
    }
    if YesWord(w) {
      assert u[0] == 'Y' && u[1] == 'E' && u[2] == 'S';
      assert u == "YES";
    }
  }

  /** The three-letter words that upper-case to "YES". */
  predicate YesWord(w: string) {
    && |w| == 3
    && (w[0] == 'y' || w[0] == 'Y')
    && (w[1] == 'e' || w[1] == 'E')
    && (w[2] == 's' || w[2] == 'S' || w[2] == '\U{017F}')
  }

  /** Whether `verifyGoalWithGemini` resolves to true for this environment and this model. */
  predicate Confirms(envKey: Option<string>, goal: string, imageBase64: string, generate: Request -> Reply) {
    Truthy(envKey) &&
    var reply := generate(RequestFor(envKey.value, goal, imageBase64));
    reply.Replied? && IsAffirmative(reply.text)
  }

  /**
   * `verifyGoalWithGemini(goal, imageBase64)`. `sent` is the request handed
   * to the model, None when no call is made.
   */
  method VerifyGoal(envKey: Option<string>, goal: string, imageBase64: string, generate: Request -> Reply)
    returns (verified: bool, sent: Option<Request>)
    ensures !Truthy(envKey) ==> sent == None && !verified
    ensures Truthy(envKey) ==> sent == Some(RequestFor(envKey.value, goal, imageBase64))
    ensures verified == Confirms(envKey, goal, imageBase64, generate)
  {
    if !Truthy(envKey) {
      return false, None;
    }
    var mimeType := MimeType(imageBase64);
    var pureBase64 := Payload(imageBase64);
    var request := Request(envKey.value, ModelName, mimeType, pureBase64, Prompt(goal));
    sent := Some(request);
    var response := generate(request);
    match response
    case Threw =>
      verified := false;
    case Replied(text) =>
      var verificationResult := ToUpper(Trim(text));
      verified := verificationResult == "YES";
  }

  /** For `data:<m>;base64,<p>` with no ';' or ':' in m, the MIME type is m. */
  lemma MimeTypeOfDataUri(m: string, p: string)
    requires ';' !in m && ':' !in m
    ensures MimeType("data:" + m + ";base64," + p) == Some(m)
  {
    var uri := "data:" + m + ";base64," + p;
    assert uri == ("data:" + m) + [';'] + ("base64," + p);
    SplitAfterPiece("data:" + m, "base64," + p, ';');
    assert "data:" + m == "data" + [':'] + m;
    SplitAfterPiece("data", m, ':');
    SplitNoSeparator(m, ':');
  }

  /** A string without ':' has no MIME type. */
  lemma MimeTypeMissing(s: string)
    requires ':' !in s
    ensures MimeType(s) == None
  {
    var head := Split(s, ';')[0];
    assert forall c :: c in head ==> c in s;
    SplitNoSeparator(head, ':');
  }

  /** For `data:<m>;base64,<p>` with no ',' in m or p, the payload is p. */
  lemma PayloadOfDataUri(m: string, p: string)
    requires ',' !in m && ',' !in p
    ensures Payload("data:" + m + ";base64," + p) == Some(p)
  {
    var head := "data:" + m + ";base64";
    assert "data:" + m + ";base64," + p == head + [','] + p;
    SplitAfterPiece(head, p, ',');
    SplitNoSeparator(p, ',');
  }

  /** A string without ',' has no payload. */
  lemma PayloadMissing(s: string)
    requires ',' !in s
    ensures Payload(s) == None
  {
    SplitNoSeparator(s, ',');
  }

  /** The prompt determines the goal: different goals are never sent as the same prompt. */
  lemma PromptDeterminesGoal(g: string, g': string)
    requires Prompt(g) == Prompt(g')
    ensures g == g'
  {
    var p := Prompt(g);
    assert |p| == |PromptHead| + |g| + |PromptTail|;
  }

  /** An accepted reply is a "yes" in any letter case, with only whitespace around it. */
  lemma AffirmativeShape(text: string) returns (i: nat)
    requires IsAffirmative(text)
    ensures i + 3 <= |text| && YesWord(text[i..i + 3])
    ensures AllWhitespace(text[..i]) && AllWhitespace(text[i + 3..])
  {
    var a, b := TrimCuts(text);
    i := a;
    assert Trim(text) == text[i..i + 3];
  }

  /** Any "yes" in any letter case, padded with whitespace, is accepted. */
  lemma PaddedYesIsAffirmative(lead: string, word: string, trail: string)
    requires AllWhitespace(lead) && YesWord(word) && AllWhitespace(trail)
    ensures IsAffirmative(lead + word + trail)
  {
    TrimPadded(lead, word, trail);
    assert Trim(lead + word + trail) == word;
  }

  /** Trailing or surrounding whitespace and letter case do not matter. */
  lemma AcceptedReplies()
    ensures IsAffirmative("yes ") && IsAffirmative(" YES\n") && IsAffirmative("Yes")
  {
    AcceptsTrailingSpace();
    AcceptsPaddedCapitals();
    AcceptsCapitalised();
  }

  /** A lower-case answer with a trailing space. */
  lemma AcceptsTrailingSpace()
    ensures IsAffirmative("yes ")
  {
    assert "" + "yes" + " " == "yes ";
    PaddedYesIsAffirmative("", "yes", " ");
  }

  /** An upper-case answer between a space and a line feed. */
  lemma AcceptsPaddedCapitals()
    ensures IsAffirmative(" YES\n")
  {
    assert " " + "YES" + "\n" == " YES\n";
    PaddedYesIsAffirmative(" ", "YES", "\n");
  }

  /** A capitalised answer with nothing around it. */
  lemma AcceptsCapitalised()
    ensures IsAffirmative("Yes")
  {
    assert "" + "Yes" + "" == "Yes";
    PaddedYesIsAffirmative("", "Yes", "");
  }

  /** Punctuation, extra words, a "no" and an empty reply are all refusals. */
  lemma RejectedReplies()
    ensures !IsAffirmative("YES.") && !IsAffirmative("yes please") && !IsAffirmative("no") && !IsAffirmative("")
  {
    RejectsPunctuation();
    RejectsExtraWords();
    RejectsNo();
    RejectsEmpty();
  }

  /** A full stop after the word is not trimmed away. */
  lemma RejectsPunctuation()
    ensures !IsAffirmative("YES.")
  {
    WrongLengthRejected("YES.");
  }

  /** Words after the answer are not trimmed away. */
  lemma RejectsExtraWords()
    ensures !IsAffirmative("yes please")
  {
    WrongLengthRejected("yes please");
  }

  /** The negative answer. */
  lemma RejectsNo()
    ensures !IsAffirmative("no")
  {
    WrongLengthRejected("no");
  }

  /** An empty reply trims to nothing. */
  lemma RejectsEmpty()
    ensures !IsAffirmative("")
  {
    assert Trim("") == "";
  }

  /** A reply without surrounding whitespace is kept whole by `trim`, so it must itself have three letters. */
  lemma WrongLengthRejected(text: string)
    requires text != [] && !IsWhitespace(text[0]) && !IsWhitespace(text[|text| - 1])
    requires |text| != 3
    ensures !IsAffirmative(text)
  {
    assert "" + text + "" == text;
    TrimPadded("", text, "");
  }
}

/** The feedback endpoint: the conversation flattened into a speaker-labelled
    transcript, the coach prompt around it, and the schema the generated
    feedback must satisfy. */
module FeedbackRoute {
  import opened Strings
  import opened Wrappers
  import opened Practice

  // ---- the transcript ----

  /** A message as the endpoint reads it: `content` and `parts` may each be absent. */
  datatype ChatMessage = ChatMessage(role: string, content: Option<string>, parts: Option<seq<Part>>)

  /** `m.content ?? m.parts?.filter(..).map(p => p.text).join("") ?? ""` */
  function MessageText(m: ChatMessage): string
  {
    match m.content
    case Some(c) => c
    case None =>
      match m.parts
      case Some(ps) => GetTextFromMessage(ps)
      case None => ""
  }

  function SpeakerLabel(role: string): string
  {
    if role == "user" then "CANDIDATE" else "COUNTERPART"
  }

  /** One message of the transcript: `${label}: ${text}`. */
  function Segment(m: ChatMessage): string
  {
    SpeakerLabel(m.role) + ": " + MessageText(m)
  }

  function Segments(ms: seq<ChatMessage>): (r: seq<string>)
    ensures |r| == |ms|
  {
    seq(|ms|, i requires 0 <= i < |ms| => Segment(ms[i]))
  }

  const SegmentSeparator: string := "\n\n"

  /** `messages.map(..).join("\n\n")` */
  function Transcript(ms: seq<ChatMessage>): string
  {
    Join(Segments(ms), SegmentSeparator)
  }

  /** Where the segment of message `i` starts in the transcript. */
  function SegmentOffset(ms: seq<ChatMessage>, i: nat): nat
    requires i <= |ms|
  {
    JoinOffset(Segments(ms), SegmentSeparator, i)
  }

  /** The text a message contributes: its `content` when present, whatever
      the parts say; otherwise the in-order text of its "text" parts (a part
      without text adding nothing); otherwise nothing. */
  lemma TextPrecedence(m: ChatMessage, otherParts: Option<seq<Part>>)
    ensures m.content.Some? ==>
              MessageText(m) == m.content.value && MessageText(m.(parts := otherParts)) == MessageText(m)
    ensures m.content.None? && m.parts.Some? ==> MessageText(m) == ConcatContributions(m.parts.value)
    ensures m.content.None? && m.parts.None? ==> MessageText(m) == ""
  {
    if m.content.None? && m.parts.Some? {
      GetTextIsConcatenation(m.parts.value);
    }
  }

  /** A segment is labelled CANDIDATE exactly for messages whose role is
      "user", COUNTERPART for every other role, and the message text follows
      the label and ": " unchanged, with nothing in between. */
  lemma SegmentSpec(m: ChatMessage)
    ensures ContainsAt(Segment(m), 0, "CANDIDATE: ") <==> m.role == "user"
    ensures m.role != "user" ==> ContainsAt(Segment(m), 0, "COUNTERPART: ")
    ensures Segment(m)[|Segment(m)| - |MessageText(m)|..] == MessageText(m)
    ensures |Segment(m)| == (if m.role == "user" then |"CANDIDATE: "| else |"COUNTERPART: "|) + |MessageText(m)|
  {
    var s := Segment(m);
    if m.role != "user" {
      assert s[1] == 'O';
      assert s[..13] == "COUNTERPART: ";
    } else {
      assert s[..11] == "CANDIDATE: ";
    }
  }

  /** The transcript holds one segment per message, in message order, each
      followed by "\n\n" except the last, and nothing else; no messages give
      the empty transcript. */
  lemma TranscriptLayout(ms: seq<ChatMessage>)
    ensures Transcript(ms) == "" <==> ms == []
    ensures forall i :: 0 <= i < |ms| ==> ContainsAt(Transcript(ms), SegmentOffset(ms, i), Segment(ms[i]))
    ensures forall i :: 0 <= i < |ms| - 1 ==>
              ContainsAt(Transcript(ms), SegmentOffset(ms, i) + |Segment(ms[i])|, SegmentSeparator)
    ensures ms != [] ==> |Transcript(ms)| + |SegmentSeparator| == SegmentOffset(ms, |ms|)
  {
    var segs := Segments(ms);
    forall i | 0 <= i < |ms|
      ensures ContainsAt(Transcript(ms), SegmentOffset(ms, i), Segment(ms[i]))
      ensures i < |ms| - 1 ==>
                ContainsAt(Transcript(ms), SegmentOffset(ms, i) + |Segment(ms[i])|, SegmentSeparator)
    {
      JoinLayout(segs, SegmentSeparator, i);
    }
    if ms != [] {
      JoinLength(segs, SegmentSeparator);
      assert |Segment(ms[0])| >= 2;
    }
  }

  // ---- the coach prompt ----

  const CoachIntro: string :=
    "You are an expert salary negotiation coach analyzing a practice negotiation session."

  /** The instructions after the transcript: what to evaluate. */
  const CoachInstructions: string :=
      "Analyze this negotiation and provide detailed, actionable feedback. Be specific — reference exact moments in the conversation. Be encouraging but honest. The goal is to help this person negotiate better next time.\n"
    + "\n"
    + "Key things to evaluate:\n"
    + "- Did they state their number confidently or hedge?\n"
    + "- Did they use data, competing offers, or unique value to justify their ask?\n"
    + "- Did they cave at the first pushback or hold firm?\n"
    + "- Did they apologize for asking or make excuses?\n"
    + "- Did they handle silence and pressure well?\n"
    + "- Did they negotiate beyond just base salary (equity, signing bonus, review timeline)?\n"
    + "- What was the gap between their target and the final number discussed?"

  /** The pieces of the coach prompt's template literal, in order. */
  function CoachPieces(s: Scenario, transcript: string): seq<string>
  {
    [ CoachIntro, "\n\nSCENARIO:\n",
      "- Role: " + s.role + "\n",
      "- Target Salary: $" + s.targetSalary + "\n",
      "- Industry: " + s.industry + "\n",
      "- Company Size: " + s.companySize + "\n",
      "- Experience Level: " + s.experience + "\n",
      "- Negotiation Persona: " + s.persona + "\n",
      "\nCONVERSATION TRANSCRIPT:\n" + transcript + "\n\n",
      CoachInstructions ]
  }

  /** The prompt sent to the feedback model. */
  function CoachPrompt(s: Scenario, transcript: string): string
  {
    Join(CoachPieces(s, transcript), "")
  }

  /** The coach prompt names every scenario field, the persona id as given
      (not resolved), on its own labelled line, and carries the whole
      transcript under its heading. */
  lemma CoachPromptEmbeds(s: Scenario, transcript: string)
    ensures Occurs("- Role: " + s.role + "\n", CoachPrompt(s, transcript))
    ensures Occurs("- Target Salary: $" + s.targetSalary + "\n", CoachPrompt(s, transcript))
    ensures Occurs("- Industry: " + s.industry + "\n", CoachPrompt(s, transcript))
    ensures Occurs("- Company Size: " + s.companySize + "\n", CoachPrompt(s, transcript))
    ensures Occurs("- Experience Level: " + s.experience + "\n", CoachPrompt(s, transcript))
    ensures Occurs("- Negotiation Persona: " + s.persona + "\n", CoachPrompt(s, transcript))
    ensures Occurs("\nCONVERSATION TRANSCRIPT:\n" + transcript + "\n\n", CoachPrompt(s, transcript))
  {
    var pieces := CoachPieces(s, transcript);
    JoinOccurs(pieces, "", 2);
    JoinOccurs(pieces, "", 3);
    JoinOccurs(pieces, "", 4);
    JoinOccurs(pieces, "", 5);
    JoinOccurs(pieces, "", 6);
    JoinOccurs(pieces, "", 7);
    JoinOccurs(pieces, "", 8);
  }

  // ---- the feedback schema ----

  /** A JSON value as the model returns it. */
  datatype Json =
    | JNull
    | JBool(b: bool)
    | JNumber(n: real)
    | JString(s: string)
    | JArray(items: seq<Json>)
    | JObject(fields: map<string, Json>)

  datatype Strength = Strength(point: string, quote: string)
  datatype Weakness = Weakness(point: string, quote: string, suggestion: string)

  /** `Feedback`, the type the schema describes. */
  datatype Feedback = Feedback(
    overallScore: real,
    finalOffer: string,
    targetSalary: string,
    summary: string,
    strengths: seq<Strength>,
    weaknesses: seq<Weakness>,
    tips: seq<string>)

  function StringField(fields: map<string, Json>, key: string): Option<string>
  {
    if key in fields && fields[key].JString? then Some(fields[key].s) else None
  }

  function ParseString(j: Json): Option<string>
  {
    if j.JString? then Some(j.s) else None
  }

  /** The strength item schema: an object with string `point` and `quote`;
      other keys are dropped. */
  function ParseStrength(j: Json): (r: Option<Strength>)
    ensures r.Some? <==> j.JObject? && StringField(j.fields, "point").Some? && StringField(j.fields, "quote").Some?
    ensures r.Some? ==> j.fields["point"] == JString(r.value.point) && j.fields["quote"] == JString(r.value.quote)
  {
    if !j.JObject? then None
    else
      match (StringField(j.fields, "point"), StringField(j.fields, "quote"))
      case (Some(p), Some(q)) => Some(Strength(p, q))
      case _ => None
  }

  /** The weakness item schema: an object with string `point`, `quote` and
      `suggestion`; other keys are dropped. */
  function ParseWeakness(j: Json): (r: Option<Weakness>)
    ensures r.Some? <==> && j.JObject? && StringField(j.fields, "point").Some?
                         && StringField(j.fields, "quote").Some? && StringField(j.fields, "suggestion").Some?
    ensures r.Some? ==> && j.fields["point"] == JString(r.value.point) && j.fields["quote"] == JString(r.value.quote)
                        && j.fields["suggestion"] == JString(r.value.suggestion)
  {
    if !j.JObject? then None
    else
      match (StringField(j.fields, "point"), StringField(j.fields, "quote"), StringField(j.fields, "suggestion"))
      case (Some(p), Some(q), Some(g)) => Some(Weakness(p, q, g))
      case _ => None
  }

  /** `z.array(item)`: every element must parse; the length is not limited. */
  function ParseEach<T>(items: seq<Json>, item: Json -> Option<T>): (r: Option<seq<T>>)
    ensures r.Some? ==> |r.value| == |items|
    ensures r.Some? <==> forall i :: 0 <= i < |items| ==> item(items[i]).Some?
    ensures r.Some? ==> forall i :: 0 <= i < |items| ==> item(items[i]) == Some(r.value[i])
  {
    if items == [] then Some([])
    else
      match (item(items[0]), ParseEach(items[1..], item))
      case (Some(x), Some(xs)) =>
        assert forall i :: 1 <= i < |items| ==> items[i] == items[1..][i - 1] && ([x] + xs)[i] == xs[i - 1];
        Some([x] + xs)
      case (None, _) => None
      case (_, None) =>
        assert forall i :: 1 <= i < |items| ==> items[i] == items[1..][i - 1];
        None
  }

  function ArrayField<T>(fields: map<string, Json>, key: string, item: Json -> Option<T>): Option<seq<T>>
  {
    if key in fields && fields[key].JArray? then ParseEach(fields[key].items, item) else None
  }

  /** `feedbackSchema.parse`: every field present with its type, the score a
      number from 1 to 10; keys the schema does not name are dropped. */
  function ParseFeedback(j: Json): (r: Option<Feedback>)
    ensures r.Some? ==> 1.0 <= r.value.overallScore <= 10.0
    ensures r.Some? ==> j.JObject? && "overallScore" in j.fields && j.fields["overallScore"] == JNumber(r.value.overallScore)
  {
    if !j.JObject? then None
    else
      var f := j.fields;
      if !("overallScore" in f && f["overallScore"].JNumber?) then None
      else
        var score := f["overallScore"].n;
        if score < 1.0 || score > 10.0 then None
        else
          match (StringField(f, "finalOffer"), StringField(f, "targetSalary"), StringField(f, "summary"),
                 ArrayField(f, "strengths", ParseStrength), ArrayField(f, "weaknesses", ParseWeakness),
                 ArrayField(f, "tips", ParseString))
          case (Some(offer), Some(target), Some(summary), Some(ss), Some(ws), Some(ts)) =>
            Some(Feedback(score, offer, target, summary, ss, ws, ts))
          case _ => None
  }

  function StrengthJson(s: Strength): Json
  {
    JObject(map["point" := JString(s.point), "quote" := JString(s.quote)])
  }

  function WeaknessJson(w: Weakness): Json
  {
    JObject(map["point" := JString(w.point), "quote" := JString(w.quote), "suggestion" := JString(w.suggestion)])
  }

  function StringJson(t: string): Json
  {
    JString(t)
  }

  /** A JSON array holding the JSON form of each element. */
  function EachJson<T>(xs: seq<T>, toJson: T -> Json): (r: seq<Json>)
    ensures |r| == |xs|
  {
    seq(|xs|, i requires 0 <= i < |xs| => toJson(xs[i]))
  }

  /** The JSON form of a feedback object, one key per schema field. */
  function FeedbackJson(fb: Feedback): Json
  {
    JObject(map[
      "overallScore" := JNumber(fb.overallScore),
      "finalOffer" := JString(fb.finalOffer),
      "targetSalary" := JString(fb.targetSalary),
      "summary" := JString(fb.summary),
      "strengths" := JArray(EachJson(fb.strengths, StrengthJson)),
      "weaknesses" := JArray(EachJson(fb.weaknesses, WeaknessJson)),
      "tips" := JArray(EachJson(fb.tips, StringJson))
    ])
  }

  lemma {:induction false} ParseEachRoundTrip<T>(xs: seq<T>, toJson: T -> Json, item: Json -> Option<T>)
    requires forall x :: item(toJson(x)) == Some(x)
    ensures ParseEach(EachJson(xs, toJson), item) == Some(xs)
  {
    var js := EachJson(xs, toJson);
    if xs != [] {
      assert js[1..] == EachJson(xs[1..], toJson);
      ParseEachRoundTrip(xs[1..], toJson, item);
      assert [xs[0]] + xs[1..] == xs;
    }
  }

  /** What the schema reads from the string keys of a feedback object's JSON form. */
  lemma FeedbackJsonScalars(fb: Feedback)
    ensures var f := FeedbackJson(fb).fields;
      && "overallScore" in f && f["overallScore"] == JNumber(fb.overallScore)
      && StringField(f, "finalOffer") == Some(fb.finalOffer)
      && StringField(f, "targetSalary") == Some(fb.targetSalary)
      && StringField(f, "summary") == Some(fb.summary)
  {
  }

  /** What the schema reads from the array keys of a feedback object's JSON form. */
  lemma FeedbackJsonArrays(fb: Feedback)
    ensures var f := FeedbackJson(fb).fields;
      && ArrayField(f, "strengths", ParseStrength) == Some(fb.strengths)
      && ArrayField(f, "weaknesses", ParseWeakness) == Some(fb.weaknesses)
      && ArrayField(f, "tips", ParseString) == Some(fb.tips)
  {
    var f := FeedbackJson(fb).fields;
    ArrayFieldRoundTrip(f, "strengths", fb.strengths, StrengthJson, ParseStrength);
    ArrayFieldRoundTrip(f, "weaknesses", fb.weaknesses, WeaknessJson, ParseWeakness);
    ArrayFieldRoundTrip(f, "tips", fb.tips, StringJson, ParseString);
  }

  /** An array key holding the JSON forms of `xs` reads back as `xs`. */
  lemma ArrayFieldRoundTrip<T>(f: map<string, Json>, key: string, xs: seq<T>, toJson: T -> Json, item: Json -> Option<T>)
    requires key in f && f[key] == JArray(EachJson(xs, toJson))
    requires forall x :: item(toJson(x)) == Some(x)
    ensures ArrayField(f, key, item) == Some(xs)
  {
    ParseEachRoundTrip(xs, toJson, item);
  }

  /** A well-shaped feedback object passes the schema exactly when its score
      lies in [1, 10], and then it comes back unchanged, whatever the number
      of strengths, weaknesses and tips. */
  lemma FeedbackRoundTrip(fb: Feedback)
    ensures ParseFeedback(FeedbackJson(fb)).Some? <==> 1.0 <= fb.overallScore <= 10.0
    ensures 1.0 <= fb.overallScore <= 10.0 ==> ParseFeedback(FeedbackJson(fb)) == Some(fb)
  {
    FeedbackJsonScalars(fb);
    FeedbackJsonArrays(fb);
  }
}

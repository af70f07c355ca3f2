/** The practice page: the scenario form, the persona table, the text shown
    for each chat message, the synthetic opening message and the guard on
    sending a chat message. */
module Practice {
  import opened Strings
  import opened Wrappers
  import Salary

  /** What the form hands to the chat: the parameters of one practice session. */
  datatype Scenario = Scenario(
    role: string,
    targetSalary: string,
    industry: string,
    companySize: string,
    experience: string,
    persona: string)

  // ---- persona table ----

  /** `labelText` is the persona's `label` (a reserved word in Dafny). */
  datatype Persona = Persona(id: string, labelText: string, description: string)

  /** The counterparts the form offers, in the order it lists them. */
  const NegotiationPersonas: seq<Persona> := [
    Persona("friendly-recruiter", "Friendly Recruiter",
      "Warm and helpful, but still has a budget to stick to. A good starting point."),
    Persona("tough-hiring-manager", "Tough Hiring Manager",
      "Direct and firm. Will push back hard on your number and use internal equity arguments."),
    Persona("hr-budget-holder", "HR Budget Holder",
      "The classic \"that's outside our budget\" persona. Will test your ability to hold firm.")
  ]

  const DefaultPersonaLabel := "Recruiter"

  /** `Array.prototype.find` on persona ids: the first entry whose id is `id`. */
  function FindPersona(ps: seq<Persona>, id: string): (r: Option<Persona>)
    ensures r.None? <==> forall i :: 0 <= i < |ps| ==> ps[i].id != id
    ensures r.Some? ==> exists i :: 0 <= i < |ps| && ps[i] == r.value && ps[i].id == id
                                     && forall j :: 0 <= j < i ==> ps[j].id != id
  {
    if ps == [] then None
    else if ps[0].id == id then Some(ps[0])
    else
      var r := FindPersona(ps[1..], id);
      assert forall i :: 1 <= i < |ps| ==> ps[i] == ps[1..][i - 1];
      r
  }

  /** The chat header's name for the counterpart: the label of the persona the
      scenario names, "Recruiter" when it names none. */
  function PersonaLabel(persona: string): string
  {
    match FindPersona(NegotiationPersonas, persona)
    case Some(p) => p.labelText
    case None => DefaultPersonaLabel
  }

  /** Each listed persona is shown under its own label; any other id is shown
      as "Recruiter", and only such ids are. */
  lemma PersonaLabelSpec(persona: string)
    ensures forall i :: 0 <= i < |NegotiationPersonas| && NegotiationPersonas[i].id == persona ==>
              PersonaLabel(persona) == NegotiationPersonas[i].labelText
    ensures PersonaLabel(persona) == DefaultPersonaLabel <==>
              forall i :: 0 <= i < |NegotiationPersonas| ==> NegotiationPersonas[i].id != persona
  {
    var ps := NegotiationPersonas;
    assert ps[0].id == "friendly-recruiter" && ps[1].id == "tough-hiring-manager" && ps[2].id == "hr-budget-holder";
    assert ps[0].id != ps[1].id && ps[0].id != ps[2].id && ps[1].id != ps[2].id;
    assert ps[0].labelText != DefaultPersonaLabel && ps[1].labelText != DefaultPersonaLabel && ps[2].labelText != DefaultPersonaLabel;
  }

  // ---- messages and the text shown for them ----

  /** One part of a chat message; `kind` is the part's `type`. */
  datatype Part = Part(kind: string, text: Option<string>)

  datatype UiMessage = UiMessage(id: string, role: string, parts: seq<Part>)

  /** `parts.filter(part => part.type === "text")` */
  function TextParts(parts: seq<Part>): (r: seq<Part>)
    ensures forall i :: 0 <= i < |r| ==> r[i].kind == "text"
  {
    if parts == [] then []
    else (if parts[0].kind == "text" then [parts[0]] else []) + TextParts(parts[1..])
  }

  /** `xs.join("")` where a missing entry joins as the empty string. This is
      `Strings.Join` with the empty separator, taken over `Option`s so that an
      undefined `text` joins as "" the way JavaScript's `join` makes it. */
  function JoinTexts(xs: seq<Option<string>>): string
  {
    if xs == [] then ""
    else (match xs[0] case Some(t) => t case None => "") + JoinTexts(xs[1..])
  }

  /** `parts.map(part => part.text)` */
  function TextsOf(parts: seq<Part>): (r: seq<Option<string>>)
    ensures |r| == |parts| && forall i :: 0 <= i < |parts| ==> r[i] == parts[i].text
  {
    seq(|parts|, i requires 0 <= i < |parts| => parts[i].text)
  }

  /** `getTextFromMessage`: filter the text parts, take their `text`, join them. */
  function GetTextFromMessage(parts: seq<Part>): string
  {
    JoinTexts(TextsOf(TextParts(parts)))
  }

  /** What one part adds to the message text. */
  function Contribution(p: Part): string
  {
    if p.kind == "text" then (match p.text case Some(t) => t case None => "") else ""
  }

  /** Reference reading of the message text: part by part, in order, each
      text part adding its text and every other part adding nothing. */
  function ConcatContributions(parts: seq<Part>): string
  {
    if parts == [] then "" else Contribution(parts[0]) + ConcatContributions(parts[1..])
  }

  lemma {:induction false} TextPartsAppend(a: seq<Part>, b: seq<Part>)
    ensures TextParts(a + b) == TextParts(a) + TextParts(b)
  {
    if a == [] {
      assert a + b == b;
    } else {
      assert (a + b)[1..] == a[1..] + b;
      TextPartsAppend(a[1..], b);
    }
  }

  lemma {:induction false} JoinTextsAppend(a: seq<Option<string>>, b: seq<Option<string>>)
    ensures JoinTexts(a + b) == JoinTexts(a) + JoinTexts(b)
  {
    if a == [] {
      assert a + b == b;
    } else {
      assert (a + b)[1..] == a[1..] + b;
      JoinTextsAppend(a[1..], b);
    }
  }

  /** Appending parts appends their text. */
  lemma GetTextAppend(a: seq<Part>, b: seq<Part>)
    ensures GetTextFromMessage(a + b) == GetTextFromMessage(a) + GetTextFromMessage(b)
  {
    TextPartsAppend(a, b);
    var ta, tb := TextParts(a), TextParts(b);
    assert TextsOf(ta + tb) == TextsOf(ta) + TextsOf(tb);
    JoinTextsAppend(TextsOf(ta), TextsOf(tb));
  }

  /** A single part's text is its contribution. */
  lemma GetTextSingle(p: Part)
    ensures GetTextFromMessage([p]) == Contribution(p)
  {
    var tp := TextParts([p]);
    assert [p][1..] == [];
    assert TextParts([]) == [];
    assert tp == (if p.kind == "text" then [p] else []) + TextParts([p][1..]);
    if p.kind == "text" {
      assert tp == [p];
      assert TextsOf(tp) == [p.text];
      assert [p.text][1..] == [];
      assert JoinTexts([p.text]) == Contribution(p);
    } else {
      assert tp == [];
      assert TextsOf(tp) == [];
    }
  }

  /** The message text is the in-order concatenation of the `text` of the
      parts whose type is "text"; other parts contribute nothing. */
  lemma {:induction false} GetTextIsConcatenation(parts: seq<Part>)
    ensures GetTextFromMessage(parts) == ConcatContributions(parts)
  {
    if parts != [] {
      GetTextIsConcatenation(parts[1..]);
      assert parts == [parts[0]] + parts[1..];
      GetTextAppend([parts[0]], parts[1..]);
      GetTextSingle(parts[0]);
    }
  }

  // ---- the rendered transcript ----

  /** One chat bubble: which message it shows, whether it is right-aligned
      (the candidate's own), the header line, and the text. */
  datatype Bubble = Bubble(index: nat, fromCandidate: bool, header: Option<string>, text: string)

  function BubbleFor(ms: seq<UiMessage>, i: nat, personaLabel: string): Bubble
    requires i < |ms|
  {
    Bubble(i, ms[i].role == "user",
           if ms[i].role == "assistant" then Some(personaLabel) else None,
           GetTextFromMessage(ms[i].parts))
  }

  /** The bubbles for the first `n` messages: a message whose text is empty
      renders nothing; every other renders once, in list order. */
  function RenderMessages(ms: seq<UiMessage>, n: nat, personaLabel: string): (r: seq<Bubble>)
    requires n <= |ms|
    ensures forall j :: 0 <= j < |r| ==>
              r[j].index < n && r[j] == BubbleFor(ms, r[j].index, personaLabel) && r[j].text != ""
    ensures forall j, k :: 0 <= j < k < |r| ==> r[j].index < r[k].index
  {
    if n == 0 then []
    else
      var before := RenderMessages(ms, n - 1, personaLabel);
      var b := BubbleFor(ms, n - 1, personaLabel);
      if b.text == "" then before
      else
        var r := before + [b];
        assert forall j :: 0 <= j < |before| ==> r[j] == before[j];
        assert r[|before|] == b;
        r
  }

  /** Some bubble of `r` shows message `i`. */
  predicate Shows(r: seq<Bubble>, i: nat) {
    exists j :: 0 <= j < |r| && r[j].index == i
  }

  lemma ShowsLast(r: seq<Bubble>, b: Bubble)
    ensures Shows(r + [b], b.index)
  {
    assert (r + [b])[|r|] == b;
  }

  lemma ShowsAppend(r: seq<Bubble>, b: Bubble, i: nat)
    requires Shows(r, i)
    ensures Shows(r + [b], i)
  {
    var j :| 0 <= j < |r| && r[j].index == i;
    assert (r + [b])[j] == r[j];
  }

  /** Every message among the first `n` whose text is not empty is rendered. */
  lemma {:induction false} RenderMessagesComplete(ms: seq<UiMessage>, n: nat, personaLabel: string)
    requires n <= |ms|
    ensures forall i :: 0 <= i < n && GetTextFromMessage(ms[i].parts) != "" ==>
              Shows(RenderMessages(ms, n, personaLabel), i)
  {
    if n > 0 {
      RenderMessagesComplete(ms, n - 1, personaLabel);
      var before := RenderMessages(ms, n - 1, personaLabel);
      var b := BubbleFor(ms, n - 1, personaLabel);
      var r := RenderMessages(ms, n, personaLabel);
      if b.text != "" {
        assert r == before + [b];
        ShowsLast(before, b);
        forall i | 0 <= i < n - 1 && Shows(before, i)
          ensures Shows(r, i)
        {
          ShowsAppend(before, b, i);
        }
      } else {
        assert r == before;
      }
    }
  }

  // ---- the opening message ----

  function OpenerText(role: string): string
  {
    "Hi, I'm excited about the " + role + " opportunity. I'd love to discuss the compensation package."
  }

  /** The transcript the chat starts from: one synthetic candidate message. */
  function InitialMessages(s: Scenario): seq<UiMessage>
  {
    [UiMessage("system-start", "user", [Part("text", Some(OpenerText(s.role)))])]
  }

  /** The chat starts with exactly one message, from the candidate, whose text
      names the role; it is always rendered, as a right-aligned bubble. */
  lemma OpenerNamesRole(role: string)
    ensures GetTextFromMessage([Part("text", Some(OpenerText(role)))]) == OpenerText(role)
    ensures Occurs(role, OpenerText(role))
  {
    var p := Part("text", Some(OpenerText(role)));
    GetTextIsConcatenation([p]);
    assert ConcatContributions([p]) == Contribution(p) + ConcatContributions([]);
    var pre := "Hi, I'm excited about the ";
    ContainsAtMiddle(pre, role, " opportunity. I'd love to discuss the compensation package.");
    assert ContainsAt(OpenerText(role), |pre|, role);
  }

  /** The chat starts with exactly one message, from the candidate, whose text
      names the role; it is always rendered, as a right-aligned bubble. */
  lemma InitialTranscriptSpec(s: Scenario, personaLabel: string)
    ensures |InitialMessages(s)| == 1 && InitialMessages(s)[0].role == "user"
    ensures Occurs(s.role, GetTextFromMessage(InitialMessages(s)[0].parts))
    ensures RenderMessages(InitialMessages(s), 1, personaLabel)
              == [Bubble(0, true, None, OpenerText(s.role))]
  {
    var ms := InitialMessages(s);
    OpenerNamesRole(s.role);
    var b := BubbleFor(ms, 0, personaLabel);
    assert b == Bubble(0, true, None, OpenerText(s.role));
    assert b.text != "" by {
      assert |OpenerText(s.role)| > 0;
    }
    assert RenderMessages(ms, 0, personaLabel) == [];
  }

  // ---- the scenario form ----

  /** The form's `isFormValid`: a role and a salary that are not blank, and an
      industry, company size and experience level chosen. */
  predicate FormValid(role: string, industry: string, companySize: string,
                      experience: string, targetSalary: string)
  {
    HasNonWhitespace(role) && industry != "" && companySize != "" && experience != ""
    && HasNonWhitespace(targetSalary)
  }

  /** Because the salary field always holds the normalised form, it counts as
      filled exactly when what was typed into it had a digit. */
  lemma ValidityOfTypedSalary(role: string, industry: string, companySize: string,
                              experience: string, typed: string)
    ensures FormValid(role, industry, companySize, experience, Salary.NormaliseSalary(typed))
            <==> HasNonWhitespace(role) && industry != "" && companySize != "" && experience != ""
                 && exists k :: 0 <= k < |typed| && Salary.IsDigit(typed[k])
  {
    var stored := Salary.NormaliseSalary(typed);
    Salary.NormalisedEmptyIff(typed);
    if stored != "" {
      var raw := Salary.StripNonDigits(typed);
      Salary.GroupShape(Salary.Value(raw));
      assert Salary.IsDigit(stored[0]);
      assert !AllWhitespace(stored) by { assert !IsWhitespace(stored[0]); }
    }
  }

  /** The state of the setup form: one field per `useState` of the form. */
  class SetupForm {
    var role: string
    var industry: string
    var companySize: string
    var experience: string
    var persona: string
    var targetSalary: string

    constructor ()
      ensures role == "" && industry == "" && companySize == "" && experience == ""
      ensures persona == "friendly-recruiter" && targetSalary == ""
    {
      role, industry, companySize, experience := "", "", "", "";
      persona, targetSalary := "friendly-recruiter", "";
    }

    predicate IsValid()
      reads this
    {
      FormValid(role, industry, companySize, experience, targetSalary)
    }

    method SetRole(v: string)
      modifies this`role
      ensures role == v
    {
      role := v;
    }

    /** The salary input's `onChange`: store the normalised form of what was typed. */
    method TypeSalary(typed: string)
      modifies this`targetSalary
      ensures targetSalary == Salary.NormaliseSalary(typed)
      ensures targetSalary == "" <==> forall k :: 0 <= k < |typed| ==> !Salary.IsDigit(typed[k])
    {
      var raw := Salary.StripNonDigits(typed);
      if raw != [] {
        targetSalary := Salary.Group(Salary.Value(raw));
      } else {
        targetSalary := "";
      }
      Salary.NormalisedEmptyIff(typed);
    }

    method SetIndustry(v: string)
      modifies this`industry
      ensures industry == v
    {
      industry := v;
    }

    method SetCompanySize(v: string)
      modifies this`companySize
      ensures companySize == v
    {
      companySize := v;
    }

    method SetExperience(v: string)
      modifies this`experience
      ensures experience == v
    {
      experience := v;
    }

    method SetPersona(v: string)
      modifies this`persona
      ensures persona == v
    {
      persona := v;
    }

    /** The form's `onSubmit`: hands the scenario to `onStart` only when the
        form is valid; an invalid form starts nothing. */
    method Submit() returns (started: Option<Scenario>)
      ensures started.Some? <==> FormValid(role, industry, companySize, experience, targetSalary)
      ensures started.Some? ==>
                started.value == Scenario(role, targetSalary, industry, companySize, experience, persona)
    {
      if !FormValid(role, industry, companySize, experience, targetSalary) {
        return None;
      }
      started := Some(Scenario(role, targetSalary, industry, companySize, experience, persona));
    }
  }

  // ---- sending a chat message ----

  /** The chat hook's request status. */
  datatype ChatStatus = Submitted | Streaming | Ready | Error

  /** `isActive`: a request is in flight. */
  predicate IsActive(status: ChatStatus) {
    status == Streaming || status == Submitted
  }

  /** What `handleSend` hands to `sendMessage` for this input and status, if anything. */
  function SendDecision(input: string, status: ChatStatus): Option<string>
  {
    var text := Trim(input);
    if text == "" || IsActive(status) then None else Some(text)
  }

  /** A send happens exactly when no request is active and the input is not
      blank, and what is sent is the input trimmed: non-empty and with nothing
      left to trim. */
  lemma SendDecisionSpec(input: string, status: ChatStatus)
    ensures SendDecision(input, status).None? <==> AllWhitespace(input) || IsActive(status)
    ensures SendDecision(input, status).Some? ==>
              var t := SendDecision(input, status).value;
              t == Trim(input) && t != "" && Trim(t) == t
  {
    var text := Trim(input);
    TrimIdempotent(input);
    if text != "" && !IsActive(status) {
      assert SendDecision(input, status) == Some(text);
    }
  }

  /** A non-blank, trimmed text appended to a log of such texts keeps it so. */
  lemma AllTrimmedAppend(sent: seq<string>, t: string)
    requires forall i :: 0 <= i < |sent| ==> sent[i] != "" && Trim(sent[i]) == sent[i]
    requires t != "" && Trim(t) == t
    ensures forall i :: 0 <= i < |sent + [t]| ==> (sent + [t])[i] != "" && Trim((sent + [t])[i]) == (sent + [t])[i]
  {
    forall i | 0 <= i < |sent + [t]|
      ensures (sent + [t])[i] != "" && Trim((sent + [t])[i]) == (sent + [t])[i]
    {
      if i < |sent| {
        assert (sent + [t])[i] == sent[i];
      }
    }
  }

  /** The chat composer: the input box's text and the messages handed to
      `sendMessage`, in order. */
  class ChatComposer {
    var input: string
    var sent: seq<string>

    /** Everything sent so far was a non-blank, trimmed text. */
    ghost predicate Valid()
      reads this
    {
      forall i :: 0 <= i < |sent| ==> sent[i] != "" && Trim(sent[i]) == sent[i]
    }

    constructor ()
      ensures Valid() && input == "" && sent == []
    {
      input, sent := "", [];
    }

    method SetInput(v: string)
      requires Valid()
      modifies this`input
      ensures Valid() && input == v
    {
      input := v;
    }

    /** `handleSend`: with a blank input or an active request nothing happens;
        otherwise the input is cleared and its trimmed text is sent once. */
    method HandleSend(status: ChatStatus)
      requires Valid()
      modifies this
      ensures Valid()
      ensures match SendDecision(old(input), status)
              case None => input == old(input) && sent == old(sent)
              case Some(t) => input == "" && sent == old(sent) + [t]
    {
      var text := Trim(input);
      if text == "" || IsActive(status) {
        return;
      }
      SendDecisionSpec(input, status);
      AllTrimmedAppend(sent, text);
      input := "";
      sent := sent + [text];
    }
  }

  /** Two sends in a row with no typing between them send at most one message:
      the first clears the input, so the second finds it blank. */
  method SendTwice(c: ChatComposer, first: ChatStatus, second: ChatStatus)
    requires c.Valid()
    modifies c
    ensures c.Valid()
    ensures |c.sent| <= |old(c.sent)| + 1
    ensures SendDecision(old(c.input), first).Some? ==>
              c.input == "" && c.sent == old(c.sent) + [SendDecision(old(c.input), first).value]
  {
    c.HandleSend(first);
    c.HandleSend(second);
  }
}

/** The chat endpoint's system prompt: a fixed template over the scenario
    fields and the behaviour text of the counterpart persona. */
module ChatRoute {
  import opened Strings
  import opened Practice

  const FriendlyRecruiterInstructions: string :=
    "You are a friendly, warm recruiter. You genuinely like the candidate and want them on the team. However, you still have a budget to work within and company policies to follow. You'll push back gently — using phrases like \"I hear you, but...\" and \"I'd love to make that work, let me see what I can do.\" You occasionally give ground on small things to build goodwill, but you always try to anchor below the candidate's ask. You mention how great the benefits and culture are as a way to justify a lower base."

  const ToughHiringManagerInstructions: string :=
    "You are a direct, no-nonsense hiring manager. You've hired many people and you don't get pushed around easily. You use internal equity arguments (\"we need to keep things fair across the team\"), you reference market data that supports a lower number, and you're comfortable with silence. You push back firmly: \"That's above what we've budgeted for this level.\" You respect candidates who hold firm and back up their number with data, but you don't give in easily. You sometimes use the \"take it or leave it\" approach toward the end."

  const HrBudgetHolderInstructions: string :=
    "You are an HR compensation specialist with a fixed budget. Your go-to phrase is \"that's outside our approved range for this role.\" You reference pay bands, internal equity, and company policy frequently. You're polite but firm, and you often deflect by talking about total compensation (equity, bonus, benefits) rather than base salary. You use phrases like \"I understand your expectations, but our hands are tied by the approved range.\" You might offer a signing bonus or earlier review as a compromise, but you rarely move more than 5-10% on base."

  const DefaultPersonaId: string := "friendly-recruiter"

  /** `personaInstructions`: persona id to the behaviour the counterpart plays. */
  const PersonaInstructions: map<string, string> := map[
    "friendly-recruiter" := FriendlyRecruiterInstructions,
    "tough-hiring-manager" := ToughHiringManagerInstructions,
    "hr-budget-holder" := HrBudgetHolderInstructions
  ]

  const PromptIntro: string :=
    "You are playing the role of a counterpart in a salary negotiation simulation. This is a practice tool for the candidate — your job is to create a realistic, challenging negotiation experience."

  /** Rules 1 to 9, one per line. */
  const Rules: string :=
      "1. Stay in character at all times. Never break the fourth wall or acknowledge this is a simulation.\n"
    + "2. Start by extending a verbal offer that is 10-20% below the candidate's target salary. Frame it positively (\"We're excited to offer you...\").\n"
    + "3. When the candidate counters, push back using realistic objections appropriate to your persona.\n"
    + "4. Use common real-world negotiation tactics: anchoring, silence, urgency (\"We need an answer by Friday\"), competing priorities (\"We have other strong candidates\").\n"
    + "5. Be responsive to good negotiation tactics from the candidate. If they provide market data, reference competing offers, or demonstrate their unique value — acknowledge it subtly and potentially move your position slightly.\n"
    + "6. Keep responses concise — 2-4 sentences typically. This should feel like a real conversation, not a monologue.\n"
    + "7. Never reveal the \"range\" or \"budget\" unless the candidate specifically asks and pushes for it, and even then, give a range that anchors low.\n"
    + "8. The conversation should feel natural and human. Use contractions, natural pauses, and realistic phrasing.\n"
    + "9. Do NOT use markdown formatting, bullet points, or lists. Speak naturally as a person would in a conversation."

  /** `personaInstructions[persona] || personaInstructions["friendly-recruiter"]`,
      reading only the table's own entries: a persona id outside the table
      (unknown, empty, or "undefined" for a missing one) falls back to the
      friendly recruiter without an error. */
  function ResolvePersona(persona: string): string
  {
    if persona in PersonaInstructions && PersonaInstructions[persona] != "" then PersonaInstructions[persona]
    else PersonaInstructions[DefaultPersonaId]
  }

  /** The three behaviour texts are told apart by their lengths. */
  lemma InstructionsDistinct()
    ensures FriendlyRecruiterInstructions != ToughHiringManagerInstructions
    ensures FriendlyRecruiterInstructions != HrBudgetHolderInstructions
    ensures ToughHiringManagerInstructions != HrBudgetHolderInstructions
  {
    assert |FriendlyRecruiterInstructions| == 506;
    assert |ToughHiringManagerInstructions| == 531;
    assert |HrBudgetHolderInstructions| == 549;
  }

  /** Each known persona id gets its own behaviour text, and only that id does;
      every other id gets the friendly recruiter's. */
  lemma ResolvePersonaSpec(persona: string)
    ensures ResolvePersona(persona) == ToughHiringManagerInstructions <==> persona == "tough-hiring-manager"
    ensures ResolvePersona(persona) == HrBudgetHolderInstructions <==> persona == "hr-budget-holder"
    ensures (ResolvePersona(persona) == FriendlyRecruiterInstructions)
              <==> persona != "tough-hiring-manager" && persona != "hr-budget-holder"
  {
    InstructionsDistinct();
    assert FriendlyRecruiterInstructions != "" && ToughHiringManagerInstructions != ""
      && HrBudgetHolderInstructions != "";
  }

  /** Every persona the setup form offers has its own behaviour text here, so
      no choice made through the form reaches the fallback. */
  lemma FormPersonasHaveInstructions()
    ensures forall i :: 0 <= i < |NegotiationPersonas| ==>
              NegotiationPersonas[i].id in PersonaInstructions
              && ResolvePersona(NegotiationPersonas[i].id) == PersonaInstructions[NegotiationPersonas[i].id]
  {
    assert NegotiationPersonas[0].id == "friendly-recruiter";
    assert NegotiationPersonas[1].id == "tough-hiring-manager";
    assert NegotiationPersonas[2].id == "hr-budget-holder";
  }

  const ScenarioHeader: string := "\n\nSCENARIO:\n"
  const PersonaHeader: string := "\nYOUR PERSONA:\n"
  const RulesHeader: string := "\n\nRULES:\n"

  function RoleLine(s: Scenario): string { "- The candidate is interviewing for: " + s.role + "\n" }
  function IndustryLine(s: Scenario): string { "- Industry: " + s.industry + "\n" }
  function CompanySizeLine(s: Scenario): string { "- Company size: " + s.companySize + "\n" }
  function ExperienceLine(s: Scenario): string { "- Candidate experience level: " + s.experience + "\n" }
  function SalaryLine(s: Scenario): string { "- Their target salary: $" + s.targetSalary + "\n" }

  /** The template literal of `buildSystemPrompt`, over its fixed texts. */
  function PromptTemplate(intro: string, s: Scenario, persona: string, rules: string): string
  {
    intro + ScenarioHeader
    + RoleLine(s) + IndustryLine(s) + CompanySizeLine(s) + ExperienceLine(s) + SalaryLine(s)
    + PersonaHeader + persona
    + RulesHeader + rules
  }

  /** `buildSystemPrompt`: the counterpart's instructions for one scenario. */
  function BuildSystemPrompt(s: Scenario): string
  {
    PromptTemplate(PromptIntro, s, ResolvePersona(s.persona), Rules)
  }

  lemma ContainsAtExtend(a: string, b: string, k: int, x: string)
    requires ContainsAt(a, k, x)
    ensures ContainsAt(a + b, k, x)
  {
    assert (a + b)[k..k + |x|] == a[k..k + |x|];
  }

  lemma ContainsAtMiddle3(a: string, x: string, y: string, z: string)
    ensures ContainsAt(a + x + y + z, |a|, x + y + z)
  {
    assert a + x + y + z == a + (x + y + z);
    ContainsAtMiddle(a, x + y + z, []);
    assert a + (x + y + z) + [] == a + (x + y + z);
  }

  /** Every piece of the template that starts at offset `k` of a prefix is
      still there once the remaining pieces are appended. */
  lemma TemplatePieceKept(intro: string, s: Scenario, desc: string, rules: string,
                          prefix: string, k: int, x: string)
    requires ContainsAt(prefix, k, x)
    requires prefix == intro + ScenarioHeader + RoleLine(s)
          || prefix == intro + ScenarioHeader + RoleLine(s) + IndustryLine(s)
          || prefix == intro + ScenarioHeader + RoleLine(s) + IndustryLine(s) + CompanySizeLine(s)
          || prefix == intro + ScenarioHeader + RoleLine(s) + IndustryLine(s) + CompanySizeLine(s)
                       + ExperienceLine(s)
          || prefix == intro + ScenarioHeader + RoleLine(s) + IndustryLine(s) + CompanySizeLine(s)
                       + ExperienceLine(s) + SalaryLine(s)
    ensures ContainsAt(PromptTemplate(intro, s, desc, rules), k, x)
  {
    var p1 := intro + ScenarioHeader + RoleLine(s);
    var p2 := p1 + IndustryLine(s);
    var p3 := p2 + CompanySizeLine(s);
    var p4 := p3 + ExperienceLine(s);
    var p5 := p4 + SalaryLine(s);
    if prefix == p1 { ContainsAtExtend(p1, IndustryLine(s), k, x); }
    if prefix == p1 || prefix == p2 { ContainsAtExtend(p2, CompanySizeLine(s), k, x); }
    if prefix == p1 || prefix == p2 || prefix == p3 { ContainsAtExtend(p3, ExperienceLine(s), k, x); }
    if prefix != p5 { ContainsAtExtend(p4, SalaryLine(s), k, x); }
    var p6 := p5 + PersonaHeader;
    ContainsAtExtend(p5, PersonaHeader, k, x);
    var p7 := p6 + desc;
    ContainsAtExtend(p6, desc, k, x);
    var p8 := p7 + RulesHeader;
    ContainsAtExtend(p7, RulesHeader, k, x);
    ContainsAtExtend(p8, rules, k, x);
  }

  lemma TemplateEmbedsScenario(intro: string, s: Scenario, desc: string, rules: string)
    ensures Occurs(RoleLine(s), PromptTemplate(intro, s, desc, rules))
    ensures Occurs(IndustryLine(s), PromptTemplate(intro, s, desc, rules))
    ensures Occurs(CompanySizeLine(s), PromptTemplate(intro, s, desc, rules))
    ensures Occurs(ExperienceLine(s), PromptTemplate(intro, s, desc, rules))
    ensures Occurs(SalaryLine(s), PromptTemplate(intro, s, desc, rules))
  {
    var p := PromptTemplate(intro, s, desc, rules);
    var p0 := intro + ScenarioHeader;
    var p1 := p0 + RoleLine(s);
    var p2 := p1 + IndustryLine(s);
    var p3 := p2 + CompanySizeLine(s);
    var p4 := p3 + ExperienceLine(s);
    var p5 := p4 + SalaryLine(s);
    ContainsAtMiddle(p0, RoleLine(s), []);
    assert p0 + RoleLine(s) + [] == p1;
    TemplatePieceKept(intro, s, desc, rules, p1, |p0|, RoleLine(s));
    ContainsAtMiddle(p1, IndustryLine(s), []);
    assert p1 + IndustryLine(s) + [] == p2;
    TemplatePieceKept(intro, s, desc, rules, p2, |p1|, IndustryLine(s));
    ContainsAtMiddle(p2, CompanySizeLine(s), []);
    assert p2 + CompanySizeLine(s) + [] == p3;
    TemplatePieceKept(intro, s, desc, rules, p3, |p2|, CompanySizeLine(s));
    ContainsAtMiddle(p3, ExperienceLine(s), []);
    assert p3 + ExperienceLine(s) + [] == p4;
    TemplatePieceKept(intro, s, desc, rules, p4, |p3|, ExperienceLine(s));
    ContainsAtMiddle(p4, SalaryLine(s), []);
    assert p4 + SalaryLine(s) + [] == p5;
    TemplatePieceKept(intro, s, desc, rules, p5, |p4|, SalaryLine(s));
    assert ContainsAt(p, |p0|, RoleLine(s)) && ContainsAt(p, |p1|, IndustryLine(s))
      && ContainsAt(p, |p2|, CompanySizeLine(s)) && ContainsAt(p, |p3|, ExperienceLine(s))
      && ContainsAt(p, |p4|, SalaryLine(s));
  }

  /** The SCENARIO block holds each field verbatim on its own labelled line,
      the salary prefixed by "$". */
  lemma PromptEmbedsScenario(s: Scenario)
    ensures Occurs("- The candidate is interviewing for: " + s.role + "\n", BuildSystemPrompt(s))
    ensures Occurs("- Industry: " + s.industry + "\n", BuildSystemPrompt(s))
    ensures Occurs("- Company size: " + s.companySize + "\n", BuildSystemPrompt(s))
    ensures Occurs("- Candidate experience level: " + s.experience + "\n", BuildSystemPrompt(s))
    ensures Occurs("- Their target salary: $" + s.targetSalary + "\n", BuildSystemPrompt(s))
  {
    TemplateEmbedsScenario(PromptIntro, s, ResolvePersona(s.persona), Rules);
  }

  lemma TemplateEmbedsPersona(intro: string, s: Scenario, desc: string, rules: string)
    ensures Occurs(PersonaHeader + desc + RulesHeader, PromptTemplate(intro, s, desc, rules))
  {
    var p := PromptTemplate(intro, s, desc, rules);
    var p5 := intro + ScenarioHeader + RoleLine(s) + IndustryLine(s) + CompanySizeLine(s)
              + ExperienceLine(s) + SalaryLine(s);
    ContainsAtMiddle3(p5, PersonaHeader, desc, RulesHeader);
    ContainsAtExtend(p5 + PersonaHeader + desc + RulesHeader, rules, |p5|, PersonaHeader + desc + RulesHeader);
    assert ContainsAt(p, |p5|, PersonaHeader + desc + RulesHeader);
  }

  /** The resolved behaviour text follows the "YOUR PERSONA:" line directly
      and runs up to the RULES heading. */
  lemma PromptEmbedsPersona(s: Scenario)
    ensures Occurs("\nYOUR PERSONA:\n" + ResolvePersona(s.persona) + "\n\nRULES:\n", BuildSystemPrompt(s))
  {
    TemplateEmbedsPersona(PromptIntro, s, ResolvePersona(s.persona), Rules);
  }

  lemma TemplateFrame(intro: string, s: Scenario, desc: string, rules: string)
    ensures ContainsAt(PromptTemplate(intro, s, desc, rules), 0, intro + ScenarioHeader)
    ensures ContainsAt(PromptTemplate(intro, s, desc, rules),
                       |PromptTemplate(intro, s, desc, rules)| - |RulesHeader + rules|, RulesHeader + rules)
  {
    TemplateOpens(intro, s, desc, rules);
    var p7 := intro + ScenarioHeader + RoleLine(s) + IndustryLine(s) + CompanySizeLine(s) + ExperienceLine(s)
              + SalaryLine(s) + PersonaHeader + desc;
    ContainsAtTail2(p7, RulesHeader, rules);
  }

  lemma TemplateOpens(intro: string, s: Scenario, desc: string, rules: string)
    ensures ContainsAt(PromptTemplate(intro, s, desc, rules), 0, intro + ScenarioHeader)
  {
    var p0 := intro + ScenarioHeader;
    ContainsAtMiddle([], p0, RoleLine(s));
    assert [] + p0 + RoleLine(s) == p0 + RoleLine(s);
    TemplatePieceKept(intro, s, desc, rules, p0 + RoleLine(s), 0, p0);
  }

  lemma ContainsAtTail2(a: string, x: string, y: string)
    ensures ContainsAt(a + x + y, |a|, x + y)
  {
    assert (a + x + y)[|a|..] == x + y;
  }

  /** Every prompt opens with the same introduction and ends with the same
      RULES block: only the scenario and persona lines vary. */
  lemma PromptFrame(s: Scenario)
    ensures ContainsAt(BuildSystemPrompt(s), 0, PromptIntro + ScenarioHeader)
    ensures ContainsAt(BuildSystemPrompt(s), |BuildSystemPrompt(s)| - |RulesHeader + Rules|, RulesHeader + Rules)
  {
    TemplateFrame(PromptIntro, s, ResolvePersona(s.persona), Rules);
  }

  /** The prompt depends on the persona only through the behaviour text it
      resolves to: an unknown persona id gives exactly the prompt of the
      friendly recruiter. */
  lemma UnknownPersonaPromptIsFriendly(s: Scenario)
    requires s.persona !in PersonaInstructions
    ensures BuildSystemPrompt(s) == BuildSystemPrompt(s.(persona := DefaultPersonaId))
  {
  }

  // ---- the lookup as the source writes it ----

  /** What reading a key of the `personaInstructions` object literal gives in
      JavaScript: one of its own strings, a member every plain object inherits
      from `Object.prototype`, or `undefined`. */
  datatype JsValue = JsString(s: string) | JsInherited(key: string) | JsUndefined

  /** The keys every plain object inherits from `Object.prototype`. */
  const ObjectPrototypeKeys: set<string> := {
    "constructor", "__proto__", "__defineGetter__", "__defineSetter__",
    "__lookupGetter__", "__lookupSetter__", "hasOwnProperty", "isPrototypeOf",
    "propertyIsEnumerable", "toLocaleString", "toString", "valueOf"
  }

  function LookupAsWritten(key: string): JsValue
  {
    if key in PersonaInstructions then JsString(PersonaInstructions[key])
    else if key in ObjectPrototypeKeys then JsInherited(key)
    else JsUndefined
  }

  /** JavaScript truthiness of the values above: inherited members are
      functions or `Object.prototype` itself, all truthy. */
  predicate Truthy(v: JsValue) {
    match v
    case JsString(t) => t != ""
    case JsInherited(_) => true
    case JsUndefined => false
  }

  /** `personaInstructions[scenario.persona] || personaInstructions["friendly-recruiter"]`
      exactly as written. */
  function ResolvePersonaAsWritten(persona: string): JsValue
  {
    var v := LookupAsWritten(persona);
    if Truthy(v) then v else LookupAsWritten(DefaultPersonaId)
  }

  /** As written, a persona id naming an inherited member such as "toString"
      or "constructor" skips the fallback: the prompt would embed that
      member's string form instead of any behaviour text. */
  lemma InheritedKeySkipsFallback(key: string)
    requires key in ObjectPrototypeKeys
    ensures ResolvePersonaAsWritten(key) == JsInherited(key)
    ensures ResolvePersonaAsWritten(key) != JsString(ResolvePersona(key))
  {
  }

  /** Off those twelve keys the lookup as written and `ResolvePersona` agree. */
  lemma AsWrittenAgreesElsewhere(persona: string)
    requires persona !in ObjectPrototypeKeys
    ensures ResolvePersonaAsWritten(persona) == JsString(ResolvePersona(persona))
  {
  }
}

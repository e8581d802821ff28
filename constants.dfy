/**
 * The scenario catalogue and the system instruction given to the simulated
 * customer, for both the text chat and the voice session.
 */
module Constants {
  import opened Types

  /** The four built-in scenarios, in the order the home page lists them. */
  function Scenarios(): (catalog: seq<Scenario>)
    ensures |catalog| == 4
    ensures forall i, j :: 0 <= i < j < |catalog| ==> catalog[i].id != catalog[j].id
    ensures forall i :: 0 <= i < |catalog| ==> |catalog[i].initialPrompt| > 0
    ensures forall i :: 0 <= i < |catalog| ==> catalog[i].role in {Host, Server, Manager}
    ensures catalog[0].id == "host-1" && catalog[1].id == "server-1"
         && catalog[2].id == "server-2" && catalog[3].id == "manager-1"
  {
    var catalog := [
      Scenario("host-1", HostTitle, HostDescription, Host, Medium, HostProfile, HostOpening),
      Scenario("server-1", AllergyTitle, AllergyDescription, Server, Hard, AllergyProfile, AllergyOpening),
      Scenario("server-2", UpsellTitle, UpsellDescription, Server, Easy, UpsellProfile, UpsellOpening),
      Scenario("manager-1", DisputeTitle, DisputeDescription, Manager, Hard, DisputeProfile, DisputeOpening)
    ];
    assert catalog[1].id[7] != catalog[2].id[7];
    catalog
  }

  const HostTitle := "The Impatient Walk-in"
  const HostDescription := "A customer arrives without a reservation during peak hour and is visibly upset about the wait."
  const HostProfile := "An impatient diner named Mr. Henderson who thinks he should be seated immediately."
  const HostOpening := "Hi, I've been standing here for 5 minutes. Why is nobody seating me? I can see empty tables over there!"

  const AllergyTitle := "The Allergy Mix-up"
  const AllergyDescription := "A guest receives a dish containing an ingredient they are allergic to, despite mentioning it earlier."
  const AllergyProfile := "A concerned parent whose child almost ate a nut-contaminated dish."
  const AllergyOpening := "Wait! I explicitly told you my son has a severe nut allergy. This salad has walnuts in it! How could this happen?"

  const UpsellTitle := "Upselling the Special"
  const UpsellDescription := "Encourage a group of indecisive diners to try the premium chef special and a bottle of wine."
  const UpsellProfile := "A group of four friends celebrating a birthday, open to suggestions."
  const UpsellOpening := "Everything looks so good, we just can't decide. What do you recommend for a special occasion?"

  const DisputeTitle := "Staff Dispute"
  const DisputeDescription := "Two servers are arguing in the kitchen area where guests might hear them."
  const DisputeProfile := "A fellow staff member who feels overwhelmed and unsupported."
  const DisputeOpening := "I can't work with Sarah anymore! She keeps stealing my tables and the manager does nothing about it!"

  /** The language named in the instruction: Spanish for the code "es", English for anything else. */
  function LanguageName(language: string): (name: string)
    ensures name == "Spanish" <==> language == "es"
    ensures name == "English" <==> language != "es"
    ensures |name| == 7
  {
    if language == "es" then "Spanish" else "English"
  }

  const PromptHead := "\nYou are acting as a customer in a restaurant training simulation. \nScenario: "
  const ProfileHead := "\nYour Profile: "
  const RoleHead := "\nStaff Role Being Trained: "
  const LanguageHead := "\nLanguage: "
  const Instructions :=
    "\n\nInstructions:\n"
    + "1. Stay in character. Do not break character.\n"
    + "2. Respond naturally to the staff member's attempts to handle the situation.\n"
    + "3. Be challenging but realistic.\n"
    + "4. If they do a great job, become more appeased. If they are rude or unhelpful, become more upset.\n"
    + "5. Keep responses concise (under 3 sentences) to maintain a conversational flow.\n"

  /** Where the language name starts in the instruction for `scenario`. */
  function LanguageOffset(scenario: Scenario): nat {
    |PromptHead| + |scenario.description| + |ProfileHead| + |scenario.customerProfile|
    + |RoleHead| + |scenario.role.Name()| + |LanguageHead|
  }

  /** A slice of `b` sits `|a|` further on in `a + b`. */
  lemma ShiftSlice(a: string, b: string, i: nat, j: nat)
    requires i <= j <= |b|
    ensures (a + b)[|a| + i..|a| + j] == b[i..j]
  {
  }

  /** The first `j` characters of `a + b` are those of `a`. */
  lemma LeadSlice(a: string, b: string, j: nat)
    requires j <= |a|
    ensures (a + b)[0..j] == a[..j]
  {
  }

  /** `b` sits right after `a` in `a + b + c`. */
  lemma MidSlice(a: string, b: string, c: string)
    ensures (a + b + c)[|a|..|a| + |b|] == b
  {
  }

  /** The four labels `h1`..`h4` stand in `s` where fields `x1`..`x3` leave them. */
  predicate LabelsAt(s: string, h1: string, x1: string, h2: string, x2: string, h3: string, x3: string, h4: string) {
    var p2 := |h1| + |x1|;
    var p3 := p2 + |h2| + |x2|;
    var p4 := p3 + |h3| + |x3|;
    && p4 + |h4| <= |s|
    && s[..|h1|] == h1
    && s[p2..p2 + |h2|] == h2
    && s[p3..p3 + |h3|] == h3
    && s[p4..p4 + |h4|] == h4
  }

  /** In the text `Labelled` builds, every label stands where `LabelsAt` says. */
  lemma LabelsOfLabelled(h1: string, x1: string, h2: string, x2: string, h3: string, x3: string,
                         h4: string, x4: string, tail: string)
    ensures LabelsAt(h1 + ((x1 + h2) + ((x2 + h3) + ((x3 + h4) + (x4 + tail)))), h1, x1, h2, x2, h3, x3, h4)
  {
    var g1, g2, g3 := x1 + h2, x2 + h3, x3 + h4;
    var r4 := x4 + tail;
    var r3 := g3 + r4;
    var r2 := g2 + r3;
    var r1 := g1 + r2;
    LeadSlice(h1, r1, |h1|);
    MidSlice(x1, h2, r2);
    ShiftSlice(h1, r1, |x1|, |x1| + |h2|);
    MidSlice(x2, h3, r3);
    ShiftSlice(g1, r2, |x2|, |x2| + |h3|);
    ShiftSlice(h1, r1, |g1| + |x2|, |g1| + |x2| + |h3|);
    MidSlice(x3, h4, r4);
    ShiftSlice(g2, r3, |x3|, |x3| + |h4|);
    ShiftSlice(g1, r2, |g2| + |x3|, |g2| + |x3| + |h4|);
    ShiftSlice(h1, r1, |g1| + |g2| + |x3|, |g1| + |g2| + |x3| + |h4|);
  }

  /** Four labelled fields followed by a tail; each field can be found after its label. */
  function Labelled(h1: string, x1: string, h2: string, x2: string, h3: string, x3: string,
                    h4: string, x4: string, tail: string): (s: string)
    ensures |s| == |h1| + |x1| + |h2| + |x2| + |h3| + |x3| + |h4| + |x4| + |tail|
    ensures s[|h1|..|h1| + |x1|] == x1
    ensures var p := |h1| + |x1| + |h2|; s[p..p + |x2|] == x2
    ensures var p := |h1| + |x1| + |h2| + |x2| + |h3|; s[p..p + |x3|] == x3
    ensures var p := |h1| + |x1| + |h2| + |x2| + |h3| + |x3| + |h4|; s[p..p + |x4|] == x4
    ensures LabelsAt(s, h1, x1, h2, x2, h3, x3, h4)
  {
    var g1, g2, g3 := x1 + h2, x2 + h3, x3 + h4;
    var r4 := x4 + tail;
    var r3 := g3 + r4;
    var r2 := g2 + r3;
    var r1 := g1 + r2;
    // x1
    ShiftSlice(h1, r1, 0, |x1|);
    LeadSlice(g1, r2, |x1|);
    LeadSlice(x1, h2, |x1|);
    // x2
    ShiftSlice(h1, r1, |g1|, |g1| + |x2|);
    ShiftSlice(g1, r2, 0, |x2|);
    LeadSlice(g2, r3, |x2|);
    LeadSlice(x2, h3, |x2|);
    // x3
    ShiftSlice(h1, r1, |g1| + |g2|, |g1| + |g2| + |x3|);
    ShiftSlice(g1, r2, |g2|, |g2| + |x3|);
    ShiftSlice(g2, r3, 0, |x3|);
    LeadSlice(g3, r4, |x3|);
    LeadSlice(x3, h4, |x3|);
    // x4
    ShiftSlice(h1, r1, |g1| + |g2| + |g3|, |g1| + |g2| + |g3| + |x4|);
    ShiftSlice(g1, r2, |g2| + |g3|, |g2| + |g3| + |x4|);
    ShiftSlice(g2, r3, |g3|, |g3| + |x4|);
    ShiftSlice(g3, r4, 0, |x4|);
    LeadSlice(x4, tail, |x4|);
    LabelsOfLabelled(h1, x1, h2, x2, h3, x3, h4, x4, tail);
    h1 + r1
  }

  /** The labelled fields of the instruction for `scenario`, followed by `tail`. */
  function PromptWith(scenario: Scenario, language: string, tail: string): (prompt: string)
    ensures |prompt| == LanguageOffset(scenario) + 7 + |tail|
    ensures var d := |PromptHead|;
            prompt[d..d + |scenario.description|] == scenario.description
    ensures var p := |PromptHead| + |scenario.description| + |ProfileHead|;
            prompt[p..p + |scenario.customerProfile|] == scenario.customerProfile
    ensures var r := |PromptHead| + |scenario.description| + |ProfileHead| + |scenario.customerProfile| + |RoleHead|;
            prompt[r..r + |scenario.role.Name()|] == scenario.role.Name()
    ensures var k := LanguageOffset(scenario);
            prompt[k..k + 7] == LanguageName(language)
  {
    Labelled(PromptHead, scenario.description, ProfileHead, scenario.customerProfile,
             RoleHead, scenario.role.Name(), LanguageHead, LanguageName(language), tail)
  }

  /**
   * The system instruction: the scenario's description, the customer profile
   * and the role, each verbatim on its own labelled line, then the language.
   */
  function SystemPrompt(scenario: Scenario, language: string): (prompt: string)
    ensures |prompt| == LanguageOffset(scenario) + 7 + |Instructions|
    ensures var d := |PromptHead|;
            prompt[d..d + |scenario.description|] == scenario.description
    ensures var p := |PromptHead| + |scenario.description| + |ProfileHead|;
            prompt[p..p + |scenario.customerProfile|] == scenario.customerProfile
    ensures var r := |PromptHead| + |scenario.description| + |ProfileHead| + |scenario.customerProfile| + |RoleHead|;
            prompt[r..r + |scenario.role.Name()|] == scenario.role.Name()
    ensures var k := LanguageOffset(scenario);
            prompt[k..k + 7] == LanguageName(language)
  {
    PromptWith(scenario, language, Instructions)
  }

  /** The instruction opens with its head and puts each label right before its field. */
  lemma SystemPromptLabels(scenario: Scenario, language: string)
    ensures LabelsAt(SystemPrompt(scenario, language), PromptHead, scenario.description, ProfileHead,
                     scenario.customerProfile, RoleHead, scenario.role.Name(), LanguageHead)
  {
    assert SystemPrompt(scenario, language)
        == Labelled(PromptHead, scenario.description, ProfileHead, scenario.customerProfile,
                    RoleHead, scenario.role.Name(), LanguageHead, LanguageName(language), Instructions);
  }

  /** Two instructions for one scenario are the same exactly when both or neither language code is "es". */
  lemma SystemPromptLanguage(scenario: Scenario, a: string, b: string)
    ensures SystemPrompt(scenario, a) == SystemPrompt(scenario, b) <==> (a == "es" <==> b == "es")
  {
    var pa, pb := SystemPrompt(scenario, a), SystemPrompt(scenario, b);
    var k := LanguageOffset(scenario);
    if pa == pb {
      assert pa[k..k + 7] == pb[k..k + 7];
    }
    if a == "es" <==> b == "es" {
      assert LanguageName(a) == LanguageName(b);
    }
  }
}

/**
 * Persona construction and injection (`chatbot_node` in graph.py): the
 * system directive built for every model call, and where it goes in the
 * model's input.
 */
module Persona {
  import opened Text
  import opened Messages

  /** The per-deployment knobs read from the environment. */
  datatype Config = Config(botName: string, botPersonality: string, userName: string, userLocation: string)

  /** The values used when the environment sets none. */
  const DefaultConfig := Config("Gestella", "an elite executive assistant. Efficient, professional, and helpful.",
                                "Sir", "Singapore (GMT+8)")

  // The fixed pieces of the directive's template, in order.
  const IntroHead := "\n    You are "
  const IntroTail := ".\n    \n"
  const ContextHead := "    CURRENT CONTEXT:\n    - Today is: "
  const LocationLabel := "\n    - User Location: "
  const ContextTail := "\n    \n"
  const RulesHead :=
    "    RULES:\n"
    + "    1. If the user provides enough info for a calendar event (What, When), just DO IT.\n"
    + "    2. If details are missing, ask for them.\n"
    + "    3. Always speak English/Singlish (unless configured otherwise).\n"
    + "    4. When user says \"tomorrow\" or \"next week\", calculate the date based on 'Today is: "
  const RulesTail :=
    "'.\n"
    + "    5. If the user sends a LONG voice note or asks for a \"meeting summary\", USE the 'analyze_meeting' tool.\n"
    + "    "

  /** Identity line of the directive. */
  function Intro(cfg: Config): string
  {
    IntroHead + cfg.botName + ", " + cfg.botPersonality + " You assist " + cfg.userName + IntroTail
  }

  /** The current-context block. */
  function Context(cfg: Config, now: string): string
  {
    ContextHead + now + LocationLabel + cfg.userLocation + ContextTail
  }

  /** The fixed behavioural rules; rule 4 repeats the current time. */
  function Rules(now: string): string
  {
    RulesHead + now + RulesTail
  }

  /** The persona text, `now` being the formatted current time. */
  function PersonaText(cfg: Config, now: string): string
  {
    Intro(cfg) + Context(cfg, now) + Rules(now)
  }

  lemma ContainsLeft(s: string, t: string, pat: string)
    requires Contains(s, pat)
    ensures Contains(s + t, pat)
  {
    var i := ContainsOffset(s, pat);
    assert (s + t)[i..i + |pat|] == s[i..i + |pat|];
    ContainsAt(s + t, pat, i);
  }

  lemma ContainsRight(s: string, t: string, pat: string)
    requires Contains(t, pat)
    ensures Contains(s + t, pat)
  {
    var i := ContainsOffset(t, pat);
    assert (s + t)[|s| + i..|s| + i + |pat|] == t[i..i + |pat|];
    ContainsAt(s + t, pat, |s| + i);
  }

  lemma IntroEmbeds(cfg: Config)
    ensures Contains(Intro(cfg), cfg.botName)
    ensures Contains(Intro(cfg), cfg.botPersonality)
    ensures Contains(Intro(cfg), cfg.userName)
  {
    var rest := " You assist " + cfg.userName + IntroTail;
    ContainsInfix(IntroHead, cfg.botName, ", " + cfg.botPersonality + rest);
    assert Intro(cfg) == IntroHead + cfg.botName + (", " + cfg.botPersonality + rest);
    ContainsInfix(IntroHead + cfg.botName + ", ", cfg.botPersonality, rest);
    assert Intro(cfg) == (IntroHead + cfg.botName + ", ") + cfg.botPersonality + rest;
    ContainsInfix(IntroHead + cfg.botName + ", " + cfg.botPersonality + " You assist ", cfg.userName, IntroTail);
  }

  lemma ContextEmbeds(cfg: Config, now: string)
    ensures Contains(Context(cfg, now), now)
    ensures Contains(Context(cfg, now), cfg.userLocation)
  {
    ContainsInfix(ContextHead, now, LocationLabel + cfg.userLocation + ContextTail);
    assert Context(cfg, now) == ContextHead + now + (LocationLabel + cfg.userLocation + ContextTail);
    ContainsInfix(ContextHead + now + LocationLabel, cfg.userLocation, ContextTail);
  }

  /** The directive names the assistant, its personality, the user, the location and the current time. */
  lemma PersonaEmbedsContext(cfg: Config, now: string)
    ensures Contains(PersonaText(cfg, now), cfg.botName)
    ensures Contains(PersonaText(cfg, now), cfg.botPersonality)
    ensures Contains(PersonaText(cfg, now), cfg.userName)
    ensures Contains(PersonaText(cfg, now), cfg.userLocation)
    ensures Contains(PersonaText(cfg, now), now)
  {
    var intro, context, rules := Intro(cfg), Context(cfg, now), Rules(now);
    IntroEmbeds(cfg);
    ContextEmbeds(cfg, now);
    forall pat | pat in [cfg.botName, cfg.botPersonality, cfg.userName]
      ensures Contains(intro + context + rules, pat)
    {
      ContainsLeft(intro, context, pat);
      ContainsLeft(intro + context, rules, pat);
    }
    forall pat | pat in [cfg.userLocation, now]
      ensures Contains(intro + context + rules, pat)
    {
      ContainsRight(intro, context, pat);
      ContainsLeft(intro + context, rules, pat);
    }
  }

  /** The system message built for this call. */
  function Directive(cfg: Config, now: string): Message
  {
    System(PersonaText(cfg, now))
  }

  /**
   * The messages the model is called with: the fresh directive in place of a
   * system message already at the head of the history, otherwise in front of it.
   */
  function ModelInput(history: seq<Message>, directive: Message): (input: seq<Message>)
    requires |history| > 0
    ensures |input| > 0 && input[0] == directive
    ensures history[0].System? ==> |input| == |history| && input[1..] == history[1..]
    ensures !history[0].System? ==> |input| == |history| + 1 && input[1..] == history
  {
    if history[0].System? then [directive] + history[1..] else [directive] + history
  }

  /** Counts the system messages of `ms`. */
  function SystemCount(ms: seq<Message>): nat
  {
    if ms == [] then 0 else (if ms[0].System? then 1 else 0) + SystemCount(ms[1..])
  }

  lemma {:induction false} SystemCountZero(ms: seq<Message>)
    requires NoSystem(ms)
    ensures SystemCount(ms) == 0
  {
    if ms != [] {
      SystemCountZero(ms[1..]);
    }
  }

  /**
   * The directive is never stacked: when no system message stands after the
   * head of the history, the model input holds exactly one, at index 0.
   */
  lemma DirectiveIsSingle(history: seq<Message>, cfg: Config, now: string)
    requires |history| > 0 && NoSystem(history[1..])
    ensures var input := ModelInput(history, Directive(cfg, now));
            SystemCount(input) == 1 && input[0] == Directive(cfg, now)
  {
    var input := ModelInput(history, Directive(cfg, now));
    if history[0].System? {
      SystemCountZero(input[1..]);
    } else {
      assert NoSystem(history);
      SystemCountZero(input[1..]);
    }
  }

  /** The graph state a node sees; `chatbot_node` may overwrite its first message. */
  class AgentState {
    var messages: seq<Message>

    constructor (messages: seq<Message>)
      ensures this.messages == messages
    {
      this.messages := messages;
    }

    /**
     * `chatbot_node`: refresh the directive, call the model, and return
     * the update, which is the model's reply alone.
     */
    method ChatbotNode(cfg: Config, now: string, llm: seq<Message> -> Reply) returns (update: seq<Message>)
      requires |messages| > 0
      modifies this
      ensures update == [llm(ModelInput(old(messages), Directive(cfg, now))).AsMessage()]
      ensures messages == if old(messages)[0].System? then old(messages)[0 := Directive(cfg, now)] else old(messages)
    {
      var persona := Directive(cfg, now);
      var input;
      if messages[0].System? {
        messages := messages[0 := persona];
        input := messages;
      } else {
        input := [persona] + messages;
      }
      assert input == ModelInput(old(messages), persona);
      var response := llm(input);
      update := [response.AsMessage()];
    }
  }
}

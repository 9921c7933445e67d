/**
 * The assistant chat: a send step that posts the user's text and schedules a
 * reply, the delayed reply step, and the keyword cascade that picks the reply.
 * Clock readings (`Date.now()`, `new Date()`) are passed in as milliseconds.
 */
module AIAssistant {
  import opened JsString

  datatype Role = User | Assistant

  datatype ChatMessage = ChatMessage(id: string, role: Role, content: string, timestamp: nat)

  /** The canned replies, in the order the cascade tries them. */
  datatype Reply = DemogorgonProtocol | SafeZones | TeamStatus | SurvivalTips | Fallback

  const WelcomeText: string := "\U{1F916} EDYY activated. I can help you with threat analysis, survival strategies, and emergency protocols. How can I assist you?"

  const DemogorgonText: string :=
    "\U{26A0}\U{FE0F} DEMOGORGON PROTOCOL:\n\n1. Do NOT engage directly\n2. Create loud noise to disorient it\n3. Use fire or heat sources (they are sensitive to heat)\n4. Retreat to the nearest safe zone immediately\n5. Alert all team members\n6. Estimated survival rate with proper protocol: 73%\n\nWeak points: Exposed flower-like head when feeding"

  const SafeZonesText: string :=
    "\U{1F6E1}\U{FE0F} NEAREST SAFE ZONES:\n\n1. Community Center (0.3 miles NW) - High security\n2. Police Station (0.5 miles E) - Armed personnel\n3. School Basement (0.7 miles S) - Underground shelter\n\nAll safe zones have:\n\U{2713} Reinforced walls\n\U{2713} Emergency supplies\n\U{2713} Communication equipment\n\U{2713} Multiple exit routes"

  const TeamStatusText: string :=
    "\U{1F465} TEAM STATUS:\n\n\U{2705} Mike - Sector 1-A (Safe)\n\U{2705} Lucas - Sector 2-B (Safe)\n\U{26A0}\U{FE0F} Dustin - Sector 7-G (Warning Zone)\n\U{2705} Will - HQ (Safe)\n\nAll members are online and responsive."

  const SurvivalTipsText: string :=
    "\U{1F4A1} SURVIVAL TIPS:\n\n1. Stay in groups (never go alone)\n2. Keep communication devices charged\n3. Carry flashlight (creatures avoid bright light)\n4. Know your evacuation routes\n5. Listen for alarm signals\n6. Report any unusual sounds or sightings\n7. Keep emergency kit nearby\n\nRemember: Quick response = Higher survival rate"

  const FallbackText: string :=
    "\U{1F916} I understand your concern. For specific threat analysis, please provide more details about:\n\n\U{2022} Location\n\U{2022} Type of threat observed\n\U{2022} Number of entities\n\U{2022} Urgency level\n\nYou can also ask me about:\n- Safe zone locations\n- Team member status\n- Survival strategies\n- Threat identification"

  function ReplyText(r: Reply): string
  {
    match r
    case DemogorgonProtocol => DemogorgonText
    case SafeZones => SafeZonesText
    case TeamStatus => TeamStatusText
    case SurvivalTips => SurvivalTipsText
    case Fallback => FallbackText
  }

  predicate MentionsDemogorgon(lower: string) { Includes(lower, "demogorgon") }
  predicate MentionsSafety(lower: string) { Includes(lower, "safe") || Includes(lower, "where") }
  predicate MentionsTeam(lower: string) { Includes(lower, "team") || Includes(lower, "members") }
  predicate MentionsSurvival(lower: string) { Includes(lower, "survive") || Includes(lower, "help") }

  /**
   * The branch `getSimulatedResponse` takes: the first keyword group found in the
   * lower-cased query wins, in the order demogorgon, safe/where, team/members,
   * survive/help; with none found, the fallback.
   */
  function ReplyFor(query: string): (r: Reply)
    ensures var q := ToLower(query);
      && (r == DemogorgonProtocol <==> MentionsDemogorgon(q))
      && (r == SafeZones <==> !MentionsDemogorgon(q) && MentionsSafety(q))
      && (r == TeamStatus <==> !MentionsDemogorgon(q) && !MentionsSafety(q) && MentionsTeam(q))
      && (r == SurvivalTips <==> !MentionsDemogorgon(q) && !MentionsSafety(q) && !MentionsTeam(q) && MentionsSurvival(q))
      && (r == Fallback <==> !MentionsDemogorgon(q) && !MentionsSafety(q) && !MentionsTeam(q) && !MentionsSurvival(q))
  {
    var lowerQuery := ToLower(query);
    if MentionsDemogorgon(lowerQuery) then DemogorgonProtocol
    else if MentionsSafety(lowerQuery) then SafeZones
    else if MentionsTeam(lowerQuery) then TeamStatus
    else if MentionsSurvival(lowerQuery) then SurvivalTips
    else Fallback
  }

  /** `getSimulatedResponse`. */
  function SimulatedResponse(query: string): (r: string)
    ensures var q := ToLower(query);
      && (MentionsDemogorgon(q) ==> r == DemogorgonText)
      && (!MentionsDemogorgon(q) && MentionsSafety(q) ==> r == SafeZonesText)
      && (!MentionsDemogorgon(q) && !MentionsSafety(q) && MentionsTeam(q) ==> r == TeamStatusText)
      && (!MentionsDemogorgon(q) && !MentionsSafety(q) && !MentionsTeam(q) && MentionsSurvival(q) ==> r == SurvivalTipsText)
      && (!MentionsDemogorgon(q) && !MentionsSafety(q) && !MentionsTeam(q) && !MentionsSurvival(q) ==> r == FallbackText)
  {
    ReplyText(ReplyFor(query))
  }

  /** Matching ignores case: a query and its lower-cased form get the same reply. */
  lemma CaseInsensitive(query: string)
    ensures ReplyFor(ToLower(query)) == ReplyFor(query)
    ensures SimulatedResponse(ToLower(query)) == SimulatedResponse(query)
  {
    ToLowerIdempotent(query);
  }

  /** `disabled={!input.trim() || isTyping}`, read the other way round. */
  predicate SendEnabled(input: string, isTyping: bool)
  {
    Trim(input) != [] && !isTyping
  }

  /** The button is enabled exactly when the input has a non-whitespace character and no reply is pending on screen. */
  lemma SendEnabledIff(input: string, isTyping: bool)
    ensures SendEnabled(input, isTyping) <==> !IsBlank(input) && !isTyping
  {
    TrimEmptyIffBlank(input);
  }

  class Chat {
    var messages: seq<ChatMessage>
    var input: string
    var isTyping: bool
    /** The inputs captured by scheduled replies that have not fired yet, oldest first. */
    var pending: seq<string>

    /** Mounting the panel at clock time `now`: the welcome message only. */
    constructor (now: nat)
      ensures messages == [ChatMessage("1", Assistant, WelcomeText, now)]
      ensures input == "" && !isTyping && pending == []
    {
      messages := [ChatMessage("1", Assistant, WelcomeText, now)];
      input := "";
      isTyping := false;
      pending := [];
    }

    /** Typing in the input box. */
    method SetInput(text: string)
      modifies this
      ensures input == text
      ensures messages == old(messages) && isTyping == old(isTyping) && pending == old(pending)
    {
      input := text;
    }

    /**
     * `handleSend` up to the timer. Blank input changes nothing. Otherwise the raw
     * input is posted as a user message whose id is the clock reading, the box is
     * cleared, the typing indicator set, and a reply is scheduled for that input.
     */
    method Send(now: nat)
      modifies this
      ensures Trim(old(input)) == [] ==>
        messages == old(messages) && input == old(input) && isTyping == old(isTyping) && pending == old(pending)
      ensures Trim(old(input)) != [] ==>
        && messages == old(messages) + [ChatMessage(NatToString(now), User, old(input), now)]
        && input == "" && isTyping
        && pending == old(pending) + [old(input)]
    {
      if Trim(input) == [] {
        return;
      }
      var userMessage := ChatMessage(NatToString(now), User, input, now);
      messages := messages + [userMessage];
      pending := pending + [input];
      input := "";
      isTyping := true;
    }

    /**
     * The `setTimeout` callback of the oldest scheduled reply, firing at clock time
     * `now`: one assistant message answering the input captured at send time, and
     * the typing indicator cleared.
     */
    method DeliverReply(now: nat)
      requires pending != []
      modifies this
      ensures messages == old(messages) + [ChatMessage(NatToString(now + 1), Assistant, SimulatedResponse(old(pending)[0]), now)]
      ensures !isTyping && pending == old(pending)[1..] && input == old(input)
    {
      var query := pending[0];
      var aiResponse := ChatMessage(NatToString(now + 1), Assistant, SimulatedResponse(query), now);
      messages := messages + [aiResponse];
      pending := pending[1..];
      isTyping := false;
    }
  }
}

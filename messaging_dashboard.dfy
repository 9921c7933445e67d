/** The party chat panel: member presence, the online count, and sending a message. */
module MessagingDashboard {
  import opened Wrappers
  import opened JsString

  datatype Member = Member(
    id: int, name: string, role: string, status: string, avatar: string,
    lastMessage: Option<string>, unreadCount: Option<int>)

  datatype Message = Message(id: int, senderId: int, text: string, timestamp: string)

  /** The sender id of the signed-in user. */
  const CurrentUser: int := 0

  /** The two messages the panel opens with. */
  const SeedMessages: seq<Message> := [
    Message(1, 1, "Anyone seen any demo-creatures lately?", "10:23 AM"),
    Message(2, 2, "Negative. Sensors show all clear in my sector.", "10:24 AM")
  ]

  /** The fixed party roster. */
  const Members: seq<Member> := [
    Member(1, "Mike Wheeler", "Party Leader", "online", "MW", Some("Anyone seen any demo-creatures?"), Some(2)),
    Member(2, "Eleven", "The Psychic", "online", "11", Some("Friends don't lie."), Some(0)),
    Member(3, "Dustin Henderson", "Tech Expert", "away", "DH", Some("Setting up the cerebro..."), Some(1)),
    Member(4, "Lucas Sinclair", "The Ranger", "online", "LS", Some("All clear on the perimeter."), Some(0)),
    Member(5, "Will Byers", "The Wise", "offline", "WB", Some("Castle Byers signing off."), Some(0)),
    Member(6, "Max Mayfield", "The Zoomer", "online", "MM", Some("On my way with the skateboard."), Some(0))
  ]

  /** `getStatusColor`: green when online, yellow when away, gray for offline and anything else. */
  function StatusColor(status: string): (color: string)
    ensures color == "bg-green-500" <==> status == "online"
    ensures color == "bg-yellow-500" <==> status == "away"
    ensures color == "bg-gray-500" <==> status != "online" && status != "away"
  {
    match status
    case "online" => "bg-green-500"
    case "away" => "bg-yellow-500"
    case "offline" => "bg-gray-500"
    case _ => "bg-gray-500"
  }

  /** `members.filter(m => m.status === 'online')`. */
  function OnlineMembers(members: seq<Member>): (r: seq<Member>)
    ensures |r| <= |members|
    ensures forall m :: m in r ==> m in members && m.status == "online"
    ensures forall m :: m in members && m.status == "online" ==> m in r
    ensures forall m :: multiset(r)[m] == (if m.status == "online" then multiset(members)[m] else 0)
    ensures |members| == 1 ==> r == (if members[0].status == "online" then members else [])
  {
    if members == [] then []
    else
      var rest := OnlineMembers(members[1..]);
      assert members == [members[0]] + members[1..];
      if members[0].status == "online" then [members[0]] + rest else rest
  }

  /** Filtering distributes over concatenation, so the count of a roster is the sum of its parts. */
  lemma {:induction false} OnlineMembersAppend(a: seq<Member>, b: seq<Member>)
    ensures OnlineMembers(a + b) == OnlineMembers(a) + OnlineMembers(b)
  {
    if a == [] {
      assert a + b == b;
    } else {
      var ab := a + b;
      assert ab[0] == a[0];
      assert ab[1..] == a[1..] + b;
      OnlineMembersAppend(a[1..], b);
      if a[0].status == "online" {
        calc {
          OnlineMembers(ab);
          [a[0]] + OnlineMembers(a[1..] + b);
          [a[0]] + (OnlineMembers(a[1..]) + OnlineMembers(b));
          ([a[0]] + OnlineMembers(a[1..])) + OnlineMembers(b);
        }
      } else {
        assert OnlineMembers(ab) == OnlineMembers(a[1..] + b);
      }
    }
  }

  /** The sidebar header: four of the six party members are online. */
  lemma RosterOnlineCount()
    ensures |OnlineMembers(Members)| == 4
  {
  }

  /** Each message's id is its 1-based position in the list. */
  ghost predicate IdsArePositions(messages: seq<Message>)
  {
    forall i :: 0 <= i < |messages| ==> messages[i].id == i + 1
  }

  /** Position-numbered ids are distinct. */
  lemma IdsUnique(messages: seq<Message>)
    requires IdsArePositions(messages)
    ensures forall i, j :: 0 <= i < j < |messages| ==> messages[i].id != messages[j].id
  {
  }

  /** `handleSendMessage`'s guard: a non-blank input and a selected member. */
  predicate CanSend(input: string, selected: Option<Member>)
  {
    Trim(input) != [] && selected.Some?
  }

  /** The guard fails exactly on blank input or when no member is selected. */
  lemma CanSendIffNotBlank(input: string, selected: Option<Member>)
    ensures CanSend(input, selected) <==> !IsBlank(input) && selected.Some?
  {
    TrimEmptyIffBlank(input);
  }

  class Dashboard {
    var selectedMember: Option<Member>
    var messageInput: string
    var messages: seq<Message>

    ghost predicate Valid()
      reads this
    {
      IdsArePositions(messages)
    }

    constructor ()
      ensures Valid()
      ensures selectedMember == None && messageInput == "" && messages == SeedMessages
    {
      selectedMember := None;
      messageInput := "";
      messages := SeedMessages;
    }

    /** Clicking a member in the sidebar. */
    method SelectMember(m: Member)
      requires Valid()
      modifies this
      ensures Valid()
      ensures selectedMember == Some(m) && messageInput == old(messageInput) && messages == old(messages)
    {
      selectedMember := Some(m);
    }

    /** Typing in the message box. */
    method SetMessageInput(text: string)
      requires Valid()
      modifies this
      ensures Valid()
      ensures messageInput == text && selectedMember == old(selectedMember) && messages == old(messages)
    {
      messageInput := text;
    }

    /**
     * `handleSendMessage`, with the formatted clock time passed in. When the guard
     * holds, one message from the current user carrying the untrimmed input is
     * appended with id = old length + 1, and the input is cleared; otherwise nothing
     * changes. Ids stay equal to positions either way.
     */
    method SendMessage(timestamp: string)
      requires Valid()
      modifies this
      ensures Valid()
      ensures selectedMember == old(selectedMember)
      ensures CanSend(old(messageInput), old(selectedMember)) ==>
        messages == old(messages) + [Message(|old(messages)| + 1, CurrentUser, old(messageInput), timestamp)]
        && messageInput == ""
      ensures !CanSend(old(messageInput), old(selectedMember)) ==>
        messages == old(messages) && messageInput == old(messageInput)
    {
      if CanSend(messageInput, selectedMember) {
        var newMessage := Message(|messages| + 1, CurrentUser, messageInput, timestamp);
        messages := messages + [newMessage];
        messageInput := "";
      }
    }
  }
}

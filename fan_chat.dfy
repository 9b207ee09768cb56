/** The fan chat: a list of messages that only grows at the end, a like
    counter per message, and the text being typed. */
module FanChat {
  import opened Common

  datatype ChatMessage = ChatMessage(id: int, user: string, message: string, time: string, likes: nat, country: string)

  /** The five messages the chat starts with. */
  function InitialMessages(): seq<ChatMessage> {
    [ ChatMessage(1, "CulerForLife", "Can't wait for El Clásico! Visca el Barça! 💙❤️", "2 min ago", 12, "Spain"),
      ChatMessage(2, "PedriMagic", "Lewandowski is on fire this season! 🔥", "5 min ago", 8, "Poland"),
      ChatMessage(3, "BlaugranaForever", "The team chemistry is incredible this year!", "8 min ago", 15, "Argentina"),
      ChatMessage(4, "CampNouDreamer", "Who's going to the match this weekend?", "12 min ago", 6, "Brazil"),
      ChatMessage(5, "BarçaFromIndia", "Watching from Mumbai! The passion is global! 🌍", "15 min ago", 20, "India") ]
  }

  /** Every message's id is its position plus one. */
  predicate IdsArePositions(ms: seq<ChatMessage>) {
    forall i :: 0 <= i < |ms| ==> ms[i].id == i + 1
  }

  /** The message `handleSendMessage` appends when the chat already holds
      `count` messages. */
  function OwnMessage(count: nat, text: string): (m: ChatMessage)
    ensures m.id == count + 1 && m.user == "You" && m.likes == 0 && m.message == text
  {
    ChatMessage(count + 1, "You", text, "Just now", 0, "Spain")
  }

  /** `handleLike(id)`: the messages with that id gain one like; nothing else
      changes. */
  function Liked(ms: seq<ChatMessage>, id: int): (r: seq<ChatMessage>)
    ensures |r| == |ms|
    ensures forall i :: 0 <= i < |ms| ==> r[i] == if ms[i].id == id then ms[i].(likes := ms[i].likes + 1) else ms[i]
  {
    if ms == [] then []
    else [if ms[0].id == id then ms[0].(likes := ms[0].likes + 1) else ms[0]] + Liked(ms[1..], id)
  }

  /** With ids numbered by position, a like for an existing id reaches
      exactly one message, and the ids stay numbered by position. */
  lemma LikeReachesOneMessage(ms: seq<ChatMessage>, id: int)
    requires IdsArePositions(ms)
    ensures IdsArePositions(Liked(ms, id))
    ensures forall i :: 0 <= i < |ms| ==>
              Liked(ms, id)[i].likes == ms[i].likes + (if i == id - 1 then 1 else 0)
  {
  }

  const Globe: string := "🌍"

  /** The flags the chat knows. */
  const Flags: map<string, string> :=
    map["Spain" := "🇪🇸", "Poland" := "🇵🇱", "Argentina" := "🇦🇷", "Brazil" := "🇧🇷", "India" := "🇮🇳"]

  /** `flags[country] || "🌍"`: the country's flag when it is listed, the
      globe otherwise. */
  function CountryFlag(country: string): (flag: string)
    ensures country in Flags ==> flag == Flags[country]
    ensures flag == Globe <==> country !in Flags
  {
    if country in Flags && Flags[country] != "" then Flags[country] else Globe
  }

  /** The chat component's state. */
  class Chat {
    var messages: seq<ChatMessage>
    var newMessage: string

    /** Ids are positions plus one, so no two messages share an id and
        id k names the message at position k - 1. */
    ghost predicate Valid()
      reads this
    {
      IdsArePositions(messages)
    }

    constructor ()
      ensures messages == InitialMessages() && newMessage == "" && Valid()
    {
      messages := InitialMessages();
      newMessage := "";
    }

    /** The input's `onChange`. */
    method Type(text: string)
      modifies this`newMessage
      ensures newMessage == text
    {
      newMessage := text;
    }

    /** `handleSendMessage()`: a message that trims to nothing is ignored;
        otherwise the raw, untrimmed text is appended as the fan's own
        message and the input is cleared. */
    method SendMessage()
      requires Valid()
      modifies this
      ensures Valid()
      ensures Trim(old(newMessage)) == [] ==> messages == old(messages) && newMessage == old(newMessage)
      ensures Trim(old(newMessage)) != [] ==>
                messages == old(messages) + [OwnMessage(|old(messages)|, old(newMessage))] && newMessage == ""
    {
      if Trim(newMessage) != [] {
        messages := messages + [OwnMessage(|messages|, newMessage)];
        newMessage := "";
      }
    }

    /** `handleLike(id)`. */
    method HandleLike(id: int)
      requires Valid()
      modifies this`messages
      ensures Valid()
      ensures messages == Liked(old(messages), id)
    {
      messages := Liked(messages, id);
      LikeReachesOneMessage(old(messages), id);
    }
  }
}

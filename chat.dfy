/**
 * The chat's message store (js/chat.js): a display list and a model-facing
 * list that draw their ids from one counter. Each display message remembers
 * the model-facing message that was latest when it was added, so that
 * truncating the display at a message can truncate the model's history at
 * the matching point.
 */
module ChatStore {
  import opened Values
  import opened Seqs
  import opened Text

  /** The id every project-state message carries. */
  const ProjectStateId := 1

  /** A user or assistant turn, before whose last occurrence project state is inserted. */
  predicate IsTurn(m: Message) {
    m.role == Assistant || m.role == User
  }

  predicate IsUserMessage(m: FrontendMessage) {
    m.role == User
  }

  function ProjectStateMessage(content: Content): Message {
    Message(ProjectStateId, System, content, None, None, None)
  }

  /**
   * The backend list after a project-state message is spliced in at the
   * index of the last turn. `splice(-1, 0, m)` inserts before the last
   * element, so with no turn the message goes just before the last message
   * (or alone into an empty list).
   */
  function InsertProjectState(s: seq<Message>, content: Content): (r: seq<Message>)
    ensures |r| == |s| + 1
    ensures LastIndexWhere(s, IsTurn) >= 0 ==>
      var k := LastIndexWhere(s, IsTurn);
      r[k] == ProjectStateMessage(content) && r[..k] + r[k + 1..] == s
    ensures LastIndexWhere(s, IsTurn) == -1 && s != [] ==>
      r == s[..|s| - 1] + [ProjectStateMessage(content)] + [s[|s| - 1]]
    ensures s == [] ==> r == [ProjectStateMessage(content)]
  {
    var k := JsIndex(LastIndexWhere(s, IsTurn), |s|);
    var r := s[..k] + [ProjectStateMessage(content)] + s[k..];
    assert r[..k] == s[..k] && r[k + 1..] == s[k..];
    r
  }

  /** How many messages carry `id`. */
  function CountId(s: seq<Message>, id: int): nat {
    if s == [] then 0 else (if s[0].id == id then 1 else 0) + CountId(s[1..], id)
  }

  lemma {:induction false} CountIdAppend(a: seq<Message>, b: seq<Message>, id: int)
    ensures CountId(a + b, id) == CountId(a, id) + CountId(b, id)
  {
    if a == [] {
      assert a + b == b;
    } else {
      assert (a + b)[1..] == a[1..] + b;
      CountIdAppend(a[1..], b, id);
    }
  }

  /**
   * Every project-state insertion adds one more message with id 1, so a
   * second insertion leaves two backend messages sharing an id.
   */
  lemma ProjectStateRepeatsId(s: seq<Message>, content: Content)
    ensures CountId(InsertProjectState(s, content), ProjectStateId) == CountId(s, ProjectStateId) + 1
  {
    var k := JsIndex(LastIndexWhere(s, IsTurn), |s|);
    var m := ProjectStateMessage(content);
    assert s == s[..k] + s[k..];
    CountIdAppend(s[..k] + [m], s[k..], ProjectStateId);
    CountIdAppend(s[..k], [m], ProjectStateId);
    CountIdAppend(s[..k], s[k..], ProjectStateId);
  }

  /** `findLastIndex`: scans down from the end for the last element satisfying `pred`. */
  method FindLastIndex<T>(arr: seq<T>, pred: T -> bool) returns (index: int)
    ensures -1 <= index < |arr|
    ensures index >= 0 ==> pred(arr[index]) && forall j :: index < j < |arr| ==> !pred(arr[j])
    ensures index == -1 ==> forall j :: 0 <= j < |arr| ==> !pred(arr[j])
  {
    index := |arr|;
    while index > 0
      invariant 0 <= index <= |arr|
      invariant forall j :: index <= j < |arr| ==> !pred(arr[j])
    {
      index := index - 1;
      if pred(arr[index]) {
        return;
      }
    }
    return -1;
  }

  /** Among messages other than project state, ids grow along the list. */
  predicate CounterOrdered(a: Message, b: Message) {
    a.id != ProjectStateId && b.id != ProjectStateId ==> a.id < b.id
  }

  predicate IdBefore(a: FrontendMessage, b: FrontendMessage) {
    a.id < b.id
  }

  predicate MatchesPattern(m: Message, pattern: string) {
    m.content.Str? && m.content.s != "" && StartsWith(m.content.s, pattern)
  }

  class Chat {
    var frontendMessages: seq<FrontendMessage>
    var backendMessages: seq<Message>
    var currentId: int
    var lastBackendMessageId: int

    /**
     * Every counter id is at most `currentId`; counter ids grow along each
     * list and are never shared between the lists; a display message links
     * to an earlier backend id (0 before any backend message exists).
     */
    ghost predicate Valid()
      reads this
    {
      && 1 <= currentId
      && 0 <= lastBackendMessageId <= currentId
      && (forall i :: 0 <= i < |frontendMessages| ==>
            2 <= frontendMessages[i].id <= currentId
            && 0 <= frontendMessages[i].backendMessageId < frontendMessages[i].id)
      && (forall i :: 0 <= i < |backendMessages| ==>
            backendMessages[i].id == ProjectStateId || 2 <= backendMessages[i].id <= currentId)
      && Pairwise(frontendMessages, IdBefore)
      && Pairwise(backendMessages, CounterOrdered)
      && (forall i, j :: 0 <= i < |frontendMessages| && 0 <= j < |backendMessages| ==>
            frontendMessages[i].id != backendMessages[j].id)
    }

    constructor ()
      ensures Valid()
      ensures frontendMessages == [] && backendMessages == []
      ensures currentId == 1 && lastBackendMessageId == 0
    {
      frontendMessages := [];
      backendMessages := [];
      currentId := 1;
      lastBackendMessageId := 0;
    }

    method IsEmpty() returns (b: bool)
      ensures b <==> |frontendMessages| == 0
    {
      b := |frontendMessages| == 0;
    }

    /** Issues a fresh id, larger than every id issued before. */
    method GetNextId() returns (id: int)
      requires Valid()
      modifies this`currentId
      ensures Valid()
      ensures currentId == old(currentId) + 1 && id == currentId
      ensures id >= 2
    {
      currentId := currentId + 1;
      id := currentId;
    }

    /** The content of the last user display message, if there is one. */
    function GetLastUserMessage(): (r: Option<Content>)
      reads this
      ensures r.None? <==> forall i :: 0 <= i < |frontendMessages| ==> frontendMessages[i].role != User
      ensures r.Some? ==> exists i :: (0 <= i < |frontendMessages| && frontendMessages[i].role == User
        && frontendMessages[i].content == r.value
        && forall j :: i < j < |frontendMessages| ==> frontendMessages[j].role != User)
    {
      var k := LastIndexWhere(frontendMessages, IsUserMessage);
      if k == -1 then None else Some(frontendMessages[k].content)
    }

    method AddFrontendMessage(role: Role, content: Content) returns (m: FrontendMessage)
      requires Valid()
      modifies this`currentId, this`frontendMessages
      ensures Valid()
      ensures m == FrontendMessage(old(currentId) + 1, role, content, old(lastBackendMessageId))
      ensures frontendMessages == old(frontendMessages) + [m]
      ensures currentId == m.id
      ensures forall i :: 0 <= i < |old(frontendMessages)| ==> old(frontendMessages)[i].id < m.id
      ensures forall i :: 0 <= i < |backendMessages| ==> backendMessages[i].id != m.id
    {
      var id := GetNextId();
      m := FrontendMessage(id, role, content, lastBackendMessageId);
      frontendMessages := frontendMessages + [m];
    }

    /**
     * Appends a backend message with a fresh id. A function call is kept when
     * one is given; a name only when it is a non-empty string.
     */
    method AddBackendMessage(role: Role, content: Content, functionCall: Option<FunctionCall>, name: Option<string>)
      returns (m: Message)
      requires Valid()
      modifies this`currentId, this`lastBackendMessageId, this`backendMessages
      ensures Valid()
      ensures m.id == old(currentId) + 1 && m.role == role && m.content == content
      ensures m.functionCall == functionCall
      ensures m.name == if name.Some? && name.value != "" then name else None
      ensures m.toolCalls.None?
      ensures backendMessages == old(backendMessages) + [m]
      ensures currentId == m.id && lastBackendMessageId == m.id
      ensures forall i :: 0 <= i < |old(backendMessages)| ==> old(backendMessages)[i].id < m.id
      ensures forall i :: 0 <= i < |frontendMessages| ==> frontendMessages[i].id != m.id
    {
      var id := GetNextId();
      lastBackendMessageId := id;
      var keptName := if name.Some? && name.value != "" then name else None;
      m := Message(id, role, content, functionCall, keptName, None);
      backendMessages := backendMessages + [m];
    }

    /** Adds the same message to both lists; the display copy links to the backend copy. */
    method AddMessage(role: Role, content: Content)
      requires Valid()
      modifies this
      ensures Valid()
      ensures frontendMessages == old(frontendMessages) + [FrontendMessage(old(currentId) + 2, role, content, old(currentId) + 1)]
      ensures backendMessages == old(backendMessages) + [Message(old(currentId) + 1, role, content, None, None, None)]
      ensures lastBackendMessageId == old(currentId) + 1 && currentId == old(currentId) + 2
    {
      var b := AddBackendMessage(role, content, None, None);
      var f := AddFrontendMessage(role, content);
    }

    /** Inserts a system message with id 1 before the last user or assistant turn. */
    method AddProjectStateMessage(content: Content)
      requires Valid()
      modifies this`backendMessages
      ensures Valid()
      ensures backendMessages == InsertProjectState(old(backendMessages), content)
    {
      var insertIndex := FindLastIndex(backendMessages, IsTurn);
      assert insertIndex == LastIndexWhere(backendMessages, IsTurn);
      var k := JsIndex(insertIndex, |backendMessages|);
      InsertPairwise(backendMessages, k, ProjectStateMessage(content), CounterOrdered);
      backendMessages := backendMessages[..k] + [ProjectStateMessage(content)] + backendMessages[k..];
    }

    /**
     * Drops the backend messages whose content is a non-empty string starting
     * with `pattern`; the others stay, in order.
     */
    method DeleteMessagesThatStartWith(pattern: string)
      requires Valid()
      modifies this`backendMessages
      ensures Valid()
      ensures backendMessages == Filter(old(backendMessages), m => !MatchesPattern(m, pattern))
      ensures forall i :: 0 <= i < |backendMessages| ==> !MatchesPattern(backendMessages[i], pattern)
      ensures forall i :: (0 <= i < |old(backendMessages)| && !MatchesPattern(old(backendMessages)[i], pattern)
        ==> old(backendMessages)[i] in backendMessages)
    {
      var keep := m => !MatchesPattern(m, pattern);
      FilterPairwise(backendMessages, keep, CounterOrdered);
      backendMessages := Filter(backendMessages, keep);
    }

    /**
     * Truncates the display list before the message with `frontendMessageId`
     * and the backend list before the backend message it links to. An
     * unknown display id changes nothing; an unknown backend id leaves the
     * backend list whole.
     */
    method DeleteMessagesAfterId(frontendMessageId: int)
      requires Valid()
      modifies this`frontendMessages, this`backendMessages
      ensures Valid()
      ensures FindIndex(old(frontendMessages), (m: FrontendMessage) => m.id == frontendMessageId) == -1 ==>
        frontendMessages == old(frontendMessages) && backendMessages == old(backendMessages)
      ensures
        var i := FindIndex(old(frontendMessages), (m: FrontendMessage) => m.id == frontendMessageId);
        i >= 0 ==>
          && frontendMessages == old(frontendMessages)[..i]
          && var link := old(frontendMessages)[i].backendMessageId;
          && var j := FindIndex(old(backendMessages), (m: Message) => m.id == link);
          && backendMessages == if j == -1 then old(backendMessages) else old(backendMessages)[..j]
    {
      var messageIndex := FindIndex(frontendMessages, (m: FrontendMessage) => m.id == frontendMessageId);
      if messageIndex != -1 {
        var backendMessageId := frontendMessages[messageIndex].backendMessageId;
        frontendMessages := frontendMessages[..messageIndex];
        var backendMessageIndex := FindIndex(backendMessages, (m: Message) => m.id == backendMessageId);
        if backendMessageIndex != -1 {
          backendMessages := backendMessages[..backendMessageIndex];
        }
      }
    }
  }
}

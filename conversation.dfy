/**
 * The in-memory conversation store (app/services/conversation_manager.py):
 * conversations that keep a bounded list of messages, and a manager holding a
 * table of conversations by id and a table from session ids to conversation ids.
 *
 * Fresh ids (`uuid.uuid4()`) and the clock (`datetime.now()`) are parameters.
 * Instants are whole seconds; `isoformat` and `fromisoformat` are taken to be
 * inverse, so stored dictionaries keep the instants themselves.
 */
module Conversations {
  import opened Wrappers
  import opened Json

  datatype MessageRole = User | Assistant | System

  /** `role.value` */
  function RoleValue(r: MessageRole): string {
    match r
    case User => "user"
    case Assistant => "assistant"
    case System => "system"
  }

  /** A message; it is never changed after it is made. */
  datatype ConversationMessage = ConversationMessage(
    id: string, role: MessageRole, content: string, timestamp: int, metadata: Option<map<string, Json>>)

  /** `s[-n:]` for any integer `n`, as Python slices: n == 0 keeps everything, a negative n drops the first -n. */
  function PyTail<T>(s: seq<T>, n: int): (r: seq<T>)
    ensures n > 0 ==> r == s[if n < |s| then |s| - n else 0..]
    ensures n <= 0 ==> r == s[if -n < |s| then -n else |s|..]
  {
    if n > 0 then s[if n < |s| then |s| - n else 0..] else s[if -n < |s| then -n else |s|..]
  }

  /** The tail kept is a suffix: the newest messages, in order. */
  lemma PyTailIsSuffix<T>(s: seq<T>, n: int)
    ensures |PyTail(s, n)| <= |s| && PyTail(s, n) == s[|s| - |PyTail(s, n)|..]
    ensures n > 0 ==> |PyTail(s, n)| == if n < |s| then n else |s|
    ensures n == 0 ==> PyTail(s, n) == s
  {
  }

  // ---------------------------------------------------------------------------
  // The token budget

  /** The estimated tokens of a message: a quarter of its length, rounded down. */
  function Tokens(m: ConversationMessage): nat {
    |m.content| / 4
  }

  function TokenSum(ms: seq<ConversationMessage>): nat
    decreases |ms|
  {
    if ms == [] then 0 else TokenSum(ms[..|ms| - 1]) + Tokens(ms[|ms| - 1])
  }

  /**
   * The messages kept for a budget of `budget` tokens: walking from the newest
   * message back, each is kept while the running total stays within the
   * budget, and the walk stops at the first that does not fit.
   */
  function ContextSuffix(ms: seq<ConversationMessage>, budget: int): seq<ConversationMessage>
    decreases |ms|
  {
    if ms == [] then []
    else
      var last := ms[|ms| - 1];
      if Tokens(last) > budget then []
      else ContextSuffix(ms[..|ms| - 1], budget - Tokens(last)) + [last]
  }

  /**
   * What the budget keeps is a suffix of the messages, within the budget,
   * and the longest such: the next older message would not fit.
   */
  ghost predicate SuffixWithin(ms: seq<ConversationMessage>, budget: int) {
    var r := ContextSuffix(ms, budget);
    IsSuffix(r, ms) && (r != [] ==> TokenSum(r) <= budget) && Longest(r, ms, budget)
  }

  predicate IsSuffix<T(==)>(r: seq<T>, ms: seq<T>) {
    |r| <= |ms| && r == ms[|ms| - |r|..]
  }

  /** The message just older than the suffix `r`, if any, would take it over the budget. */
  predicate Longest(r: seq<ConversationMessage>, ms: seq<ConversationMessage>, budget: int)
    requires |r| <= |ms|
  {
    |r| < |ms| ==> TokenSum(r) + Tokens(ms[|ms| - |r| - 1]) > budget
  }

  /** The budget walk keeps the longest suffix within the budget, for every list and budget. */
  lemma {:induction false} ContextSuffixSpec(ms: seq<ConversationMessage>, budget: int)
    ensures SuffixWithin(ms, budget)
    decreases |ms|
  {
    if ms == [] || Tokens(ms[|ms| - 1]) > budget {
      ContextSuffixStop(ms, budget);
    } else {
      ContextSuffixSpec(ms[..|ms| - 1], budget - Tokens(ms[|ms| - 1]));
      ContextSuffixStep(ms, budget);
    }
  }

  /** The walk keeps nothing when the newest message alone is over the budget. */
  lemma ContextSuffixStop(ms: seq<ConversationMessage>, budget: int)
    requires ms == [] || Tokens(ms[|ms| - 1]) > budget
    ensures SuffixWithin(ms, budget)
  {
    assert ContextSuffix(ms, budget) == [];
  }

  /** Keeping the newest message extends what the older messages keep with the remaining budget. */
  lemma ContextSuffixStep(ms: seq<ConversationMessage>, budget: int)
    requires ms != [] && Tokens(ms[|ms| - 1]) <= budget
    requires SuffixWithin(ms[..|ms| - 1], budget - Tokens(ms[|ms| - 1]))
    ensures SuffixWithin(ms, budget)
  {
    var last := ms[|ms| - 1];
    var r' := ContextSuffix(ms[..|ms| - 1], budget - Tokens(last));
    assert ContextSuffix(ms, budget) == r' + [last];
    SuffixSnoc(ms, r');
    TokenSumSnoc(r', last);
    LongestSnoc(ms, r', budget);
  }

  /** A suffix of all but the newest message, followed by the newest, is a suffix of the whole. */
  lemma SuffixSnoc<T>(ms: seq<T>, r: seq<T>)
    requires ms != [] && IsSuffix(r, ms[..|ms| - 1])
    ensures IsSuffix(r + [ms[|ms| - 1]], ms)
  {
    assert ms[|ms| - |r| - 1..] == ms[..|ms| - 1][|ms| - 1 - |r|..] + [ms[|ms| - 1]];
  }

  lemma LongestSnoc(ms: seq<ConversationMessage>, r: seq<ConversationMessage>, budget: int)
    requires ms != [] && |r| <= |ms| - 1
    requires Longest(r, ms[..|ms| - 1], budget - Tokens(ms[|ms| - 1]))
    ensures Longest(r + [ms[|ms| - 1]], ms, budget)
  {
    TokenSumSnoc(r, ms[|ms| - 1]);
    if |r| < |ms| - 1 {
      assert ms[|ms| - |r| - 2] == ms[..|ms| - 1][|ms| - 1 - |r| - 1];
    }
  }

  /** One step of the budget walk, on the newest message. */
  lemma ContextUnfold(ms: seq<ConversationMessage>, budget: int)
    requires ms != []
    ensures Tokens(ms[|ms| - 1]) > budget ==> ContextSuffix(ms, budget) == []
    ensures Tokens(ms[|ms| - 1]) <= budget ==>
              ContextSuffix(ms, budget) == ContextSuffix(ms[..|ms| - 1], budget - Tokens(ms[|ms| - 1])) + [ms[|ms| - 1]]
  {
  }

  /** The token estimate of a list is the sum over its first part and its last message. */
  lemma TokenSumSnoc(ms: seq<ConversationMessage>, m: ConversationMessage)
    ensures TokenSum(ms + [m]) == TokenSum(ms) + Tokens(m)
  {
    assert (ms + [m])[..|ms|] == ms;
  }

  // ---------------------------------------------------------------------------
  // Stored dictionaries

  /** `ConversationMessage.to_dict()`: metadata None is stored as {}. */
  datatype MessageData = MessageData(
    id: string, role: MessageRole, content: string, timestamp: int, metadata: Option<map<string, Json>>)

  /** `Conversation.to_dict()`; `metadata` and `max_messages` are read back with `.get`, so they may be missing. */
  datatype ConversationData = ConversationData(
    id: string, sessionId: string, messages: seq<MessageData>, createdAt: int, updatedAt: int,
    metadata: Option<map<string, Json>>, maxMessages: Option<int>)

  /** What a conversation object holds. */
  datatype ConversationValue = ConversationValue(
    id: string, sessionId: string, messages: seq<ConversationMessage>, createdAt: int, updatedAt: int,
    metadata: Option<map<string, Json>>, maxMessages: int)

  /** `metadata or {}`: None and the empty dictionary are both stored as {}. */
  function OrEmpty(md: Option<map<string, Json>>): map<string, Json> {
    if md.Some? then md.value else map[]
  }

  function MessageToDict(m: ConversationMessage): MessageData {
    MessageData(m.id, m.role, m.content, m.timestamp, Some(OrEmpty(m.metadata)))
  }

  /** `ConversationMessage.from_dict`: a missing metadata entry reads as {}. */
  function MessageFromDict(d: MessageData): ConversationMessage {
    ConversationMessage(d.id, d.role, d.content, d.timestamp, Some(d.metadata.GetOr(map[])))
  }

  function ToDict(c: ConversationValue): ConversationData {
    ConversationData(c.id, c.sessionId, seq(|c.messages|, i requires 0 <= i < |c.messages| => MessageToDict(c.messages[i])),
                     c.createdAt, c.updatedAt, Some(OrEmpty(c.metadata)), Some(c.maxMessages))
  }

  /** `Conversation.from_dict`: a missing `max_messages` reads as 50. */
  function FromDict(d: ConversationData): ConversationValue {
    ConversationValue(d.id, d.sessionId, seq(|d.messages|, i requires 0 <= i < |d.messages| => MessageFromDict(d.messages[i])),
                      d.createdAt, d.updatedAt, Some(d.metadata.GetOr(map[])), d.maxMessages.GetOr(50))
  }

  /** Metadata as a round trip leaves it: None becomes {}. */
  function Settled(md: Option<map<string, Json>>): Option<map<string, Json>> {
    Some(OrEmpty(md))
  }

  /** A conversation as a round trip leaves it: every metadata None becomes {}, nothing else changes. */
  function SettleValue(c: ConversationValue): ConversationValue {
    c.(metadata := Settled(c.metadata),
       messages := seq(|c.messages|, i requires 0 <= i < |c.messages| => c.messages[i].(metadata := Settled(c.messages[i].metadata))))
  }

  /**
   * Storing and reading back keeps the ids, session, messages (ids, roles,
   * contents, timestamps, order), instants and bound; only metadata None becomes {}.
   */
  lemma RoundTrip(c: ConversationValue)
    ensures FromDict(ToDict(c)) == SettleValue(c)
  {
    var d := ToDict(c);
    forall i | 0 <= i < |c.messages|
      ensures FromDict(d).messages[i] == SettleValue(c).messages[i]
    {
      assert d.messages[i] == MessageToDict(c.messages[i]);
    }
    assert FromDict(d).messages == SettleValue(c).messages;
  }

  /** A conversation whose metadata is already settled survives the round trip unchanged. */
  lemma RoundTripSettled(c: ConversationValue)
    requires c.metadata.Some? && forall i :: 0 <= i < |c.messages| ==> c.messages[i].metadata.Some?
    ensures FromDict(ToDict(c)) == c
  {
    RoundTrip(c);
    assert SettleValue(c).messages == c.messages;
  }

  /** Settling is idempotent: a second round trip changes nothing. */
  lemma RoundTripTwice(c: ConversationValue)
    ensures FromDict(ToDict(FromDict(ToDict(c)))) == FromDict(ToDict(c))
  {
    RoundTrip(c);
    RoundTripSettled(SettleValue(c));
  }

  // ---------------------------------------------------------------------------
  // A conversation

  class Conversation {
    const id: string
    const sessionId: string
    var messages: seq<ConversationMessage>
    const createdAt: int
    var updatedAt: int
    const metadata: Option<map<string, Json>>
    const maxMessages: int

    function Value(): ConversationValue
      reads this
    {
      ConversationValue(id, sessionId, messages, createdAt, updatedAt, metadata, maxMessages)
    }

    /** A conversation holding `v`. */
    constructor (v: ConversationValue)
      ensures Value() == v
    {
      id, sessionId, messages := v.id, v.sessionId, v.messages;
      createdAt, updatedAt, metadata, maxMessages := v.createdAt, v.updatedAt, v.metadata, v.maxMessages;
    }

    /**
     * `add_message`: the new message goes at the end; when the list is then
     * longer than `max_messages`, only the newest `max_messages` are kept
     * (with the slice's reading of 0 and of negative bounds).
     */
    method AddMessage(role: MessageRole, content: string, md: Option<map<string, Json>>, messageId: string, now: int)
      returns (mid: string)
      modifies this
      ensures mid == messageId && updatedAt == now
      ensures var added := old(messages) + [ConversationMessage(messageId, role, content, now, md)];
              messages == if |added| > maxMessages then PyTail(added, maxMessages) else added
      ensures maxMessages >= 1 ==> |messages| <= maxMessages
      ensures maxMessages >= 1 ==> messages[|messages| - 1] == ConversationMessage(messageId, role, content, now, md)
      ensures maxMessages == 0 ==> messages == old(messages) + [ConversationMessage(messageId, role, content, now, md)]
    {
      var message := ConversationMessage(messageId, role, content, now, md);
      messages := messages + [message];
      updatedAt := now;
      if |messages| > maxMessages {
        messages := PyTail(messages, maxMessages);
      }
      return messageId;
    }

    /** `get_recent_messages(count)` */
    function RecentMessages(count: int): (r: seq<ConversationMessage>)
      reads this
      ensures messages == [] ==> r == []
      ensures count == 0 || count >= |messages| ==> r == messages
      ensures 0 < count <= |messages| ==> r == messages[|messages| - count..]
    {
      if messages != [] then PyTail(messages, count) else []
    }

    /** `get_messages_for_context`: all messages without a budget (None or 0), else the budgeted suffix. */
    method MessagesForContext(maxTokens: Option<int>) returns (r: seq<ConversationMessage>)
      ensures maxTokens.None? || maxTokens.value == 0 ==> r == messages
      ensures maxTokens.Some? && maxTokens.value != 0 ==> r == ContextSuffix(messages, maxTokens.value)
    {
      if maxTokens.None? || maxTokens.value == 0 {
        return messages;
      }
      var budget := maxTokens.value;
      var estimated := 0;
      var context: seq<ConversationMessage> := [];
      var i := |messages|;
      assert messages[..i] == messages;
      while i > 0
        invariant 0 <= i <= |messages|
        invariant ContextSuffix(messages, budget) == ContextSuffix(messages[..i], budget - estimated) + context
        decreases i
      {
        var message := messages[i - 1];
        var messageTokens := |message.content| / 4;
        ContextUnfold(messages[..i], budget - estimated);
        assert messages[..i][i - 1] == message;
        if estimated + messageTokens > budget {
          break;
        }
        assert messages[..i][..i - 1] == messages[..i - 1];
        context := [message] + context;
        estimated := estimated + messageTokens;
        i := i - 1;
      }
      assert i == 0 ==> messages[..i] == [];
      r := context;
    }
  }

  // ---------------------------------------------------------------------------
  // The manager

  /** `get_conversation_summary` */
  datatype Summary = Summary(conversationId: string, sessionId: string, messageCount: nat,
                             createdAt: int, updatedAt: int, metadata: Option<map<string, Json>>)

  /** One entry of `get_context_for_llm`. */
  datatype LlmMessage = LlmMessage(role: string, content: string)

  function ForLlm(ms: seq<ConversationMessage>): seq<LlmMessage> {
    seq(|ms|, i requires 0 <= i < |ms| => LlmMessage(RoleValue(ms[i].role), ms[i].content))
  }

  /** The seconds in `timedelta(hours=h)`. */
  function Hours(h: int): int {
    h * 3600
  }

  /** The ids of the conversations in `table` last updated before `cutoff`. */
  function StaleIn(table: map<string, Conversation>, cutoff: int): set<string>
    reads table.Values
  {
    set cid | cid in table && table[cid].updatedAt < cutoff
  }

  /** The session ids of the conversations `ids` names in `table`. */
  function SessionsOf(table: map<string, Conversation>, ids: set<string>): set<string>
    requires ids <= table.Keys
    reads table.Values
  {
    set cid | cid in ids :: table[cid].sessionId
  }

  lemma SessionsOfAdd(table: map<string, Conversation>, ids: set<string>, cid: string)
    requires ids <= table.Keys && cid in table
    ensures SessionsOf(table, ids + {cid}) == SessionsOf(table, ids) + {table[cid].sessionId}
  {
  }

  /** Removing keys one at a time removes the set of them. */
  lemma RemoveOne<K, V>(m: map<K, V>, ks: set<K>, k: K)
    ensures (m - ks) - {k} == m - (ks + {k})
    ensures k !in m - ks ==> m - ks == m - (ks + {k})
  {
    assert ((m - ks) - {k}).Keys == (m - (ks + {k})).Keys;
    if k !in m - ks {
      assert (m - ks).Keys == (m - (ks + {k})).Keys;
    }
  }

  /** The first pass of `cleanup_old_conversations`: which conversations are stale. */
  method StaleIds(table: map<string, Conversation>, cutoff: int) returns (ids: set<string>)
    ensures ids == StaleIn(table, cutoff)
    ensures forall cid :: cid in ids <==> cid in table && table[cid].updatedAt < cutoff
  {
    ids := {};
    var pending := table.Keys;
    while pending != {}
      invariant pending <= table.Keys
      invariant forall cid :: cid in ids <==> cid in table && cid !in pending && table[cid].updatedAt < cutoff
      decreases |pending|
    {
      var cid :| cid in pending;
      if table[cid].updatedAt < cutoff {
        ids := ids + {cid};
      }
      pending := pending - {cid};
    }
  }

  class ConversationManager {
    var conversations: map<string, Conversation>
    var sessionToConversation: map<string, string>

    constructor ()
      ensures conversations == map[] && sessionToConversation == map[]
    {
      conversations, sessionToConversation := map[], map[];
    }

    /**
     * `create_conversation`: a fresh empty conversation under the new id; the
     * session now maps to it, and a conversation it mapped to before stays in the table.
     */
    method CreateConversation(sessionId: string, md: Option<map<string, Json>>, newId: string, now: int)
      returns (cid: string)
      modifies this
      ensures cid == newId && cid in conversations && fresh(conversations[cid])
      ensures conversations[cid].Value() == ConversationValue(newId, sessionId, [], now, now, md, 50)
      ensures conversations == old(conversations)[cid := conversations[cid]]
      ensures sessionToConversation == old(sessionToConversation)[sessionId := cid]
    {
      var conversation := new Conversation(ConversationValue(newId, sessionId, [], now, now, md, 50));
      conversations := conversations[newId := conversation];
      sessionToConversation := sessionToConversation[sessionId := newId];
      return newId;
    }

    /** `get_or_create_conversation`: a known session gives its id and nothing is created. */
    method GetOrCreateConversation(sessionId: string, md: Option<map<string, Json>>, newId: string, now: int)
      returns (cid: string)
      modifies this
      ensures sessionId in old(sessionToConversation) ==>
                cid == old(sessionToConversation)[sessionId]
                && conversations == old(conversations) && sessionToConversation == old(sessionToConversation)
      ensures sessionId !in old(sessionToConversation) ==>
                cid == newId && cid in conversations && fresh(conversations[cid])
                && conversations[cid].Value() == ConversationValue(newId, sessionId, [], now, now, md, 50)
                && conversations == old(conversations)[cid := conversations[cid]]
                && sessionToConversation == old(sessionToConversation)[sessionId := cid]
    {
      if sessionId in sessionToConversation {
        return sessionToConversation[sessionId];
      }
      cid := CreateConversation(sessionId, md, newId, now);
    }

    /**
     * `add_message`: the message goes to the session's conversation, made if
     * need be. A session mapped to an id the table no longer holds raises KeyError.
     */
    method AddMessage(sessionId: string, role: MessageRole, content: string, md: Option<map<string, Json>>,
                      newId: string, messageId: string, now: int)
      returns (r: Result<string, string>)
      modifies this, conversations.Values
      // a known session: the mapping and the table stay, and the message goes to the mapped conversation
      ensures sessionId in old(sessionToConversation) ==>
                conversations == old(conversations) && sessionToConversation == old(sessionToConversation)
      ensures sessionId in old(sessionToConversation) ==>
                (var cid := old(sessionToConversation)[sessionId];
                 (r.Err? <==> cid !in old(conversations))
                 && (r.Err? ==> r.error == cid)
                 && (r.Ok? ==>
                       var c := conversations[cid];
                       var added := old(c.messages) + [ConversationMessage(messageId, role, content, now, md)];
                       r.value == messageId && c.updatedAt == now
                       && c.messages == if |added| > c.maxMessages then PyTail(added, c.maxMessages) else added))
      // a new session: a fresh conversation holding just the message, mapped from the session
      ensures sessionId !in old(sessionToConversation) ==>
                r == Ok(messageId) && newId in conversations && fresh(conversations[newId])
                && conversations == old(conversations)[newId := conversations[newId]]
                && sessionToConversation == old(sessionToConversation)[sessionId := newId]
                && conversations[newId].Value()
                   == ConversationValue(newId, sessionId, [ConversationMessage(messageId, role, content, now, md)], now, now, None, 50)
      // every other conversation keeps its messages and its last update
      ensures var cid := if sessionId in old(sessionToConversation) then old(sessionToConversation)[sessionId] else newId;
              forall c | c in old(conversations.Values) && (r.Err? || c != conversations[cid]) ::
                c.messages == old(c.messages) && c.updatedAt == old(c.updatedAt)
    {
      var cid := GetOrCreateConversation(sessionId, None, newId, now);
      if cid !in conversations {
        return Err(cid);
      }
      var conversation := conversations[cid];
      var mid := conversation.AddMessage(role, content, md, messageId, now);
      r := Ok(mid);
    }

    /** `get_conversation`: the session's conversation, if it is mapped and the table holds it. */
    function GetConversation(sessionId: string): (c: Option<Conversation>)
      reads this
      ensures c.Some? <==> sessionId in sessionToConversation && sessionToConversation[sessionId] in conversations
      ensures c.Some? ==> c.value == conversations[sessionToConversation[sessionId]]
    {
      if sessionId !in sessionToConversation then None
      else
        var cid := sessionToConversation[sessionId];
        if cid in conversations then Some(conversations[cid]) else None
    }

    /** `get_conversation_messages`: the recent messages when a (non-zero) bound is given, all otherwise. */
    function ConversationMessages(sessionId: string, maxMessages: Option<int>): (r: seq<ConversationMessage>)
      reads this, conversations.Values
      ensures GetConversation(sessionId).None? ==> r == []
      ensures GetConversation(sessionId).Some? && (maxMessages.None? || maxMessages.value == 0) ==>
                r == GetConversation(sessionId).value.messages
      ensures GetConversation(sessionId).Some? && maxMessages.Some? && maxMessages.value != 0 ==>
                r == GetConversation(sessionId).value.RecentMessages(maxMessages.value)
      ensures GetConversation(sessionId).Some? && maxMessages.Some? && 0 < maxMessages.value ==>
                var all := GetConversation(sessionId).value.messages;
                |r| == (if maxMessages.value < |all| then maxMessages.value else |all|) && r == all[|all| - |r|..]
    {
      match GetConversation(sessionId)
      case None => []
      case Some(c) =>
        if maxMessages.Some? && maxMessages.value != 0 then c.RecentMessages(maxMessages.value) else c.messages
    }

    /** `get_context_for_llm`: the context messages as role and content. */
    method ContextForLlm(sessionId: string, maxTokens: Option<int>) returns (r: seq<LlmMessage>)
      ensures GetConversation(sessionId).None? ==> r == []
      ensures GetConversation(sessionId).Some? && (maxTokens.None? || maxTokens.value == 0) ==>
                r == ForLlm(GetConversation(sessionId).value.messages)
      ensures GetConversation(sessionId).Some? && maxTokens.Some? && maxTokens.value != 0 ==>
                r == ForLlm(ContextSuffix(GetConversation(sessionId).value.messages, maxTokens.value))
    {
      var conversation := GetConversation(sessionId);
      if conversation.None? {
        return [];
      }
      var contextMessages := conversation.value.MessagesForContext(maxTokens);
      r := [];
      var i := 0;
      while i < |contextMessages|
        invariant 0 <= i <= |contextMessages|
        invariant r == ForLlm(contextMessages[..i])
      {
        r := r + [LlmMessage(RoleValue(contextMessages[i].role), contextMessages[i].content)];
        assert ForLlm(contextMessages[..i + 1]) == ForLlm(contextMessages[..i]) + [LlmMessage(RoleValue(contextMessages[i].role), contextMessages[i].content)];
        i := i + 1;
      }
      assert contextMessages[..i] == contextMessages;
    }

    /** `get_conversation_summary`: None stands for the empty dictionary returned for an unknown session. */
    function ConversationSummary(sessionId: string): (s: Option<Summary>)
      reads this, conversations.Values
      ensures s.Some? <==> GetConversation(sessionId).Some?
      ensures s.Some? ==> s.value.messageCount == |GetConversation(sessionId).value.messages|
                          && s.value.sessionId == GetConversation(sessionId).value.sessionId
      ensures s.Some? ==> var c := GetConversation(sessionId).value;
                          s.value.conversationId == c.id && s.value.createdAt == c.createdAt
                          && s.value.updatedAt == c.updatedAt && s.value.metadata == c.metadata
    {
      match GetConversation(sessionId)
      case None => None
      case Some(c) => Some(Summary(c.id, c.sessionId, |c.messages|, c.createdAt, c.updatedAt, c.metadata))
    }

    /** `clear_conversation`: False for an unknown session; otherwise the mapping and its conversation go. */
    method ClearConversation(sessionId: string) returns (cleared: bool)
      modifies this
      ensures cleared <==> sessionId in old(sessionToConversation)
      ensures !cleared ==> conversations == old(conversations) && sessionToConversation == old(sessionToConversation)
      ensures cleared ==> conversations == old(conversations) - {old(sessionToConversation)[sessionId]}
                          && sessionToConversation == old(sessionToConversation) - {sessionId}
    {
      if sessionId !in sessionToConversation {
        return false;
      }
      var cid := sessionToConversation[sessionId];
      if cid in conversations {
        conversations := conversations - {cid};
      }
      sessionToConversation := sessionToConversation - {sessionId};
      return true;
    }

    /**
     * `cleanup_old_conversations`: exactly the conversations updated before
     * `now - max_age_hours` go, and so does the mapping of each one's session,
     * whichever conversation that mapping names; the count of removed conversations is returned.
     */
    method CleanupOldConversations(maxAgeHours: int, now: int) returns (removed: nat)
      modifies this
      ensures var cutoff := now - Hours(maxAgeHours);
              removed == |old(StaleIn(conversations, cutoff))|
              && conversations == old(conversations) - old(StaleIn(conversations, cutoff))
              && sessionToConversation == old(sessionToConversation) - old(SessionsOf(conversations, StaleIn(conversations, cutoff)))
    {
      var cutoff := now - Hours(maxAgeHours);
      var toRemove := StaleIds(conversations, cutoff);
      ghost var table := conversations;
      var rest := toRemove;
      while rest != {}
        invariant rest <= toRemove <= table.Keys
        invariant conversations == table - (toRemove - rest)
        invariant sessionToConversation == old(sessionToConversation) - SessionsOf(table, toRemove - rest)
        decreases |rest|
      {
        var cid :| cid in rest;
        var conversation := conversations[cid];
        if conversation.sessionId in sessionToConversation {
          sessionToConversation := sessionToConversation - {conversation.sessionId};
        }
        RemoveOne(table, toRemove - rest, cid);
        RemoveOne(old(sessionToConversation), SessionsOf(table, toRemove - rest), conversation.sessionId);
        conversations := conversations - {cid};
        SessionsOfAdd(table, toRemove - rest, cid);
        assert toRemove - (rest - {cid}) == (toRemove - rest) + {cid};
        rest := rest - {cid};
      }
      removed := |toRemove|;
    }

    /** `export_conversation`: None stands for the empty dictionary returned for an unknown session. */
    function ExportConversation(sessionId: string): (d: Option<ConversationData>)
      reads this, conversations.Values
      ensures d.Some? <==> GetConversation(sessionId).Some?
      ensures d.Some? ==> FromDict(d.value) == SettleValue(GetConversation(sessionId).value.Value())
    {
      match GetConversation(sessionId)
      case None => None
      case Some(c) => RoundTrip(c.Value()); Some(ToDict(c.Value()))
    }

    /** `import_conversation`: the conversation read from `data` is stored under its id and its session maps to it. */
    method ImportConversation(data: ConversationData) returns (cid: string)
      modifies this
      ensures cid == data.id && cid in conversations && fresh(conversations[cid])
      ensures conversations[cid].Value() == FromDict(data)
      ensures conversations == old(conversations)[cid := conversations[cid]]
      ensures sessionToConversation == old(sessionToConversation)[data.sessionId := cid]
    {
      var conversation := new Conversation(FromDict(data));
      conversations := conversations[conversation.id := conversation];
      sessionToConversation := sessionToConversation[conversation.sessionId := conversation.id];
      return conversation.id;
    }
  }
}

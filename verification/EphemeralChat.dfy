/**
 Process-local Temporary Chat sessions.  A session key is Absent, then Active,
 then Retired; the ids of its operations are remembered until it ends.
 */
module EphemeralChats {
  import opened Prelude

  /** Conversation id and branch id. */
  type Key = (string, string)

  /** Messages and cancellation tokens are opaque. */
  type Message = nat
  type Token = nat

  datatype SessionState = Active | Retired | Absent

  datatype Operation = Operation(key: Key, token: Token)

  datatype Chat = Chat(
    conversations: map<Key, seq<Message>>,
    operations: map<string, Operation>,
    operationIds: map<Key, set<string>>,
    retired: set<Key>,
    cancelled: set<Token>)
  {
    /** Every live operation belongs to an active session that remembers its id. */
    ghost predicate Valid() {
      && operationIds.Keys == conversations.Keys
      && conversations.Keys !! retired
      && forall id <- operations ::
           operations[id].key in operationIds && id in operationIds[operations[id].key]
    }
  }

  const NO_CHATS := Chat(map[], map[], map[], {}, {})

  function StateOf(c: Chat, key: Key): SessionState {
    if key in c.conversations then Active else if key in c.retired then Retired else Absent
  }

  predicate MayBegin(c: Chat, key: Key) { key !in c.retired && key !in c.conversations }

  function Begun(c: Chat, key: Key): Chat {
    if MayBegin(c, key)
    then c.(conversations := c.conversations[key := []], operationIds := c.operationIds[key := {}])
    else c
  }

  function Appended(c: Chat, key: Key, message: Message): Chat {
    if key in c.conversations
    then c.(conversations := c.conversations[key := c.conversations[key] + [message]])
    else c
  }

  function Created(c: Chat, key: Key, id: string, token: Token): Chat {
    if key in c.conversations && key in c.operationIds
    then c.(operationIds := c.operationIds[key := c.operationIds[key] + {id}],
            operations := c.operations[id := Operation(key, token)])
    else c
  }

  function Finished(c: Chat, id: string): Chat {
    c.(operations := c.operations - {id})
  }

  function Cancelled(c: Chat, id: string): Chat {
    if id in c.operations
    then c.(operations := c.operations - {id}, cancelled := c.cancelled + {c.operations[id].token})
    else c
  }

  /** The live operations of one session. */
  function LiveOperations(c: Chat, key: Key): set<string> {
    set id | id in c.operations && c.operations[id].key == key
  }

  function LiveTokens(c: Chat, key: Key): set<Token> {
    set id | id in c.operations && c.operations[id].key == key :: c.operations[id].token
  }

  function Ended(c: Chat, key: Key): Chat {
    if key !in c.conversations then c
    else Chat(c.conversations - {key}, c.operations - LiveOperations(c, key), c.operationIds - {key},
              c.retired + {key}, c.cancelled + LiveTokens(c, key))
  }

  lemma ActionsKeepValid(c: Chat, key: Key, id: string, token: Token, message: Message)
    requires c.Valid()
    ensures Begun(c, key).Valid() && Appended(c, key, message).Valid() && Created(c, key, id, token).Valid()
    ensures Finished(c, id).Valid() && Cancelled(c, id).Valid()
  {
  }

  lemma EndedValid(c: Chat, key: Key)
    requires c.Valid()
    ensures Ended(c, key).Valid()
    ensures key in c.conversations ==> LiveOperations(c, key) <= c.operationIds[key]
  {
  }

  /** A key is never retired in the step that follows its absence. */
  ghost predicate NoneSkipped(states: seq<SessionState>) {
    forall i :: 0 <= i < |states| - 1 ==> states[i] == Absent ==> states[i + 1] != Retired
  }

  lemma {:induction false} ThroughActive(states: seq<SessionState>, i: nat, j: nat) returns (k: nat)
    requires NoneSkipped(states) && i <= j < |states| && states[i] == Absent && states[j] == Retired
    ensures i < k < j && states[k] == Active
    decreases j
  {
    assert states[j - 1 + 1] == Retired;
    if states[j - 1] == Active { k := j - 1; } else { k := ThroughActive(states, i, j - 1); }
  }

  class EphemeralChatState {
    var conversations: map<Key, seq<Message>>
    var operations: map<string, Operation>
    var operationIds: map<Key, set<string>>
    var retired: set<Key>
    /** The tokens that have been cancelled, wherever they are held. */
    var cancelled: set<Token>

    ghost function View(): Chat
      reads this
    {
      Chat(conversations, operations, operationIds, retired, cancelled)
    }

    constructor ()
      ensures View() == NO_CHATS && View().Valid()
    {
      conversations, operations, operationIds, retired, cancelled := map[], map[], map[], {}, {};
    }

    method Begin(key: Key) returns (begun: bool)
      requires View().Valid()
      modifies this
      ensures View().Valid() && View() == Begun(old(View()), key)
      ensures begun <==> old(StateOf(View(), key)) == Absent
      ensures begun <==> key !in old(retired) && key !in old(conversations)
      ensures begun ==> conversations == old(conversations)[key := []] && operationIds == old(operationIds)[key := {}]
      ensures !begun ==> View() == old(View())
      ensures begun ==> StateOf(View(), key) == Active
    {
      if key in retired { return false; }
      if key in conversations { return false; }
      conversations := conversations[key := []];
      operationIds := operationIds[key := {}];
      return true;
    }

    method AppendMessage(key: Key, message: Message) returns (appended: bool)
      requires View().Valid()
      modifies `conversations
      ensures View().Valid() && View() == Appended(old(View()), key, message)
      ensures appended ==> key in old(conversations) && conversations == old(conversations)[key := old(conversations)[key] + [message]]
      ensures !appended ==> conversations == old(conversations)
      ensures appended <==> StateOf(View(), key) == Active
    {
      if key !in conversations { return false; }
      conversations := conversations[key := conversations[key] + [message]];
      return true;
    }

    /** `proposed` is the caller's id, or the one minted for it. */
    method CreateOperation(key: Key, proposed: string, token: Token) returns (created: bool)
      requires View().Valid()
      modifies this
      ensures View().Valid() && View() == Created(old(View()), key, proposed, token)
      ensures created ==>
                && proposed in operations && operations[proposed] == Operation(key, token)
                && operationIds[key] == old(operationIds[key]) + {proposed}
      ensures !created ==> operations == old(operations) && operationIds == old(operationIds)
      ensures created <==> StateOf(View(), key) == Active
    {
      if key !in conversations { return false; }
      if key !in operationIds { assert false; }
      operationIds := operationIds[key := operationIds[key] + {proposed}];
      operations := operations[proposed := Operation(key, token)];
      return true;
    }

    method FinishOperation(id: string)
      requires View().Valid()
      modifies `operations
      ensures View().Valid() && View() == Finished(old(View()), id)
      ensures operations == old(operations) - {id}
    {
      operations := operations - {id};
    }

    method CancelOperation(id: string) returns (found: bool)
      requires View().Valid()
      modifies this
      ensures View().Valid() && View() == Cancelled(old(View()), id)
      ensures found <==> id in old(operations)
      ensures id !in operations
      ensures found ==> old(operations[id].token) in cancelled
    {
      if id !in operations { return false; }
      cancelled := cancelled + {operations[id].token};
      operations := operations - {id};
      return true;
    }

    /** Cancels and removes the live operations of one session. */
    method CancelLive(key: Key) returns (ids: set<string>)
      modifies `operations, `cancelled
      ensures ids == old(LiveOperations(View(), key))
      ensures operations == old(operations) - ids
      ensures cancelled == old(cancelled) + old(LiveTokens(View(), key))
    {
      var remaining := set id | id in operations && operations[id].key == key;
      ids := {};
      while remaining != {}
        invariant remaining + ids == old(LiveOperations(View(), key)) && remaining !! ids
        invariant operations == old(operations) - ids
        invariant cancelled == old(cancelled) + set id | id in ids :: old(operations)[id].token
        decreases remaining
      {
        var id :| id in remaining;
        remaining := remaining - {id};
        ids := ids + {id};
        cancelled := cancelled + {operations[id].token};
        operations := operations - {id};
      }
      assert (set id | id in ids :: old(operations)[id].token) == old(LiveTokens(View(), key));
    }

    /**
     Ends a session: every operation id it ever created comes back, each of its
     live operations is cancelled, and nobody else's is.
     */
    method End(key: Key) returns (ended: Option<set<string>>)
      requires View().Valid()
      modifies this
      ensures View().Valid() && View() == Ended(old(View()), key)
      ensures ended == if key in old(conversations) then Some(old(operationIds[key])) else None
      ensures ended.Some? ==>
                && key in retired && key !in conversations
                && (forall id :: id in operations <==> id in old(operations) && old(operations)[id].key != key)
                && (forall token :: token in cancelled <==>
                      token in old(cancelled) || exists id :: id in old(operations) && old(operations)[id] == Operation(key, token))
    {
      if key !in conversations { return None; }
      EndedValid(View(), key);
      conversations := conversations - {key};
      retired := retired + {key};
      var all := operationIds[key];
      operationIds := operationIds - {key};
      var live := CancelLive(key);
      assert live == old(LiveOperations(View(), key));
      assert all + live == all;
      return Some(all + live);
    }
  }
}

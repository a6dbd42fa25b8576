/** The chat message shared by the client log, the request body of the chat
    function and the stored `ai_conversation` column. */
module Messages {

  datatype Role = User | Assistant

  datatype Message = Message(role: Role, content: string)

  /** The role as it is serialised: `'user'` or `'assistant'`. */
  function RoleName(r: Role): string {
    match r
    case User => "user"
    case Assistant => "assistant"
  }

  /** `log.filter(msg => msg.role === 'user')`. */
  function UserMessages(log: seq<Message>): (r: seq<Message>)
    ensures |r| <= |log|
    ensures forall i :: 0 <= i < |r| ==> r[i].role == User
    ensures forall m :: m in log && m.role == User ==> m in r
    ensures forall x {:trigger multiset(r)[x]} :: multiset(r)[x] == if x.role == User then multiset(log)[x] else 0
  {
    if |log| == 0 then []
    else
      var init := UserMessages(log[..|log| - 1]);
      var m := log[|log| - 1];
      assert log == log[..|log| - 1] + [m];
      assert multiset(log) == multiset(log[..|log| - 1]) + multiset{m};
      if m.role == User then init + [m] else init
  }

  /** The number of messages written by the submitter. */
  function CountUser(log: seq<Message>): nat {
    |UserMessages(log)|
  }

  /** The user count is additive over concatenation. */
  lemma {:induction false} CountUserAppend(a: seq<Message>, b: seq<Message>)
    ensures CountUser(a + b) == CountUser(a) + CountUser(b)
    decreases |b|
  {
    if |b| == 0 {
      assert a + b == a;
    } else {
      var b' := b[..|b| - 1];
      assert (a + b)[..|a + b| - 1] == a + b';
      CountUserAppend(a, b');
    }
  }

  /** The filter keeps the order: the submitter messages of two logs joined
      are those of the first, then those of the second. */
  lemma {:induction false} UserMessagesAppend(a: seq<Message>, b: seq<Message>)
    ensures UserMessages(a + b) == UserMessages(a) + UserMessages(b)
    decreases |b|
  {
    if |b| == 0 {
      assert a + b == a;
    } else {
      var b' := b[..|b| - 1];
      assert (a + b)[..|a + b| - 1] == a + b';
      UserMessagesAppend(a, b');
    }
  }

  /** Appending one message raises the count by one exactly when it is the
      submitter's. */
  lemma CountUserSnoc(log: seq<Message>, m: Message)
    ensures CountUser(log + [m]) == CountUser(log) + (if m.role == User then 1 else 0)
  {
    assert (log + [m])[..|log|] == log;
  }

  /** An assistant message at the front is not counted. */
  lemma CountUserAfterAssistant(m: Message, log: seq<Message>)
    requires m.role == Assistant
    ensures CountUser([m] + log) == CountUser(log)
  {
    CountUserAppend([m], log);
    assert [m][..0] == [];
  }
}

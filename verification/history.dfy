/**
 * The chat-history fold of the chat endpoint (api/index.py, lines 179-184).
 * The client sends a flat list of role/content messages. The fold turns it
 * into the list of (question, answer) turns that the retrieval chain expects.
 */
module History {

  /** The role of a message. Only "user" and "assistant" have a meaning. Any other role is ignored. */
  datatype Role = User | Assistant | Other(name: string)

  datatype Message = Message(role: Role, content: string)

  /** One (question, answer) pair of the history handed to the chain. */
  datatype Turn = Turn(question: string, answer: string)

  /** The wire spelling of a role. */
  function RoleName(r: Role): string
  {
    match r
    case User => "user"
    case Assistant => "assistant"
    case Other(name) => name
  }

  /** Reads a role string. The comparison is exact and case-sensitive. */
  function ParseRole(s: string): (r: Role)
    ensures RoleName(r) == s
    ensures r == User <==> s == "user"
    ensures r == Assistant <==> s == "assistant"
  {
    if s == "user" then User
    else if s == "assistant" then Assistant
    else Other(s)
  }

  /** A role that parsing can produce: `Other` never carries a reserved name. */
  predicate Canonical(r: Role)
  {
    r.Other? ==> r.name != "user" && r.name != "assistant"
  }

  lemma ParseRoleName(r: Role)
    requires Canonical(r)
    ensures ParseRole(RoleName(r)) == r
  {
  }

  // ----- The fold, as the source computes it -----

  /** One iteration of the loop: how a single message changes the history built so far. */
  function Step(acc: seq<Turn>, m: Message): (r: seq<Turn>)
    ensures m.role == User ==> r == acc + [Turn(m.content, "")]
    ensures m.role == Assistant && |acc| > 0 ==>
              && |r| == |acc|
              && (forall i :: 0 <= i < |acc| - 1 ==> r[i] == acc[i])
              && r[|acc| - 1].question == acc[|acc| - 1].question
              && r[|acc| - 1].answer == m.content
    ensures (m.role.Other? || (m.role == Assistant && |acc| == 0)) ==> r == acc
  {
    match m.role
    case User => acc + [Turn(m.content, "")]
    case Assistant =>
      if |acc| == 0 then acc
      else acc[|acc| - 1 := Turn(acc[|acc| - 1].question, m.content)]
    case Other(_) => acc
  }

  /** Number of messages whose role is "user". */
  function CountUsers(msgs: seq<Message>): nat
  {
    if |msgs| == 0 then 0
    else (if msgs[0].role == User then 1 else 0) + CountUsers(msgs[1..])
  }

  /** The contents of the "user" messages, in input order. */
  function UserContents(msgs: seq<Message>): (qs: seq<string>)
    ensures |qs| == CountUsers(msgs)
  {
    if |msgs| == 0 then []
    else if msgs[0].role == User then [msgs[0].content] + UserContents(msgs[1..])
    else UserContents(msgs[1..])
  }

  /** The questions of a history, in order. */
  function Questions(ts: seq<Turn>): (qs: seq<string>)
  {
    seq(|ts|, i requires 0 <= i < |ts| => ts[i].question)
  }

  /**
   * The loop run from an arbitrary history `acc` over `msgs`.
   * Every user message adds one turn, questions keep their order, and only the
   * answer of the last turn of `acc` can change.
   */
  function FoldFrom(acc: seq<Turn>, msgs: seq<Message>): (r: seq<Turn>)
    ensures |r| == |acc| + CountUsers(msgs)
    ensures Questions(r) == Questions(acc) + UserContents(msgs)
    ensures forall i :: 0 <= i < |acc| - 1 ==> r[i] == acc[i]
    decreases |msgs|
  {
    if |msgs| == 0 then acc
    else
      var next := Step(acc, msgs[0]);
      assert msgs[0].role == User ==> Questions(next) == Questions(acc) + [msgs[0].content];
      assert msgs[0].role != User ==> Questions(next) == Questions(acc);
      FoldFrom(next, msgs[1..])
  }

  /** The history handed to the chain: the loop started from the empty list. */
  function FoldHistory(msgs: seq<Message>): (r: seq<Turn>)
    ensures |r| == CountUsers(msgs)
    ensures Questions(r) == UserContents(msgs)
  {
    FoldFrom([], msgs)
  }

  // ----- An independent, look-ahead description of the same history -----

  /**
   * The answer that a block of messages gives to the turn before it. The block
   * ends at the next "user" message. The last "assistant" message of the block
   * wins, and `current` stands when there is none.
   */
  function AnswerIn(rest: seq<Message>, current: string): string
    decreases |rest|
  {
    if |rest| == 0 || rest[0].role == User then current
    else if rest[0].role == Assistant then AnswerIn(rest[1..], rest[0].content)
    else AnswerIn(rest[1..], current)
  }

  /**
   * One turn per "user" message. Its answer is the last "assistant" message before
   * the next "user" message, or "" when there is none. Everything before the first
   * "user" message, and every other role, contributes nothing.
   */
  function Pairing(msgs: seq<Message>): seq<Turn>
    decreases |msgs|
  {
    if |msgs| == 0 then []
    else if msgs[0].role == User then [Turn(msgs[0].content, AnswerIn(msgs[1..], ""))] + Pairing(msgs[1..])
    else Pairing(msgs[1..])
  }

  /** `acc` after the leading non-user block of `msgs` has answered its last turn. */
  function Settle(acc: seq<Turn>, msgs: seq<Message>): seq<Turn>
  {
    if |acc| == 0 then []
    else acc[..|acc| - 1] + [Turn(acc[|acc| - 1].question, AnswerIn(msgs, acc[|acc| - 1].answer))]
  }

  lemma FoldFromUnfold(acc: seq<Turn>, msgs: seq<Message>)
    requires |msgs| > 0
    ensures FoldFrom(acc, msgs) == FoldFrom(Step(acc, msgs[0]), msgs[1..])
  {
  }

  lemma SettleNothing(acc: seq<Turn>)
    ensures Settle(acc, []) == acc
  {
    if |acc| > 0 {
      assert acc == acc[..|acc| - 1] + [acc[|acc| - 1]];
    }
  }

  /** After a "user" message the open turn is the new one; the earlier turns are settled as they are. */
  lemma {:induction false} SettleStepUser(acc: seq<Turn>, m: Message, rest: seq<Message>)
    requires m.role == User
    ensures Settle(Step(acc, m), rest) == acc + [Turn(m.content, AnswerIn(rest, ""))]
  {
    var next := Step(acc, m);
    assert next[..|next| - 1] == acc;
  }

  /** A block that opens with a "user" message leaves the answer of the open turn alone. */
  lemma {:induction false} SettleBeforeUser(acc: seq<Turn>, msgs: seq<Message>)
    requires |msgs| > 0 && msgs[0].role == User
    ensures Settle(acc, msgs) == acc
  {
    SettleNothing(acc);
  }

  lemma {:induction false} SettleStepAssistant(acc: seq<Turn>, msgs: seq<Message>)
    requires |msgs| > 0 && msgs[0].role == Assistant && |acc| > 0
    ensures Settle(Step(acc, msgs[0]), msgs[1..]) == Settle(acc, msgs)
  {
    var next := Step(acc, msgs[0]);
    assert next[..|next| - 1] == acc[..|acc| - 1];
  }

  /** A "user" message moves from the look-ahead side to the history without changing the whole. */
  lemma {:induction false} StepUserWhole(acc: seq<Turn>, msgs: seq<Message>)
    requires |msgs| > 0 && msgs[0].role == User
    ensures Settle(Step(acc, msgs[0]), msgs[1..]) + Pairing(msgs[1..]) == Settle(acc, msgs) + Pairing(msgs)
  {
    var m, rest := msgs[0], msgs[1..];
    var t := Turn(m.content, AnswerIn(rest, ""));
    var p := Pairing(rest);
    SettleStepUser(acc, m, rest);
    SettleBeforeUser(acc, msgs);
    assert Pairing(msgs) == [t] + p;
    assert (acc + [t]) + p == acc + ([t] + p);
  }

  /** So does any other message. */
  lemma {:induction false} StepOtherWhole(acc: seq<Turn>, msgs: seq<Message>)
    requires |msgs| > 0 && msgs[0].role != User
    ensures Settle(Step(acc, msgs[0]), msgs[1..]) + Pairing(msgs[1..]) == Settle(acc, msgs) + Pairing(msgs)
  {
    assert Pairing(msgs) == Pairing(msgs[1..]);
    if msgs[0].role == Assistant && |acc| > 0 {
      SettleStepAssistant(acc, msgs);
    } else {
      assert Step(acc, msgs[0]) == acc;
    }
  }

  lemma {:induction false} FoldFromSettles(acc: seq<Turn>, msgs: seq<Message>)
    ensures FoldFrom(acc, msgs) == Settle(acc, msgs) + Pairing(msgs)
    decreases |msgs|
  {
    if |msgs| == 0 {
      SettleNothing(acc);
    } else {
      FoldFromSettles(Step(acc, msgs[0]), msgs[1..]);
      FoldFromUnfold(acc, msgs);
      if msgs[0].role == User {
        StepUserWhole(acc, msgs);
      } else {
        StepOtherWhole(acc, msgs);
      }
    }
  }

  /** The state-machine fold and the look-ahead description agree on every input. */
  lemma {:induction false} FoldHistoryIsPairing(msgs: seq<Message>)
    ensures FoldHistory(msgs) == Pairing(msgs)
  {
    FoldFromSettles([], msgs);
  }

  // ----- Properties of the fold -----

  /** Folding a concatenation is folding the second part from the result of the first. */
  lemma {:induction false} FoldFromAppend(acc: seq<Turn>, a: seq<Message>, b: seq<Message>)
    ensures FoldFrom(acc, a + b) == FoldFrom(FoldFrom(acc, a), b)
    decreases |a|
  {
    if |a| > 0 {
      assert (a + b)[0] == a[0];
      assert (a + b)[1..] == a[1..] + b;
      FoldFromAppend(Step(acc, a[0]), a[1..], b);
    } else {
      assert a + b == b;
    }
  }

  /** Messages before the first "user" message, such as greetings and upload notices, are dropped. */
  lemma {:induction false} LeadingMessagesDropped(pre: seq<Message>, msgs: seq<Message>)
    requires CountUsers(pre) == 0
    ensures FoldHistory(pre + msgs) == FoldHistory(msgs)
  {
    FoldFromAppend([], pre, msgs);
  }

  /** `msgs` without the messages whose role is neither "user" nor "assistant". */
  function DropOthers(msgs: seq<Message>): (r: seq<Message>)
    ensures forall i :: 0 <= i < |r| ==> !r[i].role.Other?
    ensures CountUsers(r) == CountUsers(msgs)
    decreases |msgs|
  {
    if |msgs| == 0 then []
    else if msgs[0].role.Other? then DropOthers(msgs[1..])
    else [msgs[0]] + DropOthers(msgs[1..])
  }

  lemma {:induction false} FoldFromIgnoresOthers(acc: seq<Turn>, msgs: seq<Message>)
    ensures FoldFrom(acc, DropOthers(msgs)) == FoldFrom(acc, msgs)
    decreases |msgs|
  {
    if |msgs| > 0 {
      if msgs[0].role.Other? {
        FoldFromIgnoresOthers(acc, msgs[1..]);
      } else {
        var d := [msgs[0]] + DropOthers(msgs[1..]);
        assert d[0] == msgs[0] && d[1..] == DropOthers(msgs[1..]);
        FoldFromIgnoresOthers(Step(acc, msgs[0]), msgs[1..]);
      }
    }
  }

  /** Messages with any role other than "user" or "assistant" have no effect on the history. */
  lemma {:induction false} OtherRolesIgnored(msgs: seq<Message>)
    ensures FoldHistory(DropOthers(msgs)) == FoldHistory(msgs)
  {
    FoldFromIgnoresOthers([], msgs);
  }

  lemma {:induction false} NoUsersNoTurns(block: seq<Message>)
    requires CountUsers(block) == 0
    ensures Pairing(block) == []
    decreases |block|
  {
    if |block| > 0 {
      NoUsersNoTurns(block[1..]);
    }
  }

  lemma {:induction false} CountUsersAppend(a: seq<Message>, b: seq<Message>)
    ensures CountUsers(a + b) == CountUsers(a) + CountUsers(b)
    decreases |a|
  {
    if |a| == 0 {
      assert a + b == b;
    } else {
      assert (a + b)[1..] == a[1..] + b;
      CountUsersAppend(a[1..], b);
    }
  }

  /** Number of messages whose role is "assistant". */
  function CountAssistants(msgs: seq<Message>): nat
  {
    if |msgs| == 0 then 0
    else (if msgs[0].role == Assistant then 1 else 0) + CountAssistants(msgs[1..])
  }

  /** A block without "user" messages ending in an "assistant" message answers with that message. */
  lemma {:induction false} LastAssistantWins(block: seq<Message>, a: string, current: string)
    requires CountUsers(block) == 0
    ensures AnswerIn(block + [Message(Assistant, a)], current) == a
    decreases |block|
  {
    if |block| == 0 {
      assert [Message(Assistant, a)][1..] == [];
    } else {
      assert (block + [Message(Assistant, a)])[1..] == block[1..] + [Message(Assistant, a)];
      var c := if block[0].role == Assistant then block[0].content else current;
      LastAssistantWins(block[1..], a, c);
    }
  }

  /** A block without "user" and "assistant" messages leaves the answer as it was. */
  lemma {:induction false} NoAssistantKeepsAnswer(block: seq<Message>, current: string)
    requires CountUsers(block) == 0 && CountAssistants(block) == 0
    ensures AnswerIn(block, current) == current
    decreases |block|
  {
    if |block| > 0 {
      NoAssistantKeepsAnswer(block[1..], current);
    }
  }

  /**
   * The turn a "user" message opens: its question is the message content and its
   * answer is decided by the messages after it, up to the end. All earlier turns
   * stay as they were.
   */
  lemma {:induction false} UserOpensTurn(pre: seq<Message>, q: string, block: seq<Message>)
    requires CountUsers(block) == 0
    ensures FoldHistory(pre + [Message(User, q)] + block)
         == FoldHistory(pre) + [Turn(q, AnswerIn(block, ""))]
  {
    var h := FoldHistory(pre);
    var u := Message(User, q);
    var open := h + [Turn(q, "")];
    FoldFromAppend([], pre + [u], block);
    FoldFromAppend([], pre, [u]);
    assert FoldFrom(h, [u]) == open by {
      assert [u][1..] == [];
    }
    FoldFromSettles(open, block);
    NoUsersNoTurns(block);
    assert open[..|open| - 1] == h;
  }

  /** A "user" message that no "assistant" message follows keeps the empty answer. */
  lemma {:induction false} UnansweredKeepsEmpty(pre: seq<Message>, q: string, block: seq<Message>)
    requires CountUsers(block) == 0 && CountAssistants(block) == 0
    ensures FoldHistory(pre + [Message(User, q)] + block) == FoldHistory(pre) + [Turn(q, "")]
  {
    UserOpensTurn(pre, q, block);
    NoAssistantKeepsAnswer(block, "");
  }

  /** With several "assistant" messages after one "user" message, the last one is the answer. */
  lemma {:induction false} LastAnswerKept(pre: seq<Message>, q: string, block: seq<Message>, a: string)
    requires CountUsers(block) == 0
    ensures FoldHistory(pre + [Message(User, q)] + (block + [Message(Assistant, a)]))
         == FoldHistory(pre) + [Turn(q, a)]
  {
    CountUsersAppend(block, [Message(Assistant, a)]);
    UserOpensTurn(pre, q, block + [Message(Assistant, a)]);
    LastAssistantWins(block, a, "");
  }

  // ----- Round trip with the client's message list -----

  /** The message list a client keeps for a history: each turn as a question followed by its answer. */
  function Flatten(ts: seq<Turn>): (msgs: seq<Message>)
    ensures |msgs| == 2 * |ts|
    ensures CountUsers(msgs) == |ts|
  {
    if |ts| == 0 then []
    else [Message(User, ts[0].question), Message(Assistant, ts[0].answer)] + Flatten(ts[1..])
  }

  /** A question followed by its answer adds exactly that turn. */
  lemma {:induction false} FoldFromOneExchange(acc: seq<Turn>, t: Turn)
    ensures FoldFrom(acc, [Message(User, t.question), Message(Assistant, t.answer)]) == acc + [t]
  {
    var two := [Message(User, t.question), Message(Assistant, t.answer)];
    var last := [Message(Assistant, t.answer)];
    var open := acc + [Turn(t.question, "")];
    assert two[1..] == last && last[1..] == [];
    FoldFromUnfold(acc, two);
    FoldFromUnfold(open, last);
    assert Step(open, last[0]) == acc + [t];
  }

  lemma {:induction false} FoldFromFlatten(acc: seq<Turn>, ts: seq<Turn>)
    ensures FoldFrom(acc, Flatten(ts)) == acc + ts
    decreases |ts|
  {
    if |ts| == 0 {
      assert acc + ts == acc;
    } else {
      var t := ts[0];
      var two := [Message(User, t.question), Message(Assistant, t.answer)];
      assert Flatten(ts) == two + Flatten(ts[1..]);
      FoldFromAppend(acc, two, Flatten(ts[1..]));
      FoldFromOneExchange(acc, t);
      FoldFromFlatten(acc + [t], ts[1..]);
      assert acc + [t] + ts[1..] == acc + ts;
    }
  }

  /**
   * A client history that opens with greetings and notices (no "user" message)
   * and then alternates question and answer folds back to exactly those turns.
   */
  lemma {:induction false} FlattenRoundTrip(notices: seq<Message>, ts: seq<Turn>)
    requires CountUsers(notices) == 0
    ensures FoldHistory(notices + Flatten(ts)) == ts
  {
    LeadingMessagesDropped(notices, Flatten(ts));
    FoldFromFlatten([], ts);
  }

  /**
   * The history a web client sends after one exchange: its greeting and an upload
   * notice come first, then the question and its answer.
   */
  lemma {:induction false} ClientHistoryAfterOneExchange(greeting: string, notice: string, q: string, a: string)
    ensures FoldHistory([Message(Assistant, greeting), Message(Assistant, notice),
                         Message(User, q), Message(Assistant, a)])
         == [Turn(q, a)]
  {
    var notices := [Message(Assistant, greeting), Message(Assistant, notice)];
    assert CountUsers(notices[1..][1..]) == 0;
    var ts := [Turn(q, a)];
    assert Flatten(ts[1..]) == [];
    FlattenRoundTrip(notices, ts);
    assert notices + Flatten(ts) == [Message(Assistant, greeting), Message(Assistant, notice),
                                      Message(User, q), Message(Assistant, a)];
  }

  /**
   * A web client appends its upload notice to the message list as an "assistant"
   * message and sends the whole list as history. A notice that arrives after an
   * answered question therefore replaces that answer in the folded history.
   */
  lemma {:induction false} UploadNoticeReplacesAnswer(greeting: string, q: string, a: string, notice: string)
    ensures FoldHistory([Message(Assistant, greeting), Message(User, q),
                         Message(Assistant, a), Message(Assistant, notice)])
         == [Turn(q, notice)]
  {
    var pre := [Message(Assistant, greeting)];
    var block := [Message(Assistant, a)];
    LastAnswerKept(pre, q, block, notice);
    assert |FoldHistory(pre)| == 0 by {
      assert pre[1..] == [];
    }
    assert pre + [Message(User, q)] + (block + [Message(Assistant, notice)])
        == [Message(Assistant, greeting), Message(User, q), Message(Assistant, a), Message(Assistant, notice)];
  }
}

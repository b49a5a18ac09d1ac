/** Two recognisers of complete tool exchanges, and windowing over their groups
    (roboagent/message.py, roboagent/context/manager.py). */
module Transcript {
  import opened Basics
  import opened Messages

  // ---- The language: a transcript is a concatenation of well-formed groups.

  predicate OpensExchange(m: AgentMessage) {
    m.AssistantMessage? && m.toolCalls != []
  }

  predicate Answers(call: ToolCall, m: AgentMessage) {
    m.ToolResultMessage? && m.toolCallId == call.id && m.toolName == call.name
  }

  /** A message of its own, or an assistant turn followed by one answer per call, in call order. */
  predicate WellFormedGroup(group: seq<AgentMessage>) {
    && group != []
    && if OpensExchange(group[0]) then
         && |group| == 1 + |group[0].toolCalls|
         && forall k | 1 <= k < |group| :: Answers(group[0].toolCalls[k - 1], group[k])
       else
         |group| == 1 && !group[0].ToolResultMessage?
  }

  ghost predicate WellFormedGroups(groups: seq<seq<AgentMessage>>) {
    forall i | 0 <= i < |groups| :: WellFormedGroup(groups[i])
  }

  /** The independent definition both recognisers are measured against. */
  ghost predicate Complete(messages: seq<AgentMessage>) {
    exists groups :: WellFormedGroups(groups) && Flatten(groups) == messages
  }

  // ---- First recogniser: the validator's automaton.

  /** `pending` are the calls of the open exchange, `position` the next one to be answered. */
  predicate Scan(messages: seq<AgentMessage>, pending: seq<ToolCall>, position: nat, complete: bool)
    requires position < |pending| || (pending == [] && position == 0)
  {
    if messages == [] then !(complete && pending != [])
    else if pending != [] then
      && Answers(pending[position], messages[0])
      && if position + 1 == |pending| then Scan(messages[1..], [], 0, complete)
         else Scan(messages[1..], pending, position + 1, complete)
    else if messages[0].ToolResultMessage? then false
    else if OpensExchange(messages[0]) then Scan(messages[1..], messages[0].toolCalls, 0, complete)
    else Scan(messages[1..], [], 0, complete)
  }

  ghost predicate ContentsWithin(messages: seq<AgentMessage>, limits: MediaLimits) {
    forall i | 0 <= i < |messages| :: WithinLimits(messages[i].content, limits)
  }

  method Validate(messages: seq<AgentMessage>, limits: MediaLimits, complete: bool) returns (ok: bool)
    ensures ok <==> ContentsWithin(messages, limits) && Scan(messages, [], 0, complete)
    ensures complete ==> (ok <==> ContentsWithin(messages, limits) && Complete(messages))
  {
    ValidatorLanguage(messages);
    var pending: seq<ToolCall>, position := [], 0;
    for index := 0 to |messages|
      invariant position < |pending| || (pending == [] && position == 0)
      invariant forall i | 0 <= i < index :: WithinLimits(messages[i].content, limits)
      invariant Scan(messages, [], 0, complete) == Scan(messages[index..], pending, position, complete)
    {
      var message := messages[index];
      assert messages[index..][1..] == messages[index + 1..];
      if !WithinLimits(message.content, limits) {
        return false;
      }
      if pending != [] {
        if !Answers(pending[position], message) {
          return false;
        }
        position := position + 1;
        if position == |pending| {
          pending, position := [], 0;
        }
      } else if message.ToolResultMessage? {
        return false;
      } else if OpensExchange(message) {
        pending := message.toolCalls;
      }
    }
    assert messages[|messages|..] == [];
    return !(complete && pending != []);
  }

  // ---- Second recogniser: grouping.

  predicate AllAnswers(messages: seq<AgentMessage>) {
    forall k | 0 <= k < |messages| :: messages[k].ToolResultMessage?
  }

  datatype ExchangeFault = Incomplete | Mismatched | Orphan

  function Groups(messages: seq<AgentMessage>): (r: Result<seq<seq<AgentMessage>>, ExchangeFault>) {
    if messages == [] then Ok([])
    else
      var head := messages[0];
      if OpensExchange(head) then
        var size := 1 + |head.toolCalls|;
        if size > |messages| || !AllAnswers(messages[1..size]) then Err(Incomplete)
        else if !WellFormedGroup(messages[..size]) then Err(Mismatched)
        else Prepend(messages[..size], Groups(messages[size..]))
      else if head.ToolResultMessage? then Err(Orphan)
      else Prepend([head], Groups(messages[1..]))
  }

  function Prepend(group: seq<AgentMessage>, rest: Result<seq<seq<AgentMessage>>, ExchangeFault>)
    : (r: Result<seq<seq<AgentMessage>>, ExchangeFault>)
  {
    match rest
    case Ok(groups) => Ok([group] + groups)
    case Err(fault) => Err(fault)
  }

  method MessageGroups(messages: seq<AgentMessage>)
    returns (r: Result<seq<seq<AgentMessage>>, ExchangeFault>)
    ensures r == Groups(messages)
    ensures r.Ok? <==> Complete(messages)
    ensures r.Ok? ==> WellFormedGroups(r.value) && Flatten(r.value) == messages
  {
    GroupsLanguage(messages);
    var groups: seq<seq<AgentMessage>> := [];
    var index := 0;
    assert messages[0..] == messages;
    PrependAllNone(Groups(messages));
    while index < |messages|
      invariant index <= |messages|
      invariant Groups(messages) == PrependAll(groups, Groups(messages[index..]))
    {
      var next := TakeGroup(messages, index);
      if next.Err? {
        return Err(next.error);
      }
      PrependAllSnoc(groups, next.value, Groups(messages[index + |next.value|..]));
      groups := groups + [next.value];
      index := index + |next.value|;
    }
    assert messages[index..] == [] && groups + [] == groups;
    return Ok(groups);
  }

  /** One step of the grouping loop: the group that starts at `index`, or why there is none. */
  method TakeGroup(messages: seq<AgentMessage>, index: nat)
    returns (r: Result<seq<AgentMessage>, ExchangeFault>)
    requires index < |messages|
    ensures r.Ok? ==>
      && r.value != [] && index + |r.value| <= |messages|
      && Groups(messages[index..]) == Prepend(r.value, Groups(messages[index + |r.value|..]))
    ensures r.Err? ==> Groups(messages[index..]) == Err(r.error)
  {
    var message := messages[index];
    if OpensExchange(message) {
      var count := |message.toolCalls|;
      if index + 1 + count > |messages| {
        return Err(Incomplete);
      }
      var group := messages[index..index + 1 + count];
      GroupStep(messages, index, count);
      if !AllAnswers(group[1..]) {
        return Err(Incomplete);
      }
      for position := 0 to count
        invariant forall k | 1 <= k <= position :: Answers(message.toolCalls[k - 1], group[k])
      {
        if !Answers(message.toolCalls[position], group[1 + position]) {
          return Err(Mismatched);
        }
      }
      return Ok(group);
    }
    if message.ToolResultMessage? {
      return Err(Orphan);
    }
    assert messages[index..][1..] == messages[index + 1..];
    return Ok([message]);
  }

  lemma GroupStep(messages: seq<AgentMessage>, index: nat, count: nat)
    requires index + 1 + count <= |messages|
    ensures var rest := messages[index..];
      && rest[..1 + count] == messages[index..index + 1 + count]
      && rest[1..1 + count] == messages[index..index + 1 + count][1..]
      && rest[1 + count..] == messages[index + 1 + count..]
  {
  }

  ghost function PrependAll(groups: seq<seq<AgentMessage>>, rest: Result<seq<seq<AgentMessage>>, ExchangeFault>)
    : Result<seq<seq<AgentMessage>>, ExchangeFault>
  {
    match rest
    case Ok(more) => Ok(groups + more)
    case Err(fault) => Err(fault)
  }

  lemma PrependAllNone(rest: Result<seq<seq<AgentMessage>>, ExchangeFault>)
    ensures PrependAll([], rest) == rest
  {
    if rest.Ok? {
      assert [] + rest.value == rest.value;
    }
  }

  lemma PrependAllSnoc(groups: seq<seq<AgentMessage>>, group: seq<AgentMessage>,
                       rest: Result<seq<seq<AgentMessage>>, ExchangeFault>)
    ensures PrependAll(groups, Prepend(group, rest)) == PrependAll(groups + [group], rest)
  {
    if rest.Ok? {
      assert groups + ([group] + rest.value) == (groups + [group]) + rest.value;
    }
  }

  // ---- Agreement of the two recognisers.

  /** Grouping finds the one factorisation of a transcript into well-formed groups. */
  lemma {:induction false} GroupsFactorise(groups: seq<seq<AgentMessage>>)
    requires WellFormedGroups(groups)
    ensures Groups(Flatten(groups)) == Ok(groups)
  {
    if groups != [] {
      var head, rest := groups[0], groups[1..];
      var messages := Flatten(groups);
      GroupsFactorise(rest);
      assert WellFormedGroup(head);
      assert messages == head + Flatten(rest);
      assert messages[0] == head[0];
      assert messages[..|head|] == head && messages[|head|..] == Flatten(rest);
      if OpensExchange(head[0]) {
        assert messages[1..|head|] == head[1..];
      } else {
        assert messages[..1] == [messages[0]];
      }
      assert [head] + rest == groups;
    }
  }

  lemma {:induction false} GroupsSound(messages: seq<AgentMessage>)
    requires Groups(messages).Ok?
    ensures WellFormedGroups(Groups(messages).value)
    ensures Flatten(Groups(messages).value) == messages
    decreases |messages|
  {
    if messages != [] {
      var size := if OpensExchange(messages[0]) then 1 + |messages[0].toolCalls| else 1;
      var head := messages[..size];
      GroupsSound(messages[size..]);
      assert head == if size == 1 then [messages[0]] else head;
      assert messages == head + messages[size..];
      var groups := Groups(messages).value;
      assert groups[0] == head && groups[1..] == Groups(messages[size..]).value;
      assert WellFormedGroup(head);
      assert forall i | 1 <= i < |groups| :: groups[i] == groups[1..][i - 1];
    }
  }

  lemma GroupsLanguage(messages: seq<AgentMessage>)
    ensures Groups(messages).Ok? <==> Complete(messages)
    ensures Groups(messages).Ok? ==>
      WellFormedGroups(Groups(messages).value) && Flatten(Groups(messages).value) == messages
  {
    if Groups(messages).Ok? {
      GroupsSound(messages);
    }
    if Complete(messages) {
      var groups :| WellFormedGroups(groups) && Flatten(groups) == messages;
      GroupsFactorise(groups);
    }
  }

  /** While an exchange is open the automaton only reads its remaining answers. */
  lemma {:induction false} ScanAnswers(messages: seq<AgentMessage>, pending: seq<ToolCall>, position: nat)
    requires position < |pending|
    ensures var left := |pending| - position;
      Scan(messages, pending, position, true) <==>
        && left <= |messages|
        && (forall k | 0 <= k < left :: Answers(pending[position + k], messages[k]))
        && Scan(messages[left..], [], 0, true)
    decreases |pending| - position
  {
    var left := |pending| - position;
    if messages != [] && position + 1 < |pending| {
      ScanAnswers(messages[1..], pending, position + 1);
      if left <= |messages| {
        assert messages[1..][left - 1..] == messages[left..];
        forall k | 0 <= k < left - 1
          ensures Answers(pending[position + 1 + k], messages[1..][k]) <==>
                  Answers(pending[position + (k + 1)], messages[k + 1])
        {
          assert messages[1..][k] == messages[k + 1];
        }
        if forall k | 0 <= k < left - 1 :: Answers(pending[position + 1 + k], messages[1..][k]) {
          forall k | 1 <= k < left ensures Answers(pending[position + k], messages[k]) {
            assert Answers(pending[position + 1 + (k - 1)], messages[1..][k - 1]);
          }
        }
        if forall k | 0 <= k < left :: Answers(pending[position + k], messages[k]) {
          forall k | 0 <= k < left - 1 ensures Answers(pending[position + 1 + k], messages[1..][k]) {
            assert Answers(pending[position + (k + 1)], messages[k + 1]);
          }
        }
      }
    }
  }

  lemma {:induction false} RecognisersAgree(messages: seq<AgentMessage>)
    ensures Scan(messages, [], 0, true) <==> Groups(messages).Ok?
    decreases |messages|
  {
    if messages != [] {
      var head := messages[0];
      if OpensExchange(head) {
        var count := |head.toolCalls|;
        ScanAnswers(messages[1..], head.toolCalls, 0);
        if 1 + count <= |messages| {
          var group := messages[..1 + count];
          assert messages[1..][count..] == messages[1 + count..];
          RecognisersAgree(messages[1 + count..]);
          assert group[1..] == messages[1..1 + count] == messages[1..][..count];
          if Scan(messages, [], 0, true) {
            forall k | 1 <= k < 1 + count ensures Answers(group[0].toolCalls[k - 1], group[k]) {
              assert Answers(head.toolCalls[0 + (k - 1)], messages[1..][k - 1]);
            }
            assert AllAnswers(messages[1..1 + count]);
          }
          if Groups(messages).Ok? {
            assert WellFormedGroup(group);
            forall k | 0 <= k < count ensures Answers(head.toolCalls[0 + k], messages[1..][k]) {
              assert Answers(group[0].toolCalls[k + 1 - 1], group[k + 1]);
            }
          }
        }
      } else if !head.ToolResultMessage? {
        RecognisersAgree(messages[1..]);
      }
    }
  }

  lemma ValidatorLanguage(messages: seq<AgentMessage>)
    ensures Scan(messages, [], 0, true) <==> Complete(messages)
  {
    RecognisersAgree(messages);
    GroupsLanguage(messages);
  }

  // ---- Prefixes and suffixes at group boundaries.

  lemma CompleteConcat(a: seq<AgentMessage>, b: seq<AgentMessage>)
    requires Complete(a) && Complete(b)
    ensures Groups(a).Ok? && Groups(b).Ok? && Complete(a + b)
    ensures Groups(a + b) == Ok(Groups(a).value + Groups(b).value)
  {
    GroupsLanguage(a);
    GroupsLanguage(b);
    var groups := Groups(a).value + Groups(b).value;
    FlattenConcat(Groups(a).value, Groups(b).value);
    GroupsFactorise(groups);
    assert WellFormedGroups(groups) && Flatten(groups) == a + b;
  }

  /** A complete prefix can be cut off: what is left is complete exactly when the whole was. */
  lemma {:induction false} CompleteCancel(groups: seq<seq<AgentMessage>>, rest: seq<AgentMessage>)
    requires WellFormedGroups(groups)
    ensures Complete(Flatten(groups) + rest) <==> Complete(rest)
  {
    if groups == [] {
      assert Flatten(groups) + rest == rest;
    } else {
      var head, tail := groups[0], Flatten(groups[1..]) + rest;
      var whole := Flatten(groups) + rest;
      CompleteCancel(groups[1..], rest);
      assert WellFormedGroup(head);
      assert whole == head + tail;
      assert whole[..|head|] == head && whole[|head|..] == tail && whole[0] == head[0];
      if OpensExchange(head[0]) {
        assert whole[1..|head|] == head[1..];
      }
      assert Groups(whole).Ok? <==> Groups(tail).Ok?;
      GroupsLanguage(whole);
      GroupsLanguage(tail);
    }
  }

  /** The cut positions between groups. */
  function Boundaries(groups: seq<seq<AgentMessage>>): (r: seq<nat>) {
    if groups == [] then [0]
    else
      var before := Boundaries(groups[..|groups| - 1]);
      before + [BoundaryAt(groups, |groups|)]
  }

  function BoundaryAt(groups: seq<seq<AgentMessage>>, count: nat): nat
    requires count <= |groups|
  {
    |Flatten(groups[..count])|
  }

  lemma {:induction false} BoundariesAre(groups: seq<seq<AgentMessage>>)
    ensures |Boundaries(groups)| == |groups| + 1
    ensures forall i | 0 <= i <= |groups| :: Boundaries(groups)[i] == BoundaryAt(groups, i)
  {
    if groups != [] {
      var shorter := groups[..|groups| - 1];
      BoundariesAre(shorter);
      forall i | 0 <= i <= |shorter| ensures BoundaryAt(shorter, i) == BoundaryAt(groups, i) {
        assert shorter[..i] == groups[..i];
      }
    }
  }

  lemma CutAtGroup(groups: seq<seq<AgentMessage>>, i: nat)
    requires i <= |groups|
    ensures BoundaryAt(groups, i) <= |Flatten(groups)|
    ensures Flatten(groups)[..BoundaryAt(groups, i)] == Flatten(groups[..i])
    ensures Flatten(groups)[BoundaryAt(groups, i)..] == Flatten(groups[i..])
  {
    FlattenConcat(groups[..i], groups[i..]);
    assert groups[..i] + groups[i..] == groups;
  }

  /** In a complete transcript a cut leaves two complete parts exactly at a group boundary. */
  lemma CutsAreBoundaries(messages: seq<AgentMessage>, groups: seq<seq<AgentMessage>>, cut: nat)
    requires Groups(messages) == Ok(groups) && cut <= |messages|
    ensures Complete(messages[..cut]) <==> cut in Boundaries(groups)
    ensures Complete(messages[cut..]) <==> cut in Boundaries(groups)
  {
    GroupsLanguage(messages);
    BoundariesAre(groups);
    if cut in Boundaries(groups) {
      var i :| 0 <= i < |Boundaries(groups)| && Boundaries(groups)[i] == cut;
      CutAtGroup(groups, i);
      assert WellFormedGroups(groups[..i]) && WellFormedGroups(groups[i..]);
    }
    if Complete(messages[..cut]) {
      PrefixIsBoundary(messages, groups, cut);
    }
    if Complete(messages[cut..]) {
      SuffixIsBoundary(groups, cut);
    }
  }

  lemma PrefixIsBoundary(messages: seq<AgentMessage>, groups: seq<seq<AgentMessage>>, cut: nat)
    requires Groups(messages) == Ok(groups) && cut <= |messages|
    requires Complete(messages[..cut])
    ensures cut in Boundaries(groups)
  {
    GroupsLanguage(messages);
    var left :| WellFormedGroups(left) && Flatten(left) == messages[..cut];
    assert messages == Flatten(left) + messages[cut..];
    CompleteCancel(left, messages[cut..]);
    GroupsFactorise(left);
    CompleteConcat(messages[..cut], messages[cut..]);
    assert groups[..|left|] == left;
    BoundariesAre(groups);
    assert Boundaries(groups)[|left|] == BoundaryAt(groups, |left|) == cut;
  }

  /** A suffix that starts inside a group starts with an orphan answer. */
  lemma {:induction false} SuffixIsBoundary(groups: seq<seq<AgentMessage>>, cut: nat)
    requires WellFormedGroups(groups) && cut <= |Flatten(groups)|
    requires Complete(Flatten(groups)[cut..])
    ensures cut in Boundaries(groups)
  {
    BoundariesAre(groups);
    if groups == [] || cut == 0 {
      assert Boundaries(groups)[0] == BoundaryAt(groups, 0) == 0;
    } else {
      var head, rest := groups[0], groups[1..];
      var messages := Flatten(groups);
      assert WellFormedGroup(head);
      if cut < |head| {
        assert Answers(head[0].toolCalls[cut - 1], head[cut]);
        assert messages[cut..][0] == head[cut];
        GroupsLanguage(messages[cut..]);
        assert false;
      } else {
        assert messages[cut..] == Flatten(rest)[cut - |head|..];
        SuffixIsBoundary(rest, cut - |head|);
        BoundariesAre(rest);
        var i :| 0 <= i < |Boundaries(rest)| && Boundaries(rest)[i] == cut - |head|;
        assert groups[..i + 1] == [head] + rest[..i];
        assert Flatten([head] + rest[..i]) == head + Flatten(([head] + rest[..i])[1..]);
        assert ([head] + rest[..i])[1..] == rest[..i];
        assert Boundaries(groups)[i + 1] == BoundaryAt(groups, i + 1) == cut;
      }
    }
  }

  method GroupBoundaries(groups: seq<seq<AgentMessage>>) returns (r: seq<nat>)
    ensures r == Boundaries(groups)
  {
    r := [0];
    assert groups[..0] == [];
    for index := 0 to |groups|
      invariant r == Boundaries(groups[..index]) && |r| == index + 1
      invariant r[index] == |Flatten(groups[..index])|
    {
      assert groups[..index + 1][..index] == groups[..index];
      assert groups[..index + 1] == groups[..index] + [groups[index]];
      FlattenSnoc(groups[..index], groups[index]);
      assert groups[..index + 1][..index + 1] == groups[..index + 1];
      r := r + [r[|r| - 1] + |groups[index]|];
    }
    assert groups[..|groups|] == groups;
  }

  // ---- Windowing.

  /** The groups from `first` on are the longest group suffix within `maxMessages`, or the last group alone
      when it is larger. */
  predicate IsWindow(groups: seq<seq<AgentMessage>>, maxMessages: nat, first: int) {
    && 0 <= first <= |groups| && (groups != [] ==> first < |groups|)
    && (|Flatten(groups[first..])| <= maxMessages || first == |groups| - 1)
    && forall i | 0 <= i < first :: |Flatten(groups[i..])| > maxMessages
  }

  method SelectRecentGroups(groups: seq<seq<AgentMessage>>, maxMessages: nat) returns (selected: seq<AgentMessage>)
    requires maxMessages >= 1
    requires forall i | 0 <= i < |groups| :: groups[i] != []
    ensures exists first :: IsWindow(groups, maxMessages, first) && selected == Flatten(groups[first..])
  {
    var chosen: seq<seq<AgentMessage>>, count, index := [], 0, |groups|;
    assert groups[|groups|..] == [];
    while index > 0
      invariant 0 <= index <= |groups| && chosen == groups[index..] && count == |Flatten(chosen)|
      invariant index < |groups| ==> count < maxMessages
    {
      var group := groups[index - 1];
      SuffixStep(groups, index - 1);
      if chosen != [] && count + |group| > maxMessages {
        LongerSuffixes(groups, index - 1);
        break;
      }
      chosen := [group] + chosen;
      count := count + |group|;
      index := index - 1;
      if count >= maxMessages {
        FullWindow(groups, index, maxMessages);
        break;
      }
    }
    assert IsWindow(groups, maxMessages, index);
    return Flatten(chosen);
  }

  lemma SuffixStep(groups: seq<seq<AgentMessage>>, i: nat)
    requires i < |groups|
    ensures groups[i..] == [groups[i]] + groups[i + 1..]
    ensures Flatten(groups[i..]) == groups[i] + Flatten(groups[i + 1..])
  {
    assert groups[i..][1..] == groups[i + 1..];
  }

  lemma FullWindow(groups: seq<seq<AgentMessage>>, first: nat, maxMessages: nat)
    requires first <= |groups| && |Flatten(groups[first..])| >= maxMessages
    requires forall i | 0 <= i < |groups| :: groups[i] != []
    ensures forall i | 0 <= i < first :: |Flatten(groups[i..])| > maxMessages
  {
    if first > 0 {
      SuffixStep(groups, first - 1);
      LongerSuffixes(groups, first - 1);
    }
  }

  lemma {:induction false} LongerSuffixes(groups: seq<seq<AgentMessage>>, from: nat)
    requires from <= |groups|
    ensures forall i | 0 <= i <= from :: |Flatten(groups[i..])| >= |Flatten(groups[from..])|
  {
    if from > 0 {
      LongerSuffixes(groups, from - 1);
      SuffixStep(groups, from - 1);
    }
  }

  /** A window over a complete transcript is itself complete, and is a suffix of it. */
  lemma WindowIsCompleteSuffix(messages: seq<AgentMessage>, groups: seq<seq<AgentMessage>>, first: nat)
    requires Groups(messages) == Ok(groups) && first <= |groups|
    ensures Complete(Flatten(groups[first..]))
    ensures BoundaryAt(groups, first) <= |messages|
    ensures Flatten(groups[first..]) == messages[BoundaryAt(groups, first)..]
  {
    GroupsLanguage(messages);
    CutAtGroup(groups, first);
    assert WellFormedGroups(groups[first..]);
  }
}

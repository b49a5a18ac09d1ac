/** The pending-input queue and the append-only transcript of one session handle
    (roboagent/agent/session.py). */
module SessionInput {
  import opened Basics
  import opened Messages
  import opened Transcript
  import opened Compaction
  import opened SnapshotCodec
  import opened SessionDurability

  datatype SessionError = SessionClosed | SessionBusy | NotOwner | Cancelled | InvalidTranscriptFact

  function Receipts(items: seq<PendingInput>): (r: seq<InputReceipt>)
    ensures |r| == |items| && forall i | 0 <= i < |items| :: r[i] == items[i].receipt
  {
    seq(|items|, i requires 0 <= i < |items| => items[i].receipt)
  }

  function InputMessages(items: seq<PendingInput>): (r: seq<AgentMessage>)
    ensures |r| == |items| && forall i | 0 <= i < |items| :: r[i] == items[i].message
  {
    seq(|items|, i requires 0 <= i < |items| => items[i].message)
  }

  predicate AllUsers(messages: seq<AgentMessage>) {
    forall i | 0 <= i < |messages| :: messages[i].UserMessage?
  }

  lemma {:induction false} UsersAreComplete(messages: seq<AgentMessage>)
    requires AllUsers(messages)
    ensures Complete(messages)
  {
    if messages == [] {
      assert WellFormedGroups([]) && Flatten<AgentMessage>([]) == messages;
    } else {
      UsersAreComplete(messages[1..]);
      var head := [messages[0]];
      assert WellFormedGroups([head]) && Flatten([head]) == head + Flatten([head][1..]) == head;
      CompleteConcat(head, messages[1..]);
      assert head + messages[1..] == messages;
    }
  }

  lemma UsersFit(messages: seq<AgentMessage>, block: seq<AgentMessage>, limits: MediaLimits)
    requires Complete(messages) && ContentsWithin(messages, limits) && AllUsers(block)
    ensures Complete(messages + block)
    ensures ContentsWithin(messages + block, limits) <==> ContentsWithin(block, limits)
  {
    UsersAreComplete(block);
    CompleteConcat(messages, block);
    assert forall i | 0 <= i < |block| :: (messages + block)[|messages| + i] == block[i];
  }

  /** Strictly increasing receipt numbers. */
  predicate Rising(receipts: seq<InputReceipt>) {
    forall i, j | 0 <= i < j < |receipts| :: receipts[i].sequence < receipts[j].sequence
  }

  predicate RisingPositions(positions: seq<nat>) {
    forall i, j | 0 <= i < j < |positions| :: positions[i] < positions[j]
  }

  /** What became of every receipt this handle accounts for. */
  datatype Ledger = Ledger(issued: seq<InputReceipt>, committed: seq<PendingInput>, positions: seq<nat>,
                           cleared: seq<InputReceipt>)

  /** The receipts are split between queue, transcript and waste, and the transcript shows the
      committed inputs in receipt order at the recorded positions. */
  ghost predicate Accounts(ledger: Ledger, pending: seq<PendingInput>, messages: seq<AgentMessage>, sequence: int) {
    && Rising(ledger.issued)
    && (forall i | 0 <= i < |ledger.issued| :: ledger.issued[i].sequence <= sequence)
    && Rising(Receipts(ledger.committed) + Receipts(pending))
    && multiset(ledger.issued)
         == multiset(Receipts(ledger.committed)) + multiset(Receipts(pending)) + multiset(ledger.cleared)
    && |ledger.positions| == |ledger.committed| && RisingPositions(ledger.positions)
    && (forall k | 0 <= k < |ledger.positions| ::
          ledger.positions[k] < |messages| && messages[ledger.positions[k]] == ledger.committed[k].message)
  }

  lemma {:induction false} RisingCounts(receipts: seq<InputReceipt>, r: InputReceipt)
    requires Rising(receipts) && r in receipts
    ensures multiset(receipts)[r] == 1
  {
    var last := receipts[|receipts| - 1];
    var init := receipts[..|receipts| - 1];
    assert receipts == init + [last];
    if r == last {
      assert r !in init;
    } else {
      RisingCounts(init, r);
    }
  }

  /** Every issued receipt is pending, committed or cleared, and only one of the three. */
  lemma ExactlyOnePlace(ledger: Ledger, pending: seq<PendingInput>, messages: seq<AgentMessage>, sequence: int,
                        r: InputReceipt)
    requires Accounts(ledger, pending, messages, sequence) && r in ledger.issued
    ensures (r in Receipts(ledger.committed) && r !in Receipts(pending) && r !in ledger.cleared)
         || (r !in Receipts(ledger.committed) && r in Receipts(pending) && r !in ledger.cleared)
         || (r !in Receipts(ledger.committed) && r !in Receipts(pending) && r in ledger.cleared)
  {
    RisingCounts(ledger.issued, r);
    assert multiset(Receipts(ledger.committed))[r] + multiset(Receipts(pending))[r] + multiset(ledger.cleared)[r] == 1;
    assert r in multiset(Receipts(ledger.committed)) <==> r in Receipts(ledger.committed);
    assert r in multiset(Receipts(pending)) <==> r in Receipts(pending);
    assert r in multiset(ledger.cleared) <==> r in ledger.cleared;
  }

  function Positions(start: nat, count: nat): (r: seq<nat>)
    ensures |r| == count && forall i | 0 <= i < count :: r[i] == start + i
  {
    seq(count, i => start + i)
  }

  /** The first `count` pending inputs move to the end of the transcript. */
  function CommitFront(ledger: Ledger, pending: seq<PendingInput>, count: nat, at: nat): Ledger
    requires count <= |pending|
  {
    ledger.(committed := ledger.committed + pending[..count], positions := ledger.positions + Positions(at, count))
  }

  lemma ReceiptsConcat(a: seq<PendingInput>, b: seq<PendingInput>)
    ensures Receipts(a + b) == Receipts(a) + Receipts(b)
  {
  }

  lemma CommitKeepsAccounts(ledger: Ledger, pending: seq<PendingInput>, messages: seq<AgentMessage>, sequence: int,
                            count: nat, extra: seq<AgentMessage>)
    requires Accounts(ledger, pending, messages, sequence) && count <= |pending|
    ensures Accounts(CommitFront(ledger, pending, count, |messages|), pending[count..],
                     messages + (InputMessages(pending[..count]) + extra), sequence)
  {
    CommitMovesReceipts(ledger, pending, count);
    CommitRecordsPositions(ledger, pending, messages, count, extra);
    var after := CommitFront(ledger, pending, count, |messages|);
    assert after.positions == ledger.positions + Positions(|messages|, count);
  }

  lemma CommitMovesReceipts(ledger: Ledger, pending: seq<PendingInput>, count: nat)
    requires count <= |pending|
    ensures var moved := Receipts(ledger.committed + pending[..count]);
      && moved + Receipts(pending[count..]) == Receipts(ledger.committed) + Receipts(pending)
      && multiset(moved) + multiset(Receipts(pending[count..]))
           == multiset(Receipts(ledger.committed)) + multiset(Receipts(pending))
  {
    assert pending == pending[..count] + pending[count..];
    ReceiptsConcat(pending[..count], pending[count..]);
    ReceiptsConcat(ledger.committed, pending[..count]);
    assert multiset(Receipts(ledger.committed) + Receipts(pending[..count]))
        == multiset(Receipts(ledger.committed)) + multiset(Receipts(pending[..count]));
    assert multiset(Receipts(pending[..count]) + Receipts(pending[count..]))
        == multiset(Receipts(pending[..count])) + multiset(Receipts(pending[count..]));
  }

  lemma CommitRecordsPositions(ledger: Ledger, pending: seq<PendingInput>, messages: seq<AgentMessage>,
                               count: nat, extra: seq<AgentMessage>)
    requires count <= |pending|
    requires |ledger.positions| == |ledger.committed| && RisingPositions(ledger.positions)
    requires forall k | 0 <= k < |ledger.positions| ::
      ledger.positions[k] < |messages| && messages[ledger.positions[k]] == ledger.committed[k].message
    ensures var positions := ledger.positions + Positions(|messages|, count);
      var committed := ledger.committed + pending[..count];
      var longer := messages + (InputMessages(pending[..count]) + extra);
      && |positions| == |committed| && RisingPositions(positions)
      && forall k | 0 <= k < |positions| :: positions[k] < |longer| && longer[positions[k]] == committed[k].message
  {
    var positions := ledger.positions + Positions(|messages|, count);
    var longer := messages + (InputMessages(pending[..count]) + extra);
    forall k | 0 <= k < |positions|
      ensures positions[k] < |longer| && longer[positions[k]] == (ledger.committed + pending[..count])[k].message
    {
      if k >= |ledger.positions| {
        assert longer[positions[k]] == InputMessages(pending[..count])[k - |ledger.positions|];
      }
    }
  }

  lemma NothingToCommit(ledger: Ledger, pending: seq<PendingInput>, messages: seq<AgentMessage>)
    ensures CommitFront(ledger, pending, 0, |messages|) == ledger
    ensures pending[0..] == pending && messages + (InputMessages(pending[..0]) + []) == messages
  {
    assert ledger.positions + Positions(|messages|, 0) == ledger.positions;
    assert ledger.committed + pending[..0] == ledger.committed;
  }

  lemma AppendKeepsAccounts(ledger: Ledger, pending: seq<PendingInput>, messages: seq<AgentMessage>, sequence: int,
                            block: seq<AgentMessage>)
    requires Accounts(ledger, pending, messages, sequence)
    ensures Accounts(ledger, pending, messages + block, sequence)
  {
  }

  lemma ClearKeepsAccounts(ledger: Ledger, pending: seq<PendingInput>, messages: seq<AgentMessage>, sequence: int)
    requires Accounts(ledger, pending, messages, sequence)
    ensures Accounts(ledger.(cleared := ledger.cleared + Receipts(pending)), [], messages, sequence)
  {
    var committed := Receipts(ledger.committed);
    assert committed + Receipts([]) == committed;
    forall i, j | 0 <= i < j < |committed| ensures committed[i].sequence < committed[j].sequence {
      assert (committed + Receipts(pending))[i].sequence < (committed + Receipts(pending))[j].sequence;
    }
  }

  lemma EnqueueKeepsAccounts(ledger: Ledger, pending: seq<PendingInput>, messages: seq<AgentMessage>, sequence: int,
                             item: PendingInput)
    requires Accounts(ledger, pending, messages, sequence) && item.receipt.sequence == sequence + 1
    ensures Accounts(ledger.(issued := ledger.issued + [item.receipt]), pending + [item], messages, sequence + 1)
  {
    ReceiptsConcat(pending, [item]);
    var before := Receipts(ledger.committed) + Receipts(pending);
    assert Receipts(ledger.committed) + Receipts(pending + [item]) == before + [item.receipt];
    forall i | 0 <= i < |before| ensures before[i].sequence <= sequence {
      assert before[i] in multiset(before);
      assert multiset(before) == multiset(Receipts(ledger.committed)) + multiset(Receipts(pending));
      assert before[i] in multiset(ledger.issued);
      assert before[i] in ledger.issued;
    }
  }

  predicate AllCanonical(codec: Codec, messages: seq<AgentMessage>) {
    forall i | 0 <= i < |messages| :: CanonicalMessage(codec.make, messages[i], codec.maxInline, codec.limits)
  }

  predicate QueueCanonical(codec: Codec, pending: seq<PendingInput>) {
    forall i | 0 <= i < |pending| :: CanonicalPending(codec.make, pending[i], codec.maxInline, codec.limits)
  }

  predicate SummaryCanonical(summary: Option<ContextSummary>) {
    summary.Some? ==> CanonicalSummary(summary.value)
  }

  /** Every message given to a session comes from the message constructors, so it is canonical for the codec. */
  class Session {
    const sessionId: string
    const limits: MediaLimits
    const codec: Codec
    var messages: seq<AgentMessage>
    var pending: seq<PendingInput>
    var sequence: int
    var compaction: Option<ContextSummary>
    var metadata: seq<Member>
    var runtimeRevision: int
    var activeRun: Option<string>
    var closed: bool
    ghost var ledger: Ledger

    ghost predicate Valid()
      reads this
    {
      && Complete(messages) && ContentsWithin(messages, limits)
      && (forall i | 0 <= i < |pending| ::
            pending[i].message.UserMessage? && pending[i].receipt.sessionId == sessionId)
      && Accounts(ledger, pending, messages, sequence) && Canonical()
    }

    /** Everything the session holds can be written and read back. */
    predicate Canonical()
      reads this
    {
      && sessionId != "" && runtimeRevision >= 0 && sequence >= 0
      && AllCanonical(codec, messages) && QueueCanonical(codec, pending)
      && SummaryCanonical(compaction) && Frozen(JObject(metadata))
    }

    function State(): SessionState
      reads this
    {
      SessionState(sessionId, messages, pending, sequence, compaction, metadata, runtimeRevision, None)
    }

    /** A handle over a restored state; the ledger starts with the inherited queue. */
    constructor (state: SessionState, limits: MediaLimits, codec: Codec)
      requires LiveState(codec, state, limits)
      ensures Valid() && this.limits == limits && this.codec == codec
      ensures State() == state.(durableRevision := None) && activeRun == None && !closed
      ensures ledger == Ledger(Receipts(state.pending), [], [], [])
    {
      this.sessionId, this.limits, this.codec := state.sessionId, limits, codec;
      messages, pending, sequence := state.messages, state.pending, state.sequence;
      compaction, metadata := state.compaction, state.metadata;
      runtimeRevision, activeRun, closed := state.runtimeRevision, None, false;
      ledger := Ledger(Receipts(state.pending), [], [], []);
      new;
      assert Receipts([]) + Receipts(pending) == Receipts(pending);
      forall i | 0 <= i < |pending| ensures pending[i].message.UserMessage? {
        assert CanonicalPending(codec.make, pending[i], codec.maxInline, codec.limits);
      }
    }

    /** Whatever was done to a session, its state can be saved and restored. */
    lemma StateIsLive()
      requires Valid()
      ensures LiveState(codec, State(), limits)
    {
      QueueRises(ledger, pending, messages, sequence);
      QueueBelow(ledger, pending, messages, sequence);
    }

    /** Saving this session, loading and restoring it gives a session in the same state, its summary included
        when that still describes a complete prefix. */
    method Reopen() returns (again: Session)
      requires Valid()
      ensures again.Valid() && again.State().(compaction := None) == State().(compaction := None)
      ensures compaction.Some? ==>
        (again.compaction == compaction <==> SummaryHolds(compaction.value, messages))
      ensures compaction.None? ==> again.compaction.None?
    {
      StateIsLive();
      var restored := SaveAndRestore(codec, State(), limits);
      RestoredIsLive(codec, State(), restored.value, limits);
      again := new Session(restored.value, limits, codec);
    }

    method AcquireRun(run: string) returns (r: Result<(), SessionError>)
      requires Valid()
      modifies this`activeRun
      ensures Valid()
      ensures r == if closed then Err(SessionClosed) else if old(activeRun).Some? then Err(SessionBusy) else Ok(())
      ensures activeRun == if r.Ok? then Some(run) else old(activeRun)
    {
      if closed {
        return Err(SessionClosed);
      }
      if activeRun.Some? {
        return Err(SessionBusy);
      }
      activeRun := Some(run);
      return Ok(());
    }

    method ReleaseRun(run: string) returns (r: Result<(), SessionError>)
      requires Valid()
      modifies this`activeRun
      ensures Valid()
      ensures r.Ok? <==> old(activeRun) == Some(run)
      ensures activeRun == if r.Ok? then None else old(activeRun)
    {
      if activeRun != Some(run) {
        return Err(NotOwner);
      }
      activeRun := None;
      return Ok(());
    }

    method Close() returns (r: Result<seq<InputReceipt>, SessionError>)
      requires Valid()
      modifies this`closed
      ensures Valid()
      ensures r == if activeRun.Some? then Err(SessionBusy) else Ok(Receipts(pending))
      ensures closed == (old(closed) || r.Ok?)
    {
      if activeRun.Some? {
        return Err(SessionBusy);
      }
      closed := true;
      return Ok(Receipts(pending));
    }

    /** Issues the next receipt and queues the message under it. */
    method Enqueue(kind: InputKind, message: AgentMessage, inputId: string)
      returns (r: Result<InputReceipt, SessionError>)
      requires Valid() && message.UserMessage? && inputId != ""
      requires CanonicalMessage(codec.make, message, codec.maxInline, codec.limits)
      modifies this`pending, this`sequence, this`runtimeRevision, this`ledger
      ensures Advances(old(State()), old(ledger), State(), ledger)
      ensures Valid()
      ensures r.Err? <==> closed
      ensures r.Err? ==>
        && pending == old(pending) && sequence == old(sequence)
        && runtimeRevision == old(runtimeRevision) && ledger == old(ledger)
      ensures r.Ok? ==>
        && r.value == InputReceipt(inputId, old(sequence) + 1, sessionId)
        && pending == old(pending) + [PendingInput(r.value, message, kind)]
        && sequence == old(sequence) + 1 && runtimeRevision == old(runtimeRevision) + 1
        && ledger == old(ledger).(issued := old(ledger).issued + [r.value])
    {
      if closed {
        return Err(SessionClosed);
      }
      var item := PendingInput(InputReceipt(inputId, sequence + 1, sessionId), message, kind);
      EnqueueKeepsAccounts(ledger, pending, messages, sequence, item);
      sequence := sequence + 1;
      pending := pending + [item];
      runtimeRevision := runtimeRevision + 1;
      ledger := ledger.(issued := ledger.issued + [item.receipt]);
      return Ok(item.receipt);
    }

    /** User messages fit a complete transcript unless one of them is over the limits. */
    method Admits(block: seq<AgentMessage>) returns (ok: bool)
      requires Valid() && AllUsers(block)
      ensures ok <==> ContentsWithin(block, limits)
      ensures ok ==> Complete(messages + block) && ContentsWithin(messages + block, limits)
    {
      UsersFit(messages, block, limits);
      ok := Validate(messages + block, limits, true);
    }

    /** Moves the first `count` queued inputs, then `extra`, to the end of the transcript. */
    method CommitQueued(count: nat, extra: seq<AgentMessage>) returns (r: Result<(), SessionError>)
      requires Valid() && count <= |pending| && AllUsers(extra) && AllCanonical(codec, extra)
      modifies this`messages, this`pending, this`runtimeRevision, this`ledger
      ensures Advances(old(State()), old(ledger), State(), ledger)
      ensures Valid()
      ensures r.Ok? <==> ContentsWithin(InputMessages(old(pending)[..count]) + extra, limits)
      ensures r.Err? ==>
        && r.error == InvalidTranscriptFact && messages == old(messages) && pending == old(pending)
        && runtimeRevision == old(runtimeRevision) && ledger == old(ledger)
      ensures r.Ok? ==>
        && messages == old(messages) + (InputMessages(old(pending)[..count]) + extra)
        && pending == old(pending)[count..] && runtimeRevision == old(runtimeRevision) + 1
        && ledger == CommitFront(old(ledger), old(pending), count, |old(messages)|)
    {
      var block := InputMessages(pending[..count]) + extra;
      var ok := Admits(block);
      if !ok {
        return Err(InvalidTranscriptFact);
      }
      CommitKeepsAccounts(ledger, pending, messages, sequence, count, extra);
      CommitKeepsCanonical(codec, pending, messages, count, extra);
      CommitAdvances(State(), ledger, count, block);
      ledger := CommitFront(ledger, pending, count, |messages|);
      messages := messages + block;
      pending := pending[count..];
      runtimeRevision := runtimeRevision + 1;
      return Ok(());
    }

    /** The whole queue becomes transcript, in receipt order. */
    method ConsumePending(run: string, cancelled: bool) returns (r: Result<seq<PendingInput>, SessionError>)
      requires Valid()
      modifies this`messages, this`pending, this`runtimeRevision, this`ledger
      ensures Advances(old(State()), old(ledger), State(), ledger)
      ensures Valid()
      ensures activeRun != Some(run) ==> r == Err(NotOwner)
      ensures activeRun == Some(run) && cancelled ==> r == Err(Cancelled)
      ensures r.Err? || old(pending) == [] ==>
        && messages == old(messages) && pending == old(pending)
        && runtimeRevision == old(runtimeRevision) && ledger == old(ledger)
      ensures r.Ok? ==>
        && r.value == old(pending) && pending == []
        && messages == old(messages) + InputMessages(old(pending))
        && (old(pending) != [] ==>
              && runtimeRevision == old(runtimeRevision) + 1
              && ledger == CommitFront(old(ledger), old(pending), |old(pending)|, |old(messages)|))
    {
      if activeRun != Some(run) {
        return Err(NotOwner);
      }
      r := ConsumeLocked(cancelled);
    }

    /** The part of `ConsumePending` under the locks, whoever owns the session by then. */
    method ConsumeLocked(cancelled: bool) returns (r: Result<seq<PendingInput>, SessionError>)
      requires Valid()
      modifies this`messages, this`pending, this`runtimeRevision, this`ledger
      ensures Advances(old(State()), old(ledger), State(), ledger)
      ensures Valid() && (cancelled ==> r == Err(Cancelled))
      ensures r.Err? || old(pending) == [] ==>
        && messages == old(messages) && pending == old(pending)
        && runtimeRevision == old(runtimeRevision) && ledger == old(ledger)
      ensures r.Ok? ==>
        && r.value == old(pending) && pending == []
        && messages == old(messages) + InputMessages(old(pending))
        && (old(pending) != [] ==>
              && runtimeRevision == old(runtimeRevision) + 1
              && ledger == CommitFront(old(ledger), old(pending), |old(pending)|, |old(messages)|))
    {
      if cancelled {
        return Err(Cancelled);
      }
      var taken := pending;
      if taken != [] {
        assert taken[..|taken|] == taken && InputMessages(taken) + [] == InputMessages(taken);
        var committed := CommitQueued(|taken|, []);
        if committed.Err? {
          return Err(committed.error);
        }
      }
      return Ok(taken);
    }

    method CountThrough(through: int) returns (count: nat)
      requires Valid()
      ensures count <= |pending|
      ensures forall i | 0 <= i < count :: pending[i].receipt.sequence <= through
      ensures forall i | count <= i < |pending| :: pending[i].receipt.sequence > through
    {
      count := 0;
      while count < |pending| && pending[count].receipt.sequence <= through
        invariant count <= |pending|
        invariant forall i | 0 <= i < count :: pending[i].receipt.sequence <= through
      {
        count := count + 1;
      }
      QueueRises(ledger, pending, messages, sequence);
    }

    /** Inputs queued before the run started, then the run's own message. */
    method CommitInitialInput(run: string, message: Option<AgentMessage>, through: int, cancelled: bool)
      returns (r: Result<seq<PendingInput>, SessionError>)
      requires Valid() && OwnMessage(codec, message)
      modifies this`messages, this`pending, this`runtimeRevision, this`ledger
      ensures Advances(old(State()), old(ledger), State(), ledger)
      ensures Valid()
      ensures activeRun != Some(run) ==> r == Err(NotOwner)
      ensures activeRun == Some(run) && cancelled ==> r == Err(Cancelled)
      ensures r.Err? ==>
        && messages == old(messages) && pending == old(pending)
        && runtimeRevision == old(runtimeRevision) && ledger == old(ledger)
      ensures r.Ok? ==> var own := if message.Some? then [message.value] else [];
        && |r.value| <= |old(pending)|
        && r.value == old(pending)[..|r.value|] && pending == old(pending)[|r.value|..]
        && (forall i | 0 <= i < |r.value| :: r.value[i].receipt.sequence <= through)
        && (forall i | 0 <= i < |pending| :: pending[i].receipt.sequence > through)
        && messages == old(messages) + (InputMessages(r.value) + own)
        && ledger == CommitFront(old(ledger), old(pending), |r.value|, |old(messages)|)
        && runtimeRevision == old(runtimeRevision) + (if r.value == [] && own == [] then 0 else 1)
    {
      if activeRun != Some(run) {
        return Err(NotOwner);
      }
      r := InitialLocked(message, through, cancelled);
    }

    method InitialLocked(message: Option<AgentMessage>, through: int, cancelled: bool)
      returns (r: Result<seq<PendingInput>, SessionError>)
      requires Valid() && OwnMessage(codec, message)
      modifies this`messages, this`pending, this`runtimeRevision, this`ledger
      ensures Advances(old(State()), old(ledger), State(), ledger)
      ensures Valid() && (cancelled ==> r == Err(Cancelled))
      ensures r.Err? ==>
        && messages == old(messages) && pending == old(pending)
        && runtimeRevision == old(runtimeRevision) && ledger == old(ledger)
      ensures r.Ok? ==> var own := if message.Some? then [message.value] else [];
        && |r.value| <= |old(pending)|
        && r.value == old(pending)[..|r.value|] && pending == old(pending)[|r.value|..]
        && (forall i | 0 <= i < |r.value| :: r.value[i].receipt.sequence <= through)
        && (forall i | 0 <= i < |pending| :: pending[i].receipt.sequence > through)
        && messages == old(messages) + (InputMessages(r.value) + own)
        && ledger == CommitFront(old(ledger), old(pending), |r.value|, |old(messages)|)
        && runtimeRevision == old(runtimeRevision) + (if r.value == [] && own == [] then 0 else 1)
    {
      if cancelled {
        return Err(Cancelled);
      }
      var count := CountThrough(through);
      var taken := pending[..count];
      assert |taken| == count;
      var own := if message.Some? then [message.value] else [];
      r := CommitBlock(count, taken, own);
    }

    /** Commits the queued inputs taken and the run's own message, unless there is nothing to commit. */
    method CommitBlock(count: nat, taken: seq<PendingInput>, own: seq<AgentMessage>)
      returns (r: Result<seq<PendingInput>, SessionError>)
      requires Valid() && count <= |pending| && taken == pending[..count] && AllUsers(own) && AllCanonical(codec, own)
      modifies this`messages, this`pending, this`runtimeRevision, this`ledger
      ensures Advances(old(State()), old(ledger), State(), ledger)
      ensures Valid() && (r.Ok? ==> r.value == taken)
      ensures r.Err? ==>
        && messages == old(messages) && pending == old(pending)
        && runtimeRevision == old(runtimeRevision) && ledger == old(ledger)
      ensures r.Ok? ==>
        && pending == old(pending)[count..] && messages == old(messages) + (InputMessages(taken) + own)
        && ledger == CommitFront(old(ledger), old(pending), count, |old(messages)|)
        && runtimeRevision == old(runtimeRevision) + (if taken == [] && own == [] then 0 else 1)
    {
      if taken != [] || own != [] {
        var committed := CommitQueued(count, own);
        if committed.Err? {
          return Err(committed.error);
        }
      } else {
        NothingToCommit(ledger, pending, messages);
      }
      return Ok(taken);
    }

    /** Drops the queue, never while a run is active. */
    method ClearPending() returns (r: Result<seq<InputReceipt>, SessionError>)
      requires Valid()
      modifies this`pending, this`runtimeRevision, this`ledger
      ensures Advances(old(State()), old(ledger), State(), ledger)
      ensures Valid()
      ensures r == if activeRun.Some? then Err(SessionBusy) else Ok(Receipts(old(pending)))
      ensures r.Err? ==> pending == old(pending) && runtimeRevision == old(runtimeRevision) && ledger == old(ledger)
      ensures r.Ok? ==>
        && pending == [] && ledger == old(ledger).(cleared := old(ledger).cleared + Receipts(old(pending)))
        && runtimeRevision == old(runtimeRevision) + (if old(pending) == [] then 0 else 1)
    {
      if activeRun.Some? {
        return Err(SessionBusy);
      }
      var receipts := ClearLocked();
      return Ok(receipts);
    }

    /** The part of `ClearPending` under the lock, even if a run has become active by then. */
    method ClearLocked() returns (receipts: seq<InputReceipt>)
      requires Valid()
      modifies this`pending, this`runtimeRevision, this`ledger
      ensures Advances(old(State()), old(ledger), State(), ledger)
      ensures Valid() && receipts == Receipts(old(pending)) && pending == []
      ensures ledger == old(ledger).(cleared := old(ledger).cleared + Receipts(old(pending)))
      ensures runtimeRevision == old(runtimeRevision) + (if old(pending) == [] then 0 else 1)
    {
      receipts := Receipts(pending);
      if receipts == [] {
        assert ledger.cleared + receipts == ledger.cleared;
        return [];
      }
      ClearKeepsAccounts(ledger, pending, messages, sequence);
      ledger := ledger.(cleared := ledger.cleared + receipts);
      pending := [];
      runtimeRevision := runtimeRevision + 1;
    }

    /** An assistant turn and the answers to its calls are appended together or not at all; a message
        without calls is the case of no answers. */
    method CommitExchange(run: string, block: seq<AgentMessage>) returns (r: Result<(), SessionError>)
      requires Valid() && AllCanonical(codec, block)
      modifies this`messages, this`runtimeRevision
      ensures Advances(old(State()), old(ledger), State(), ledger)
      ensures Valid()
      ensures activeRun != Some(run) ==> r == Err(NotOwner)
      ensures activeRun == Some(run) ==> (r.Ok? <==> Complete(block) && ContentsWithin(block, limits))
      ensures r.Err? ==> messages == old(messages) && runtimeRevision == old(runtimeRevision)
      ensures r.Ok? ==> messages == old(messages) + block && runtimeRevision == old(runtimeRevision) + 1
    {
      if activeRun != Some(run) {
        return Err(NotOwner);
      }
      r := ExchangeLocked(block);
    }

    method ExchangeLocked(block: seq<AgentMessage>) returns (r: Result<(), SessionError>)
      requires Valid() && AllCanonical(codec, block)
      modifies this`messages, this`runtimeRevision
      ensures Advances(old(State()), old(ledger), State(), ledger)
      ensures Valid()
      ensures r.Ok? <==> Complete(block) && ContentsWithin(block, limits)
      ensures r.Err? ==> messages == old(messages) && runtimeRevision == old(runtimeRevision)
      ensures r.Ok? ==> messages == old(messages) + block && runtimeRevision == old(runtimeRevision) + 1
    {
      GroupsLanguage(messages);
      CompleteCancel(Groups(messages).value, block);
      assert forall i | 0 <= i < |block| :: (messages + block)[|messages| + i] == block[i];
      var ok := Validate(messages + block, limits, true);
      if !ok {
        return Err(InvalidTranscriptFact);
      }
      AppendKeepsAccounts(ledger, pending, messages, sequence, block);
      AppendKeepsCanonical(codec, messages, block);
      messages := messages + block;
      runtimeRevision := runtimeRevision + 1;
      return Ok(());
    }

    /** Accepts a compaction made from the summary the session still holds; compared by digest. */
    method CommitCompaction(run: string, update: CompactionUpdate) returns (r: Result<bool, SessionError>)
      requires Valid() && SummaryCanonical(update.summary)
      modifies this`compaction, this`runtimeRevision
      ensures Advances(old(State()), old(ledger), State(), ledger)
      ensures Valid()
      ensures r == if activeRun != Some(run) then Err(NotOwner)
        else Ok((if old(compaction).None? then None else Some(old(compaction).value.sourceDigest)) == update.expected)
      ensures compaction == if r == Ok(true) then update.summary else old(compaction)
      ensures runtimeRevision == old(runtimeRevision) + if r == Ok(true) then 1 else 0
    {
      if activeRun != Some(run) {
        return Err(NotOwner);
      }
      var taken := CompactionLocked(update);
      return Ok(taken);
    }

    method CompactionLocked(update: CompactionUpdate) returns (taken: bool)
      requires Valid() && SummaryCanonical(update.summary)
      modifies this`compaction, this`runtimeRevision
      ensures Advances(old(State()), old(ledger), State(), ledger)
      ensures Valid()
      ensures var held := if old(compaction).None? then None else Some(old(compaction).value.sourceDigest);
        taken == (held == update.expected)
      ensures compaction == if taken then update.summary else old(compaction)
      ensures runtimeRevision == old(runtimeRevision) + if taken then 1 else 0
    {
      var current := if compaction.None? then None else Some(compaction.value.sourceDigest);
      if current != update.expected {
        return false;
      }
      compaction := update.summary;
      runtimeRevision := runtimeRevision + 1;
      return true;
    }

    /** Replaces the metadata; `same` says that the mappings compare equal, and then nothing happens. */
    method SetMetadata(value: seq<Member>, same: bool)
      requires Valid() && Frozen(JObject(value))
      modifies this`metadata, this`runtimeRevision
      ensures Advances(old(State()), old(ledger), State(), ledger)
      ensures Valid() && metadata == if same then old(metadata) else value
      ensures runtimeRevision == old(runtimeRevision) + if same then 0 else 1
    {
      if !same {
        metadata := value;
        runtimeRevision := runtimeRevision + 1;
      }
    }

    /** Any sequence of operations, in any order. An operation that checks the owner and then waits for a lock may
        get it when the owner has changed, so its locked part may also come on its own at any time. */
    method Interleave(operations: seq<Operation>)
      requires Valid()
      modifies this
      ensures Valid()
      ensures Forward(old(State()), old(ledger), State(), ledger)
    {
      for i := 0 to |operations|
        invariant Valid() && Forward(old(State()), old(ledger), State(), ledger)
      {
        Perform(operations[i]);
      }
    }

    method Perform(operation: Operation)
      requires Valid()
      modifies this
      ensures Valid()
      ensures Advances(old(State()), old(ledger), State(), ledger)
    {
      match operation {
        case Acquire(run) => var _ := AcquireRun(run);
        case Release(run) => var _ := ReleaseRun(run);
        case Shut => var _ := Close();
        case Queue(kind, text, inputId) =>
          if text.UserMessage? && inputId != "" && AllCanonical(codec, [text]) {
            assert [text][0] == text;
            var _ := Enqueue(kind, text, inputId);
          }
        case Exchange(_, _) => Append(operation);
        case ExchangeLate(_) => Append(operation);
        case Compacted(_, _) => Append(operation);
        case CompactedLate(_) => Append(operation);
        case Metadata(_, _) => Append(operation);
        case _ => Drain(operation);
      }
    }

    method Drain(operation: Operation)
      requires Valid()
      modifies this`messages, this`pending, this`runtimeRevision, this`ledger
      ensures Valid()
      ensures Advances(old(State()), old(ledger), State(), ledger)
    {
      match operation {
        case Consume(run, cancelled) => var _ := ConsumePending(run, cancelled);
        case ConsumeLate(cancelled) => var _ := ConsumeLocked(cancelled);
        case Initial(run, message, through, cancelled) =>
          if OwnMessage(codec, message) {
            var _ := CommitInitialInput(run, message, through, cancelled);
          }
        case InitialLate(message, through, cancelled) =>
          if OwnMessage(codec, message) {
            var _ := InitialLocked(message, through, cancelled);
          }
        case Clear => var _ := ClearPending();
        case ClearLate => var _ := ClearLocked();
        case _ =>
      }
    }

    method Append(operation: Operation)
      requires Valid()
      modifies this`messages, this`compaction, this`metadata, this`runtimeRevision
      ensures Valid()
      ensures Advances(old(State()), old(ledger), State(), ledger)
    {
      match operation {
        case Exchange(run, block) =>
          if AllCanonical(codec, block) {
            var _ := CommitExchange(run, block);
          }
        case ExchangeLate(block) =>
          if AllCanonical(codec, block) {
            var _ := ExchangeLocked(block);
          }
        case Compacted(run, update) =>
          if SummaryCanonical(update.summary) {
            var _ := CommitCompaction(run, update);
          }
        case CompactedLate(update) =>
          if SummaryCanonical(update.summary) {
            var _ := CompactionLocked(update);
          }
        case Metadata(value, same) =>
          if Frozen(JObject(value)) {
            SetMetadata(value, same);
          }
        case _ =>
      }
    }
  }

  /** Going forward: the transcript and what is known of the receipts only grow, and a changed state has a later
      revision, so the next save stores it. */
  predicate Forward(before: SessionState, ledger: Ledger, after: SessionState, later: Ledger) {
    && before.messages <= after.messages
    && ledger.issued <= later.issued && ledger.committed <= later.committed
    && ledger.cleared <= later.cleared && ledger.positions <= later.positions
    && before.runtimeRevision <= after.runtimeRevision
    && (after != before ==> before.runtimeRevision < after.runtimeRevision)
  }

  /** One operation: nothing, or one mutation of the kind that handles save. */
  predicate Advances(before: SessionState, ledger: Ledger, after: SessionState, later: Ledger) {
    Forward(before, ledger, after, later) && (after == before || Mutates(before, after))
  }

  lemma CommitAdvances(state: SessionState, ledger: Ledger, count: nat, block: seq<AgentMessage>)
    requires count <= |state.pending|
    ensures Advances(state, ledger,
      state.(messages := state.messages + block, pending := state.pending[count..],
             runtimeRevision := state.runtimeRevision + 1),
      CommitFront(ledger, state.pending, count, |state.messages|))
  {
  }

  /** The message a run starts with, if any. */
  predicate OwnMessage(codec: Codec, message: Option<AgentMessage>) {
    message.Some? ==>
      message.value.UserMessage? && CanonicalMessage(codec.make, message.value, codec.maxInline, codec.limits)
  }

  lemma AppendKeepsCanonical(codec: Codec, messages: seq<AgentMessage>, block: seq<AgentMessage>)
    requires AllCanonical(codec, messages) && AllCanonical(codec, block)
    ensures AllCanonical(codec, messages + block)
  {
  }

  lemma CommitKeepsCanonical(codec: Codec, pending: seq<PendingInput>, messages: seq<AgentMessage>, count: nat,
                             extra: seq<AgentMessage>)
    requires count <= |pending| && AllCanonical(codec, messages) && QueueCanonical(codec, pending)
    requires AllCanonical(codec, extra)
    ensures AllCanonical(codec, messages + (InputMessages(pending[..count]) + extra))
    ensures QueueCanonical(codec, pending[count..])
  {
    var inputs := InputMessages(pending[..count]);
    forall i | 0 <= i < |inputs| ensures CanonicalMessage(codec.make, inputs[i], codec.maxInline, codec.limits) {
      assert CanonicalPending(codec.make, pending[i], codec.maxInline, codec.limits);
    }
    AppendKeepsCanonical(codec, inputs, extra);
    AppendKeepsCanonical(codec, messages, inputs + extra);
  }

  /** Queued receipts are among those issued. */
  lemma QueueBelow(ledger: Ledger, pending: seq<PendingInput>, messages: seq<AgentMessage>, sequence: int)
    requires Accounts(ledger, pending, messages, sequence)
    ensures forall i | 0 <= i < |pending| :: pending[i].receipt.sequence <= sequence
  {
    forall i | 0 <= i < |pending| ensures pending[i].receipt.sequence <= sequence {
      assert Receipts(pending)[i] in multiset(Receipts(pending));
      assert pending[i].receipt in multiset(ledger.issued);
      assert pending[i].receipt in ledger.issued;
    }
  }

  lemma QueueRises(ledger: Ledger, pending: seq<PendingInput>, messages: seq<AgentMessage>, sequence: int)
    requires Accounts(ledger, pending, messages, sequence)
    ensures IncreasingReceipts(pending)
  {
    var all, offset := Receipts(ledger.committed) + Receipts(pending), |ledger.committed|;
    forall i, j | 0 <= i < j < |pending| ensures pending[i].receipt.sequence < pending[j].receipt.sequence {
      assert all[offset + i] == pending[i].receipt && all[offset + j] == pending[j].receipt;
    }
  }

  datatype Operation =
    | Acquire(run: string)
    | Release(run: string)
    | Shut
    | Queue(kind: InputKind, text: AgentMessage, inputId: string)
    | Consume(run: string, cancelled: bool)
    | ConsumeLate(cancelled: bool)
    | Initial(run: string, message: Option<AgentMessage>, through: int, cancelled: bool)
    | InitialLate(message: Option<AgentMessage>, through: int, cancelled: bool)
    | Clear
    | ClearLate
    | Exchange(run: string, block: seq<AgentMessage>)
    | ExchangeLate(block: seq<AgentMessage>)
    | Compacted(run: string, update: CompactionUpdate)
    | CompactedLate(update: CompactionUpdate)
    | Metadata(value: seq<Member>, same: bool)
}

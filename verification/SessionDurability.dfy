/** Several handles on one durable session: capture, compare-and-swap, acknowledge
    (roboagent/agent/session.py, roboagent/agent/persistence.py). */
module SessionDurability {
  import opened Basics
  import opened Messages
  import opened SnapshotCodec

  /** Where a handle is inside its persist lock. `Saved` has stored but not yet acknowledged. */
  datatype Phase =
    | Idle
    | Saving(required: int, snapshot: SessionSnapshot, expected: Option<int>)
    | Saved(required: int, revision: int)

  /** A save under way in a thread. */
  datatype Save = Save(snapshot: SessionSnapshot, expected: Option<int>)

  /** One Session object; `trail` remembers the whole state as each revision left it, `adrift` lists the saves whose
      caller was cancelled while the thread runs on. */
  datatype Handle = Handle(state: SessionState, phase: Phase, trail: map<int, SessionSnapshot>, adrift: seq<Save>)

  /** `history` lists every snapshot the repository ever held, the current one last;
      `returned` lists the persist calls that returned normally, with the revision they required. */
  datatype System = System(handles: map<nat, Handle>, history: seq<SessionSnapshot>, returned: seq<(nat, int)>)

  datatype Step =
    | Create(who: nat, initial: SessionState)
    | Open(who: nat, dropsSummary: bool)
    | Mutate(who: nat, after: SessionState)
    | Capture(who: nat, required: int)
    | Swap(who: nat)
    | SwapUnacknowledged(who: nat)   // stored, but the call raised: the directory sync failed
    | SaveFails(who: nat)            // raised before anything was stored
    | GiveUp(who: nat)               // the call was cancelled, the thread that saves was not
    | LateSwap(who: nat, which: nat) // such a thread comes to its compare-and-swap
    | Acknowledge(who: nat)

  predicate CasPasses(current: Option<int>, expected: Option<int>, revision: int) {
    current == expected && (current.Some? ==> revision > current.value)
  }

  function CurrentOf(history: seq<SessionSnapshot>): Option<int> {
    if history == [] then None else Some(history[|history| - 1].revision)
  }

  /** A mutation appends to the transcript or changes queue, summary or metadata, and counts one revision. */
  predicate Mutates(before: SessionState, after: SessionState) {
    && before.messages <= after.messages && after.sessionId == before.sessionId
    && after.runtimeRevision == before.runtimeRevision + 1 && after.durableRevision == before.durableRevision
  }

  /** What a restored handle starts with; a summary that no longer fits is dropped. */
  function Restored(snapshot: SessionSnapshot, dropsSummary: bool): SessionState {
    SessionState(snapshot.sessionId, snapshot.messages, snapshot.pending, snapshot.lastPendingSequence,
                 if dropsSummary then None else snapshot.compaction, snapshot.metadata,
                 snapshot.revision, Some(snapshot.revision))
  }

  predicate Enabled(system: System, step: Step) {
    match step
    case Create(who, initial) =>
      who !in system.handles && initial.runtimeRevision == 0 && initial.durableRevision.None?
    case Open(who, _) => who !in system.handles && system.history != []
    case Mutate(who, after) => who in system.handles && Mutates(system.handles[who].state, after)
    case Capture(who, required) =>
      who in system.handles && system.handles[who].phase.Idle? && required in system.handles[who].trail
    case Swap(who) => who in system.handles && system.handles[who].phase.Saving?
    case SwapUnacknowledged(who) => who in system.handles && system.handles[who].phase.Saving?
    case SaveFails(who) => who in system.handles && system.handles[who].phase.Saving?
    case GiveUp(who) => who in system.handles && system.handles[who].phase.Saving?
    case LateSwap(who, which) => who in system.handles && which < |system.handles[who].adrift|
    case Acknowledge(who) => who in system.handles && system.handles[who].phase.Saved?
  }

  function Next(system: System, step: Step): System
    requires Enabled(system, step)
  {
    match step
    case Create(who, initial) =>
      system.(handles := system.handles[who := Handle(initial, Idle, map[0 := TakeSnapshot(initial)], [])])
    case Open(who, dropsSummary) =>
      var last := system.history[|system.history| - 1];
      system.(handles := system.handles[who :=
        Handle(Restored(last, dropsSummary), Idle, map[last.revision := last], [])])
    case Mutate(who, after) =>
      var h := system.handles[who];
      system.(handles := system.handles[who :=
        h.(state := after, trail := h.trail[after.runtimeRevision := TakeSnapshot(after)])])
    case Capture(who, required) =>
      var h := system.handles[who];
      if h.state.durableRevision.Some? && h.state.durableRevision.value >= required then
        system.(returned := system.returned + [(who, required)])
      else
        system.(handles := system.handles[who :=
          h.(phase := Saving(required, TakeSnapshot(h.state), h.state.durableRevision))])
    case Swap(who) =>
      var h := system.handles[who];
      if CasPasses(CurrentOf(system.history), h.phase.expected, h.phase.snapshot.revision) then
        system.(history := system.history + [h.phase.snapshot],
                handles := system.handles[who := h.(phase := Saved(h.phase.required, h.phase.snapshot.revision))])
      else
        system.(handles := system.handles[who := h.(phase := Idle)])
    case SwapUnacknowledged(who) =>
      var h := system.handles[who];
      if CasPasses(CurrentOf(system.history), h.phase.expected, h.phase.snapshot.revision) then
        system.(history := system.history + [h.phase.snapshot],
                handles := system.handles[who := h.(phase := Idle)])
      else
        system.(handles := system.handles[who := h.(phase := Idle)])
    case SaveFails(who) =>
      system.(handles := system.handles[who := system.handles[who].(phase := Idle)])
    case GiveUp(who) =>
      var h := system.handles[who];
      system.(handles := system.handles[who :=
        h.(phase := Idle, adrift := h.adrift + [Save(h.phase.snapshot, h.phase.expected)])])
    case LateSwap(who, which) =>
      var h := system.handles[who];
      var save, rest := h.adrift[which], h.adrift[..which] + h.adrift[which + 1..];
      system.(history := if CasPasses(CurrentOf(system.history), save.expected, save.snapshot.revision)
                         then system.history + [save.snapshot] else system.history,
              handles := system.handles[who := h.(adrift := rest)])
    case Acknowledge(who) =>
      var h := system.handles[who];
      system.(handles := system.handles[who :=
                h.(state := h.state.(durableRevision := Some(h.phase.revision)), phase := Idle)],
              returned := system.returned + [(who, h.phase.required)])
  }

  const Empty := System(map[], [], [])

  /** A run: every state follows from the one before by an enabled step. */
  ghost predicate IsRun(trace: seq<System>, steps: seq<Step>) {
    && |trace| == |steps| + 1 && trace[0] == Empty
    && forall i | 0 <= i < |steps| :: Leads(trace[i], steps[i], trace[i + 1])
  }

  ghost predicate Leads(system: System, step: Step, after: System) {
    Enabled(system, step) && after == Next(system, step)
  }

  // ---- What every step keeps.

  /** Revisions only grow, and each stored transcript is a prefix of the next. */
  ghost predicate Linear(history: seq<SessionSnapshot>) {
    forall i, j | 0 <= i < j < |history| ::
      history[i].revision < history[j].revision && history[i].messages <= history[j].messages
  }

  /** The very state that `revision` stands for in this trail was stored. */
  ghost predicate Covers(history: seq<SessionSnapshot>, revision: int, trail: map<int, SessionSnapshot>) {
    revision in trail && trail[revision] in history
  }

  /** A trail has every revision since the handle was made, and its transcripts grow. */
  ghost predicate TrailOk(trail: map<int, SessionSnapshot>, state: SessionState) {
    && (forall r | r in trail ::
          && r <= state.runtimeRevision && trail[r].revision == r && trail[r].messages <= state.messages
          && forall q | r <= q <= state.runtimeRevision :: q in trail && trail[r].messages <= trail[q].messages)
    && state.runtimeRevision in trail
    && (state.durableRevision == Some(state.runtimeRevision) || trail[state.runtimeRevision] == TakeSnapshot(state))
  }

  /** A save stores a state of its handle, and expects an earlier one that was stored. */
  ghost predicate SaveOk(save: Save, trail: map<int, SessionSnapshot>, history: seq<SessionSnapshot>) {
    && save.snapshot.revision in trail && save.snapshot == trail[save.snapshot.revision]
    && (save.expected.Some? ==>
          save.expected.value < save.snapshot.revision && Covers(history, save.expected.value, trail))
  }

  ghost predicate PhaseOk(h: Handle, history: seq<SessionSnapshot>) {
    match h.phase
    case Idle => true
    case Saving(required, snapshot, expected) =>
      && expected == h.state.durableRevision && required in h.trail && required <= snapshot.revision
      && snapshot.revision in h.trail && snapshot == h.trail[snapshot.revision]
      && (expected.Some? ==> expected.value < snapshot.revision)
    case Saved(required, revision) =>
      && required in h.trail && required <= revision && Covers(history, revision, h.trail)
      && (h.state.durableRevision.Some? ==> h.state.durableRevision.value < revision)
  }

  ghost predicate HandleOk(h: Handle, history: seq<SessionSnapshot>) {
    && TrailOk(h.trail, h.state) && PhaseOk(h, history)
    && (h.state.durableRevision.Some? ==> Covers(history, h.state.durableRevision.value, h.trail))
    && forall i | 0 <= i < |h.adrift| :: SaveOk(h.adrift[i], h.trail, history)
  }

  /** Some stored snapshot is the whole state that handle `who` had at revision `r` or later: transcript, queue,
      summary and metadata with every mutation up to `r`. */
  ghost predicate Contains(system: System, who: nat, r: int) {
    && who in system.handles && r in system.handles[who].trail
    && exists i | 0 <= i < |system.history| ::
         var stored, trail := system.history[i], system.handles[who].trail;
         && r <= stored.revision && stored.revision in trail && trail[stored.revision] == stored
         && trail[r].messages <= stored.messages
  }

  ghost predicate Invariant(system: System) {
    && Linear(system.history)
    && (forall who | who in system.handles :: HandleOk(system.handles[who], system.history))
    && forall k | 0 <= k < |system.returned| :: Contains(system, system.returned[k].0, system.returned[k].1)
  }

  lemma HandleOkLonger(h: Handle, history: seq<SessionSnapshot>, snapshot: SessionSnapshot)
    requires HandleOk(h, history)
    ensures HandleOk(h, history + [snapshot])
  {
  }

  /** A passing compare-and-swap extends the line instead of forking it, however late it comes: the expected
      revision is the current one, and only one stored snapshot ever had that revision. */
  lemma SwapExtends(history: seq<SessionSnapshot>, h: Handle, save: Save)
    requires Linear(history) && HandleOk(h, history) && SaveOk(save, h.trail, history)
    requires CasPasses(CurrentOf(history), save.expected, save.snapshot.revision)
    ensures Linear(history + [save.snapshot])
    ensures Covers(history + [save.snapshot], save.snapshot.revision, h.trail)
  {
    var snapshot := save.snapshot;
    if history != [] {
      var expected := save.expected.value;
      assert Covers(history, expected, h.trail) && h.trail[expected].revision == expected;
      var i :| 0 <= i < |history| && history[i] == h.trail[expected];
      assert i == |history| - 1;
      assert h.trail[expected].messages <= h.trail[snapshot.revision].messages;
    }
    assert (history + [snapshot])[|history|] == snapshot;
  }

  lemma ContainsLonger(before: System, after: System, who: nat, r: int)
    requires Contains(before, who, r) && TrailsKept(before, after)
    ensures Contains(after, who, r)
  {
    var trail := before.handles[who].trail;
    var i :| 0 <= i < |before.history| && r <= before.history[i].revision && before.history[i].revision in trail
      && trail[before.history[i].revision] == before.history[i] && trail[r].messages <= before.history[i].messages;
    assert after.history[i] == before.history[i];
  }

  /** No step rewrites what was stored or what a revision left behind. */
  ghost predicate TrailsKept(before: System, after: System) {
    && before.history <= after.history
    && forall who | who in before.handles ::
         && who in after.handles
         && forall r | r in before.handles[who].trail ::
              r in after.handles[who].trail && after.handles[who].trail[r] == before.handles[who].trail[r]
  }

  lemma StepKeepsTrails(system: System, step: Step)
    requires Invariant(system) && Enabled(system, step)
    ensures TrailsKept(system, Next(system, step))
  {
    if step.Mutate? {
      assert HandleOk(system.handles[step.who], system.history);
    }
    FreshRevision(system, step);
  }

  lemma FreshRevision(system: System, step: Step)
    requires Enabled(system, step)
    requires step.Mutate? ==> step.after.runtimeRevision !in system.handles[step.who].trail
    ensures TrailsKept(system, Next(system, step))
  {
  }

  lemma CoversContains(system: System, who: nat, revision: int, r: int)
    requires who in system.handles && HandleOk(system.handles[who], system.history)
    requires r in system.handles[who].trail && r <= revision
    requires Covers(system.history, revision, system.handles[who].trail)
    ensures Contains(system, who, r)
  {
    var trail := system.handles[who].trail;
    var i :| 0 <= i < |system.history| && system.history[i] == trail[revision];
  }

  lemma MutateKeeps(h: Handle, history: seq<SessionSnapshot>, after: SessionState)
    requires HandleOk(h, history) && Mutates(h.state, after)
    ensures HandleOk(h.(state := after, trail := h.trail[after.runtimeRevision := TakeSnapshot(after)]), history)
  {
    MutateTrail(h.trail, h.state, after);
  }

  lemma MutateTrail(trail: map<int, SessionSnapshot>, state: SessionState, after: SessionState)
    requires TrailOk(trail, state) && Mutates(state, after)
    ensures TrailOk(trail[after.runtimeRevision := TakeSnapshot(after)], after)
    ensures after.runtimeRevision !in trail
  {
  }

  lemma CaptureKeeps(h: Handle, history: seq<SessionSnapshot>, required: int)
    requires HandleOk(h, history) && required in h.trail
    requires !(h.state.durableRevision.Some? && h.state.durableRevision.value >= required)
    ensures HandleOk(h.(phase := Saving(required, TakeSnapshot(h.state), h.state.durableRevision)), history)
  {
  }

  lemma AcknowledgeKeeps(h: Handle, history: seq<SessionSnapshot>)
    requires HandleOk(h, history) && h.phase.Saved?
    ensures HandleOk(h.(state := h.state.(durableRevision := Some(h.phase.revision)), phase := Idle), history)
  {
  }

  /** The handle a step concerns stays in order. */
  lemma ActorKeeps(system: System, step: Step)
    requires Invariant(system) && Enabled(system, step)
    ensures var after := Next(system, step);
      step.who in after.handles && HandleOk(after.handles[step.who], after.history)
  {
    match step {
      case Create(_, _) =>
      case Open(_, _) =>
      case Mutate(who, after) => MutateKeeps(system.handles[who], system.history, after);
      case Capture(who, required) =>
        var h := system.handles[who];
        if !(h.state.durableRevision.Some? && h.state.durableRevision.value >= required) {
          CaptureKeeps(h, system.history, required);
        }
      case Swap(who) => SwapKeepsActor(system, who);
      case SwapUnacknowledged(who) => SwapKeepsActor(system, who);
      case SaveFails(_) =>
      case GiveUp(who) => GiveUpKeeps(system.handles[who], system.history);
      case LateSwap(who, which) => LateSwapKeeps(system, who, which);
      case Acknowledge(who) => AcknowledgeKeeps(system.handles[who], system.history);
    }
  }

  lemma SwapKeepsActor(system: System, who: nat)
    requires Invariant(system) && who in system.handles && system.handles[who].phase.Saving?
    ensures var after := Next(system, Swap(who)); HandleOk(after.handles[who], after.history)
    ensures var after := Next(system, SwapUnacknowledged(who)); HandleOk(after.handles[who], after.history)
  {
    var h := system.handles[who];
    if CasPasses(CurrentOf(system.history), h.phase.expected, h.phase.snapshot.revision) {
      SwapExtends(system.history, h, Save(h.phase.snapshot, h.phase.expected));
      HandleOkLonger(h, system.history, h.phase.snapshot);
    }
  }

  lemma GiveUpKeeps(h: Handle, history: seq<SessionSnapshot>)
    requires HandleOk(h, history) && h.phase.Saving?
    ensures HandleOk(h.(phase := Idle, adrift := h.adrift + [Save(h.phase.snapshot, h.phase.expected)]), history)
  {
  }

  lemma LateSwapKeeps(system: System, who: nat, which: nat)
    requires Invariant(system) && who in system.handles && which < |system.handles[who].adrift|
    ensures var after := Next(system, LateSwap(who, which)); HandleOk(after.handles[who], after.history)
  {
    var h := system.handles[who];
    var save := h.adrift[which];
    assert HandleOk(h, system.history);
    if CasPasses(CurrentOf(system.history), save.expected, save.snapshot.revision) {
      HandleOkLonger(h, system.history, save.snapshot);
    }
  }

  lemma HistoryStaysLinear(system: System, step: Step)
    requires Invariant(system) && Enabled(system, step)
    ensures Linear(Next(system, step).history)
    ensures forall who | who in system.handles && who != step.who ::
      && Next(system, step).handles[who] == system.handles[who]
      && HandleOk(system.handles[who], Next(system, step).history)
  {
    if step.Swap? || step.SwapUnacknowledged? {
      var h := system.handles[step.who];
      if CasPasses(CurrentOf(system.history), h.phase.expected, h.phase.snapshot.revision) {
        SwapExtends(system.history, h, Save(h.phase.snapshot, h.phase.expected));
        AllOkLonger(system, h.phase.snapshot);
      }
    } else if step.LateSwap? {
      var h := system.handles[step.who];
      var save := h.adrift[step.which];
      if CasPasses(CurrentOf(system.history), save.expected, save.snapshot.revision) {
        SwapExtends(system.history, h, save);
        AllOkLonger(system, save.snapshot);
      }
    }
  }

  lemma AllOkLonger(system: System, snapshot: SessionSnapshot)
    requires Invariant(system)
    ensures forall who | who in system.handles :: HandleOk(system.handles[who], system.history + [snapshot])
  {
    forall who | who in system.handles ensures HandleOk(system.handles[who], system.history + [snapshot]) {
      HandleOkLonger(system.handles[who], system.history, snapshot);
    }
  }

  lemma StepKeepsInvariant(system: System, step: Step)
    requires Invariant(system) && Enabled(system, step)
    ensures Invariant(Next(system, step))
  {
    var after := Next(system, step);
    StepKeepsTrails(system, step);
    ActorKeeps(system, step);
    HistoryStaysLinear(system, step);
    ReturnedKept(system, step);
  }

  lemma ReturnedKept(system: System, step: Step)
    requires Invariant(system) && Enabled(system, step)
    ensures var after := Next(system, step);
      forall k | 0 <= k < |after.returned| :: Contains(after, after.returned[k].0, after.returned[k].1)
  {
    var after := Next(system, step);
    StepKeepsTrails(system, step);
    forall k | 0 <= k < |after.returned| ensures Contains(after, after.returned[k].0, after.returned[k].1) {
      if k < |system.returned| {
        assert after.returned[k] == system.returned[k];
        ContainsLonger(system, after, system.returned[k].0, system.returned[k].1);
      } else {
        NewlyReturned(system, step);
      }
    }
  }

  /** A persist call that returns now was covered before. */
  lemma NewlyReturned(system: System, step: Step)
    requires Invariant(system) && Enabled(system, step) && |Next(system, step).returned| > |system.returned|
    ensures var after := Next(system, step);
      Contains(after, after.returned[|system.returned|].0, after.returned[|system.returned|].1)
  {
    var h := system.handles[step.who];
    assert HandleOk(h, system.history);
    StepKeepsTrails(system, step);
    if step.Capture? {
      CoversContains(system, step.who, h.state.durableRevision.value, step.required);
      ContainsLonger(system, Next(system, step), step.who, step.required);
    } else {
      CoversContains(system, step.who, h.phase.revision, h.phase.required);
      ContainsLonger(system, Next(system, step), step.who, h.phase.required);
    }
  }

  /** Whatever the interleaving, at every point of a run: one line of growing transcripts, and a persist
      call that returned normally for revision `r` left a stored snapshot with every mutation up to `r`. */
  lemma {:induction false} NoForkedHistory(trace: seq<System>, steps: seq<Step>, at: nat)
    requires IsRun(trace, steps) && at < |trace|
    ensures Invariant(trace[at])
  {
    if at > 0 {
      NoForkedHistory(trace, steps, at - 1);
      assert Leads(trace[at - 1], steps[at - 1], trace[at]);
      StepKeepsInvariant(trace[at - 1], steps[at - 1]);
    }
  }

  lemma TrailsTransitive(a: System, b: System, c: System)
    requires TrailsKept(a, b) && TrailsKept(b, c)
    ensures TrailsKept(a, c)
  {
  }

  lemma RunStepKeepsTrails(trace: seq<System>, steps: seq<Step>, at: nat)
    requires IsRun(trace, steps) && at < |steps|
    ensures TrailsKept(trace[at], trace[at + 1])
  {
    NoForkedHistory(trace, steps, at);
    assert Leads(trace[at], steps[at], trace[at + 1]);
    StepKeepsTrails(trace[at], steps[at]);
  }

  lemma {:induction false} RunKeepsTrails(trace: seq<System>, steps: seq<Step>, early: nat, late: nat)
    requires IsRun(trace, steps) && early <= late < |trace|
    ensures TrailsKept(trace[early], trace[late])
  {
    if early < late {
      RunKeepsTrails(trace, steps, early, late - 1);
      RunStepKeepsTrails(trace, steps, late - 1);
      TrailsTransitive(trace[early], trace[late - 1], trace[late]);
    }
  }

  /** What was once stored stays stored, in order, for the rest of the run. */
  lemma StoredForever(trace: seq<System>, steps: seq<Step>, early: nat, late: nat)
    requires IsRun(trace, steps) && early <= late < |trace|
    ensures trace[early].history <= trace[late].history
    ensures forall k | 0 <= k < |trace[early].returned| ::
      Contains(trace[late], trace[early].returned[k].0, trace[early].returned[k].1)
  {
    NoForkedHistory(trace, steps, early);
    RunKeepsTrails(trace, steps, early, late);
    forall k | 0 <= k < |trace[early].returned|
      ensures Contains(trace[late], trace[early].returned[k].0, trace[early].returned[k].1)
    {
      ContainsLonger(trace[early], trace[late], trace[early].returned[k].0, trace[early].returned[k].1);
    }
  }
}

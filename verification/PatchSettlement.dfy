/** Committing a list of file changes, rolling them back and reporting what is left
    (roboagent/tool/apply_patch.py:135-184, 545-669; roboagent/runtime/execution.py:1033-1109). */
module PatchSettlement {
  import opened Basics

  type Bytes = seq<int>

  datatype File = File(data: Bytes, mode: nat)

  /** Workspace files have names; staged and rollback files are temporaries nobody else uses. */
  datatype Path = Named(name: string) | Staged(index: int) | Scratch(serial: nat)

  datatype Plan =
    | Added(path: string, after: File)
    | Modified(path: string, before: File, data: Bytes)
    | Deleted(path: string, before: File)
  {
    function Before(): Option<File> {
      match this
      case Added(_, _) => None
      case Modified(_, before, _) => Some(before)
      case Deleted(_, before) => Some(before)
    }

    function After(): Option<File> {
      match this
      case Added(_, after) => Some(after)
      case Modified(_, before, data) => Some(File(data, before.mode))
      case Deleted(_, _) => None
    }
  }

  function Data(file: Option<File>): Option<Bytes> {
    if file.Some? then Some(file.value.data) else None
  }

  function Lookup(files: map<Path, File>, name: string): Option<File> {
    if Named(name) in files then Some(files[Named(name)]) else None
  }

  /** The workspace is the same outside the given names. */
  ghost predicate SameExcept(before: map<Path, File>, after: map<Path, File>, names: set<string>) {
    forall name | name !in names :: Lookup(after, name) == Lookup(before, name)
  }

  // ---- The disk.

  /** Each operation may fail, whatever the state, and then has done nothing. */
  class Disk {
    var files: map<Path, File>
    var serial: nat

    constructor (files: map<Path, File>)
      ensures this.files == files
    {
      this.files, serial := files, 0;
    }

    method Link(source: Path, target: Path) returns (ok: bool)
      modifies this`files
      ensures ok ==> source in old(files) && target !in old(files) && files == old(files)[target := old(files)[source]]
      ensures !ok ==> files == old(files)
    {
      if * {
        return false;
      }
      if source !in files || target in files {
        return false;
      }
      files := files[target := files[source]];
      return true;
    }

    method Replace(source: Path, target: Path) returns (ok: bool)
      modifies this`files
      ensures ok ==> source in old(files) && files == (old(files) - {source})[target := old(files)[source]]
      ensures !ok ==> files == old(files)
    {
      if * {
        return false;
      }
      if source !in files {
        return false;
      }
      files := (files - {source})[target := files[source]];
      return true;
    }

    method Unlink(path: Path) returns (ok: bool)
      modifies this`files
      ensures ok ==> path in old(files) && files == old(files) - {path}
      ensures !ok ==> files == old(files)
    {
      if * {
        return false;
      }
      if path !in files {
        return false;
      }
      files := files - {path};
      return true;
    }

    /** A missing file is no failure here. */
    method Discard(path: Path) returns (ok: bool)
      modifies this`files
      ensures ok ==> files == old(files) - {path}
      ensures !ok ==> files == old(files)
    {
      if path in files {
        ok := Unlink(path);
      } else {
        assert files - {path} == files;
        ok := true;
      }
    }

    method Create(file: File) returns (temporary: Option<Path>)
      modifies this`files, this`serial
      ensures temporary.Some? ==> temporary.value.Scratch? && files == old(files)[temporary.value := file]
      ensures temporary.None? ==> files == old(files)
    {
      if * {
        return None;
      }
      serial := serial + 1;
      files := files[Scratch(serial) := file];
      return Some(Scratch(serial));
    }

    /** Existence and content of a workspace file. */
    method Inspect(name: string) returns (ok: bool, data: Option<Bytes>)
      ensures ok ==> data == Data(Lookup(files, name))
    {
      if * {
        return false, None;
      }
      return true, Data(Lookup(files, name));
    }

    /** A failure may come before the target is replaced or after it. */
    method Restore(name: string, file: File) returns (ok: bool)
      modifies this`files, this`serial
      ensures SameExcept(old(files), files, {name})
      ensures ok ==> Lookup(files, name) == Some(file)
      ensures Lookup(files, name) == Lookup(old(files), name) || Lookup(files, name) == Some(file)
      ensures forall i :: Staged(i) in files <==> Staged(i) in old(files)
    {
      var temporary := Create(file);
      if temporary.None? {
        return false;
      }
      ok := Replace(temporary.value, Named(name));
      var discarded := Discard(temporary.value);
      ok := ok && discarded;
    }
  }

  // ---- Settlement.

  datatype TargetState = Restored | Unchanged | StillCommitted | UnknownState

  predicate Settled(state: TargetState) {
    state.Restored? || state.Unchanged?
  }

  /** What a call can raise: nothing, a timeout (an operating system error can be one), anything else. */
  datatype Raised = Nothing | Timeout | Error

  predicate DistinctPaths(plans: seq<Plan>) {
    forall i, j | 0 <= i < j < |plans| :: plans[i].path != plans[j].path
  }

  /** What a state tells about a target that nobody but the patch touches. */
  ghost predicate Truthful(plan: Plan, state: TargetState, current: Option<File>) {
    match state
    case Restored => current == plan.Before()
    case Unchanged => current == plan.Before()
    case StillCommitted => current == plan.After()
    case UnknownState => current == plan.Before() || current == plan.After()
  }

  class PatchSettlement {
    const plans: seq<Plan>
    const disk: Disk
    var staged: seq<bool>
    var committed: seq<Plan>
    var failed: bool
    var states: map<string, TargetState>
    var forced: bool

    /** Staging has put the new content of every added or modified file beside its target. */
    constructor (plans: seq<Plan>, disk: Disk)
      requires DistinctPaths(plans) && StagedReady(plans, disk.files)
      ensures this.plans == plans && this.disk == disk
      ensures committed == [] && !failed && states == map[] && !forced
      ensures |staged| == |plans| && forall i | 0 <= i < |plans| :: staged[i] <==> !plans[i].Deleted?
    {
      this.plans, this.disk := plans, disk;
      staged := seq(|plans|, i requires 0 <= i < |plans| => !plans[i].Deleted?);
      committed, failed, states, forced := [], false, map[], false;
    }

    /** Rolls one committed plan back and says what became of it. The target is only touched while it holds
        what the patch put there. */
    method RollBackOne(plan: Plan)
      requires !(plan.path in states && Settled(states[plan.path]))
      modifies this`states, disk`files, disk`serial
      ensures SameExcept(old(disk.files), disk.files, {plan.path})
      ensures states.Keys == old(states).Keys + {plan.path}
      ensures forall path | path in old(states) && path != plan.path :: states[path] == old(states)[path]
      ensures var current, was := Lookup(disk.files, plan.path), Lookup(old(disk.files), plan.path);
        && (current == was || (current == plan.Before() && Data(was) == Data(plan.After())))
        && match states[plan.path]
           case Restored => current == plan.Before()
           case Unchanged => plan.Deleted? && Data(current) == Data(plan.Before())
           case StillCommitted => Data(current) == Data(plan.After())
           case UnknownState => true
    {
      var state := TryRollBack(plan);
      if state.None? {
        var ok, data := disk.Inspect(plan.path);
        state := Some(if ok && data == Data(plan.After()) then StillCommitted else UnknownState);
      }
      states := states[plan.path := state.value];
    }

    /** No state when an operating system error interrupts the attempt. */
    method TryRollBack(plan: Plan) returns (state: Option<TargetState>)
      modifies disk`files, disk`serial
      ensures SameExcept(old(disk.files), disk.files, {plan.path})
      ensures var current, was := Lookup(disk.files, plan.path), Lookup(old(disk.files), plan.path);
        && (current == was || (current == plan.Before() && Data(was) == Data(plan.After())))
        && match state
           case None => true
           case Some(Restored) => current == plan.Before()
           case Some(Unchanged) => plan.Deleted? && Data(current) == Data(plan.Before())
           case Some(StillCommitted) => false
           case Some(UnknownState) => Data(was) != Data(plan.After())
    {
      var ok, data := disk.Inspect(plan.path);
      if !ok {
        return None;
      }
      match plan
      case Added(path, after) =>
        if data == Some(after.data) {
          ok := disk.Unlink(Named(path));
          return if ok then Some(Restored) else None;
        }
        return Some(UnknownState);
      case Modified(path, before, after) =>
        if data == Some(after) {
          ok := disk.Restore(path, before);
          return if ok then Some(Restored) else None;
        }
        return Some(UnknownState);
      case Deleted(path, before) =>
        if data.None? {
          ok := disk.Restore(path, before);
          return if ok then Some(Restored) else None;
        }
        return Some(if data == Some(before.data) then Unchanged else UnknownState);
    }

    /** Nobody else touches the targets: every target is where the bookkeeping says it is. A target whose
        link was made but whose staged name could not be removed is not on the books. */
    ghost predicate Quiet(half: bool)
      reads this, disk
    {
      && DistinctPaths(plans) && |staged| == |plans| && committed <= plans
      && states.Keys <= Paths(plans) && (half ==> |committed| < |plans| && plans[|committed|].Added?)
      && forall i | 0 <= i < |plans| ::
           Known(plans[i], i < |committed|, half && i == |committed|, states, Lookup(disk.files, plans[i].path))
    }

    /** Commits one plan. An add may fail between its two steps. */
    method CommitOne(i: int) returns (done: bool, half: bool)
      requires 0 <= i < |plans| == |staged|
      requires Lookup(disk.files, plans[i].path) == plans[i].Before() && StagedOk(plans[i], i, staged[i], disk.files)
      modifies this`staged, disk`files
      ensures SameExcept(old(disk.files), disk.files, {plans[i].path})
      ensures SameStagedExcept(old(disk.files), disk.files, i)
      ensures |staged| == |plans| && staged == old(staged)[i := staged[i]]
      ensures Lookup(disk.files, plans[i].path) == if done || half then plans[i].After() else plans[i].Before()
      ensures if done then !half && !staged[i] && Staged(i) !in disk.files else half ==> plans[i].Added?
    {
      match plans[i] {
      case Added(path, after) =>
        var linked := disk.Link(Staged(i), Named(path));
        if !linked {
          return false, false;
        }
        var removed := disk.Unlink(Staged(i));
        if !removed {
          return false, true;
        }
        staged := staged[i := false];
      case Modified(path, before, data) =>
        var replaced := disk.Replace(Staged(i), Named(path));
        if !replaced {
          return false, false;
        }
        staged := staged[i := false];
      case Deleted(path, before) =>
        var removed := disk.Unlink(Named(path));
        if !removed {
          return false, false;
        }
      }
      return true, false;
    }

    /** Commits the plans in order, up to the first failure. An add takes two steps: a link under the target
        name, and the removal of the staged name. */
    method Commit() returns (half: bool)
      requires DistinctPaths(plans) && |staged| == |plans| && committed == [] && !failed && states == map[]
      requires StagedReady(plans, disk.files) && (forall i | 0 <= i < |plans| :: staged[i] <==> !plans[i].Deleted?)
      requires forall i | 0 <= i < |plans| :: Lookup(disk.files, plans[i].path) == plans[i].Before()
      modifies this`staged, this`committed, this`failed, disk`files
      ensures Quiet(half) && SameExcept(old(disk.files), disk.files, Paths(plans))
      ensures failed <==> |committed| < |plans|
      ensures !failed ==> !half && forall i | 0 <= i < |plans| :: !staged[i] && Staged(i) !in disk.files
    {
      half := false;
      for i := 0 to |plans|
        invariant |staged| == |plans| && committed == plans[..i] && !failed && !half
        invariant forall k | 0 <= k < |plans| ::
          Lookup(disk.files, plans[k].path) == if k < i then plans[k].After() else plans[k].Before()
        invariant forall k | 0 <= k < i :: !staged[k] && Staged(k) !in disk.files
        invariant forall k | i <= k < |plans| :: StagedOk(plans[k], k, staged[k], disk.files)
        invariant SameExcept(old(disk.files), disk.files, Paths(plans))
      {
        var done;
        done, half := CommitOne(i);
        if !done {
          failed := true;
          return;
        }
        committed := committed + [plans[i]];
        assert plans[..i] + [plans[i]] == plans[..i + 1];
      }
      assert plans[..|plans|] == plans;
    }

    /** What was restored stays restored. */
    ghost predicate KeepsSettled(before: map<string, TargetState>, files: map<Path, File>)
      reads this`states, disk`files
    {
      forall path | path in before && Settled(before[path]) ::
        path in states && states[path] == before[path] && Lookup(disk.files, path) == Lookup(files, path)
    }

    method StepBack(i: int, ghost half: bool)
      requires Quiet(half) && 0 <= i < |committed|
      modifies this`states, disk`files, disk`serial
      ensures Quiet(half) && KeepsSettled(old(states), old(disk.files))
      ensures SameExcept(old(disk.files), disk.files, Paths(plans))
      ensures states.Keys == old(states).Keys + {plans[i].path}
    {
      var plan := committed[i];
      assert plan == plans[i];
      if plan.path in states && Settled(states[plan.path]) {
        return;
      }
      RollBackOne(plan);
      forall k | 0 <= k < |plans|
        ensures Known(plans[k], k < |committed|, half && k == |committed|, states, Lookup(disk.files, plans[k].path))
      {
        assert old(Known(plans[k], k < |committed|, half && k == |committed|, states,
                         Lookup(disk.files, plans[k].path)));
      }
    }

    /** Takes the committed plans back in reverse order; a second rollback retries what is still open and
        leaves alone what is settled. */
    method RollBack(ghost half: bool)
      requires Quiet(half)
      modifies this`states, disk`files, disk`serial
      ensures Quiet(half) && KeepsSettled(old(states), old(disk.files)) && states.Keys == Paths(plans)
      ensures SameExcept(old(disk.files), disk.files, Paths(plans))
    {
      for i := |committed| downto 0
        invariant Quiet(half) && KeepsSettled(old(states), old(disk.files))
        invariant forall k | i <= k < |committed| :: plans[k].path in states
        invariant SameExcept(old(disk.files), disk.files, Paths(plans))
      {
        StepBack(i, half);
      }
      DefaultStates(half);
    }

    method DefaultStates(ghost half: bool)
      requires Quiet(half) && forall k | 0 <= k < |committed| :: plans[k].path in states
      modifies this`states
      ensures Quiet(half) && states.Keys == Paths(plans)
      ensures forall path | path in old(states) :: path in states && states[path] == old(states)[path]
    {
      for i := 0 to |plans|
        invariant Quiet(half)
        invariant forall path | path in old(states) :: path in states && states[path] == old(states)[path]
        invariant forall k | 0 <= k < i || 0 <= k < |committed| :: plans[k].path in states
      {
        if plans[i].path !in states {
          states := states[plans[i].path := Unchanged];
        }
      }
    }

    predicate NothingStaged()
      reads this`staged
    {
      forall i | 0 <= i < |staged| :: !staged[i]
    }

    /** Removes the staged files that are left; an error stops it. */
    method CleanupStaged(ghost half: bool) returns (raised: Raised)
      requires Quiet(half)
      modifies this`staged, disk`files
      ensures Quiet(half) && SameExcept(old(disk.files), disk.files, {})
      ensures raised.Nothing? ==> NothingStaged()
      ensures old(NothingStaged()) ==> raised.Nothing? && disk.files == old(disk.files)
    {
      for i := 0 to |plans|
        invariant Quiet(half) && SameExcept(old(disk.files), disk.files, {})
        invariant forall k | 0 <= k < i :: !staged[k]
        invariant old(NothingStaged()) ==> NothingStaged() && disk.files == old(disk.files)
      {
        if staged[i] {
          var removed := disk.Discard(Staged(i));
          if !removed {
            raised := AnyError();
            return;
          }
          staged := staged[i := false];
        }
      }
      return Nothing;
    }

    method Settle(ghost half: bool) returns (raised: Raised)
      requires Quiet(half)
      modifies this`staged, this`states, disk`files, disk`serial
      ensures Quiet(half) && KeepsSettled(old(states), old(disk.files))
      ensures SameExcept(old(disk.files), disk.files, Paths(plans))
      ensures if failed then states.Keys == Paths(plans) else states == old(states)
      ensures raised.Nothing? ==> !Open(states)
      ensures !failed && old(NothingStaged()) && states == map[] ==> raised.Nothing? && disk.files == old(disk.files)
    {
      if failed {
        RollBack(half);
      }
      raised := CleanupStaged(half);
      if raised.Nothing? && Open(states) {
        return Error;
      }
    }

    method ForceSettle(ghost half: bool) returns (raised: Raised)
      requires Quiet(half)
      modifies this`staged, this`states, this`forced, disk`files, disk`serial
      ensures Quiet(half) && forced && KeepsSettled(old(states), old(disk.files))
      ensures SameExcept(old(disk.files), disk.files, Paths(plans))
      ensures states.Keys == Paths(plans) && (raised.Nothing? ==> !Open(states))
    {
      forced := true;
      RollBack(half);
      raised := CleanupStaged(half);
      if raised.Nothing? && Open(states) {
        return Error;
      }
    }

    /** A settlement under a timeout, which may strike before it has begun or when it is done. */
    method SettleInTime(ghost half: bool) returns (raised: Raised, ran: bool)
      requires Quiet(half) && states == map[] && (!failed ==> NothingStaged())
      modifies this`staged, this`states, disk`files, disk`serial
      ensures Quiet(half) && SameExcept(old(disk.files), disk.files, Paths(plans))
      ensures states.Keys == (if failed && ran then Paths(plans) else {}) && (!failed ==> disk.files == old(disk.files))
      ensures raised.Nothing? ==> ran && !Open(states)
      ensures raised.Error? ==> ran && failed
    {
      if * {
        return Timeout, false;
      }
      raised := Settle(half);
      if * {
        raised := Timeout;
      }
      return raised, true;
    }

    method ForceInTime(ghost half: bool) returns (raised: Raised, ran: bool)
      requires Quiet(half)
      modifies this`staged, this`states, this`forced, disk`files, disk`serial
      ensures Quiet(half) && SameExcept(old(disk.files), disk.files, Paths(plans))
      ensures KeepsSettled(old(states), old(disk.files))
      ensures if ran then forced && states.Keys == Paths(plans)
              else forced == old(forced) && states == old(states) && disk.files == old(disk.files)
      ensures raised.Nothing? ==> ran && !Open(states)
    {
      if * {
        return Timeout, false;
      }
      raised := ForceSettle(half);
      if * {
        raised := Timeout;
      }
      return raised, true;
    }

    /** The settlement driver: a settlement that runs into the timeout may still be forced to a regular end,
        and forcing takes back even a full commit; one that fails otherwise is forced and reported as failed.
        `uncertain` is the retry blocker, `rolledBack` says whether any rollback came to run. */
    method Drive(ghost half: bool) returns (converged: bool, uncertain: bool, rolledBack: bool)
      requires Quiet(half) && states == map[] && !forced && (!failed ==> NothingStaged())
      modifies this`staged, this`states, this`forced, disk`files, disk`serial
      ensures Quiet(half) && SameExcept(old(disk.files), disk.files, Paths(plans))
      ensures states.Keys == (if rolledBack then Paths(plans) else {})
      ensures (forced ==> rolledBack) && (rolledBack ==> failed || forced)
      ensures !failed && !rolledBack ==> disk.files == old(disk.files)
      ensures converged ==> !Open(states) && !uncertain && (failed ==> rolledBack)
      ensures Open(states) || (!converged && !rolledBack) ==> uncertain
    {
      var raised, ran := SettleInTime(half);
      if raised.Nothing? {
        return true, false, failed;
      }
      var again, forcedIt := ForceInTime(half);
      return raised.Timeout? && again.Nothing?, !again.Nothing?, forcedIt || (failed && ran);
    }

    /** What is reported after a failure: the targets whose state is not settled, in plan order. */
    method FailureEffects() returns (reports: seq<Report>)
      ensures reports == OpenTargets(plans, states)
    {
      reports := [];
      for i := 0 to |plans|
        invariant reports == OpenTargets(plans[..i], states)
      {
        assert plans[..i + 1][..i] == plans[..i];
        var state := StateOf(plans[i], states);
        if !Settled(state) {
          reports := reports + [Report(plans[i].path, state)];
        }
      }
      assert plans[..|plans|] == plans;
    }

    /** Turns the state of the handler into the outcome of the tool call. */
    method Conclude(end: Ending) returns (outcome: Outcome)
      requires |committed| <= |plans|
      ensures outcome == OutcomeOf(plans, states, failed, forced, |committed| == |plans|, end)
    {
      var open := Open(states);
      var reports := [];
      if open {
        reports := FailureEffects();
      }
      match end
      case EndedInError =>
        return if open then PatchFailed("patch_rollback_failed", reports)
               else if failed then PatchFailed("patch_commit_failed", []) else SettlementFailed;
      case EndedCancelled =>
        if !failed && !forced && |committed| == |plans| {
          return PatchCancelled(AllPaths(plans), []);
        }
        return PatchCancelled([], reports);
      case EndedRegularly =>
        if open {
          return PatchFailed("patch_rollback_failed", reports);
        }
        return if forced || failed then PatchFailed("patch_commit_failed", []) else Applied(AllPaths(plans));
    }
  }

  /** How the block around the commit is left. */
  datatype Ending = EndedInError | EndedCancelled | EndedRegularly

  predicate Open(states: map<string, TargetState>) {
    exists path | path in states :: !Settled(states[path])
  }

  function StateOf(plan: Plan, states: map<string, TargetState>): TargetState {
    if plan.path in states then states[plan.path] else UnknownState
  }

  function OpenTargets(plans: seq<Plan>, states: map<string, TargetState>): seq<Report>
    decreases |plans|
  {
    if plans == [] then []
    else
      var last := plans[|plans| - 1];
      OpenTargets(plans[..|plans| - 1], states)
      + (if Settled(StateOf(last, states)) then [] else [Report(last.path, StateOf(last, states))])
  }

  lemma {:induction false} OpenTargetsAre(plans: seq<Plan>, states: map<string, TargetState>)
    ensures forall report | report in OpenTargets(plans, states) ::
      exists i | 0 <= i < |plans| ::
        report == Report(plans[i].path, StateOf(plans[i], states)) && !Settled(report.state)
    ensures forall i | 0 <= i < |plans| && !Settled(StateOf(plans[i], states)) ::
      Report(plans[i].path, StateOf(plans[i], states)) in OpenTargets(plans, states)
  {
    if plans != [] {
      var last := |plans| - 1;
      OpenTargetsAre(plans[..last], states);
      forall report | report in OpenTargets(plans, states)
        ensures exists i | 0 <= i < |plans| ::
          report == Report(plans[i].path, StateOf(plans[i], states)) && !Settled(report.state)
      {
        if report in OpenTargets(plans[..last], states) {
          var i :| 0 <= i < last && report == Report(plans[..last][i].path, StateOf(plans[..last][i], states))
                   && !Settled(report.state);
          assert report == Report(plans[i].path, StateOf(plans[i], states));
        } else {
          assert report == Report(plans[last].path, StateOf(plans[last], states));
        }
      }
      forall i | 0 <= i < |plans| && !Settled(StateOf(plans[i], states))
        ensures Report(plans[i].path, StateOf(plans[i], states)) in OpenTargets(plans, states)
      {
        if i < last {
          assert plans[..last][i] == plans[i];
        }
      }
    }
  }

  function OutcomeOf(plans: seq<Plan>, states: map<string, TargetState>, failed: bool, forced: bool, complete: bool,
                     end: Ending): Outcome {
    var reports := if Open(states) then OpenTargets(plans, states) else [];
    match end
    case EndedInError =>
      if Open(states) then PatchFailed("patch_rollback_failed", reports)
      else if failed then PatchFailed("patch_commit_failed", []) else SettlementFailed
    case EndedCancelled =>
      if !failed && !forced && complete then PatchCancelled(AllPaths(plans), []) else PatchCancelled([], reports)
    case EndedRegularly =>
      if Open(states) then PatchFailed("patch_rollback_failed", reports)
      else if forced || failed then PatchFailed("patch_commit_failed", []) else Applied(AllPaths(plans))
  }

  /** An operating system error may or may not be a timeout. */
  method AnyError() returns (raised: Raised)
    ensures !raised.Nothing?
  {
    if * {
      return Timeout;
    }
    return Error;
  }

  datatype Report = Report(path: string, state: TargetState)

  datatype Outcome =
    | Applied(paths: seq<string>)
    | PatchFailed(code: string, reports: seq<Report>)
    | PatchCancelled(paths: seq<string>, reports: seq<Report>)
    | SettlementFailed

  predicate EffectFree(outcome: Outcome) {
    match outcome
    case Applied(_) => false
    case PatchFailed(_, reports) => reports == []
    case PatchCancelled(paths, reports) => paths == [] && reports == []
    case SettlementFailed => true
  }

  function AllPaths(plans: seq<Plan>): seq<string> {
    seq(|plans|, i requires 0 <= i < |plans| => plans[i].path)
  }

  ghost predicate AllBefore(plans: seq<Plan>, files: map<Path, File>) {
    forall i | 0 <= i < |plans| :: Lookup(files, plans[i].path) == plans[i].Before()
  }

  ghost predicate AllAfter(plans: seq<Plan>, files: map<Path, File>) {
    forall i | 0 <= i < |plans| :: Lookup(files, plans[i].path) == plans[i].After()
  }

  function Reports(outcome: Outcome): seq<Report> {
    match outcome
    case PatchFailed(_, reports) => reports
    case PatchCancelled(_, reports) => reports
    case _ => []
  }

  /** Every report names a target that is not settled and is true of it, and every target that does not hold what
      it held before is reported, save the one whose add was half made. */
  ghost predicate HonestReports(plans: seq<Plan>, done: nat, reports: seq<Report>, half: bool, files: map<Path, File>) {
    && (forall report | report in reports ::
          exists i | 0 <= i < |plans| ::
            && plans[i].path == report.path && !Settled(report.state)
            && Truthful(plans[i], report.state, Lookup(files, report.path)))
    && (forall i | 0 <= i < |plans| && Lookup(files, plans[i].path) != plans[i].Before() ::
          (exists report | report in reports :: report.path == plans[i].path) || (half && i == done))
  }

  /** What the handler knows once the settlement driver is done. Without a rollback, because there was nothing to
      roll back or because the driver was stopped or timed out before it could, no state is recorded. */
  ghost predicate Concluded(plans: seq<Plan>, done: nat, states: map<string, TargetState>, failed: bool, forced: bool,
                            half: bool, rolledBack: bool, files: map<Path, File>) {
    && DistinctPaths(plans) && done <= |plans| && (failed <==> done < |plans|)
    && (half ==> done < |plans| && plans[done].Added?)
    && (forall i | 0 <= i < |plans| ::
          Known(plans[i], i < done, half && i == done, states, Lookup(files, plans[i].path)))
    && states.Keys == (if rolledBack then Paths(plans) else {})
    && (forced ==> rolledBack) && (rolledBack ==> failed || forced)
  }

  lemma TargetNamed(plans: seq<Plan>, i: int)
    requires 0 <= i < |plans|
    ensures plans[i].path in Paths(plans)
  {
  }

  /** Nothing is reported as done that is not. */
  lemma SuccessMeansAfter(plans: seq<Plan>, done: nat, states: map<string, TargetState>, failed: bool, forced: bool,
                          half: bool, rolledBack: bool, files: map<Path, File>, end: Ending)
    requires Concluded(plans, done, states, failed, forced, half, rolledBack, files)
    requires var outcome := OutcomeOf(plans, states, failed, forced, done == |plans|, end);
      outcome.Applied? || (outcome.PatchCancelled? && outcome.paths != [])
    ensures AllAfter(plans, files) && !failed && !rolledBack
    ensures OutcomeOf(plans, states, failed, forced, done == |plans|, end).paths == AllPaths(plans)
  {
  }

  /** An outcome that reports no effect is right exactly when no add was left half done and, if no rollback came
      to run, when what had been committed changed nothing. */
  lemma NoEffectMeansBefore(plans: seq<Plan>, done: nat, states: map<string, TargetState>, failed: bool, forced: bool,
                            half: bool, rolledBack: bool, files: map<Path, File>, end: Ending)
    requires Concluded(plans, done, states, failed, forced, half, rolledBack, files) && plans != []
    requires EffectFree(OutcomeOf(plans, states, failed, forced, done == |plans|, end))
    ensures AllBefore(plans, files)
       <==> !half && (!rolledBack ==> forall i | 0 <= i < done :: plans[i].Before() == plans[i].After())
  {
    OpenTargetsAre(plans, states);
    if half {
      assert Lookup(files, plans[done].path) == plans[done].After() != plans[done].Before();
    } else if rolledBack {
      forall i | 0 <= i < |plans| ensures Lookup(files, plans[i].path) == plans[i].Before() {
        TargetNamed(plans, i);
        assert Settled(StateOf(plans[i], states));
      }
    } else {
      assert states == map[];
      assert forall i | 0 <= i < |plans| ::
        Lookup(files, plans[i].path) == if i < done then plans[i].After() else plans[i].Before();
    }
  }

  /** After a rollback the reports name exactly the targets that are left committed or unknown, each truly, and
      every other target holds what it held before, save a half-made add. */
  lemma ReportsAreHonest(plans: seq<Plan>, done: nat, states: map<string, TargetState>, failed: bool, forced: bool,
                         half: bool, files: map<Path, File>, end: Ending)
    requires Concluded(plans, done, states, failed, forced, half, true, files)
    ensures var outcome := OutcomeOf(plans, states, failed, forced, done == |plans|, end);
      && !outcome.Applied? && (outcome.PatchCancelled? ==> outcome.paths == [])
      && HonestReports(plans, done, Reports(outcome), half, files)
      && forall i | 0 <= i < |plans| ::
           && plans[i].path in states
           && ((exists report | report in Reports(outcome) :: report.path == plans[i].path)
               <==> states[plans[i].path].StillCommitted? || states[plans[i].path].UnknownState?)
  {
    OpenTargetsAre(plans, states);
    var reports := Reports(OutcomeOf(plans, states, failed, forced, done == |plans|, end));
    ReportedAre(plans, states, reports);
    forall report | report in reports
      ensures exists i | 0 <= i < |plans| ::
        && plans[i].path == report.path && !Settled(report.state)
        && Truthful(plans[i], report.state, Lookup(files, report.path))
    {
      var i :| 0 <= i < |plans| && report == Report(plans[i].path, StateOf(plans[i], states)) && !Settled(report.state);
      TargetNamed(plans, i);
      assert Known(plans[i], i < done, half && i == done, states, Lookup(files, plans[i].path));
    }
    forall i | 0 <= i < |plans| && Lookup(files, plans[i].path) != plans[i].Before()
      ensures (exists report | report in reports :: report.path == plans[i].path) || (half && i == done)
    {
      TargetNamed(plans, i);
      assert Known(plans[i], i < done, half && i == done, states, Lookup(files, plans[i].path));
      if !(half && i == done) {
        assert !Settled(StateOf(plans[i], states));
      }
    }
  }

  /** The reports are the targets that are not settled, and no others. */
  lemma ReportedAre(plans: seq<Plan>, states: map<string, TargetState>, reports: seq<Report>)
    requires DistinctPaths(plans) && states.Keys == Paths(plans)
    requires reports == if Open(states) then OpenTargets(plans, states) else []
    ensures forall i | 0 <= i < |plans| ::
      && plans[i].path in states
      && ((exists report | report in reports :: report.path == plans[i].path) <==> !Settled(states[plans[i].path]))
  {
    OpenTargetsAre(plans, states);
    forall i | 0 <= i < |plans|
      ensures plans[i].path in states
      ensures (exists report | report in reports :: report.path == plans[i].path) <==> !Settled(states[plans[i].path])
    {
      TargetNamed(plans, i);
      if !Settled(states[plans[i].path]) {
        assert Report(plans[i].path, StateOf(plans[i], states)) in reports;
      }
    }
  }

  /** The whole tool call from the staged plans on. `half` says that an add made its link but could not remove
      the staged name, `done` how many plans were committed, `rolledBack` whether a rollback came to run before the
      settlement driver was stopped or timed out, `uncertain` that a retry blocker was left. */
  method Apply(plans: seq<Plan>, disk: Disk)
    returns (outcome: Outcome, half: bool, rolledBack: bool, uncertain: bool, done: nat)
    requires DistinctPaths(plans) && StagedReady(plans, disk.files) && AllBefore(plans, disk.files)
    modifies disk
    ensures SameExcept(old(disk.files), disk.files, Paths(plans)) && done <= |plans|
    ensures outcome.Applied? || (outcome.PatchCancelled? && outcome.paths != []) ==>
      && AllAfter(plans, disk.files) && outcome.paths == AllPaths(plans)
      && forall i | 0 <= i < |plans| :: Staged(i) !in disk.files
    ensures EffectFree(outcome) && plans != [] ==>
      (AllBefore(plans, disk.files) <==>
       !half && (!rolledBack ==> forall i | 0 <= i < done :: plans[i].Before() == plans[i].After()))
    ensures EffectFree(outcome) && plans != [] && !rolledBack ==> uncertain
    ensures rolledBack ==> !outcome.Applied? && HonestReports(plans, done, Reports(outcome), half, disk.files)
    ensures outcome.PatchFailed? && outcome.reports != [] ==> outcome.code == "patch_rollback_failed" && uncertain
  {
    var handler := new PatchSettlement(plans, disk);
    half := handler.Commit();
    done, rolledBack, uncertain := |handler.committed|, false, true;
    var end := EndedInError;
    if * {
      // The driver is cancelled before it runs.
    } else {
      var converged;
      converged, uncertain, rolledBack := handler.Drive(half);
      if converged {
        if * {
          end := EndedCancelled;
        } else {
          end := EndedRegularly;
        }
      }
    }
    outcome := handler.Conclude(end);
    Guarantees(plans, done, handler.states, handler.failed, handler.forced, half, rolledBack, disk.files, end);
  }

  /** The three guarantees, as one step. */
  lemma Guarantees(plans: seq<Plan>, done: nat, states: map<string, TargetState>, failed: bool, forced: bool,
                   half: bool, rolledBack: bool, files: map<Path, File>, end: Ending)
    requires Concluded(plans, done, states, failed, forced, half, rolledBack, files)
    requires failed && !end.EndedInError? ==> rolledBack
    ensures var outcome := OutcomeOf(plans, states, failed, forced, done == |plans|, end);
      && (outcome.Applied? || (outcome.PatchCancelled? && outcome.paths != []) ==>
            !failed && !rolledBack && AllAfter(plans, files) && outcome.paths == AllPaths(plans))
      && (EffectFree(outcome) && plans != [] ==>
            (AllBefore(plans, files) <==>
             !half && (!rolledBack ==> forall i | 0 <= i < done :: plans[i].Before() == plans[i].After())))
      && (EffectFree(outcome) && plans != [] && !rolledBack ==> end.EndedInError?)
      && (rolledBack ==> !outcome.Applied? && HonestReports(plans, done, Reports(outcome), half, files))
      && (outcome.PatchFailed? && outcome.reports != [] ==> outcome.code == "patch_rollback_failed" && Open(states))
  {
    var outcome := OutcomeOf(plans, states, failed, forced, done == |plans|, end);
    if outcome.Applied? || (outcome.PatchCancelled? && outcome.paths != []) {
      SuccessMeansAfter(plans, done, states, failed, forced, half, rolledBack, files, end);
    }
    if EffectFree(outcome) && plans != [] {
      NoEffectMeansBefore(plans, done, states, failed, forced, half, rolledBack, files, end);
      assert |AllPaths(plans)| == |plans|;
    }
    if rolledBack {
      ReportsAreHonest(plans, done, states, failed, forced, half, files, end);
    }
  }

  /** The link was made and the staged name could not be removed: the file is there and nobody says so. */
  lemma HalfMadeAddGoesUnreported(file: File)
    ensures var plans := [Added("a", file)];
      var files := map[Named("a") := file, Staged(0) := file];
      && Concluded(plans, 0, map["a" := Unchanged], true, false, true, true, files)
      && OutcomeOf(plans, map["a" := Unchanged], true, false, false, EndedRegularly)
           == PatchFailed("patch_commit_failed", [])
      && !AllBefore(plans, files)
  {
    var plans := [Added("a", file)];
    assert plans[0] in plans && Paths(plans) == {"a"};
    assert Lookup(map[Named("a") := file, Staged(0) := file], "a") == Some(file) != plans[0].Before();
  }

  /** The driver is stopped after two changes of which the second failed: one target is changed, the outcome
      reports no effect. */
  lemma InterruptedDriverRollsNothingBack(before: File, data: Bytes)
    requires data != before.data
    ensures var plans := [Modified("a", before, data), Deleted("b", before)];
      var files := map[Named("a") := File(data, before.mode), Named("b") := before];
      && Concluded(plans, 1, map[], true, false, false, false, files)
      && OutcomeOf(plans, map[], true, false, false, EndedInError) == PatchFailed("patch_commit_failed", [])
      && !AllBefore(plans, files)
  {
    var plans := [Modified("a", before, data), Deleted("b", before)];
    assert Lookup(map[Named("a") := File(data, before.mode), Named("b") := before], "a") != plans[0].Before();
  }

  function Paths(plans: seq<Plan>): set<string> {
    set plan | plan in plans :: plan.path
  }

  ghost predicate Known(plan: Plan, committed: bool, half: bool, states: map<string, TargetState>,
                        current: Option<File>) {
    if committed then
      if plan.path in states then Truthful(plan, states[plan.path], current) else current == plan.After()
    else
      && (plan.path in states ==> states[plan.path] == Unchanged)
      && current == if half then plan.After() else plan.Before()
  }

  predicate StagedOk(plan: Plan, i: int, staged: bool, files: map<Path, File>) {
    if plan.Deleted? then !staged && Staged(i) !in files
    else staged && Staged(i) in files && Some(files[Staged(i)]) == plan.After()
  }

  predicate StagedReady(plans: seq<Plan>, files: map<Path, File>) {
    forall i | 0 <= i < |plans| :: StagedOk(plans[i], i, !plans[i].Deleted?, files)
  }

  ghost predicate SameStagedExcept(before: map<Path, File>, after: map<Path, File>, i: int) {
    forall k | k != i ::
      && (Staged(k) in after <==> Staged(k) in before)
      && (Staged(k) in before ==> after[Staged(k)] == before[Staged(k)])
  }
}

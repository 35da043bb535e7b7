/** Ownership of one device resource: who may touch it, when it is known idle, and when it may be released. */
module ResourceOwner {
  // A device call succeeds, fails or unwinds; a successful synchronization leaves the device idle. The `busy` bit is
  // the device's own state, which no branch of the owner can read.

  import opened Wrappers

  datatype Call = Succeeds | Fails | Unwinds

  datatype Phase = Ready | InFlight | PoisonedIdle | PoisonedUncertain

  datatype Event =
    | Began
    | Submitted
    | Synchronized(result: Call)
    | Validated(result: Call)
    | Committed(result: Call)
    | Released
    | Retained

  datatype Device = Device(busy: bool, log: seq<Event>)

  /** `Aborted`: a second unwinding inside a destructor ended the process. */
  datatype Custody = Owned | Dropped | Forgotten | HandedOut | Aborted

  /** `state` is empty only while a transition holds the resource, or after the owner gave it up. */
  datatype Owner = Owner(state: Option<Phase>, device: Device, custody: Custody)

  datatype Guard = Guard(submitted: bool, finished: bool)

  datatype BeginError = MissingResource | NotReady

  datatype Completion =
    | Completed
    | CommitFailed
    | NotSubmitted
    | SynchronizationFailed
    | ValidationFailed
    | NoResource
    | Unwound

  /** The calls one completion may make, and the one its guard makes if it is dropped with work submitted. */
  datatype Script = Script(synchronize: Call, validate: Call, commit: Call, onDrop: Call)

  function Log(o: Owner, e: Event): Owner { o.(device := o.device.(log := o.device.log + [e])) }

  /** Wait for the device: success proves it idle, anything else proves nothing. */
  function Synchronize(o: Owner, result: Call): Owner {
    var logged := Log(o, Synchronized(result));
    if result.Succeeds? then logged.(device := logged.device.(busy := false)) else logged
  }

  // ---- owner and guard --------------------------------------------------

  function NewOwner(): Owner { Owner(Some(Ready), Device(false, []), Owned) }

  function Begin(o: Owner): (Owner, Result<Guard, BeginError>) {
    match o.state
    case None => (o, Err(MissingResource))
    case Some(phase) =>
      if phase != Ready then (o, Err(NotReady))
      else (Log(o, Began).(state := Some(InFlight)), Ok(Guard(false, false)))
  }

  /** Replace an in-flight state; any other state is left taken, as the source leaves it. */
  function Settle(o: Owner, phase: Phase): Owner {
    o.(state := if o.state == Some(InFlight) then Some(phase) else None)
  }

  /**
   The guard's destructor takes the resource out before it synchronizes, so a call that unwinds there drops
   the resource with the frame.
   */
  function FinishAfterSubmission(o: Owner, result: Call): Owner {
    if o.state != Some(InFlight) then o.(state := None)
    else
      var synced := Synchronize(o, result);
      match result
      case Succeeds => Settle(synced, PoisonedIdle)
      case Fails => Settle(synced, PoisonedUncertain)
      case Unwinds => Release(synced)
  }

  function Release(o: Owner): Owner { Log(o, Released).(state := None, custody := Dropped) }

  function DropGuard(o: Owner, g: Guard, result: Call): Owner {
    if g.finished then o
    else if g.submitted then FinishAfterSubmission(o, result)
    else Settle(o, Ready)
  }

  /** The guard's destructor while the completion is already unwinding: unwinding again aborts. */
  function DropGuardUnwinding(o: Owner, g: Guard, result: Call): Owner {
    if !g.finished && g.submitted && o.state == Some(InFlight) && result.Unwinds? then
      Synchronize(o, result).(state := None, custody := Aborted)
    else DropGuard(o, g, result)
  }

  /** Synchronize, validate, commit, restore; the guard is dropped on every way out. */
  function Complete(o: Owner, g: Guard, s: Script): (Owner, Completion) {
    if !g.submitted then (DropGuard(o, g, s.onDrop), NotSubmitted)
    else if o.state != Some(InFlight) then (DropGuard(o, g, s.onDrop), NoResource)
    else
      var synced := Synchronize(o, s.synchronize);
      match s.synchronize
      case Unwinds => (DropGuardUnwinding(synced, g, s.onDrop), Unwound)
      case Fails => (Settle(synced, PoisonedUncertain), SynchronizationFailed)
      case Succeeds =>
        var validated := Log(synced, Validated(s.validate));
        match s.validate
        case Unwinds => (DropGuardUnwinding(validated, g, s.onDrop), Unwound)
        case Fails => (Settle(validated, PoisonedIdle), ValidationFailed)
        case Succeeds =>
          var committed := Log(validated, Committed(s.commit));
          match s.commit
          case Unwinds => (DropGuardUnwinding(committed, g, s.onDrop), Unwound)
          case Fails => (Settle(committed, PoisonedIdle), CommitFailed)
          case Succeeds => (Settle(committed, Ready), Completed)
  }

  /**
   Ordinary release, or retention of the whole bundle when idleness cannot be proved. Here too the resource
   has been taken out before the call, so a call that unwinds drops it.
   */
  function DropOwner(o: Owner, result: Call): Owner {
    match o.state
    case None => o
    case Some(phase) =>
      if phase.InFlight? || phase.PoisonedUncertain? then
        var synced := Synchronize(o, result);
        if result.Fails? then Log(synced, Retained).(state := None, custody := Forgotten) else Release(synced)
      else Release(o)
  }

  function IntoResource(o: Owner): Owner {
    if o.state.None? then o else o.(state := None, custody := HandedOut)
  }

  // ---- whole lives ------------------------------------------------------

  datatype Command =
    | BeginWork
    | MarkSubmitted
    | SubmitWork
    | DeviceFinishes
    | CompleteWork(script: Script)
    | AbandonGuard(onDrop: Call)
    | DropTheOwner(onDrop: Call)
    | TakeResource

  /** `Guarded` is the phase in which a live guard borrows the owner; `Gone` follows the owner's end. */
  datatype Life = Resting(owner: Owner) | Guarded(owner: Owner, guard: Guard) | Gone(owner: Owner)

  /** Work is only submitted through a guard that has been marked: that is the client's obligation. */
  function Step(l: Life, command: Command): Life {
    match (l, command)
    case (Resting(o), BeginWork) =>
      (var (o', begun) := Begin(o);
       match begun case Ok(g) => Guarded(o', g) case Err(_) => Resting(o'))
    case (Guarded(o, g), MarkSubmitted) => Guarded(o, g.(submitted := true))
    case (Guarded(o, g), SubmitWork) =>
      if g.submitted then Guarded(Log(o, Submitted).(device := Device(true, o.device.log + [Submitted])), g) else l
    case (Guarded(o, g), CompleteWork(script)) =>
      (var o' := Complete(o, g, script).0; if o'.custody.Aborted? then Gone(o') else Resting(o'))
    case (Guarded(o, g), AbandonGuard(onDrop)) => Resting(DropGuard(o, g, onDrop))
    case (Resting(o), DropTheOwner(onDrop)) => Gone(DropOwner(o, onDrop))
    case (Resting(o), TakeResource) => Gone(IntoResource(o))
    case (Resting(o), DeviceFinishes) => Resting(o.(device := o.device.(busy := false)))
    case (Guarded(o, g), DeviceFinishes) => Guarded(o.(device := o.device.(busy := false)), g)
    case _ => l
  }

  function Live(l: Life, script: seq<Command>): Life
    decreases |script|
  {
    if |script| == 0 then l else Live(Step(l, script[0]), script[1..])
  }

  // ---- what always holds ------------------------------------------------

  /** A guard has been begun since the last commit. */
  predicate Fresh(log: seq<Event>) {
    |log| > 0 && (var e := log[|log| - 1]; e == Began || (!e.Committed? && Fresh(log[..|log| - 1])))
  }

  /** Every commit has a fresh guard and comes right after a proof of completion and of validity. */
  predicate Disciplined(log: seq<Event>) {
    |log| > 0 ==>
      var n := |log| - 1;
      && Disciplined(log[..n])
      && (log[n].Committed? ==>
            n >= 2 && log[n - 1] == Validated(Succeeds) && log[n - 2] == Synchronized(Succeeds) && Fresh(log[..n]))
  }

  /** In full: what a disciplined log says about each commit and each pair of commits. */
  lemma {:induction false} DisciplineMeans(log: seq<Event>)
    requires Disciplined(log)
    ensures forall i :: 0 <= i < |log| && log[i].Committed? ==>
              i >= 2 && log[i - 1] == Validated(Succeeds) && log[i - 2] == Synchronized(Succeeds)
    ensures forall i, j :: 0 <= i < j < |log| && log[i].Committed? && log[j].Committed? ==>
              exists k :: i < k < j && log[k] == Began
  {
    if |log| > 0 {
      var n := |log| - 1;
      DisciplineMeans(log[..n]);
      forall i | 0 <= i < |log| && log[i].Committed?
        ensures i >= 2 && log[i - 1] == Validated(Succeeds) && log[i - 2] == Synchronized(Succeeds)
      {
        if i < n { assert log[..n][i] == log[i] && log[..n][i - 1] == log[i - 1] && log[..n][i - 2] == log[i - 2]; }
      }
      forall i, j | 0 <= i < j < |log| && log[i].Committed? && log[j].Committed?
        ensures exists k :: i < k < j && log[k] == Began
      {
        if j < n {
          assert log[..n][i].Committed? && log[..n][j].Committed?;
          var k :| i < k < j && log[..n][k] == Began;
          assert log[k] == Began;
        } else {
          FreshMeans(log[..n], i);
        }
      }
    }
  }

  lemma {:induction false} FreshMeans(log: seq<Event>, i: nat)
    requires Fresh(log) && i < |log| && log[i].Committed?
    ensures exists k :: i < k < |log| && log[k] == Began
  {
    var n := |log| - 1;
    if log[n] != Began {
      FreshMeans(log[..n], i);
      var k :| i < k < n && log[..n][k] == Began;
      assert log[k] == Began;
    }
  }

  lemma FreshAfter(log: seq<Event>, e: Event)
    ensures !e.Committed? && Fresh(log) ==> Fresh(log + [e])
    ensures e == Began ==> Fresh(log + [e])
  {
    assert (log + [e])[..|log|] == log;
  }

  lemma LogKeeps(log: seq<Event>, e: Event)
    requires Disciplined(log)
    ensures e.Committed? && |log| >= 2 && log[|log| - 1] == Validated(Succeeds)
            && log[|log| - 2] == Synchronized(Succeeds) && Fresh(log) ==>
              Disciplined(log + [e])
    ensures !e.Committed? ==> Disciplined(log + [e]) && (Fresh(log) ==> Fresh(log + [e]))
    ensures e == Began ==> Fresh(log + [e])
  {
    hide Fresh;
    FreshAfter(log, e);
    assert (log + [e])[..|log|] == log;
  }

  ghost predicate Sound(l: Life) {
    var o := l.owner;
    && Disciplined(o.device.log)
    && match l
       case Resting(_) =>
         || (o.custody == Owned && o.state.Some? && o.state != Some(InFlight)
             && (o.state != Some(PoisonedUncertain) ==> !o.device.busy))
         || (o.custody == Dropped && o.state.None?)
       case Guarded(_, g) =>
         && o.custody == Owned && o.state == Some(InFlight) && !g.finished
         && (!g.submitted ==> !o.device.busy)
         && Fresh(o.device.log)
       case Gone(_) => o.state.None? && o.custody != Owned
  }

  lemma CompleteKeeps(o: Owner, g: Guard, s: Script)
    requires Sound(Guarded(o, g))
    ensures var (o', outcome) := Complete(o, g, s);
            && Disciplined(o'.device.log)
            && (outcome == Completed <==>
                  g.submitted && s.synchronize.Succeeds? && s.validate.Succeeds? && s.commit.Succeeds?)
            && (o'.state == Some(Ready) <==> outcome == Completed || outcome == NotSubmitted)
            && (o'.custody == Owned ==> o'.state.Some? && o'.state != Some(InFlight)
                                        && (o'.state != Some(PoisonedUncertain) ==> !o'.device.busy))
            && (o'.custody != Owned ==> o'.custody == Aborted && o'.state.None?)
  {
    hide Fresh, Disciplined;
    if g.submitted {
      var log0 := o.device.log;
      var log1 := log0 + [Synchronized(s.synchronize)];
      var log2 := log1 + [Validated(s.validate)];
      LogKeeps(log0, Synchronized(s.synchronize));
      LogKeeps(log1, Synchronized(s.onDrop));
      LogKeeps(log1, Validated(s.validate));
      LogKeeps(log2, Synchronized(s.onDrop));
      if s.synchronize.Succeeds? && s.validate.Succeeds? {
        LogKeeps(log2, Committed(s.commit));
        LogKeeps(log2 + [Committed(s.commit)], Synchronized(s.onDrop));
      }
    }
  }

  lemma StepKeeps(l: Life, command: Command)
    requires Sound(l)
    ensures Sound(Step(l, command))
  {
    hide Fresh, Disciplined;
    var log := l.owner.device.log;
    match (l, command)
    case (Resting(o), BeginWork) => LogKeeps(log, Began);
    case (Guarded(o, g), SubmitWork) => LogKeeps(log, Submitted);
    case (Guarded(o, g), CompleteWork(script)) => CompleteKeeps(o, g, script);
    case (Guarded(o, g), AbandonGuard(onDrop)) => EndKeeps(log, onDrop);
    case (Resting(o), DropTheOwner(onDrop)) => EndKeeps(log, onDrop);
    case _ =>
  }

  lemma EndKeeps(log: seq<Event>, result: Call)
    requires Disciplined(log)
    ensures Disciplined(log + [Synchronized(result)]) && Disciplined(log + [Released])
    ensures Disciplined(log + [Synchronized(result)] + [Released])
              && Disciplined(log + [Synchronized(result)] + [Retained])
  {
    LogKeeps(log, Synchronized(result));
    LogKeeps(log, Released);
    LogKeeps(log + [Synchronized(result)], Released);
    LogKeeps(log + [Synchronized(result)], Retained);
  }

  lemma {:induction false} LivesAreSound(l: Life, script: seq<Command>)
    requires Sound(l)
    ensures Sound(Live(l, script))
    decreases |script|
  {
    if |script| > 0 {
      StepKeeps(l, script[0]);
      LivesAreSound(Step(l, script[0]), script[1..]);
    }
  }

  /** Over every life, a commit runs at most once per guard, right after a successful synchronization and validation. */
  lemma EveryLifeIsDisciplined(script: seq<Command>)
    ensures var log := Live(Resting(NewOwner()), script).owner.device.log;
            && (forall i :: 0 <= i < |log| && log[i].Committed? ==>
                  i >= 2 && log[i - 1] == Validated(Succeeds) && log[i - 2] == Synchronized(Succeeds))
            && (forall i, j :: 0 <= i < j < |log| && log[i].Committed? && log[j].Committed? ==>
                  exists k :: i < k < j && log[k] == Began)
  {
    LivesAreSound(Resting(NewOwner()), script);
    DisciplineMeans(Live(Resting(NewOwner()), script).owner.device.log);
  }

  // ---- release ----------------------------------------------------------

  /** A destructor whose own synchronization unwinds. */
  predicate DestructorUnwinds(l: Life, command: Command) {
    match (l, command)
    case (Guarded(_, g), AbandonGuard(onDrop)) => g.submitted && onDrop.Unwinds?
    case (Resting(o), DropTheOwner(onDrop)) => o.state == Some(PoisonedUncertain) && onDrop.Unwinds?
    case _ => false
  }

  /** A step gives the resource an ordinary release while the device is busy exactly in that case. */
  lemma BusyReleaseIff(l: Life, command: Command)
    requires Sound(l) && l.owner.custody == Owned
    ensures var o' := Step(l, command).owner;
            (o'.custody == Dropped && o'.device.busy) <==> (DestructorUnwinds(l, command) && l.owner.device.busy)
  {
    match (l, command)
    case (Guarded(o, g), CompleteWork(script)) => CompleteKeeps(o, g, script);
    case _ =>
  }

  /** The one way it goes wrong: submitted work, and a synchronization that unwinds in the guard's destructor. */
  lemma BusyReleaseExample()
    ensures var o := Live(Resting(NewOwner()), [BeginWork, MarkSubmitted, SubmitWork, AbandonGuard(Unwinds)]).owner;
            o.custody == Dropped && o.device.busy
  {
    var a := [BeginWork, MarkSubmitted, SubmitWork, AbandonGuard(Unwinds)];
    assert a[1..] == [MarkSubmitted, SubmitWork, AbandonGuard(Unwinds)];
    assert a[1..][1..] == [SubmitWork, AbandonGuard(Unwinds)];
    assert a[1..][1..][1..] == [AbandonGuard(Unwinds)];
    assert a[1..][1..][1..][1..] == [];
  }

  /** Some destructor of this life unwinds in its own synchronization while the device is busy. */
  predicate UnwindsBusy(l: Life, script: seq<Command>)
    decreases |script|
  {
    && |script| > 0
    && ((DestructorUnwinds(l, script[0]) && l.owner.custody == Owned && l.owner.device.busy)
        || UnwindsBusy(Step(l, script[0]), script[1..]))
  }

  /**
   Over every life: if no destructor unwinds while the device is busy, an ordinary release only ever happens to an
   idle device; in every other end the whole bundle is retained or handed out.
   */
  lemma {:induction false} ReleasedIdle(l: Life, script: seq<Command>)
    requires Sound(l) && !UnwindsBusy(l, script) && (l.owner.custody == Dropped ==> !l.owner.device.busy)
    ensures var o := Live(l, script).owner; o.custody == Dropped ==> !o.device.busy
    decreases |script|
  {
    if |script| > 0 {
      StepKeeps(l, script[0]);
      if l.owner.custody == Owned { BusyReleaseIff(l, script[0]); }
      ReleasedIdle(Step(l, script[0]), script[1..]);
    }
  }

  // ---- the exact end of everything --------------------------------------

  /** Phase in which a guard's destructor leaves submitted work, by the result of its synchronization. */
  ghost function DestructorPhase(result: Call): Option<Phase> {
    match result case Succeeds => Some(PoisonedIdle) case Fails => Some(PoisonedUncertain) case Unwinds => None
  }

  /** Phase after a completion of submitted work. */
  ghost function CompletionPhase(s: Script): Option<Phase> {
    if s.synchronize == Fails then Some(PoisonedUncertain)
    else if s.synchronize == Unwinds || s.validate == Unwinds || (s.validate == Succeeds && s.commit == Unwinds) then
      DestructorPhase(s.onDrop)
    else if s.validate == Fails || s.commit == Fails then Some(PoisonedIdle)
    else Some(Ready)
  }

  ghost function CompletionOf(s: Script): Completion {
    match (s.synchronize, s.validate, s.commit)
    case (Fails, _, _) => SynchronizationFailed
    case (Unwinds, _, _) => Unwound
    case (Succeeds, Fails, _) => ValidationFailed
    case (Succeeds, Unwinds, _) => Unwound
    case (Succeeds, Succeeds, Fails) => CommitFailed
    case (Succeeds, Succeeds, Unwinds) => Unwound
    case (Succeeds, Succeeds, Succeeds) => Completed
  }

  /** The calls a completion of submitted work makes, in order. */
  ghost function CallsMade(s: Script): seq<Event> {
    [Synchronized(s.synchronize)]
    + (if s.synchronize == Succeeds then [Validated(s.validate)] else [])
    + (if s.synchronize == Succeeds && s.validate == Succeeds then [Committed(s.commit)] else [])
    + (if CompletionOf(s) == Unwound then [Synchronized(s.onDrop)] else [])
  }

  /**
   A dropped guard: unsubmitted work leaves the owner as it was, submitted work leaves the phase its synchronization
   proves, and only an unwinding synchronization gives the resource up.
   */
  lemma AbandonedGuardEnds(o: Owner, g: Guard, onDrop: Call)
    requires Sound(Guarded(o, g))
    ensures var o' := Step(Guarded(o, g), AbandonGuard(onDrop)).owner;
            if !g.submitted then o' == o.(state := Some(Ready))
            else
              && o'.state == DestructorPhase(onDrop)
              && o'.custody == (if onDrop == Unwinds then Dropped else Owned)
              && o'.device.busy == (o.device.busy && onDrop != Succeeds)
              && o'.device.log
                 == o.device.log + [Synchronized(onDrop)] + (if onDrop == Unwinds then [Released] else [])
  {
    hide Disciplined, Fresh;
  }

  /** A completion: its answer, the phase it leaves and the calls it makes, for every result of every call. */
  lemma CompletionEnds(o: Owner, g: Guard, s: Script)
    requires Sound(Guarded(o, g))
    ensures var (o', outcome) := Complete(o, g, s);
            if !g.submitted then o' == o.(state := Some(Ready)) && outcome == NotSubmitted
            else
              && o'.state == CompletionPhase(s) && outcome == CompletionOf(s)
              && o'.custody == (if CompletionPhase(s) == None then Aborted else Owned)
              && (s.synchronize == Succeeds ==> !o'.device.busy)
  {
    hide Disciplined, Fresh;
  }

  lemma CompletionCalls(o: Owner, g: Guard, s: Script)
    requires Sound(Guarded(o, g)) && g.submitted
    ensures Complete(o, g, s).0.device.log == o.device.log + CallsMade(s)
  {
    hide Disciplined, Fresh;
  }

  /** A guard is handed out exactly from the ready phase; anything else leaves the owner untouched. */
  lemma BeginsWhenReady(o: Owner)
    requires Sound(Resting(o)) && o.custody == Owned
    ensures Step(Resting(o), BeginWork) ==
            if o.state != Some(Ready) then Resting(o)
            else
              Guarded(Owner(Some(InFlight), Device(o.device.busy, o.device.log + [Began]), Owned), Guard(false, false))
  {}

  /**
   Over every life: dropping the owner retains the bundle exactly when the phase is uncertain and the synchronization
   fails, and releases it in every other phase and outcome; taking the resource out does neither.
   */
  lemma EveryOwnerEnds(script: seq<Command>, onDrop: Call)
    ensures var l := Live(Resting(NewOwner()), script);
            l.Resting? && l.owner.custody == Owned ==>
              var dropped, taken := Step(l, DropTheOwner(onDrop)).owner, Step(l, TakeResource).owner;
              var uncertain := l.owner.state == Some(PoisonedUncertain);
              && dropped.custody == (if uncertain && onDrop == Fails then Forgotten else Dropped)
              && dropped.state == None
              && dropped.device.log == l.owner.device.log + (if uncertain then [Synchronized(onDrop)] else [])
                                       + [if uncertain && onDrop == Fails then Retained else Released]
              && taken == l.owner.(state := None, custody := HandedOut)
  {
    hide Disciplined;
    LivesAreSound(Resting(NewOwner()), script);
  }

  // ---- poison -----------------------------------------------------------

  /** Commits recorded so far. */
  function Commits(log: seq<Event>): nat {
    if |log| == 0 then 0 else Commits(log[..|log| - 1]) + (if log[|log| - 1].Committed? then 1 else 0)
  }

  /** Poison is absorbing: no later command leaves it except the owner's end, and nothing is committed again. */
  lemma {:induction false} PoisonIsAbsorbing(o: Owner, script: seq<Command>)
    requires o.state == Some(PoisonedIdle) || o.state == Some(PoisonedUncertain)
    ensures var l := Live(Resting(o), script);
            && Commits(l.owner.device.log) == Commits(o.device.log)
            && (l.Gone? || (l.Resting? && l.owner.state == o.state))
    decreases |script|
  {
    if |script| > 0 {
      var next := Step(Resting(o), script[0]);
      if next.Resting? {
        PoisonIsAbsorbing(next.owner, script[1..]);
      } else {
        GoneStays(next.owner, script[1..]);
        EndCommitsNothing(o, script[0]);
      }
    }
  }

  lemma {:induction false} GoneStays(o: Owner, script: seq<Command>)
    ensures Live(Gone(o), script) == Gone(o)
    decreases |script|
  {
    if |script| > 0 { GoneStays(o, script[1..]); }
  }

  lemma EndCommitsNothing(o: Owner, command: Command)
    ensures Commits(Step(Resting(o), command).owner.device.log) == Commits(o.device.log)
  {
    hide Commits;
    var log := o.device.log;
    CommitsAfter(log, Began);
    if command.DropTheOwner? {
      var synced := log + [Synchronized(command.onDrop)];
      CommitsAfter(log, Released);
      CommitsAfter(log, Synchronized(command.onDrop));
      CommitsAfter(synced, Released);
      CommitsAfter(synced, Retained);
    }
  }

  lemma CommitsAfter(log: seq<Event>, e: Event)
    ensures Commits(log + [e]) == Commits(log) + if e.Committed? then 1 else 0
  {
    assert (log + [e])[..|log|] == log;
  }
}

/** The owner and its in-flight guard as objects, with the guard's destructor run on every way out. */
module ResourceObject {
  import opened Wrappers
  import R = ResourceOwner

  class Owner {
    var state: Option<R.Phase>
    var device: R.Device
    var custody: R.Custody

    function View(): R.Owner
      reads this
    {
      R.Owner(state, device, custody)
    }

    constructor ()
      ensures View() == R.NewOwner()
    {
      state, device, custody := Some(R.Ready), R.Device(false, []), R.Owned;
    }

    method Record(e: R.Event)
      modifies this`device
      ensures View() == R.Log(old(View()), e)
    {
      device := R.Device(device.busy, device.log + [e]);
    }

    method Synchronize(result: R.Call)
      modifies this`device
      ensures View() == R.Synchronize(old(View()), result)
    {
      Record(R.Synchronized(result));
      if result.Succeeds? { device := R.Device(false, device.log); }
    }

    method Begin() returns (guard: Result<InFlight, R.BeginError>)
      modifies this
      ensures var (o, begun) := R.Begin(old(View()));
              && View() == o
              && (begun.Err? ==> guard == Err(begun.error))
              && (begun.Ok? ==>
                    guard.Ok? && fresh(guard.value) && guard.value.owner == this && guard.value.View() == begun.value)
    {
      if state.None? { return Err(R.MissingResource); }
      if state.value != R.Ready { return Err(R.NotReady); }
      Record(R.Began);
      state := Some(R.InFlight);
      var g := new InFlight(this);
      return Ok(g);
    }

    method Drop(result: R.Call)
      modifies this
      ensures View() == R.DropOwner(old(View()), result)
    {
      if state.None? { return; }
      var phase := state.value;
      state := None;
      if phase.InFlight? || phase.PoisonedUncertain? {
        Synchronize(result);
        if result.Fails? {
          Record(R.Retained);
          custody := R.Forgotten;
          return;
        }
      }
      Record(R.Released);
      custody := R.Dropped;
    }

    method IntoResource()
      modifies this
      ensures View() == R.IntoResource(old(View()))
    {
      if state.Some? { state, custody := None, R.HandedOut; }
    }
  }

  class InFlight {
    const owner: Owner
    var submitted: bool
    var finished: bool

    function View(): R.Guard
      reads this
    {
      R.Guard(submitted, finished)
    }

    constructor (owner: Owner)
      ensures this.owner == owner && View() == R.Guard(false, false)
    {
      this.owner, submitted, finished := owner, false, false;
    }

    method MarkSubmitted()
      modifies this`submitted
      ensures View() == old(View()).(submitted := true)
    {
      submitted := true;
    }

    /** Take the in-flight state and put `phase` in its place. */
    method Settle(phase: R.Phase)
      modifies owner`state, this`finished
      ensures owner.View() == R.Settle(old(owner.View()), phase) && finished
    {
      var taken := owner.state;
      owner.state := if taken == Some(R.InFlight) then Some(phase) else None;
      finished := true;
    }

    method FinishAfterSubmission(result: R.Call, unwinding: bool)
      modifies owner, this`finished
      ensures owner.View()
              == if old(owner.state) == Some(R.InFlight) && unwinding && result.Unwinds?
                 then R.Synchronize(old(owner.View()), result).(state := None, custody := R.Aborted)
                 else R.FinishAfterSubmission(old(owner.View()), result)
      ensures finished
    {
      var taken := owner.state;
      owner.state, finished := None, true;
      if taken != Some(R.InFlight) { return; }
      owner.Synchronize(result);
      match result {
        case Succeeds => owner.state := Some(R.PoisonedIdle);
        case Fails => owner.state := Some(R.PoisonedUncertain);
        case Unwinds =>
          if unwinding {
            owner.custody := R.Aborted;
          } else {
            owner.Record(R.Released);
            owner.custody := R.Dropped;
          }
      }
    }

    method Drop(result: R.Call, unwinding: bool)
      modifies owner, this`finished
      ensures owner.View() == if unwinding then R.DropGuardUnwinding(old(owner.View()), old(View()), result)
                              else R.DropGuard(old(owner.View()), old(View()), result)
      ensures old(finished) ==> finished
    {
      if finished { return; }
      if submitted {
        FinishAfterSubmission(result, unwinding);
        return;
      }
      Settle(R.Ready);
    }

    /** Consumes the guard: whichever way it ends, the destructor runs last. */
    method Complete(s: R.Script) returns (outcome: R.Completion)
      requires !finished
      modifies owner, this`finished
      ensures (owner.View(), outcome) == R.Complete(old(owner.View()), old(View()), s)
    {
      if !submitted {
        Drop(s.onDrop, false);
        return R.NotSubmitted;
      }
      if owner.state != Some(R.InFlight) {
        Drop(s.onDrop, false);
        return R.NoResource;
      }
      owner.Synchronize(s.synchronize);
      if s.synchronize.Unwinds? { Drop(s.onDrop, true); return R.Unwound; }
      if s.synchronize.Fails? {
        Settle(R.PoisonedUncertain);
        Drop(s.onDrop, false);
        return R.SynchronizationFailed;
      }
      owner.Record(R.Validated(s.validate));
      if s.validate.Unwinds? { Drop(s.onDrop, true); return R.Unwound; }
      if s.validate.Fails? {
        Settle(R.PoisonedIdle);
        Drop(s.onDrop, false);
        return R.ValidationFailed;
      }
      owner.Record(R.Committed(s.commit));
      if s.commit.Unwinds? { Drop(s.onDrop, true); return R.Unwound; }
      if s.commit.Fails? {
        Settle(R.PoisonedIdle);
        Drop(s.onDrop, false);
        return R.CommitFailed;
      }
      Settle(R.Ready);
      Drop(s.onDrop, false);
      return R.Completed;
    }
  }
}

/**
  What enrollment guarantees whatever is lost on the way: every command is sent from a saved state, and from
  the first successful save on, the lock can always be finished.
 */
module EnrollmentTheorems {
  import opened Wrappers
  import opened Bytes
  import opened Enrollment

  // ----- The state of an enrollment, in its lock -----

  /** Steps are confirmed in their order. */
  predicate InOrder(completed: set<EnrollmentStep>) {
    && OwnerKey in completed
    && (Clock in completed ==> DeviceId in completed)
    && (ServerKey in completed ==> Clock in completed)
    && (Name in completed ==> ServerKey in completed)
  }

  /** The enrollment opens this lock, and what it calls done is done in the lock. */
  predicate Fits(curve: Curve, lock: Lock, e: Enrollment) {
    && e.Valid(curve) && InOrder(e.completed) && e.userId == DEFAULT_ADMIN_USER_ID
    && e.ownerKey == lock.ownerKey
    && (lock.deviceId == e.deviceId || (lock.deviceId == DEFAULT_DEVICE_ID && DeviceId !in e.completed))
    && (Clock in e.completed ==> lock.clock.Some?)
    && (ServerKey in e.completed ==>
          lock.serverKey == Some(curve.PublicKeyOf(e.serverPrivateKey)) && lock.serverAnswer == e.lockServerPublicKey)
    && (Name in e.completed ==> lock.name == Some(e.name))
  }

  /** Two states of one enrollment, the first no further than the second. */
  predicate Behind(a: Enrollment, b: Enrollment) {
    && a.completed <= b.completed
    && (a.deviceId, a.ownerKey, a.serverPrivateKey, a.name) == (b.deviceId, b.ownerKey, b.serverPrivateKey, b.name)
  }

  /** The steps left when the confirmed ones are in order. */
  function Left(completed: set<EnrollmentStep>): seq<EnrollmentStep> {
    if DeviceId !in completed then [DeviceId, Clock, ServerKey, Name]
    else if Clock !in completed then [Clock, ServerKey, Name]
    else if ServerKey !in completed then [ServerKey, Name]
    else if Name !in completed then [Name]
    else []
  }

  lemma {:induction false} UnfinishedSuffix(e: Enrollment, steps: seq<EnrollmentStep>, n: nat)
    requires n <= |steps| && (forall k | 0 <= k < n :: steps[k] in e.completed)
    requires forall k | n <= k < |steps| :: steps[k] !in e.completed
    ensures e.Unfinished(steps) == steps[n..]
  {
    if n > 0 {
      UnfinishedSuffix(e, steps[1..], n - 1);
      assert [] + e.Unfinished(steps[1..]) == e.Unfinished(steps[1..]);
    } else if steps != [] {
      UnfinishedSuffix(e, steps[1..], 0);
    }
  }

  lemma RemainingIsLeft(e: Enrollment)
    requires InOrder(e.completed)
    ensures e.Remaining() == Left(e.completed)
  {
    var n := if DeviceId !in e.completed then 1
             else if Clock !in e.completed then 2
             else if ServerKey !in e.completed then 3
             else if Name !in e.completed then 4
             else 5;
    hide Enrollment.Unfinished;
    UnfinishedSuffix(e, STEPS, n);
  }

  // ----- Saved before sent -----

  /** The enrollment that would survive a crash now, or None after a save that failed. */
  function Durable(log: seq<Entry>): Option<Enrollment> {
    if log == [] then None
    else match log[|log| - 1]
      case Resumed(e) => Some(e)
      case Stored(e) => Some(e)
      case NotStored => None
      case Sent(_, _) => Durable(log[..|log| - 1])
  }

  /** Every step command was sent from the state that was last saved, or that the resume was given. */
  predicate SavedBeforeSent(log: seq<Entry>) {
    forall i | 0 <= i < |log| && log[i].Sent? :: Durable(log[..i]) == Some(log[i].e)
  }

  lemma LogGrows(log: seq<Entry>, entry: Entry)
    requires SavedBeforeSent(log)
    requires entry.Sent? ==> Durable(log) == Some(entry.e)
    ensures SavedBeforeSent(log + [entry])
    ensures Durable(log + [entry]) == match entry
                                      case Resumed(e) => Some(e)
                                      case Stored(e) => Some(e)
                                      case NotStored => None
                                      case Sent(_, _) => Durable(log)
  {
    var more := log + [entry];
    assert more[..|log|] == log;
    forall i | 0 <= i < |more| && more[i].Sent?
      ensures Durable(more[..i]) == Some(more[i].e)
    {
      if i < |log| {
        assert more[..i] == log[..i];
      }
    }
  }

  // ----- One step -----

  /** The program is working on e: it fits, the store is no further, and e is what a crash would leave. */
  predicate Working(curve: Curve, w: World, e: Enrollment) {
    && Fits(curve, w.lock, e)
    && StoreFits(curve, w, e)
    && SavedBeforeSent(w.log) && Durable(w.log) == Some(e)
  }

  predicate StoreFits(curve: Curve, w: World, e: Enrollment) {
    w.store.Some? ==> Fits(curve, w.lock, w.store.value) && Behind(w.store.value, e)
  }

  /** The copy of the enrollment the caller is left with. */
  function CarriedAfter(given: Option<Enrollment>, ending: Ending): Option<Enrollment> {
    match ending
    case Finished(e) => Some(e)
    case Stopped(_, partial) => partial
    case NotSaved(_, e) => Some(e)
    case LoginFailed => given
    case BadArguments => given
    case Gone => None
  }

  /** Store and caller hold copies that fit the lock, the store's no further than the caller's. */
  predicate Good(curve: Curve, w: World, carried: Option<Enrollment>) {
    && SavedBeforeSent(w.log)
    && (w.store.Some? ==> Fits(curve, w.lock, w.store.value))
    && (carried.Some? ==> Fits(curve, w.lock, carried.value) && StoreFits(curve, w, carried.value))
  }

  /** A step's command does not disturb a copy that has not confirmed that step. */
  lemma CommandKeepsCopy(curve: Curve, lock: Lock, x: Enrollment, e: Enrollment, step: EnrollmentStep, s: Script)
    requires Fits(curve, lock, x) && Behind(x, e) && Left(e.completed) != [] && Left(e.completed)[0] == step
    ensures Fits(curve, lock.After(curve, step, e, s.now, s.lockServerPrivate), x)
  {
  }

  /** A delivered command and its confirmation fit. */
  lemma ConfirmedFits(curve: Curve, lock: Lock, e: Enrollment, step: EnrollmentStep, s: Script)
    requires Fits(curve, lock, e) && Left(e.completed) != [] && Left(e.completed)[0] == step
    ensures var next := Confirmed(curve, e, step, s);
            && Fits(curve, lock.After(curve, step, e, s.now, s.lockServerPrivate), next)
            && Left(next.completed) == Left(e.completed)[1..] && Behind(e, next)
  {
  }

  /** A step's command, applied or not, leaves every copy fitting; delivered, it confirms the step. */
  lemma StepFits(curve: Curve, w: World, e: Enrollment, step: EnrollmentStep, s: Script)
    requires Working(curve, w, e) && Left(e.completed) != [] && Left(e.completed)[0] == step
    ensures var sent := RunStep(w, curve, e, step, s).0;
            var next := Confirmed(curve, e, step, s);
            && Working(curve, sent, e)
            && Left(next.completed) == Left(e.completed)[1..] && Behind(e, next)
            && (s.send(step).Delivered? ==> Fits(curve, sent.lock, next) && StoreFits(curve, sent, next))
  {
    hide Fits, Left, Lock.After, Confirmed, Durable, SavedBeforeSent;
    CommandKeepsCopy(curve, w.lock, e, e, step, s);
    if w.store.Some? {
      CommandKeepsCopy(curve, w.lock, w.store.value, e, step, s);
    }
    ConfirmedFits(curve, w.lock, e, step, s);
    LogGrows(w.log, Sent(step, e));
  }

  lemma SaveFits(curve: Curve, w: World, step: EnrollmentStep, e: Enrollment, fate: SaveFate)
    requires Fits(curve, w.lock, e) && StoreFits(curve, w, e) && SavedBeforeSent(w.log)
    ensures var (saved, failed) := Save(w, step, e, fate);
            && saved.lock == w.lock
            && (failed.None? ==> Working(curve, saved, e) && saved.store == Some(e))
            && (failed.Some? ==> Good(curve, saved, CarriedAfter(None, failed.value)) && !failed.value.Finished?)
  {
    LogGrows(w.log, Stored(e));
    LogGrows(w.log, NotStored);
    hide Fits, Durable, SavedBeforeSent;
  }

  // ----- The rest of an attempt -----

  lemma {:induction false} RunRemainingKeeps(
    curve: Curve, w: World, e: Enrollment, steps: seq<EnrollmentStep>, s: Script, given: Option<Enrollment>)
    requires Working(curve, w, e) && steps == Left(e.completed)
    ensures var (after, ending) := RunRemaining(w, curve, e, steps, s);
            && !ending.LoginFailed? && !ending.BadArguments?
            && Good(curve, after, CarriedAfter(given, ending))
            && (CarriedAfter(given, ending).Some? ==> Behind(e, CarriedAfter(given, ending).value))
    decreases |steps|
  {
    hide Fits, Left, SavedBeforeSent, Durable, Confirmed;
    if steps != [] {
      var step := steps[0];
      StepFits(curve, w, e, step, s);
      var (sent, stopped) := RunStep(w, curve, e, step, s);
      if stopped.None? {
        var next := Confirmed(curve, e, step, s);
        SaveFits(curve, sent, step, next, s.save(step));
        var (saved, failed) := Save(sent, step, next, s.save(step));
        if failed.None? {
          RunRemainingKeeps(curve, saved, next, steps[1..], s, given);
        }
      }
    }
  }

  lemma {:induction false} RunRemainingFinishes(curve: Curve, w: World, e: Enrollment, steps: seq<EnrollmentStep>,
        s: Script)
    requires Working(curve, w, e) && steps == Left(e.completed)
    requires Undisturbed(s)
    ensures var (after, ending) := RunRemaining(w, curve, e, steps, s);
            && ending.Finished? && Behind(e, ending.e) && Left(ending.e.completed) == []
            && Fits(curve, after.lock, ending.e)
            && (steps != [] || w.store == Some(e) ==> after.store == Some(ending.e))
    decreases |steps|
  {
    assert steps != [] ==> !steps[0].OwnerKey?;
    hide Fits, Left, SavedBeforeSent, Durable, Confirmed;
    if steps != [] {
      var step := steps[0];
      StepFits(curve, w, e, step, s);
      var sent := RunStep(w, curve, e, step, s).0;
      var next := Confirmed(curve, e, step, s);
      SaveFits(curve, sent, step, next, s.save(step));
      RunRemainingFinishes(curve, Save(sent, step, next, s.save(step)).0, next, steps[1..], s);
    }
  }

  // ----- Whole attempts -----

  /** Both ends of the key update agree on the new owner key. */
  lemma FirstEnrollmentFits(
    curve: Curve, lock: Lock, name: string, deviceId: bytes, serverPrivate: bytes, s: Script)
    requires curve.Agrees() && curve.valid(s.updatePrivate) && curve.valid(s.lockUpdatePrivate)
    requires ValidName(name) && ValidDeviceId(deviceId) && curve.valid(serverPrivate)
    requires lock.deviceId == DEFAULT_DEVICE_ID
    ensures Fits(curve, Taken(lock, curve, s), FirstEnrollment(curve, name, deviceId, serverPrivate, s))
  {
  }

  /** After an enrollment of a factory-reset lock, every copy there is opens the lock. */
  lemma EnrollKeeps(
    curve: Curve, lock: Lock, name: string, deviceId: bytes, serverPrivate: bytes, s: Script)
    requires curve.Agrees() && curve.valid(s.updatePrivate) && curve.valid(s.lockUpdatePrivate)
    requires lock.FactoryReset()
    ensures var (after, ending) := Enroll(World(lock, None, []), curve, name, deviceId, serverPrivate, s);
            Good(curve, after, CarriedAfter(None, ending))
  {
    hide RunRemaining, Enrollment.Unfinished, Fits, Durable;
    var w := World(lock, None, []);
    assert SavedBeforeSent(w.log);
    if ValidName(name) && ValidDeviceId(deviceId) && curve.valid(serverPrivate) && s.update.Delivered? {
      FirstEnrollmentFits(curve, lock, name, deviceId, serverPrivate, s);
      var e := FirstEnrollment(curve, name, deviceId, serverPrivate, s);
      var updated := w.(lock := Taken(lock, curve, s));
      SaveFits(curve, updated, OwnerKey, e, s.save(OwnerKey));
      RemainingIsLeft(e);
      var (saved, failed) := Save(updated, OwnerKey, e, s.save(OwnerKey));
      if failed.None? {
        RunRemainingKeeps(curve, saved, e, e.Remaining(), s, None);
      }
    }
  }

  /** The login that resumes is heard out and accepted, possibly under the enrolled device id. */
  lemma LoginSucceeds(curve: Curve, lock: Lock, e: Enrollment, s: Script)
    requires Fits(curve, lock, e)
    ensures s.login.Heard? && s.retry.Heard? ==> LogInToResume(lock, e, s).1.None?
    ensures var (loggedIn, failed) := LogInToResume(lock, e, s);
            && Fits(curve, lock, loggedIn) && Behind(e, loggedIn)
            && (failed.Some? ==> failed.value.LoginFailed? || failed.value.Gone?)
            && (loggedIn != e ==> failed.None?)
  {
  }

  /** A resume from any fitting copy keeps every copy fitting, and undisturbed it finishes. */
  lemma ResumeKeeps(curve: Curve, w: World, e: Enrollment, s: Script)
    requires Fits(curve, w.lock, e) && StoreFits(curve, w, e) && SavedBeforeSent(w.log)
    ensures var (after, ending) := Resume(w, curve, e, s);
            && Good(curve, after, CarriedAfter(Some(e), ending))
            && (Undisturbed(s) ==>
                  && ending.Finished? && ending.e.Complete() && Behind(e, ending.e)
                  && Fits(curve, after.lock, ending.e)
                  && (w.store == Some(e) || !e.Complete() ==> after.store == Some(ending.e)))
  {
    RemainingIsLeft(e);
    if !e.Complete() {
      var started := w.(log := w.log + [Resumed(e)]);
      LogGrows(w.log, Resumed(e));
      LoginSucceeds(curve, w.lock, e, s);
      var (loggedIn, failed) := LogInToResume(w.lock, e, s);
      RemainingIsLeft(loggedIn);
      hide Fits, Left, SavedBeforeSent, Durable, LogInToResume, RunRemaining;
      if failed.None? && loggedIn == e {
        RestOfResume(curve, started, e, e, s);
      } else if failed.None? {
        SaveFits(curve, started, DeviceId, loggedIn, s.save(DeviceId));
        var (saved, notSaved) := Save(started, DeviceId, loggedIn, s.save(DeviceId));
        if notSaved.None? {
          RestOfResume(curve, saved, e, loggedIn, s);
        }
      }
    }
  }

  lemma RestOfResume(curve: Curve, w: World, given: Enrollment, e: Enrollment, s: Script)
    requires Working(curve, w, e) && Behind(given, e)
    requires e.Remaining() != [] || w.store == Some(e)
    ensures var (after, ending) := RunRemaining(w, curve, e, e.Remaining(), s);
            && Good(curve, after, CarriedAfter(Some(given), ending))
            && (Undisturbed(s) ==>
                  && ending.Finished? && ending.e.Complete() && Behind(given, ending.e)
                  && Fits(curve, after.lock, ending.e) && after.store == Some(ending.e))
  {
    RemainingIsLeft(e);
    RunRemainingKeeps(curve, w, e, e.Remaining(), s, Some(given));
    if Undisturbed(s) {
      RunRemainingFinishes(curve, w, e, e.Remaining(), s);
      RemainingIsLeft(RunRemaining(w, curve, e, e.Remaining(), s).1.e);
    }
  }

  // ----- Every run of enroll and resume_enrollment -----

  /** One resume, from the stored enrollment or from the one the last call left its caller with. */
  datatype Attempt = Attempt(fromStore: bool, script: Script)

  function Try(curve: Curve, w: World, carried: Option<Enrollment>, a: Attempt): (World, Option<Enrollment>) {
    var given := if a.fromStore then w.store else carried;
    if given.None? then (w, carried)
    else
      var (after, ending) := Resume(w, curve, given.value, a.script);
      (after, CarriedAfter(given, ending))
  }

  function TryAll(curve: Curve, w: World, carried: Option<Enrollment>, attempts: seq<Attempt>)
    : (World, Option<Enrollment>)
    decreases |attempts|
  {
    if attempts == [] then (w, carried)
    else
      var (after, left) := Try(curve, w, carried, attempts[0]);
      TryAll(curve, after, left, attempts[1..])
  }

  /** What enroll() on a factory-reset lock and any number of resumes lead to. */
  function EnrollmentRun(
    curve: Curve, lock: Lock, name: string, deviceId: bytes, serverPrivate: bytes, s: Script, attempts: seq<Attempt>)
    : (World, Option<Enrollment>)
  {
    var (after, ending) := Enroll(World(lock, None, []), curve, name, deviceId, serverPrivate, s);
    TryAll(curve, after, CarriedAfter(None, ending), attempts)
  }

  lemma {:induction false} TryAllKeeps(curve: Curve, w: World, carried: Option<Enrollment>, attempts: seq<Attempt>)
    requires Good(curve, w, carried)
    ensures var (after, left) := TryAll(curve, w, carried, attempts); Good(curve, after, left)
    decreases |attempts|
  {
    if attempts != [] {
      var a := attempts[0];
      var given := if a.fromStore then w.store else carried;
      if given.Some? {
        ResumeKeeps(curve, w, given.value, a.script);
      }
      var (after, left) := Try(curve, w, carried, a);
      TryAllKeeps(curve, after, left, attempts[1..]);
    }
  }

  lemma RunKeeps(
    curve: Curve, lock: Lock, name: string, deviceId: bytes, serverPrivate: bytes, s: Script, attempts: seq<Attempt>)
    requires curve.Agrees() && curve.valid(s.updatePrivate) && curve.valid(s.lockUpdatePrivate)
    requires lock.FactoryReset()
    ensures var (w, carried) := EnrollmentRun(curve, lock, name, deviceId, serverPrivate, s, attempts);
            Good(curve, w, carried)
  {
    EnrollKeeps(curve, lock, name, deviceId, serverPrivate, s);
    var (after, ending) := Enroll(World(lock, None, []), curve, name, deviceId, serverPrivate, s);
    TryAllKeeps(curve, after, CarriedAfter(None, ending), attempts);
  }

  /**
    Once anything has been stored, however the enrollment and every resume since were cut short: the stored
    owner key is the lock's, the lock's device id is the factory one or the stored one, and one undisturbed
    resume ends complete, stored, with the lock's device id, name and server key the stored ones.
   */
  lemma StoredEnrollmentRecovers(
    curve: Curve, lock: Lock, name: string, deviceId: bytes, serverPrivate: bytes, s: Script, attempts: seq<Attempt>,
    last: Script)
    requires curve.Agrees() && curve.valid(s.updatePrivate) && curve.valid(s.lockUpdatePrivate)
    requires lock.FactoryReset() && Undisturbed(last)
    requires EnrollmentRun(curve, lock, name, deviceId, serverPrivate, s, attempts).0.store.Some?
    ensures var w := EnrollmentRun(curve, lock, name, deviceId, serverPrivate, s, attempts).0;
            var e := w.store.value;
            && e.ownerKey == w.lock.ownerKey
            && (w.lock.deviceId == e.deviceId || (w.lock.deviceId == DEFAULT_DEVICE_ID && DeviceId !in e.completed))
            && var (after, ending) := Resume(w, curve, e, last);
            && ending.Finished? && ending.e.Complete() && after.store == Some(ending.e)
            && (ending.e.ownerKey, ending.e.deviceId, ending.e.serverPrivateKey, ending.e.name)
               == (e.ownerKey, e.deviceId, e.serverPrivateKey, e.name)
            && after.lock.ownerKey == e.ownerKey && after.lock.deviceId == e.deviceId
            && after.lock.name == Some(e.name)
            && after.lock.serverKey == Some(curve.PublicKeyOf(e.serverPrivateKey))
            && after.lock.serverAnswer == ending.e.lockServerPublicKey
  {
    RunKeeps(curve, lock, name, deviceId, serverPrivate, s, attempts);
    var w := EnrollmentRun(curve, lock, name, deviceId, serverPrivate, s, attempts).0;
    ResumeKeeps(curve, w, w.store.value, last);
  }

  /** The same for the enrollment an error handed to the caller: it is enough to finish, stored or not. */
  lemma CarriedEnrollmentRecovers(
    curve: Curve, lock: Lock, name: string, deviceId: bytes, serverPrivate: bytes, s: Script, attempts: seq<Attempt>,
    last: Script)
    requires curve.Agrees() && curve.valid(s.updatePrivate) && curve.valid(s.lockUpdatePrivate)
    requires lock.FactoryReset() && Undisturbed(last)
    requires EnrollmentRun(curve, lock, name, deviceId, serverPrivate, s, attempts).1.Some?
    ensures var (w, carried) := EnrollmentRun(curve, lock, name, deviceId, serverPrivate, s, attempts);
            var e := carried.value;
            var (after, ending) := Resume(w, curve, e, last);
            && e.ownerKey == w.lock.ownerKey
            && ending.Finished? && ending.e.Complete()
            && after.lock.deviceId == e.deviceId && after.lock.name == Some(e.name)
            && after.lock.serverKey == Some(curve.PublicKeyOf(e.serverPrivateKey))
  {
    RunKeeps(curve, lock, name, deviceId, serverPrivate, s, attempts);
    var (w, carried) := EnrollmentRun(curve, lock, name, deviceId, serverPrivate, s, attempts);
    ResumeKeeps(curve, w, carried.value, last);
  }

  /**
    Every step command of every run went out from the enrollment that was last saved or that the resume was
    given, none after a failed save, and what is stored has its steps confirmed in order, the lock's server
    key exactly with its step.
   */
  lemma CommandsAreSavedBeforeSent(
    curve: Curve, lock: Lock, name: string, deviceId: bytes, serverPrivate: bytes, s: Script, attempts: seq<Attempt>)
    requires curve.Agrees() && curve.valid(s.updatePrivate) && curve.valid(s.lockUpdatePrivate)
    requires lock.FactoryReset()
    ensures var w := EnrollmentRun(curve, lock, name, deviceId, serverPrivate, s, attempts).0;
            && SavedBeforeSent(w.log)
            && (w.store.Some? ==>
                  && InOrder(w.store.value.completed)
                  && (ServerKey in w.store.value.completed <==> w.store.value.lockServerPublicKey.Some?))
  {
    RunKeeps(curve, lock, name, deviceId, serverPrivate, s, attempts);
  }

  /** The lock has an owner key that nobody holds a copy of. */
  predicate Stranded(lock: Lock, w: World, carried: Option<Enrollment>) {
    w.lock.ownerKey != lock.ownerKey && w.store.None? && carried.None?
  }

  /** What one attempt does for the only copy there is: stored now, still carried, or gone with its task. */
  datatype Upshot = CopyStored | CopyCarried | CopyLost

  function SaveUpshot(fate: SaveFate): Upshot {
    if fate.Stores() then CopyStored else if fate.Killed? then CopyLost else CopyCarried
  }

  /** The first save an attempt comes to decides; before it only a cancelled task loses the copy. */
  function StepsUpshot(e: Enrollment, s: Script): Upshot {
    if e.Remaining() == [] then CopyCarried
    else
      var step := e.Remaining()[0];
      match s.send(step)
      case Delivered => SaveUpshot(s.save(step))
      case Lost(_) => CopyCarried
      case TaskCancelled(_) => CopyLost
  }

  function ResumeUpshot(lock: Lock, e: Enrollment, s: Script): Upshot {
    if e.Complete() then CopyCarried
    else
      match s.login
      case Broken => CopyCarried
      case Interrupted => CopyLost
      case Heard =>
        if lock.Accepts(e.Credential()) then StepsUpshot(e, s)
        else if DeviceId in e.completed then CopyCarried
        else match s.retry
          case Broken => CopyCarried
          case Interrupted => CopyLost
          case Heard =>
            if lock.Accepts(OwnerCredential(e.userId, e.deviceId, e.ownerKey)) then SaveUpshot(s.save(DeviceId))
            else CopyCarried
  }

  /** The upshot of a list of attempts on a copy that only the caller has. An attempt from the empty store is none. */
  function RunUpshot(curve: Curve, w: World, e: Enrollment, attempts: seq<Attempt>): Upshot
    decreases |attempts|
  {
    if attempts == [] then CopyCarried
    else if attempts[0].fromStore then RunUpshot(curve, w, e, attempts[1..])
    else
      var (after, ending) := Resume(w, curve, e, attempts[0].script);
      var left := CarriedAfter(Some(e), ending);
      match ResumeUpshot(w.lock, e, attempts[0].script)
      case CopyCarried => if left.Some? then RunUpshot(curve, after, left.value, attempts[1..]) else CopyLost
      case decided => decided
  }

  lemma SaveUpshotIsRight(w: World, step: EnrollmentStep, e: Enrollment, fate: SaveFate, given: Option<Enrollment>)
    requires w.store.None?
    ensures var (after, failed) := Save(w, step, e, fate);
            match SaveUpshot(fate)
            case CopyStored => after.store.Some?
            case CopyCarried => after.store.None? && failed.Some? && CarriedAfter(given, failed.value).Some?
            case CopyLost => after.store.None? && failed == Some(Gone)
  {
  }

  lemma StepsUpshotIsRight(curve: Curve, w: World, e: Enrollment, s: Script, given: Option<Enrollment>)
    requires w.store.None?
    ensures var (after, ending) := RunRemaining(w, curve, e, e.Remaining(), s);
            Comes(StepsUpshot(e, s), after, CarriedAfter(given, ending))
  {
    var steps := e.Remaining();
    if steps != [] {
      var (sent, stopped) := RunStep(w, curve, e, steps[0], s);
      if stopped.None? {
        var next := Confirmed(curve, e, steps[0], s);
        SaveUpshotIsRight(sent, steps[0], next, s.save(steps[0]), given);
        RunRemainingKeepsStore(curve, Save(sent, steps[0], next, s.save(steps[0])).0, next, steps[1..], s);
      }
    }
  }

  /** The world and the caller's copy after an attempt with this upshot. */
  predicate Comes(upshot: Upshot, after: World, carried: Option<Enrollment>) {
    match upshot
    case CopyStored => after.store.Some?
    case CopyCarried => after.store.None? && carried.Some?
    case CopyLost => after.store.None? && carried.None?
  }

  lemma ResumeUpshotIsRight(curve: Curve, w: World, e: Enrollment, s: Script)
    requires w.store.None?
    ensures var (after, ending) := Resume(w, curve, e, s);
            Comes(ResumeUpshot(w.lock, e, s), after, CarriedAfter(Some(e), ending))
  {
    if !e.Complete() {
      var started := w.(log := w.log + [Resumed(e)]);
      var (loggedIn, failed) := LogInToResume(w.lock, e, s);
      if failed.None? {
        hide RunRemaining;
        if loggedIn == e {
          StepsUpshotIsRight(curve, started, e, s, Some(e));
        } else {
          SaveUpshotIsRight(started, DeviceId, loggedIn, s.save(DeviceId), Some(e));
          var (saved, notSaved) := Save(started, DeviceId, loggedIn, s.save(DeviceId));
          RunRemainingKeepsStore(curve, saved, loggedIn, loggedIn.Remaining(), s);
        }
      }
    }
  }

  lemma ResumeKeepsStore(curve: Curve, w: World, e: Enrollment, s: Script)
    ensures w.store.Some? ==> Resume(w, curve, e, s).0.store.Some?
    ensures Resume(w, curve, e, s).0.lock.ownerKey == w.lock.ownerKey
  {
    hide RunRemaining;
    var started := w.(log := w.log + [Resumed(e)]);
    var loggedIn := LogInToResume(w.lock, e, s).0;
    RunRemainingKeepsStore(curve, started, e, e.Remaining(), s);
    RunRemainingKeepsStore(curve, Save(started, DeviceId, loggedIn, s.save(DeviceId)).0, loggedIn,
        loggedIn.Remaining(), s);
  }

  /** Once stored, always stored; once nowhere, never found again; and no attempt changes the lock's key. */
  lemma {:induction false} AttemptsSettle(curve: Curve, w: World, carried: Option<Enrollment>, attempts: seq<Attempt>)
    ensures var (after, left) := TryAll(curve, w, carried, attempts);
            && after.lock.ownerKey == w.lock.ownerKey
            && (w.store.Some? ==> after.store.Some?)
            && (w.store.None? && carried.None? ==> after.store.None? && left.None?)
    decreases |attempts|
  {
    if attempts != [] {
      var a := attempts[0];
      var given := if a.fromStore then w.store else carried;
      if given.Some? {
        ResumeKeepsStore(curve, w, given.value, a.script);
      }
      var (after, left) := Try(curve, w, carried, a);
      AttemptsSettle(curve, after, left, attempts[1..]);
    }
  }

  lemma {:induction false} RunUpshotIsRight(curve: Curve, w: World, e: Enrollment, attempts: seq<Attempt>)
    requires w.store.None?
    ensures var (after, left) := TryAll(curve, w, Some(e), attempts);
            Comes(RunUpshot(curve, w, e, attempts), after, left)
    decreases |attempts|
  {
    if attempts != [] {
      var a := attempts[0];
      var (after, left) := Try(curve, w, Some(e), a);
      hide Resume, ResumeUpshot;
      AttemptsSettle(curve, after, left, attempts[1..]);
      if a.fromStore {
        RunUpshotIsRight(curve, w, e, attempts[1..]);
      } else {
        ResumeUpshotIsRight(curve, w, e, a.script);
        if ResumeUpshot(w.lock, e, a.script) == CopyCarried {
          RunUpshotIsRight(curve, after, left.value, attempts[1..]);
        }
      }
    }
  }

  /**
    Over enroll() and any resumes, a lock ends up with an owner key nobody has a copy of in three ways only: the lock
    took UserAuthUpdate and its answer was lost; the process died in the first save with nothing stored; or that save
    raised with nothing stored, and the copy on the error was lost before any later save stored one.
   */
  lemma StrandedOnlyByLostUpdate(
    curve: Curve, lock: Lock, name: string, deviceId: bytes, serverPrivate: bytes, s: Script, attempts: seq<Attempt>)
    requires lock.FactoryReset()
    ensures var (w, carried) := EnrollmentRun(curve, lock, name, deviceId, serverPrivate, s, attempts);
            var enrolled := Enroll(World(lock, None, []), curve, name, deviceId, serverPrivate, s).0;
            Stranded(lock, w, carried)
            <==> w.lock.ownerKey != lock.ownerKey
                 && (|| (s.update.Applied() && !s.update.Delivered?)
                     || s.save(OwnerKey) == Killed(false)
                     || (s.save(OwnerKey) == Raised(false)
                         && RunUpshot(curve, enrolled, FirstEnrollment(curve, name, deviceId, serverPrivate, s),
                             attempts)
                            == CopyLost))
  {
    var (after, ending) := Enroll(World(lock, None, []), curve, name, deviceId, serverPrivate, s);
    EnrollUpshot(curve, lock, name, deviceId, serverPrivate, s);
    hide Enroll, RunUpshot;
    AttemptsSettle(curve, after, CarriedAfter(None, ending), attempts);
    if after.store.None? && CarriedAfter(None, ending).Some? {
      RunUpshotIsRight(curve, after, CarriedAfter(None, ending).value, attempts);
    }
  }

  /** The lock takes UserAuthUpdate: a first login that is heard, valid arguments, and a key that is not the default. */
  predicate TakenOver(curve: Curve, lock: Lock, name: string, deviceId: bytes, serverPrivate: bytes, s: Script) {
    && lock.FactoryReset() && ValidName(name) && ValidDeviceId(deviceId) && curve.valid(serverPrivate)
    && s.login.Heard? && s.update.Applied()
    && curve.OwnerKey(s.lockUpdatePrivate, curve.PublicKeyOf(s.updatePrivate)) != DEFAULT_ENCRYPTION_KEY
  }

  /** Each of the three ways strands every lock that is taken over, whatever is tried after that. */
  lemma {:induction false} EachWayStrands(
    curve: Curve, lock: Lock, name: string, deviceId: bytes, serverPrivate: bytes, s: Script, attempts: seq<Attempt>)
    requires TakenOver(curve, lock, name, deviceId, serverPrivate, s)
    requires || !s.update.Delivered?
             || s.save(OwnerKey) == Killed(false)
             || (s.save(OwnerKey) == Raised(false)
                 && attempts != [] && !attempts[0].fromStore && attempts[0].script.login.Interrupted?)
    ensures var (w, carried) := EnrollmentRun(curve, lock, name, deviceId, serverPrivate, s, attempts);
            Stranded(lock, w, carried)
  {
    var (after, ending) := Enroll(World(lock, None, []), curve, name, deviceId, serverPrivate, s);
    EnrollUpshot(curve, lock, name, deviceId, serverPrivate, s);
    AttemptsSettle(curve, after, CarriedAfter(None, ending), attempts);
    if s.update.Delivered? && s.save(OwnerKey) == Raised(false) {
      var (left, carried) := Try(curve, after, CarriedAfter(None, ending), attempts[0]);
      AttemptsSettle(curve, left, carried, attempts[1..]);
    }
  }

  /** A lock is taken over whatever becomes of the answer and of the saves. */
  lemma SomeLockIsTakenOver(update: Fate, save: EnrollmentStep -> SaveFate)
    returns (curve: Curve, lock: Lock, name: string, deviceId: bytes, serverPrivate: bytes, s: Script)
    requires update.Applied()
    ensures curve.Agrees() && TakenOver(curve, lock, name, deviceId, serverPrivate, s)
    ensures s.update == update && s.save == save
  {
    curve := Curve(key => true, key => seq(PUBLIC_KEY_LENGTH, _ => 0), (mine, theirs) => seq(32, _ => 0));
    lock := Lock(true, DEFAULT_ENCRYPTION_KEY, DEFAULT_DEVICE_ID, None, None, None, None);
    name, deviceId, serverPrivate := "", [1, 0, 0, 0, 0, 0], [];
    s := Script(Heard, Heard, update, step => Fate.Delivered, save, 0, [], [], []);
    assert curve.OwnerKey([], curve.PublicKeyOf([]))[0] == 0;
  }

  /** What enroll() leaves behind when it has changed the key, and the copy a raising first save hands on. */
  lemma EnrollUpshot(curve: Curve, lock: Lock, name: string, deviceId: bytes, serverPrivate: bytes, s: Script)
    ensures var (w, ending) := Enroll(World(lock, None, []), curve, name, deviceId, serverPrivate, s);
            w.lock.ownerKey != lock.ownerKey ==>
              && s.update.Applied()
              && (!s.update.Delivered? ==> w.store.None? && CarriedAfter(None, ending).None?)
              && (s.update.Delivered? ==>
                    match s.save(OwnerKey)
                    case Saved => w.store.Some?
                    case Raised(true) => w.store.Some?
                    case Raised(false) =>
                      w.store.None?
                      && CarriedAfter(None, ending) == Some(FirstEnrollment(curve, name, deviceId, serverPrivate, s))
                    case Killed(stored) =>
                      (stored ==> w.store.Some?) && (!stored ==> w.store.None? && CarriedAfter(None, ending).None?))
  {
    if s.update.Delivered? && s.save(OwnerKey).Saved? {
      var e := FirstEnrollment(curve, name, deviceId, serverPrivate, s);
      var saved := Save(World(Taken(lock, curve, s), None, []), OwnerKey, e, s.save(OwnerKey)).0;
      RunRemainingKeepsStore(curve, saved, e, e.Remaining(), s);
    }
  }

  lemma {:induction false} RunRemainingKeepsStore(curve: Curve, w: World, e: Enrollment, steps: seq<EnrollmentStep>,
        s: Script)
    ensures w.store.Some? ==> RunRemaining(w, curve, e, steps, s).0.store.Some?
    ensures RunRemaining(w, curve, e, steps, s).0.lock.ownerKey == w.lock.ownerKey
    decreases |steps|
  {
    if steps != [] {
      var sent := RunStep(w, curve, e, steps[0], s).0;
      var next := Confirmed(curve, e, steps[0], s);
      var saved := Save(sent, steps[0], next, s.save(steps[0])).0;
      RunRemainingKeepsStore(curve, saved, next, steps[1..], s);
    }
  }
}

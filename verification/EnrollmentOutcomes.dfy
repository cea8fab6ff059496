/** How a call of enroll() or of a resume ends: undisturbed it finishes, and otherwise it ends where something broke. */
module EnrollmentOutcomes {
  import opened Wrappers
  import opened Bytes
  import opened Enrollment
  import opened EnrollmentTheorems

  /** The step's command was answered and its state saved. */
  predicate GoesWell(s: Script, step: EnrollmentStep) {
    s.send(step).Delivered? && s.save(step).Saved?
  }

  function Steps(steps: seq<EnrollmentStep>): set<EnrollmentStep> {
    set step | step in steps
  }

  /** The lock and the enrollment after these steps went well. */
  predicate Done(curve: Curve, before: World, e: Enrollment, steps: seq<EnrollmentStep>, s: Script, after: World,
                 x: Enrollment) {
    && x == e.(completed := e.completed + Steps(steps),
               lockServerPublicKey := if ServerKey in steps then Some(curve.PublicKeyOf(s.lockServerPrivate))
                                      else e.lockServerPublicKey)
    && after.lock == Lock(before.lock.checksId, before.lock.ownerKey,
                          if DeviceId in steps then e.deviceId else before.lock.deviceId,
                          if Clock in steps then Some(s.now) else before.lock.clock,
                          if ServerKey in steps then Some(curve.PublicKeyOf(e.serverPrivateKey))
                          else before.lock.serverKey,
                          if ServerKey in steps then Some(curve.PublicKeyOf(s.lockServerPrivate))
                          else before.lock.serverAnswer,
                          if Name in steps then Some(e.name) else before.lock.name)
    && after.store == (if steps == [] then before.store else Some(x))
  }

  /** Where the steps end: after all of them, or at the first that does not go well. */
  predicate EndsAt(e: Enrollment, steps: seq<EnrollmentStep>, s: Script, ending: Ending, k: nat) {
    && k <= |steps| && (forall j | 0 <= j < k :: GoesWell(s, steps[j]))
    && if k == |steps| then ending.Finished?
       else
         && !GoesWell(s, steps[k])
         && (s.send(steps[k]).Delivered? ==>
               if s.save(steps[k]).Killed? then ending == Gone
               else ending.NotSaved? && ending.step == steps[k]
                    && ending.e.completed == e.completed + Steps(steps[..k + 1]))
         && (s.send(steps[k]).Lost? ==>
               && ending.Stopped? && ending.step == steps[k] && ending.partial.Some?
               && ending.partial.value.completed == e.completed + Steps(steps[..k]))
         && (s.send(steps[k]).TaskCancelled? ==> ending == Gone)
  }

  /** Where the steps end does not depend on how far away they start. */
  lemma EndsLater(
    e: Enrollment, steps: seq<EnrollmentStep>, s: Script, next: Enrollment, ending: Ending, k: nat)
    requires steps != [] && GoesWell(s, steps[0]) && next.completed == e.completed + {steps[0]}
    requires EndsAt(next, steps[1..], s, ending, k)
    ensures EndsAt(e, steps, s, ending, k + 1)
  {
    var rest := steps[1..];
    StepsOn(steps, k);
    if k < |rest| {
      StepsOn(steps, k + 1);
      assert steps[k + 1] == rest[k];
    }
    forall j | 0 <= j < k + 1 ensures GoesWell(s, steps[j]) {
      if j > 0 {
        assert steps[j] == rest[j - 1];
      }
    }
  }

  lemma StepsOn(steps: seq<EnrollmentStep>, n: nat)
    requires n < |steps|
    ensures Steps(steps[..n + 1]) == {steps[0]} + Steps(steps[1..][..n])
  {
    assert steps[..n + 1] == [steps[0]] + steps[1..][..n];
    forall step ensures step in Steps(steps[..n + 1]) <==> step in {steps[0]} + Steps(steps[1..][..n]) {
    }
  }

  lemma {:induction false} RemainingEndsAt(
    curve: Curve, w: World, e: Enrollment, steps: seq<EnrollmentStep>, s: Script) returns (k: nat)
    ensures EndsAt(e, steps, s, RunRemaining(w, curve, e, steps, s).1, k)
    decreases |steps|
  {
    k := 0;
    if steps != [] && GoesWell(s, steps[0]) {
      var sent := RunStep(w, curve, e, steps[0], s).0;
      var next := Confirmed(curve, e, steps[0], s);
      var saved := Save(sent, steps[0], next, s.save(steps[0])).0;
      assert RunRemaining(w, curve, e, steps, s) == RunRemaining(saved, curve, next, steps[1..], s);
      k := RemainingEndsAt(curve, saved, next, steps[1..], s);
      EndsLater(e, steps, s, next, RunRemaining(w, curve, e, steps, s).1, k);
      k := k + 1;
    } else {
      assert steps != [] ==> Steps(steps[..1]) == {steps[0]} && Steps(steps[..0]) == {};
    }
  }

  /** Steps that all go well. */
  lemma {:induction false} RemainingIsDone(
    curve: Curve, w: World, e: Enrollment, steps: seq<EnrollmentStep>, s: Script)
    requires forall k | 0 <= k < |steps| :: GoesWell(s, steps[k])
    ensures var (after, ending) := RunRemaining(w, curve, e, steps, s);
            ending.Finished? && Done(curve, w, e, steps, s, after, ending.e)
    decreases |steps|
  {
    if steps == [] {
      assert Steps(steps) == {} && e.completed + {} == e.completed;
    } else {
      var sent := RunStep(w, curve, e, steps[0], s).0;
      var next := Confirmed(curve, e, steps[0], s);
      var saved := Save(sent, steps[0], next, s.save(steps[0])).0;
      assert RunRemaining(w, curve, e, steps, s) == RunRemaining(saved, curve, next, steps[1..], s);
      RemainingIsDone(curve, saved, next, steps[1..], s);
      var (after, ending) := RunRemaining(saved, curve, next, steps[1..], s);
      OneMoreDone(curve, w, e, steps, s, saved, next, after, ending.e);
    }
  }

  lemma OneMoreDone(curve: Curve, w: World, e: Enrollment, steps: seq<EnrollmentStep>, s: Script, saved: World,
                    next: Enrollment, after: World, x: Enrollment)
    requires steps != [] && GoesWell(s, steps[0])
    requires next == Confirmed(curve, e, steps[0], s)
    requires saved == Save(RunStep(w, curve, e, steps[0], s).0, steps[0], next, s.save(steps[0])).0
    requires Done(curve, saved, next, steps[1..], s, after, x)
    ensures Done(curve, w, e, steps, s, after, x)
  {
    forall step ensures step in steps <==> step == steps[0] || step in steps[1..] {
    }
    assert Steps(steps) == {steps[0]} + Steps(steps[1..]);
    assert steps[1..] == [] ==> next.completed + Steps(steps[1..]) == next.completed;
    assert e.completed + Steps(steps) == e.completed + {steps[0]} + Steps(steps[1..]);
  }

  /** A name of at most 8 ASCII characters, a device id of 6 bytes that are not all 0, and a valid key. */
  predicate GoodArguments(curve: Curve, name: string, deviceId: bytes, serverPrivate: bytes) {
    && |name| <= 8 && (forall c | c in name :: c < 128 as char)
    && |deviceId| == 6 && (exists b | b in deviceId :: b != 0) && curve.valid(serverPrivate)
  }

  lemma ArgumentsAreChecked(curve: Curve, name: string, deviceId: bytes, serverPrivate: bytes)
    ensures GoodArguments(curve, name, deviceId, serverPrivate)
            <==> ValidName(name) && ValidDeviceId(deviceId) && curve.valid(serverPrivate)
  {
    AllAre(deviceId, DEFAULT_DEVICE_ID, 0);
    assert forall i | 0 <= i < |name| :: name[i] in name;
  }

  lemma AllAre(a: bytes, b: bytes, value: byte)
    requires forall i | 0 <= i < |b| :: b[i] == value
    ensures a == b <==> |a| == |b| && forall x | x in a :: x == value
  {
    if |a| == |b| && forall x | x in a :: x == value {
      assert forall i | 0 <= i < |a| :: a[i] in a;
    }
  }

  /** What an enrollment must be to be built at all, from a call or from storage. */
  lemma ValidIff(curve: Curve, e: Enrollment)
    ensures e.Valid(curve)
            <==> GoodArguments(curve, e.name, e.deviceId, e.serverPrivateKey)
                 && |e.ownerKey| == 16 && 0 <= e.userId <= 255 && OwnerKey in e.completed
                 && (match e.lockServerPublicKey
                     case None => ServerKey !in e.completed
                     case Some(key) => ServerKey in e.completed && |key| == 64)
                 && (match (e.updatePrivateKey, e.lockUpdatePublicKey)
                     case (None, None) => true
                     case (Some(private), Some(public)) => curve.valid(private) && |public| == 64
                     case _ => false)
  {
    ArgumentsAreChecked(curve, e.name, e.deviceId, e.serverPrivateKey);
    hide GoodArguments, ValidName, ValidDeviceId;
  }

  /** A lock that lets a login with the factory credential in: its key is sixteen times 0x11, its id six times 0. */
  predicate Open(lock: Lock) {
    && |lock.ownerKey| == 16 && (forall b | b in lock.ownerKey :: b == 0x11)
    && (lock.checksId ==> |lock.deviceId| == 6 && forall b | b in lock.deviceId :: b == 0)
  }

  lemma OpenIsAccepting(lock: Lock)
    ensures Open(lock) <==> lock.Accepts(DEFAULT_OWNER_CREDENTIAL)
  {
    AllAre(lock.ownerKey, DEFAULT_ENCRYPTION_KEY, 0x11);
    AllAre(lock.deviceId, DEFAULT_DEVICE_ID, 0);
  }

  /** What becomes of the call before the first step: the arguments, the login, the owner key, the first save. */
  predicate Starts(curve: Curve, w: World, name: string, deviceId: bytes, serverPrivate: bytes, s: Script) {
    && GoodArguments(curve, name, deviceId, serverPrivate) && s.login.Heard? && Open(w.lock)
    && s.update.Delivered? && s.save(OwnerKey).Saved?
  }

  const AFTER_KEY := [DeviceId, Clock, ServerKey, Name]

  /**
    How enroll() ends, on any lock and whatever breaks. It finishes exactly when the arguments are good, the lock lets
    the factory login in, and every command is answered and every save made; bad arguments and a refused login change
    nothing; a lost answer to UserAuthUpdate leaves no copy; and a later break ends it at that step, the caller left
    with the steps before it confirmed, or that one too if only its save failed.
   */
  lemma EnrollEnds(curve: Curve, w: World, name: string, deviceId: bytes, serverPrivate: bytes, s: Script)
    returns (k: nat)
    ensures var (after, ending) := Enroll(w, curve, name, deviceId, serverPrivate, s);
            var good := GoodArguments(curve, name, deviceId, serverPrivate);
            var loggedIn := good && s.login.Heard? && Open(w.lock);
            && (ending.Finished?
                <==> Starts(curve, w, name, deviceId, serverPrivate, s)
                     && GoesWell(s, DeviceId) && GoesWell(s, Clock) && GoesWell(s, ServerKey) && GoesWell(s, Name))
            && (ending.BadArguments? <==> !good)
            && (ending.LoginFailed? <==> good && !s.login.Interrupted? && !loggedIn)
            && (!loggedIn ==> after == w)
            && (ending == Stopped(OwnerKey, None) <==> loggedIn && s.update.Lost?)
            && (Starts(curve, w, name, deviceId, serverPrivate, s) ==>
                  EndsAt(FirstEnrollment(curve, name, deviceId, serverPrivate, s), AFTER_KEY, s, ending, k))
  {
    k := 0;
    ArgumentsAreChecked(curve, name, deviceId, serverPrivate);
    OpenIsAccepting(w.lock);
    if Starts(curve, w, name, deviceId, serverPrivate, s) {
      var e := FirstEnrollment(curve, name, deviceId, serverPrivate, s);
      var updated := w.(lock := Taken(w.lock, curve, s));
      RemainingIsLeft(e);
      k := RemainingEndsAt(curve, Save(updated, OwnerKey, e, s.save(OwnerKey)).0, e, AFTER_KEY, s);
    }
    hide RunRemaining, Enrollment.Unfinished, Open, GoodArguments, ValidName, ValidDeviceId;
  }

  /**
    Undisturbed, enroll() on a factory-reset lock finishes: every step is confirmed, the result is stored, and the lock
    has the owner key, device id, name, server key and clock it was given, and lets its new owner in.
   */
  lemma EnrollFinishes(curve: Curve, lock: Lock, name: string, deviceId: bytes, serverPrivate: bytes, s: Script)
    requires curve.Agrees() && curve.valid(s.updatePrivate) && curve.valid(s.lockUpdatePrivate)
    requires Open(lock) && Undisturbed(s) && GoodArguments(curve, name, deviceId, serverPrivate)
    ensures var (after, ending) := Enroll(World(lock, None, []), curve, name, deviceId, serverPrivate, s);
            && ending.Finished? && ending.e.Complete() && after.store == Some(ending.e)
            && ending.e.ownerKey == curve.derive(s.updatePrivate, curve.publicOf(s.lockUpdatePrivate))[..16]
            && (ending.e.deviceId, ending.e.name, ending.e.serverPrivateKey) == (deviceId, name, serverPrivate)
            && ending.e.lockServerPublicKey == Some(curve.publicOf(s.lockServerPrivate)) && ending.e.userId == 0
            && ending.e.updatePrivateKey == Some(s.updatePrivate)
            && ending.e.lockUpdatePublicKey == Some(curve.publicOf(s.lockUpdatePrivate))
            && after.lock == Lock(lock.checksId, ending.e.ownerKey, deviceId, Some(s.now),
                                  Some(curve.publicOf(serverPrivate)), Some(curve.publicOf(s.lockServerPrivate)),
                                  Some(name))
            && after.lock.Accepts(ending.e.Credential())
  {
    var e := FirstEnrollment(curve, name, deviceId, serverPrivate, s);
    var saved := World(Taken(lock, curve, s), Some(e), [Stored(e)]);
    EnrollGoesOn(curve, lock, name, deviceId, serverPrivate, s);
    hide Enroll, RunRemaining, GoodArguments, Open;
    RemainingIsDone(curve, saved, e, AFTER_KEY, s);
    AllSteps();
  }

  /** The owner key is exchanged and stored, and the other steps follow. */
  lemma EnrollGoesOn(curve: Curve, lock: Lock, name: string, deviceId: bytes, serverPrivate: bytes, s: Script)
    requires Starts(curve, World(lock, None, []), name, deviceId, serverPrivate, s)
    ensures var e := FirstEnrollment(curve, name, deviceId, serverPrivate, s);
            Enroll(World(lock, None, []), curve, name, deviceId, serverPrivate, s)
            == RunRemaining(World(Taken(lock, curve, s), Some(e), [Stored(e)]), curve, e, AFTER_KEY, s)
  {
    var e := FirstEnrollment(curve, name, deviceId, serverPrivate, s);
    ArgumentsAreChecked(curve, name, deviceId, serverPrivate);
    OpenIsAccepting(lock);
    RemainingIsLeft(e);
    hide RunRemaining, Enrollment.Unfinished, GoodArguments, Open, ValidName, ValidDeviceId;
    assert [] + [Stored(e)] == [Stored(e)];
  }

  lemma AllSteps()
    ensures Steps(AFTER_KEY) == {DeviceId, Clock, ServerKey, Name}
    ensures DeviceId in AFTER_KEY && Clock in AFTER_KEY && ServerKey in AFTER_KEY && Name in AFTER_KEY
  {
    assert AFTER_KEY[0] == DeviceId && AFTER_KEY[1] == Clock && AFTER_KEY[2] == ServerKey && AFTER_KEY[3] == Name;
  }

  // ----- What a resume comes to -----

  /** The lock lets the enrollment in under the id it is taken to have. */
  predicate LetIn(w: World, e: Enrollment, s: Script) {
    s.login.Heard? && w.lock.Accepts(e.Credential())
  }

  /** It does not, but under the enrolled id it does, whose confirmation was lost. */
  predicate LetInRenamed(w: World, e: Enrollment, s: Script) {
    && s.login.Heard? && !w.lock.Accepts(e.Credential()) && DeviceId !in e.completed
    && s.retry.Heard? && w.lock.Accepts(OwnerCredential(e.userId, e.deviceId, e.ownerKey))
  }

  /**
    How a resume ends, whatever breaks, from an enrollment with its steps confirmed in order. A complete one is returned
    as it is; otherwise it finishes exactly when the lock lets it in and every step left goes well. When it is let in
    under the enrolled id alone, that step counts as confirmed, is saved, and is not sent again.
   */
  lemma ResumeEnds(curve: Curve, w: World, e: Enrollment, s: Script) returns (k: nat)
    requires InOrder(e.completed)
    ensures var (after, ending) := Resume(w, curve, e, s);
            var renamed := e.(completed := e.completed + {DeviceId});
            && (e.Complete() ==> after == w && ending == Finished(e))
            && (!e.Complete() && LetIn(w, e, s) ==> EndsAt(e, Left(e.completed), s, ending, k))
            && (!e.Complete() && LetInRenamed(w, e, s) ==>
                  match s.save(DeviceId)
                  case Saved => EndsAt(renamed, [Clock, ServerKey, Name], s, ending, k)
                  case Raised(_) => ending == NotSaved(DeviceId, renamed)
                  case Killed(_) => ending == Gone)
            && (!e.Complete() && !LetIn(w, e, s) && !LetInRenamed(w, e, s) ==>
                  && after == w.(log := w.log + [Resumed(e)])
                  && (ending == Gone || ending == LoginFailed)
                  && (ending == Gone <==>
                        || s.login.Interrupted?
                        || (s.login.Heard? && DeviceId !in e.completed && s.retry.Interrupted?)))
  {
    k := 0;
    var started := w.(log := w.log + [Resumed(e)]);
    var renamed := e.(completed := e.completed + {DeviceId});
    RemainingIsLeft(e);
    RemainingIsLeft(renamed);
    if !e.Complete() && LetIn(w, e, s) {
      k := RemainingEndsAt(curve, started, e, Left(e.completed), s);
    } else if !e.Complete() && LetInRenamed(w, e, s) {
      assert LogInToResume(w.lock, e, s) == (renamed, None);
      OnlyKeyConfirmed(e);
      k := RemainingEndsAt(curve, Save(started, DeviceId, renamed, s.save(DeviceId)).0, renamed,
                           [Clock, ServerKey, Name], s);
    }
    hide RunRemaining, Enrollment.Unfinished, EndsAt;
  }

  lemma OnlyKeyConfirmed(e: Enrollment)
    requires InOrder(e.completed) && DeviceId !in e.completed
    ensures Left(e.completed + {DeviceId}) == [Clock, ServerKey, Name]
  {
  }
}

/**
  Enrolling a factory-reset lock: the lock, the durable store and the program that takes the lock over,
  with every answer, save and task that may be lost on the way.
 */
module Enrollment {
  import opened Wrappers
  import opened Bytes

  const DEVICE_ID_LENGTH := 6
  const AES_KEY_LENGTH := 16
  const PUBLIC_KEY_LENGTH := 64
  const DEVICE_NAME_MAX_LENGTH := 9
  const DEFAULT_ADMIN_USER_ID := 0
  const DEFAULT_DEVICE_ID: bytes := [0, 0, 0, 0, 0, 0]
  const DEFAULT_ENCRYPTION_KEY: bytes :=
    [0x11, 0x11, 0x11, 0x11, 0x11, 0x11, 0x11, 0x11, 0x11, 0x11, 0x11, 0x11, 0x11, 0x11, 0x11, 0x11]

  type PublicKey = b: bytes | |b| == 64 witness seq(64, _ => 0)
  type Secret = b: bytes | |b| == 32 witness seq(32, _ => 0)

  /** The key exchange: a private key is a valid scalar or not, and both ends derive one secret. */
  datatype Curve = Curve(valid: bytes -> bool, publicOf: bytes -> PublicKey, derive: (bytes, bytes) -> Secret) {
    ghost predicate Agrees() {
      forall a, b | valid(a) && valid(b) :: derive(a, publicOf(b)) == derive(b, publicOf(a))
    }

    function PublicKeyOf(private: bytes): (key: bytes)
      ensures |key| == PUBLIC_KEY_LENGTH
    {
      publicOf(private)
    }

    /** The first half of the shared secret. */
    function OwnerKey(mine: bytes, theirs: bytes): (key: bytes)
      ensures |key| == AES_KEY_LENGTH
    {
      derive(mine, theirs)[..AES_KEY_LENGTH]
    }
  }

  /** The steps after the factory login, in the order they run. */
  datatype EnrollmentStep = OwnerKey | DeviceId | Clock | ServerKey | Name

  const STEPS := [OwnerKey, DeviceId, Clock, ServerKey, Name]

  datatype OwnerCredential = OwnerCredential(userId: int, deviceId: bytes, key: bytes)

  const DEFAULT_OWNER_CREDENTIAL := OwnerCredential(DEFAULT_ADMIN_USER_ID, DEFAULT_DEVICE_ID, DEFAULT_ENCRYPTION_KEY)

  predicate IsAscii(text: string) {
    forall i | 0 <= i < |text| :: text[i] as int < 128
  }

  predicate ValidName(name: string) {
    IsAscii(name) && |name| < DEVICE_NAME_MAX_LENGTH
  }

  predicate ValidDeviceId(id: bytes) {
    |id| == DEVICE_ID_LENGTH && id != DEFAULT_DEVICE_ID
  }

  /** Everything needed to talk to an enrolled lock again. */
  datatype Enrollment = Enrollment(
    deviceId: bytes, ownerKey: bytes, serverPrivateKey: bytes, name: string,
    lockServerPublicKey: Option<bytes>, updatePrivateKey: Option<bytes>, lockUpdatePublicKey: Option<bytes>,
    completed: set<EnrollmentStep>, userId: int)
  {
    /** What the constructor checks. */
    predicate Valid(curve: Curve) {
      && ValidDeviceId(deviceId)
      && |ownerKey| == AES_KEY_LENGTH
      && curve.valid(serverPrivateKey)
      && ValidName(name)
      && OwnerKey in completed
      && (ServerKey in completed <==> lockServerPublicKey.Some?)
      && (lockServerPublicKey.Some? ==> |lockServerPublicKey.value| == PUBLIC_KEY_LENGTH)
      && (updatePrivateKey.Some? <==> lockUpdatePublicKey.Some?)
      && (updatePrivateKey.Some? ==> curve.valid(updatePrivateKey.value))
      && (lockUpdatePublicKey.Some? ==> |lockUpdatePublicKey.value| == PUBLIC_KEY_LENGTH)
      && 0 <= userId <= 0xFF
    }

    predicate Complete() {
      completed >= {OwnerKey, DeviceId, Clock, ServerKey, Name}
    }

    function Remaining(): seq<EnrollmentStep> {
      Unfinished(STEPS)
    }

    function Unfinished(steps: seq<EnrollmentStep>): seq<EnrollmentStep> {
      if steps == [] then []
      else (if steps[0] in completed then [] else [steps[0]]) + Unfinished(steps[1..])
    }

    /** Until DeviceIdSet is confirmed the lock is taken to have the factory id. */
    function Credential(): OwnerCredential {
      OwnerCredential(userId, if DeviceId in completed then deviceId else DEFAULT_DEVICE_ID, ownerKey)
    }
  }

  // ----- The lock -----

  /** checksId says whether this lock looks at the device id in a login, which nobody knows. */
  datatype Lock = Lock(
    checksId: bool, ownerKey: bytes, deviceId: bytes, clock: Option<nat>,
    serverKey: Option<bytes>, serverAnswer: Option<bytes>, name: Option<string>)
  {
    predicate Accepts(c: OwnerCredential) {
      c.userId == DEFAULT_ADMIN_USER_ID && c.key == ownerKey && (checksId ==> c.deviceId == deviceId)
    }

    predicate FactoryReset() {
      ownerKey == DEFAULT_ENCRYPTION_KEY && deviceId == DEFAULT_DEVICE_ID
    }

    /** The lock after a step's command; lockPrivate is the key pair it makes for its answer. */
    function After(curve: Curve, step: EnrollmentStep, e: Enrollment, now: nat, lockPrivate: bytes): Lock {
      match step
      case OwnerKey => this
      case DeviceId => this.(deviceId := e.deviceId)
      case Clock => this.(clock := Some(now))
      case ServerKey =>
        this.(serverKey := Some(curve.PublicKeyOf(e.serverPrivateKey)),
              serverAnswer := Some(curve.PublicKeyOf(lockPrivate)))
      case Name => this.(name := Some(e.name))
    }
  }

  // ----- What may go wrong -----

  /** What becomes of one command. A cancelled task and a lost answer both leave open whether the lock took it. */
  datatype Fate = Delivered | Lost(applied: bool) | TaskCancelled(applied: bool) {
    predicate Applied() {
      Delivered? || applied
    }
  }

  /** What becomes of one save: done, raised, or the process gone, stored or not. */
  datatype SaveFate = Saved | Raised(stored: bool) | Killed(stored: bool) {
    predicate Stores() {
      Saved? || stored
    }
  }

  /** What becomes of a login: the lock's verdict is heard, or something breaks first. */
  datatype LoginFate = Heard | Broken | Interrupted

  /** One attempt's fortune, and the moments and keys it does not choose itself. */
  datatype Script = Script(
    login: LoginFate, retry: LoginFate, update: Fate,
    send: EnrollmentStep -> Fate, save: EnrollmentStep -> SaveFate,
    now: nat, updatePrivate: bytes, lockUpdatePrivate: bytes, lockServerPrivate: bytes)

  predicate Undisturbed(s: Script) {
    && s.login.Heard? && s.retry.Heard? && s.update.Delivered?
    && s.send(DeviceId).Delivered? && s.send(Clock).Delivered?
    && s.send(ServerKey).Delivered? && s.send(Name).Delivered?
    && s.save(OwnerKey).Saved? && s.save(DeviceId).Saved? && s.save(Clock).Saved?
    && s.save(ServerKey).Saved? && s.save(Name).Saved?
  }

  /** What was sent and stored, in order. */
  datatype Entry =
    | Resumed(e: Enrollment)
    | Sent(step: EnrollmentStep, e: Enrollment)
    | Stored(e: Enrollment)
    | NotStored

  /** How a call ends for its caller. */
  datatype Ending =
    | Finished(e: Enrollment)
    | Stopped(step: EnrollmentStep, partial: Option<Enrollment>)   // BleEnrollmentError
    | NotSaved(step: EnrollmentStep, e: Enrollment)                // BleEnrollmentNotSavedError
    | LoginFailed
    | BadArguments
    | Gone                                                         // cancelled or killed

  datatype World = World(lock: Lock, store: Option<Enrollment>, log: seq<Entry>)

  // ----- The program, as functions of the world -----

  function Save(w: World, step: EnrollmentStep, e: Enrollment, fate: SaveFate): (World, Option<Ending>) {
    var stored := w.(store := if fate.Stores() then Some(e) else w.store);
    match fate
    case Saved => (stored.(log := w.log + [Stored(e)]), None)
    case Raised(_) => (stored.(log := w.log + [NotStored]), Some(NotSaved(step, e)))
    case Killed(_) => (stored.(log := w.log + [NotStored]), Some(Gone))
  }

  /** The enrollment with a step confirmed by the lock. */
  function Confirmed(curve: Curve, e: Enrollment, step: EnrollmentStep, s: Script): Enrollment {
    var done := e.(completed := e.completed + {step});
    if step == ServerKey then done.(lockServerPublicKey := Some(curve.PublicKeyOf(s.lockServerPrivate))) else done
  }

  function RunStep(w: World, curve: Curve, e: Enrollment, step: EnrollmentStep, s: Script): (World, Option<Ending>) {
    var fate := s.send(step);
    var sent := w.(
      lock := if fate.Applied() then w.lock.After(curve, step, e, s.now, s.lockServerPrivate) else w.lock,
      log := w.log + [Sent(step, e)]);
    match fate
    case Delivered => (sent, None)
    case Lost(_) => (sent, Some(Stopped(step, Some(e))))
    case TaskCancelled(_) => (sent, Some(Gone))
  }

  function RunRemaining(w: World, curve: Curve, e: Enrollment, steps: seq<EnrollmentStep>, s: Script): (World, Ending)
    decreases |steps|
  {
    if steps == [] then (w, Finished(e))
    else
      var (sent, stopped) := RunStep(w, curve, e, steps[0], s);
      if stopped.Some? then (sent, stopped.value)
      else
        var next := Confirmed(curve, e, steps[0], s);
        var (saved, failed) := Save(sent, steps[0], next, s.save(steps[0]));
        if failed.Some? then (saved, failed.value)
        else RunRemaining(saved, curve, next, steps[1..], s)
  }

  /** What UserAuthUpdate leaves in the lock. */
  function Taken(lock: Lock, curve: Curve, s: Script): Lock {
    lock.(ownerKey := curve.OwnerKey(s.lockUpdatePrivate, curve.PublicKeyOf(s.updatePrivate)))
  }

  function FirstEnrollment(curve: Curve, name: string, deviceId: bytes, serverPrivate: bytes, s: Script): Enrollment {
    var answer := curve.PublicKeyOf(s.lockUpdatePrivate);
    Enrollment(deviceId, curve.OwnerKey(s.updatePrivate, answer), serverPrivate, name, None,
               Some(s.updatePrivate), Some(answer), {OwnerKey}, DEFAULT_ADMIN_USER_ID)
  }

  function Enroll(w: World, curve: Curve, name: string, deviceId: bytes, serverPrivate: bytes, s: Script)
    : (World, Ending)
  {
    if !ValidName(name) || !ValidDeviceId(deviceId) || !curve.valid(serverPrivate) then (w, BadArguments)
    else if s.login.Broken? then (w, LoginFailed)
    else if s.login.Interrupted? then (w, Gone)
    else if !w.lock.Accepts(DEFAULT_OWNER_CREDENTIAL) then (w, LoginFailed)
    else
      var updated := w.(lock := if s.update.Applied() then Taken(w.lock, curve, s) else w.lock);
      match s.update
      case Lost(_) => (updated, Stopped(OwnerKey, None))
      case TaskCancelled(_) => (updated, Gone)
      case Delivered =>
        var e := FirstEnrollment(curve, name, deviceId, serverPrivate, s);
        var (saved, failed) := Save(updated, OwnerKey, e, s.save(OwnerKey));
        if failed.Some? then (saved, failed.value)
        else RunRemaining(saved, curve, e, e.Remaining(), s)
  }

  /** What the first login of a resume comes to, and the enrollment it goes on with. */
  function LogInToResume(lock: Lock, e: Enrollment, s: Script): (Enrollment, Option<Ending>) {
    if s.login.Broken? then (e, Some(LoginFailed))
    else if s.login.Interrupted? then (e, Some(Gone))
    else if lock.Accepts(e.Credential()) then (e, None)
    else if DeviceId in e.completed then (e, Some(LoginFailed))
    else if s.retry.Broken? then (e, Some(LoginFailed))
    else if s.retry.Interrupted? then (e, Some(Gone))
    else if !lock.Accepts(OwnerCredential(e.userId, e.deviceId, e.ownerKey)) then (e, Some(LoginFailed))
    else (e.(completed := e.completed + {DeviceId}), None)
  }

  function Resume(w: World, curve: Curve, e: Enrollment, s: Script): (World, Ending) {
    if e.Complete() then (w, Finished(e))
    else
      var started := w.(log := w.log + [Resumed(e)]);
      var (loggedIn, failed) := LogInToResume(w.lock, e, s);
      if failed.Some? then (started, failed.value)
      else if loggedIn == e then RunRemaining(started, curve, e, e.Remaining(), s)
      else
        var (saved, notSaved) := Save(started, DeviceId, loggedIn, s.save(DeviceId));
        if notSaved.Some? then (saved, notSaved.value)
        else RunRemaining(saved, curve, loggedIn, loggedIn.Remaining(), s)
  }

  // ----- The program itself -----

  /** A lock within reach and the caller's durable store. */
  class Installation {
    const curve: Curve
    var lock: Lock
    var store: Option<Enrollment>
    ghost var log: seq<Entry>

    constructor (curve: Curve, lock: Lock)
      ensures this.curve == curve && View() == World(lock, None, [])
    {
      this.curve, this.lock, store, log := curve, lock, None, [];
    }

    ghost function View(): World
      reads this
    {
      World(lock, store, log)
    }

    /** The caller's save, and the except clause around it. */
    method SaveEnrollment(step: EnrollmentStep, e: Enrollment, fate: SaveFate) returns (failed: Option<Ending>)
      modifies this
      ensures (View(), failed) == Save(old(View()), step, e, fate)
    {
      if fate.Stores() {
        store := Some(e);
      }
      match fate {
        case Saved =>
          log := log + [Stored(e)];
          failed := None;
        case Raised(_) =>
          log := log + [NotStored];
          failed := Some(NotSaved(step, e));
        case Killed(_) =>
          log := log + [NotStored];
          failed := Some(Gone);
      }
    }

    method SendStep(e: Enrollment, step: EnrollmentStep, s: Script) returns (stopped: Option<Ending>)
      modifies this
      ensures (View(), stopped) == RunStep(old(View()), curve, e, step, s)
    {
      log := log + [Sent(step, e)];
      var fate := s.send(step);
      if fate.Applied() {
        lock := lock.After(curve, step, e, s.now, s.lockServerPrivate);
      }
      match fate {
        case Delivered => stopped := None;
        case Lost(_) => stopped := Some(Stopped(step, Some(e)));
        case TaskCancelled(_) => stopped := Some(Gone);
      }
    }

    method RunRemainingSteps(e: Enrollment, s: Script) returns (ending: Ending)
      modifies this
      ensures (View(), ending) == RunRemaining(old(View()), curve, e, e.Remaining(), s)
    {
      var enrollment := e;
      var steps := e.Remaining();
      for i := 0 to |steps|
        invariant RunRemaining(View(), curve, enrollment, steps[i..], s)
            == RunRemaining(old(View()), curve, e, steps, s)
      {
        var step := steps[i];
        assert steps[i..][0] == step && steps[i..][1..] == steps[i + 1..];
        var stopped := SendStep(enrollment, step, s);
        if stopped.Some? {
          return stopped.value;
        }
        enrollment := Confirmed(curve, enrollment, step, s);
        var failed := SaveEnrollment(step, enrollment, s.save(step));
        if failed.Some? {
          return failed.value;
        }
      }
      ending := Finished(enrollment);
    }

    method EnrollLock(name: string, deviceId: bytes, serverPrivate: bytes, s: Script) returns (ending: Ending)
      modifies this
      ensures (View(), ending) == Enroll(old(View()), curve, name, deviceId, serverPrivate, s)
    {
      if !ValidName(name) || !ValidDeviceId(deviceId) || !curve.valid(serverPrivate) {
        return BadArguments;
      }
      if s.login.Interrupted? {
        return Gone;
      }
      if s.login.Broken? || !lock.Accepts(DEFAULT_OWNER_CREDENTIAL) {
        return LoginFailed;
      }
      if s.update.Applied() {
        lock := Taken(lock, curve, s);
      }
      if s.update.Lost? {
        return Stopped(OwnerKey, None);
      }
      if s.update.TaskCancelled? {
        return Gone;
      }
      var enrollment := FirstEnrollment(curve, name, deviceId, serverPrivate, s);
      var failed := SaveEnrollment(OwnerKey, enrollment, s.save(OwnerKey));
      if failed.Some? {
        return failed.value;
      }
      ending := RunRemainingSteps(enrollment, s);
    }

    method ResumeEnrollment(e: Enrollment, s: Script) returns (ending: Ending)
      modifies this
      ensures (View(), ending) == Resume(old(View()), curve, e, s)
    {
      if e.Complete() {
        return Finished(e);
      }
      log := log + [Resumed(e)];
      var enrollment, failed := LogInToResume(lock, e, s).0, LogInToResume(lock, e, s).1;
      if failed.Some? {
        return failed.value;
      }
      if enrollment != e {
        var notSaved := SaveEnrollment(DeviceId, enrollment, s.save(DeviceId));
        if notSaved.Some? {
          return notSaved.value;
        }
      }
      ending := RunRemainingSteps(enrollment, s);
    }
  }
}

/** The stored form of an enrollment: a JSON record with bytes as hex. */
module EnrollmentStorage {
  import opened Wrappers
  import opened Bytes
  import opened Enrollment

  const ENROLLMENT_FORMAT := 2

  datatype Json = Null | Bool(b: bool) | Number(n: int) | Text(s: string) | List(items: seq<Json>)

  type Record = map<string, Json>

  function Get(data: Record, key: string): Json {
    if key in data then data[key] else Null
  }

  // ----- Hex -----

  function HexDigit(n: nat): char
    requires n < 16
  {
    if n < 10 then '0' + n as char else 'a' + (n - 10) as char
  }

  function DigitValue(c: char): Option<nat> {
    if '0' <= c <= '9' then Some(c as int - '0' as int)
    else if 'a' <= c <= 'f' then Some(c as int - 'a' as int + 10)
    else if 'A' <= c <= 'F' then Some(c as int - 'A' as int + 10)
    else None
  }

  predicate IsSpace(c: char) {
    c == ' ' || 9 <= c as int <= 13
  }

  function Hex(data: bytes): string {
    if data == [] then "" else [HexDigit(data[0] / 16), HexDigit(data[0] % 16)] + Hex(data[1..])
  }

  /** Pairs of digits in either case, with white space allowed between the pairs. */
  function FromHex(text: string): Option<bytes> {
    if text == "" then Some([])
    else if IsSpace(text[0]) then FromHex(text[1..])
    else if |text| < 2 || DigitValue(text[0]).None? || DigitValue(text[1]).None? then None
    else
      var rest := FromHex(text[2..]);
      var value := 16 * DigitValue(text[0]).value + DigitValue(text[1]).value;
      if rest.None? || value >= 256 then None else Some([value] + rest.value)
  }

  lemma HexDigitReads(n: nat)
    requires n < 16
    ensures DigitValue(HexDigit(n)) == Some(n) && !IsSpace(HexDigit(n))
  {
  }

  lemma {:induction false} HexRoundTrip(data: bytes)
    ensures FromHex(Hex(data)) == Some(data)
  {
    if data != [] {
      HexRoundTrip(data[1..]);
      HexDigitReads(data[0] / 16);
      HexDigitReads(data[0] % 16);
      assert Hex(data)[2..] == Hex(data[1..]);
      assert 16 * (data[0] / 16) + data[0] % 16 == data[0];
      assert data == [data[0]] + data[1..];
    }
  }

  const LOWER := "0123456789abcdef"
  const UPPER := "0123456789ABCDEF"

  /** Two lower-case digits a byte, the high one first. */
  lemma {:induction false} HexIs(data: bytes, i: nat)
    requires i < |data|
    ensures |Hex(data)| == 2 * |data|
    ensures Hex(data)[2 * i] == LOWER[data[i] / 16] && Hex(data)[2 * i + 1] == LOWER[data[i] % 16]
  {
    HexDigitIs(data[0] / 16);
    HexDigitIs(data[0] % 16);
    assert Hex(data)[2..] == Hex(data[1..]);
    if i > 0 {
      HexIs(data[1..], i - 1);
      assert Hex(data)[2 * i] == Hex(data[1..])[2 * (i - 1)];
    } else if |data| > 1 {
      HexIs(data[1..], 0);
    }
  }

  lemma HexDigitIs(n: nat)
    requires n < 16
    ensures HexDigit(n) == LOWER[n] && DigitValue(LOWER[n]) == Some(n) && DigitValue(UPPER[n]) == Some(n)
  {
  }

  /** The digit for n, in either case. */
  predicate IsDigitOf(c: char, n: nat)
    requires n < 16
  {
    c == LOWER[n] || c == UPPER[n]
  }

  lemma DigitIff(c: char, n: nat)
    requires n < 16
    ensures IsDigitOf(c, n) <==> DigitValue(c) == Some(n)
    ensures DigitValue(c).Some? ==> DigitValue(c).value < 16
  {
  }

  predicate IsPair(a: char, b: char, value: byte) {
    IsDigitOf(a, value / 16) && IsDigitOf(b, value % 16)
  }

  lemma PairIs(a: char, b: char, value: byte)
    ensures IsPair(a, b, value)
            <==> DigitValue(a).Some? && DigitValue(b).Some?
                 && 16 * DigitValue(a).value + DigitValue(b).value == value
  {
    DigitIff(a, value / 16);
    DigitIff(b, value % 16);
    DigitIff(b, 0);
    hide DigitValue, IsDigitOf;
    if DigitValue(a).Some? && DigitValue(b).Some? {
      TwoDigits(DigitValue(a).value, DigitValue(b).value, value / 16, value % 16, 16);
      TwoDigits(value / 16, value % 16, DigitValue(a).value, DigitValue(b).value, 16);
      assert value == value / 16 * 16 + value % 16;
    }
  }

  /** Hex is read pair of digits by pair, white space before a pair or at the end aside, and nothing else is hex. */
  predicate HexOf(text: string, data: bytes) {
    if text == "" then data == []
    else if text[0] in " \t\n\r" || text[0] as int in {11, 12} then HexOf(text[1..], data)
    else |text| >= 2 && data != [] && IsPair(text[0], text[1], data[0]) && HexOf(text[2..], data[1..])
  }

  lemma PairReads(text: string)
    requires |text| >= 2 && !IsSpace(text[0])
    ensures FromHex(text).Some? <==>
              DigitValue(text[0]).Some? && DigitValue(text[1]).Some? && FromHex(text[2..]).Some?
    ensures FromHex(text).Some? ==>
              var value := 16 * DigitValue(text[0]).value + DigitValue(text[1]).value;
              value < 256 && FromHex(text) == Some([value as byte] + FromHex(text[2..]).value)
  {
    DigitIff(text[0], 0);
    DigitIff(text[1], 0);
  }

  lemma {:induction false} HexReadsIff(text: string, data: bytes)
    ensures FromHex(text) == Some(data) <==> HexOf(text, data)
    decreases |text|
  {
    if text != "" {
      assert IsSpace(text[0]) <==> text[0] in " \t\n\r" || text[0] as int in {11, 12};
      hide IsSpace, IsPair, DigitValue;
      if IsSpace(text[0]) {
        HexReadsIff(text[1..], data);
      } else if |text| >= 2 {
        PairReads(text);
        if data != [] {
          HexReadsIff(text[2..], data[1..]);
          PairIs(text[0], text[1], data[0]);
          assert data == [data[0]] + data[1..];
        }
      }
    }
  }

  // ----- Steps -----

  function StepText(step: EnrollmentStep): string {
    match step
    case OwnerKey => "owner_key"
    case DeviceId => "device_id"
    case Clock => "clock"
    case ServerKey => "server_key"
    case Name => "name"
  }

  function StepOf(text: string): Option<EnrollmentStep> {
    if text == "owner_key" then Some(OwnerKey)
    else if text == "device_id" then Some(DeviceId)
    else if text == "clock" then Some(Clock)
    else if text == "server_key" then Some(ServerKey)
    else if text == "name" then Some(Name)
    else None
  }

  function StepTexts(completed: set<EnrollmentStep>, steps: seq<EnrollmentStep>): seq<Json> {
    if steps == [] then []
    else if steps[0] in completed then [Text(StepText(steps[0]))] + StepTexts(completed, steps[1..])
    else StepTexts(completed, steps[1..])
  }

  function StepsOf(items: seq<Json>): Option<set<EnrollmentStep>> {
    if items == [] then Some({})
    else
      var rest := StepsOf(items[1..]);
      if !items[0].Text? || StepOf(items[0].s).None? || rest.None? then None
      else Some({StepOf(items[0].s).value} + rest.value)
  }

  lemma {:induction false} StepsRoundTrip(completed: set<EnrollmentStep>, steps: seq<EnrollmentStep>)
    ensures StepsOf(StepTexts(completed, steps)) == Some(completed * set step | step in steps)
    decreases |steps|
  {
    if steps != [] {
      StepsRoundTrip(completed, steps[1..]);
      var texts := StepTexts(completed, steps);
      var rest := set step | step in steps[1..];
      assert (set step | step in steps) == {steps[0]} + rest;
      assert completed * ({steps[0]} + rest)
          == if steps[0] in completed then {steps[0]} + completed * rest else completed * rest;
      if steps[0] in completed {
        assert texts[1..] == StepTexts(completed, steps[1..]);
        assert StepOf(StepText(steps[0])) == Some(steps[0]);
      }
    } else {
      assert completed * (set step | step in steps) == {};
    }
  }

  // ----- Records -----

  function Optional(data: Option<bytes>): Json {
    if data.None? then Null else Text(Hex(data.value))
  }

  function ToDict(e: Enrollment): Record {
    map[
      "format" := Number(ENROLLMENT_FORMAT),
      "user_id" := Number(e.userId),
      "device_id" := Text(Hex(e.deviceId)),
      "owner_key" := Text(Hex(e.ownerKey)),
      "server_private_key" := Text(Hex(e.serverPrivateKey)),
      "lock_server_public_key" := Optional(e.lockServerPublicKey),
      "update_private_key" := Optional(e.updatePrivateKey),
      "lock_update_public_key" := Optional(e.lockUpdatePublicKey),
      "name" := Text(e.name),
      "completed" := List(StepTexts(e.completed, STEPS))
    ]
  }

  function HexField(data: Record, key: string): Result<bytes> {
    var value := Get(data, key);
    if value.Text? && FromHex(value.s).Some? then Ok(FromHex(value.s).value) else Err(ValidationError)
  }

  function OptionalField(data: Record, key: string): Result<Option<bytes>> {
    if Get(data, key).Null? then Ok(None)
    else
      var value :- HexField(data, key);
      Ok(Some(value))
  }

  /** A JSON true or false counts as the integer 1 or 0. */
  function IntegerOf(value: Json): Option<int> {
    match value
    case Number(n) => Some(n)
    case Bool(b) => Some(if b then 1 else 0)
    case _ => None
  }

  function FromDict(curve: Curve, data: Record): Result<Enrollment> {
    if IntegerOf(Get(data, "format")) != Some(1) && IntegerOf(Get(data, "format")) != Some(ENROLLMENT_FORMAT) then
      Err(ValidationError)
    else if !Get(data, "completed").List? then Err(ValidationError)
    else
      var steps := StepsOf(Get(data, "completed").items);
      var userId := IntegerOf(Get(data, "user_id"));
      if steps.None? || !Get(data, "name").Text? || userId.None? then Err(ValidationError)
      else
        var deviceId :- HexField(data, "device_id");
        var ownerKey :- HexField(data, "owner_key");
        var serverPrivateKey :- HexField(data, "server_private_key");
        var lockServerKey :- OptionalField(data, "lock_server_public_key");
        var updateKey :- OptionalField(data, "update_private_key");
        var lockUpdateKey :- OptionalField(data, "lock_update_public_key");
        var e := Enrollment(deviceId, ownerKey, serverPrivateKey, Get(data, "name").s, lockServerKey, updateKey,
                            lockUpdateKey, steps.value, userId.value);
        if e.Valid(curve) then Ok(e) else Err(ValidationError)
  }

  /** The record holds this enrollment, field by field, in either format. */
  predicate Says(data: Record, e: Enrollment) {
    && (Get(data, "format") == Number(1) || Get(data, "format") == Number(ENROLLMENT_FORMAT))
    && Get(data, "user_id") == Number(e.userId)
    && Get(data, "device_id") == Optional(Some(e.deviceId))
    && Get(data, "owner_key") == Optional(Some(e.ownerKey))
    && Get(data, "server_private_key") == Optional(Some(e.serverPrivateKey))
    && Get(data, "lock_server_public_key") == Optional(e.lockServerPublicKey)
    && Get(data, "update_private_key") == Optional(e.updatePrivateKey)
    && Get(data, "lock_update_public_key") == Optional(e.lockUpdatePublicKey)
    && Get(data, "name") == Text(e.name)
    && Get(data, "completed") == List(StepTexts(e.completed, STEPS))
  }

  lemma FieldReads(data: Record, key: string, value: Option<bytes>)
    requires Get(data, key) == Optional(value)
    ensures OptionalField(data, key) == Ok(value)
    ensures value.Some? ==> HexField(data, key) == Ok(value.value)
  {
    if value.Some? {
      HexRoundTrip(value.value);
    }
  }

  lemma AllStepsRead(completed: set<EnrollmentStep>)
    ensures StepsOf(StepTexts(completed, STEPS)) == Some(completed)
  {
    StepsRoundTrip(completed, STEPS);
    forall step: EnrollmentStep
      ensures step in STEPS
    {
      match step {
        case OwnerKey => assert STEPS[0] == step;
        case DeviceId => assert STEPS[1] == step;
        case Clock => assert STEPS[2] == step;
        case ServerKey => assert STEPS[3] == step;
        case Name => assert STEPS[4] == step;
      }
    }
    assert completed * (set step | step in STEPS) == completed;
  }

  /** Whatever a record says, in format 1 or 2, is what is read. */
  lemma RecordReads(curve: Curve, e: Enrollment, data: Record)
    requires e.Valid(curve) && Says(data, e)
    ensures FromDict(curve, data) == Ok(e)
  {
    hide Enrollment.Valid, Hex, FromHex, StepTexts, StepsOf, HexField, OptionalField;
    AllStepsRead(e.completed);
    FieldReads(data, "device_id", Some(e.deviceId));
    FieldReads(data, "owner_key", Some(e.ownerKey));
    FieldReads(data, "server_private_key", Some(e.serverPrivateKey));
    FieldReads(data, "lock_server_public_key", e.lockServerPublicKey);
    FieldReads(data, "update_private_key", e.updatePrivateKey);
    FieldReads(data, "lock_update_public_key", e.lockUpdatePublicKey);
  }

  /** What is written reads back as it was. */
  lemma StorageRoundTrip(curve: Curve, e: Enrollment)
    requires e.Valid(curve)
    ensures FromDict(curve, ToDict(e)) == Ok(e) && Get(ToDict(e), "format") == Number(2)
  {
    hide ToDict;
    DictSays(e);
    RecordReads(curve, e, ToDict(e));
  }

  lemma DictSays(e: Enrollment)
    ensures Says(ToDict(e), e) && Get(ToDict(e), "format") == Number(ENROLLMENT_FORMAT)
  {
  }

  /** The record as format 1 stored it: without the owner key material. */
  function FormatOne(data: Record): Record {
    data["format" := Number(1)] - {"update_private_key", "lock_update_public_key"}
  }

  function WithoutMaterial(e: Enrollment): Enrollment {
    e.(updatePrivateKey := None, lockUpdatePublicKey := None)
  }

  /** A format 1 record reads as the same enrollment without the key material, and is rewritten as format 2. */
  lemma FormatOneReads(curve: Curve, e: Enrollment)
    requires e.Valid(curve)
    ensures FromDict(curve, FormatOne(ToDict(e))) == Ok(WithoutMaterial(e))
    ensures Get(ToDict(WithoutMaterial(e)), "format") == Number(ENROLLMENT_FORMAT)
    ensures FromDict(curve, ToDict(WithoutMaterial(e))) == Ok(WithoutMaterial(e))
  {
    hide ToDict, FromDict, FormatOne;
    DictSays(e);
    DictSays(WithoutMaterial(e));
    FormatOneSays(ToDict(e), e);
    assert WithoutMaterial(e).Valid(curve);
    hide Enrollment.Valid, WithoutMaterial, Says;
    StorageRoundTrip(curve, WithoutMaterial(e));
    RecordReads(curve, WithoutMaterial(e), FormatOne(ToDict(e)));
  }

  lemma FormatOneSays(data: Record, e: Enrollment)
    requires Says(data, e)
    ensures Says(FormatOne(data), WithoutMaterial(e))
  {
  }

  /** Whatever record reads at all, it is a valid enrollment, and rewriting it changes nothing that is read. */
  lemma RewritingIsStable(curve: Curve, data: Record)
    requires FromDict(curve, data).Ok?
    ensures FromDict(curve, data).value.Valid(curve)
    ensures FromDict(curve, ToDict(FromDict(curve, data).value)) == FromDict(curve, data)
  {
    StorageRoundTrip(curve, FromDict(curve, data).value);
  }

  // ----- Which records read, and as what -----

  /** The name a step has in a record. */
  predicate StepIs(item: Json, step: EnrollmentStep) {
    item == match step
            case OwnerKey => Text("owner_key")
            case DeviceId => Text("device_id")
            case Clock => Text("clock")
            case ServerKey => Text("server_key")
            case Name => Text("name")
  }

  ghost predicate IsStep(item: Json) {
    exists step :: StepIs(item, step)
  }

  ghost predicate Names(items: seq<Json>, step: EnrollmentStep) {
    exists i :: 0 <= i < |items| && StepIs(items[i], step)
  }

  /** Every item is the name of a step, and the steps named are these. */
  ghost predicate StepsAre(items: seq<Json>, completed: set<EnrollmentStep>) {
    && (forall i | 0 <= i < |items| :: IsStep(items[i]))
    && (forall step :: step in completed <==> Names(items, step))
  }

  lemma StepOfIs(item: Json)
    ensures IsStep(item) <==> item.Text? && StepOf(item.s).Some?
    ensures forall step :: StepIs(item, step) <==> item.Text? && StepOf(item.s) == Some(step)
  {
    if item.Text? && StepOf(item.s).Some? {
      assert StepIs(item, StepOf(item.s).value);
    }
  }

  lemma NamesOneMore(items: seq<Json>, step: EnrollmentStep)
    requires items != []
    ensures Names(items, step) <==> StepIs(items[0], step) || Names(items[1..], step)
  {
    hide StepIs;
    assert forall i | 0 < i < |items| :: items[i] == items[1..][i - 1];
  }

  lemma {:induction false} StepsReadIff(items: seq<Json>, completed: set<EnrollmentStep>)
    ensures StepsOf(items) == Some(completed) <==> StepsAre(items, completed)
  {
    if items == [] {
      assert forall step :: !Names(items, step);
      assert StepsOf(items) == Some({}) && (StepsAre(items, completed) <==> completed == {});
    } else {
      var rest := set step: EnrollmentStep | Names(items[1..], step);
      StepOfIs(items[0]);
      forall step ensures Names(items, step) <==> StepIs(items[0], step) || Names(items[1..], step) {
        NamesOneMore(items, step);
      }
      StepsReadIff(items[1..], rest);
      assert forall i | 0 < i < |items| :: items[i] == items[1..][i - 1];
      hide StepIs, StepOf, Names;
      if StepsOf(items[1..]).Some? {
        StepsReadIff(items[1..], StepsOf(items[1..]).value);
      }
      if items[0].Text? && StepOf(items[0].s).Some? {
        var all := {StepOf(items[0].s).value} + rest;
        assert forall step :: step in all <==> Names(items, step);
        assert StepsAre(items, completed) ==> completed == all;
        assert StepsOf(items) == Some(completed) ==> completed == all;
      }
      assert StepsAre(items, completed) ==> IsStep(items[0]) && StepsAre(items[1..], rest);
    }
  }

  /** A number, for which JSON's false and true can stand as 0 and 1. */
  predicate Counts(value: Json, n: int) {
    value == Number(n) || (value == Bool(false) && n == 0) || (value == Bool(true) && n == 1)
  }

  predicate TellsBytes(value: Json, data: bytes) {
    value.Text? && HexOf(value.s, data)
  }

  predicate MayTellBytes(value: Json, data: Option<bytes>) {
    if data.None? then value == Null else TellsBytes(value, data.value)
  }

  /** What a record must say to be read as this enrollment; a field that is missing counts as null. */
  ghost predicate Tells(data: Record, e: Enrollment) {
    && (Counts(Get(data, "format"), 1) || Counts(Get(data, "format"), 2))
    && Counts(Get(data, "user_id"), e.userId)
    && TellsBytes(Get(data, "device_id"), e.deviceId)
    && TellsBytes(Get(data, "owner_key"), e.ownerKey)
    && TellsBytes(Get(data, "server_private_key"), e.serverPrivateKey)
    && MayTellBytes(Get(data, "lock_server_public_key"), e.lockServerPublicKey)
    && MayTellBytes(Get(data, "update_private_key"), e.updatePrivateKey)
    && MayTellBytes(Get(data, "lock_update_public_key"), e.lockUpdatePublicKey)
    && Get(data, "name") == Text(e.name)
    && Get(data, "completed").List? && StepsAre(Get(data, "completed").items, e.completed)
  }

  lemma FieldIs(data: Record, key: string)
    ensures forall x :: HexField(data, key) == Ok(x) <==> TellsBytes(Get(data, key), x)
    ensures forall x :: OptionalField(data, key) == Ok(x) <==> MayTellBytes(Get(data, key), x)
  {
    var value := Get(data, key);
    if value.Text? {
      forall x ensures FromHex(value.s) == Some(x) <==> HexOf(value.s, x) {
        HexReadsIff(value.s, x);
      }
    }
    hide FromHex, HexOf;
  }

  /** A record reads as an enrollment exactly when it says it and the enrollment is valid; all others are refused. */
  lemma RecordReadsIff(curve: Curve, data: Record, e: Enrollment)
    ensures FromDict(curve, data) == Ok(e) <==> Tells(data, e) && e.Valid(curve)
  {
    FieldIs(data, "device_id");
    FieldIs(data, "owner_key");
    FieldIs(data, "server_private_key");
    FieldIs(data, "lock_server_public_key");
    FieldIs(data, "update_private_key");
    FieldIs(data, "lock_update_public_key");
    if Get(data, "completed").List? {
      var items := Get(data, "completed").items;
      StepsReadIff(items, e.completed);
    }
    CountsIs(Get(data, "format"));
    CountsIs(Get(data, "user_id"));
    hide HexField, OptionalField, TellsBytes, MayTellBytes, StepsAre, StepsOf, Enrollment.Valid, HexOf, FromHex,
      IntegerOf, Counts;
  }

  lemma CountsIs(value: Json)
    ensures forall n :: Counts(value, n) <==> IntegerOf(value) == Some(n)
  {
  }
}

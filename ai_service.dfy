/** The categorization side of services/aiService.ts: the validator of a
    backend reply, the development mock, the mock switch and the mock branch
    of `categorizeAudio`. The upload to the backend is not modelled; what it
    returned or threw is a parameter. */
module AiService {
  import opened Common
  import opened TransactionTypes

  /** A JavaScript value as found in a parsed JSON reply. A string and an
      object carry what `Number(v)` gives for them, since string-to-number
      conversion is not modelled. */
  datatype JsValue =
    | JsNumber(n: Num)
    | JsString(text: string, numeric: Num)
    | JsBool(b: bool)
    | JsNull
    | JsUndefined
    | JsObject(numeric: Num)

  /** A parsed reply: its own properties by name. */
  type RawReply = map<string, JsValue>

  /** `AICategorizationResponse`. The casts `as Category` and the copy of
      `description` check nothing, so those two fields keep whatever value
      the reply held. */
  datatype Categorization = Categorization(
    category: JsValue,
    amount: Num,
    description: JsValue,
    kind: TransactionType,
    confidence: Num)

  /** The fields `validateResponse` demands, in the order it checks them. */
  const RequiredFields: seq<string> := ["amount", "category", "type", "description", "confidence"]

  const InvalidAmount: string := "Amount inválido"
  const InvalidType: string := "Tipo inválido"

  function MissingField(field: string): string
  {
    "Campo ausente: " + field
  }

  /** The position of the first field of `fields` the reply lacks, if any. */
  function FirstMissing(data: RawReply, fields: seq<string>): (r: Option<nat>)
    ensures r.None? <==> forall f :: f in fields ==> f in data
    ensures r.Some? ==>
              r.value < |fields| && fields[r.value] !in data &&
              forall j :: 0 <= j < r.value ==> fields[j] in data
  {
    if fields == [] then None
    else if fields[0] !in data then Some(0)
    else
      var rest := FirstMissing(data, fields[1..]);
      assert forall f :: f in fields <==> f == fields[0] || f in fields[1..];
      if rest.None? then None else Some(rest.value + 1)
  }

  /** `Number(v)`, the conversion `Math.max` applies to its argument. */
  function ToNumber(v: JsValue): (r: Num)
    ensures v.JsNumber? ==> r == v.n
    ensures v.JsBool? ==> r == Finite(if v.b then 1.0 else 0.0)
    ensures v.JsNull? ==> r == Finite(0.0)
    ensures v.JsUndefined? ==> r.NaN?
  {
    match v
    case JsNumber(n) => n
    case JsString(_, n) => n
    case JsBool(b) => if b then Finite(1.0) else Finite(0.0)
    case JsNull => Finite(0.0)
    case JsUndefined => NaN
    case JsObject(n) => n
  }

  /** `x <= 0` on numbers: false whenever `x` is NaN. */
  predicate AtMostZero(x: Num)
  {
    match x
    case Finite(v) => v <= 0.0
    case NegInfinity => true
    case PosInfinity => false
    case NaN => false
  }

  /** `Math.max(0, x)`: NaN when `x` is NaN. */
  function MaxZero(x: Num): (r: Num)
    ensures x.NaN? <==> r.NaN?
    ensures r.Finite? ==> r.value >= 0.0
    ensures !r.NegInfinity?
  {
    match x
    case Finite(v) => if v < 0.0 then Finite(0.0) else Finite(v)
    case NegInfinity => Finite(0.0)
    case PosInfinity => PosInfinity
    case NaN => NaN
  }

  /** `Math.min(1, x)`: NaN when `x` is NaN. */
  function MinOne(x: Num): (r: Num)
    ensures x.NaN? <==> r.NaN?
    ensures r.Finite? ==> r.value <= 1.0
    ensures !r.PosInfinity?
  {
    match x
    case Finite(v) => if v > 1.0 then Finite(1.0) else Finite(v)
    case PosInfinity => Finite(1.0)
    case NegInfinity => NegInfinity
    case NaN => NaN
  }

  /** `Math.min(1, Math.max(0, c))` as written. */
  function ClampAsWritten(c: JsValue): (r: Num)
    ensures r.NaN? <==> ToNumber(c).NaN?
    ensures !r.NaN? ==> r.Finite? && 0.0 <= r.value <= 1.0
  {
    MinOne(MaxZero(ToNumber(c)))
  }

  /** The clamp as intended: a confidence that is not a number counts as no
      confidence at all. */
  function Clamp(c: JsValue): (r: Num)
    ensures r.Finite? && 0.0 <= r.value <= 1.0
    ensures !ToNumber(c).NaN? ==> r == ClampAsWritten(c)
  {
    var n := ToNumber(c);
    if n.NaN? then Finite(0.0) else MinOne(MaxZero(n))
  }

  /** The type field read back: only the two exact strings are accepted. */
  function KindOf(v: JsValue): (r: Option<TransactionType>)
    ensures r == Some(Expense) <==> v.JsString? && v.text == "expense"
    ensures r == Some(Income) <==> v.JsString? && v.text == "income"
  {
    if v.JsString? && v.text == TypeName(Expense) then Some(Expense)
    else if v.JsString? && v.text == TypeName(Income) then Some(Income)
    else None
  }

  /** `validateResponse` as written: presence of every field in order, a
      number amount that is not `<= 0`, one of the two type names; the
      confidence is clamped with `Math.min`/`Math.max`. */
  function ValidateResponseAsWritten(data: RawReply): (r: Result<Categorization, string>)
    ensures r.Ok? ==> forall f :: f in RequiredFields ==> f in data
    ensures r.Ok? ==>
              data["amount"].JsNumber? && !AtMostZero(data["amount"].n) &&
              r.value.amount == data["amount"].n &&
              r.value.category == data["category"] && r.value.description == data["description"] &&
              KindOf(data["type"]) == Some(r.value.kind) &&
              r.value.confidence == ClampAsWritten(data["confidence"])
    ensures r.Err? <==>
              FirstMissing(data, RequiredFields).Some? ||
              !data["amount"].JsNumber? || AtMostZero(data["amount"].n) || KindOf(data["type"]).None?
    ensures FirstMissing(data, RequiredFields).Some? ==>
              r == Err(MissingField(RequiredFields[FirstMissing(data, RequiredFields).value]))
    ensures (FirstMissing(data, RequiredFields).None? &&
             (!data["amount"].JsNumber? || AtMostZero(data["amount"].n))) ==> r == Err(InvalidAmount)
    ensures (FirstMissing(data, RequiredFields).None? && data["amount"].JsNumber? &&
             !AtMostZero(data["amount"].n) && KindOf(data["type"]).None?) ==> r == Err(InvalidType)
  {
    match FirstMissing(data, RequiredFields)
    case Some(i) => Err(MissingField(RequiredFields[i]))
    case None =>
      var amount := data["amount"];
      if !amount.JsNumber? || AtMostZero(amount.n) then Err(InvalidAmount)
      else
        match KindOf(data["type"])
        case None => Err(InvalidType)
        case Some(kind) =>
          Ok(Categorization(data["category"], amount.n, data["description"], kind,
                            ClampAsWritten(data["confidence"])))
  }

  /** The validator as intended: the same checks, except that only a finite
      positive amount is accepted and the confidence always lands in [0, 1]. */
  function ValidateResponse(data: RawReply): (r: Result<Categorization, string>)
    ensures r.Ok? ==> forall f :: f in RequiredFields ==> f in data
    ensures r.Ok? ==>
              data["amount"].JsNumber? && data["amount"].n.Finite? && data["amount"].n.value > 0.0 &&
              r.value.amount == data["amount"].n &&
              r.value.category == data["category"] && r.value.description == data["description"] &&
              KindOf(data["type"]) == Some(r.value.kind) &&
              r.value.confidence == Clamp(data["confidence"])
    ensures r.Ok? ==> r.value.confidence.Finite? && 0.0 <= r.value.confidence.value <= 1.0
    ensures FirstMissing(data, RequiredFields).Some? ==>
              r == Err(MissingField(RequiredFields[FirstMissing(data, RequiredFields).value]))
  {
    match FirstMissing(data, RequiredFields)
    case Some(i) => Err(MissingField(RequiredFields[i]))
    case None =>
      var amount := data["amount"];
      if !amount.JsNumber? || !amount.n.Finite? || amount.n.value <= 0.0 then Err(InvalidAmount)
      else
        match KindOf(data["type"])
        case None => Err(InvalidType)
        case Some(kind) =>
          Ok(Categorization(data["category"], amount.n, data["description"], kind,
                            Clamp(data["confidence"])))
  }

  /** The two validators agree on every reply whose amount is finite and
      whose confidence is a number. */
  lemma ValidatorsAgree(data: RawReply)
    requires "amount" in data && "confidence" in data
    requires data["amount"].JsNumber? ==> data["amount"].n.Finite?
    requires !ToNumber(data["confidence"]).NaN?
    ensures ValidateResponse(data) == ValidateResponseAsWritten(data)
  {
  }

  /** A categorization written out as the reply the backend sends. */
  function Encode(c: Categorization): (data: RawReply)
    ensures forall f :: f in RequiredFields ==> f in data
  {
    map["amount" := JsNumber(c.amount), "category" := c.category, "type" := JsString(TypeName(c.kind), NaN),
        "description" := c.description, "confidence" := JsNumber(c.confidence)]
  }

  /** A well-formed categorization survives encoding and validation. */
  lemma ValidateEncoded(c: Categorization)
    requires c.amount.Finite? && c.amount.value > 0.0
    requires c.confidence.Finite? && 0.0 <= c.confidence.value <= 1.0
    ensures ValidateResponse(Encode(c)) == Ok(c)
    ensures ValidateResponseAsWritten(Encode(c)) == Ok(c)
  {
    var data := Encode(c);
    assert FirstMissing(data, RequiredFields) == None;
    assert KindOf(data["type"]) == Some(c.kind) by {
      match c.kind
      case Expense =>
      case Income =>
    }
  }

  /** A reply whose confidence is the word "high" passes the validator as
      written with a NaN confidence, outside [0, 1]. */
  lemma NaNConfidenceEscapesClamp()
    ensures var data := map["amount" := JsNumber(Finite(10.0)), "category" := JsString("Compras", NaN),
                            "type" := JsString("expense", NaN), "description" := JsString("", Finite(0.0)),
                            "confidence" := JsString("high", NaN)];
            ValidateResponseAsWritten(data).Ok? && ValidateResponseAsWritten(data).value.confidence.NaN?
  {
    var data := map["amount" := JsNumber(Finite(10.0)), "category" := JsString("Compras", NaN),
                    "type" := JsString("expense", NaN), "description" := JsString("", Finite(0.0)),
                    "confidence" := JsString("high", NaN)];
    assert FirstMissing(data, RequiredFields) == None;
    assert KindOf(data["type"]) == Some(Expense);
  }

  /** A reply whose amount is NaN or infinite passes the validator as
      written. */
  lemma NonFiniteAmountAccepted(amount: Num)
    requires amount.NaN? || amount.PosInfinity?
    ensures var data := map["amount" := JsNumber(amount), "category" := JsString("Compras", NaN),
                            "type" := JsString("income", NaN), "description" := JsNull,
                            "confidence" := JsNumber(Finite(0.5))];
            ValidateResponseAsWritten(data).Ok? && ValidateResponseAsWritten(data).value.amount == amount &&
            ValidateResponse(data) == Err(InvalidAmount)
  {
    var data := map["amount" := JsNumber(amount), "category" := JsString("Compras", NaN),
                    "type" := JsString("income", NaN), "description" := JsNull,
                    "confidence" := JsNumber(Finite(0.5))];
    assert FirstMissing(data, RequiredFields) == None;
    assert KindOf(data["type"]) == Some(Income);
  }

  /** `generateMockResponse`. */
  function MockResponse(): (c: Categorization)
    ensures c.amount.Finite? && c.amount.value > 0.0
    ensures c.confidence.Finite? && 0.0 <= c.confidence.value <= 1.0
    ensures c.kind == Expense
  {
    Categorization(JsString(CategoryName(Alimentacao), NaN), Finite(42.9), JsString("Almoço", NaN),
                   Expense, Finite(0.94))
  }

  /** The mock passes the validator. */
  lemma MockIsValid()
    ensures ValidateResponse(Encode(MockResponse())) == Ok(MockResponse())
  {
    ValidateEncoded(MockResponse());
  }

  /** The service object: its only state is the mock switch, off by default. */
  class AIService {
    var useMock: bool

    constructor ()
      ensures !useMock
    {
      useMock := false;
    }

    /** `setUseMock(value)`. */
    method SetUseMock(value: bool)
      modifies this
      ensures useMock == value
    {
      useMock := value;
    }

    /** `categorizeAudio`: the mock, as a reply, when the switch is on;
        otherwise whatever the backend call returned or threw, passed on
        without validation. */
    method CategorizeAudio(userId: string, audioUri: string, backend: Result<RawReply, Thrown>)
      returns (r: Result<RawReply, Thrown>)
      ensures useMock ==> r == Ok(Encode(MockResponse()))
      ensures !useMock ==> r == backend
    {
      if useMock {
        return Ok(Encode(MockResponse()));
      }
      return backend;
    }
  }

  /** `AIService.instance`: the one service object, created on first use. */
  class AIServiceHolder {
    var instance: Option<AIService>

    constructor ()
      ensures instance == None
    {
      instance := None;
    }

    /** `getInstance`. */
    method GetInstance() returns (s: AIService)
      modifies this
      ensures old(instance).Some? ==> s == old(instance).value && instance == old(instance)
      ensures old(instance).None? ==> fresh(s) && !s.useMock && instance == Some(s)
    {
      if instance.None? {
        var created := new AIService();
        instance := Some(created);
      }
      return instance.value;
    }
  }

  /** Switching the mock on makes the service answer with the mock whatever
      the backend would have done, and never with an error. */
  method MockModeIgnoresBackend(s: AIService, backend: Result<RawReply, Thrown>)
    returns (r: Result<RawReply, Thrown>)
    modifies s
    ensures r.Ok? && ValidateResponse(r.value) == Ok(MockResponse())
  {
    s.SetUseMock(true);
    r := s.CategorizeAudio("", "", backend);
    MockIsValid();
  }
}

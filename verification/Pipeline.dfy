/** The provider pipeline: which requests reach the adapter, what is billed, and what is recorded. */
module Pipeline {
  import opened Prelude

  datatype Cost = Unset | Zero | Calculated(input: int, output: int, cached: bool)

  datatype TokenCount = TokenCount(input: Option<int>, output: Option<int>)

  datatype Response = Response(model: string, tokens: Option<TokenCount>, cost: Cost)

  /** What the adapter does with a request that reaches it. */
  datatype Dispatch = Sync(response: Response) | StreamingExecution | WebStream | Faults(message: string)

  /** The key lookup: not asked without a workspace; None of a Some is a lookup that throws. */
  datatype Lookup = NoWorkspace | Looked(isByok: Option<bool>)

  /** One request and everything the outside answers to it. */
  datatype Call = Call(provider: string, known: bool, executes: bool, lookup: Lookup, schemaThrows: bool,
                       dispatch: Dispatch, hasContext: bool, billable: string -> bool, costThrows: bool)
  {
    /** The request is handed to the adapter. */
    predicate Reaches() {
      known && executes && lookup != Looked(None) && !schemaThrows
    }

    predicate ByokApplied() {
      lookup == Looked(Some(true))
    }

    /** The platform charges for this response; only then is a cost calculated. */
    predicate Charged(response: Response) {
      response.tokens.Some? && billable(response.model) && !ByokApplied()
    }

    /** A complete response whose cost calculation throws is lost before it is recorded. */
    predicate LostInBilling() {
      Reaches() && dispatch.Sync? && Charged(dispatch.response) && costThrows
    }
  }

  /** errorMessage == None is a record without an error status. */
  datatype Record = Record(provider: string, response: Option<Response>, errorMessage: Option<string>)

  datatype Outcome = NotFound | NoExecute | NoKey | NoSchema | AdapterFault(message: string) | BillingFault |
    Stream | Answer(response: Response)

  class UsageLog {
    var records: seq<Record>

    constructor ()
      ensures records == []
    {
      records := [];
    }

    /** The fault description only sets the error status when it is not empty. */
    method RecordUsage(provider: string, response: Option<Response>, fault: Option<string>)
      modifies this
      ensures records == old(records) + [Record(provider, response, NonEmpty(fault))]
    {
      var errorMessage := None;
      if fault.Some? && fault.value != "" {
        errorMessage := fault;
      }
      records := records + [Record(provider, response, errorMessage)];
    }
  }

  function NonEmpty(text: Option<string>): Option<string> {
    if text == Some("") then None else text
  }

  /** STAGE 5; None is a cost calculation that throws. */
  method AttachBilling(call: Call, response: Response) returns (billed: Option<Response>)
    ensures billed.None? <==> call.Charged(response) && call.costThrows
    ensures billed.Some? ==> billed.value == Billed(call, response)
  {
    if response.tokens.None? {
      return Some(response);
    }
    var input, output := response.tokens.value.input.GetOr(0), response.tokens.value.output.GetOr(0);
    if call.billable(response.model) && !call.ByokApplied() {
      if call.costThrows {
        return None;
      }
      return Some(response.(cost := Calculated(input, output, call.hasContext)));
    }
    return Some(response.(cost := Zero));
  }

  function Billed(call: Call, response: Response): Response {
    if response.tokens.None? then response
    else if call.Charged(response)
    then response.(cost := Calculated(response.tokens.value.input.GetOr(0), response.tokens.value.output.GetOr(0), call.hasContext))
    else response.(cost := Zero)
  }

  // ---------- What a request comes to ----------

  /** The platform calculates the cost: of a model it bills, unless the workspace's own key was used. */
  ghost predicate PlatformPays(call: Call, response: Response) {
    response.tokens.Some? && call.billable(response.model) && call.lookup != Looked(Some(true))
  }

  /** Only the cost of a response with tokens changes: it is calculated from its own counts, or is nothing. */
  ghost predicate BillingLaw(call: Call, response: Response, billed: Response) {
    && billed.model == response.model && billed.tokens == response.tokens
    && (response.tokens.None? ==> billed.cost == response.cost)
    && (response.tokens.Some? && !PlatformPays(call, response) ==> billed.cost == Zero)
    && (PlatformPays(call, response) ==>
          && billed.cost.Calculated? && billed.cost.cached == call.hasContext
          && billed.cost.input == response.tokens.value.input.GetOr(0)
          && billed.cost.output == response.tokens.value.output.GetOr(0))
  }

  /** The first guard that fails, or what the adapter made of the request. */
  ghost predicate OutcomeLaw(call: Call, outcome: Outcome) {
    if !call.known then outcome == NotFound
    else if !call.executes then outcome == NoExecute
    else if call.lookup.Looked? && call.lookup.isByok.None? then outcome == NoKey
    else if call.schemaThrows then outcome == NoSchema
    else match call.dispatch
      case Faults(message) => outcome == AdapterFault(message)
      case Sync(response) =>
        if PlatformPays(call, response) && call.costThrows then outcome == BillingFault
        else outcome.Answer? && BillingLaw(call, response, outcome.response)
      case StreamingExecution => outcome == Stream
      case WebStream => outcome == Stream
  }

  /** What was answered or streamed is recorded, and a fault of the adapter, with its message unless that is empty. */
  ghost predicate RecordLaw(call: Call, outcome: Outcome, records: seq<Record>) {
    match outcome
    case Answer(response) => records == [Record(call.provider, Some(response), None)]
    case Stream => records == [Record(call.provider, None, None)]
    case AdapterFault(message) =>
      records == [Record(call.provider, None, if message == "" then None else Some(message))]
    case _ => records == []
  }

  lemma {:induction false} RequestsObey(call: Call)
    ensures OutcomeLaw(call, OutcomeOf(call)) && RecordLaw(call, OutcomeOf(call), RecordsOf(call))
  {
  }

  /** executeProviderRequest. */
  method ExecuteProviderRequest(log: UsageLog, call: Call) returns (outcome: Outcome)
    modifies log
    ensures log.records == old(log.records) + RecordsOf(call)
    ensures outcome == OutcomeOf(call)
    ensures OutcomeLaw(call, outcome) && RecordLaw(call, outcome, log.records[|old(log.records)|..])
  {
    RequestsObey(call);
    if !call.known {
      return NotFound;
    }
    if !call.executes {
      return NoExecute;
    }
    if call.lookup == Looked(None) {
      return NoKey;
    }
    if call.schemaThrows {
      return NoSchema;
    }
    match call.dispatch {
      case Faults(message) =>
        log.RecordUsage(call.provider, None, Some(message));
        return AdapterFault(message);
      case StreamingExecution =>
        log.RecordUsage(call.provider, None, None);
        return Stream;
      case WebStream =>
        log.RecordUsage(call.provider, None, None);
        return Stream;
      case Sync(response) =>
        var billed := AttachBilling(call, response);
        if billed.None? {
          return BillingFault;
        }
        log.RecordUsage(call.provider, billed, None);
        return Answer(billed.value);
    }
  }

  function RecordsOf(call: Call): seq<Record> {
    if !call.Reaches() || call.LostInBilling() then []
    else match call.dispatch
      case Faults(message) => [Record(call.provider, None, NonEmpty(Some(message)))]
      case Sync(response) => [Record(call.provider, Some(Billed(call, response)), None)]
      case _ => [Record(call.provider, None, None)]
  }

  function OutcomeOf(call: Call): Outcome {
    if !call.known then NotFound
    else if !call.executes then NoExecute
    else if call.lookup == Looked(None) then NoKey
    else if call.schemaThrows then NoSchema
    else match call.dispatch
      case Faults(message) => AdapterFault(message)
      case Sync(response) => if call.LostInBilling() then BillingFault else Answer(Billed(call, response))
      case _ => Stream
  }

  // ---------- Any sequence of requests ----------

  function AllRecords(calls: seq<Call>): seq<Record> {
    if calls == [] then [] else AllRecords(calls[..|calls| - 1]) + RecordsOf(calls[|calls| - 1])
  }

  function HowMany<T>(s: seq<T>, p: T -> bool): nat {
    if s == [] then 0 else HowMany(s[..|s| - 1], p) + (if p(s[|s| - 1]) then 1 else 0)
  }

  predicate Reached(c: Call) { c.Reaches() }

  predicate Lost(c: Call) { c.LostInBilling() }

  predicate FaultedWithMessage(c: Call) { c.Reaches() && c.dispatch.Faults? && c.dispatch.message != "" }

  predicate ErrorMarked(r: Record) { r.errorMessage.Some? }

  lemma {:induction false} HowManyConcat<T>(a: seq<T>, b: seq<T>, p: T -> bool)
    ensures HowMany(a + b, p) == HowMany(a, p) + HowMany(b, p)
  {
    if b == [] {
      assert a + b == a;
    } else {
      assert (a + b)[..|a + b| - 1] == a + b[..|b| - 1];
      HowManyConcat(a, b[..|b| - 1], p);
    }
  }

  lemma {:induction false} OneRecord(call: Call)
    ensures |RecordsOf(call)| == if Reached(call) && !Lost(call) then 1 else 0
    ensures HowMany(RecordsOf(call), ErrorMarked) == if FaultedWithMessage(call) then 1 else 0
  {
    if RecordsOf(call) != [] {
      assert RecordsOf(call)[..0] == [];
    }
  }

  /**
    Conservation: there is one record for each request that reached the adapter, except the responses
    that were lost in billing; records with an error status are the adapter faults that had a message.
    */
  lemma {:induction false} RecordsAreConserved(calls: seq<Call>)
    ensures |AllRecords(calls)| + HowMany(calls, Lost) == HowMany(calls, Reached)
    ensures HowMany(AllRecords(calls), ErrorMarked) == HowMany(calls, FaultedWithMessage)
  {
    if calls == [] {
    } else {
      var init, last := calls[..|calls| - 1], calls[|calls| - 1];
      RecordsAreConserved(init);
      HowManyConcat(AllRecords(init), RecordsOf(last), ErrorMarked);
      OneRecord(last);
    }
  }

  // ---------- What is paid for ----------

  /** A response with tokens is recorded with a cost that is not the zero cost. */
  predicate Priced(r: Record) {
    r.response.Some? && r.response.value.tokens.Some? && r.response.value.cost != Zero
  }

  /** A complete response, under the platform's own key, of a model that the platform bills. */
  predicate Chargeable(c: Call) {
    c.Reaches() && c.dispatch.Sync? && c.Charged(c.dispatch.response)
  }

  lemma {:induction false} OneRecordPriced(call: Call)
    ensures HowMany(RecordsOf(call), Priced) + (if Lost(call) then 1 else 0) == if Chargeable(call) then 1 else 0
  {
    if RecordsOf(call) != [] {
      assert RecordsOf(call)[..0] == [];
    }
  }

  lemma {:induction false} HowManyNone<T>(s: seq<T>, p: T -> bool)
    ensures HowMany(s, p) == 0 <==> forall x :: x in s ==> !p(x)
  {
    if s == [] {
    } else {
      HowManyNone(s[..|s| - 1], p);
      assert forall x :: x in s <==> x in s[..|s| - 1] || x == s[|s| - 1];
    }
  }

  /**
    Conservation of money: over any requests, the priced records are as many as the chargeable responses,
    less those that were lost in billing. In particular nothing is priced when every request either
    runs under a workspace key or gets its response from a model that the platform does not bill.
    */
  lemma {:induction false} ChargesAreConserved(calls: seq<Call>)
    ensures HowMany(AllRecords(calls), Priced) + HowMany(calls, Lost) == HowMany(calls, Chargeable)
    ensures (forall c :: c in calls ==> !Chargeable(c)) ==> forall r :: r in AllRecords(calls) ==> !Priced(r)
  {
    if calls == [] {
    } else {
      var init, last := calls[..|calls| - 1], calls[|calls| - 1];
      ChargesAreConserved(init);
      HowManyConcat(AllRecords(init), RecordsOf(last), Priced);
      OneRecordPriced(last);
    }
    HowManyNone(calls, Chargeable);
    HowManyNone(AllRecords(calls), Priced);
  }

  /** Requests one after the other, the log they share, and the count of its records. */
  method ExecuteAll(log: UsageLog, calls: seq<Call>) returns (outcomes: seq<Outcome>)
    modifies log
    ensures log.records == old(log.records) + AllRecords(calls)
    ensures |log.records| + HowMany(calls, Lost) == |old(log.records)| + HowMany(calls, Reached)
    ensures |outcomes| == |calls| && forall i :: 0 <= i < |calls| ==> outcomes[i] == OutcomeOf(calls[i])
  {
    outcomes := [];
    assert calls[..0] == [];
    for i := 0 to |calls|
      invariant log.records == old(log.records) + AllRecords(calls[..i])
      invariant |outcomes| == i && forall j :: 0 <= j < i ==> outcomes[j] == OutcomeOf(calls[j])
    {
      assert calls[..i + 1][..i] == calls[..i];
      var outcome := ExecuteProviderRequest(log, calls[i]);
      outcomes := outcomes + [outcome];
    }
    assert calls[..|calls|] == calls;
    RecordsAreConserved(calls);
  }
}

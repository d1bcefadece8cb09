/** The Sadad adapter: a single-phase bank. The pay request returns a request
    key and an HTML form that the customer's browser submits to the bank; after
    the browser returns, one status request decides the outcome, with no
    separate settle step.

    Each protected step is a method of `SadadPort` whose postcondition ties the
    new state to a step function on `State`; those functions state what the
    step does. */
module Sadad {
  import opened Php
  import opened Port

  /** One entry of the bank's result table. */
  datatype Message = Message(code: string, message: string, fa: string, en: string, retry: bool)

  /** `SadadResult`: its table of known results, keyed by status code and
      lower-cased description, and its named codes and messages. */
  datatype Catalog = Catalog(
    responses: map<(string, string), Message>,
    invalidResponseCode: string,
    invalidResponseMessage: string,
    unknownCode: string,
    unknownMessage: string)

  const UnknownFa: string := "خطای ناشناخته"
  const UnknownEn: string := "Unknown Error"

  /** The message of the exception thrown when the bank's status reply carries no data. */
  const NoDataMessage: string := "در دریافت اطلاعات از بانک خطایی رخ داده است."

  /** The description a successful status reply carries, once lower-cased. */
  const CommitWord: string := "commit"

  /** The pay request's reply: the SOAP client faults while loading the service
      description (before the request's arguments are evaluated) or during the
      call, or the call returns the two entries the adapter reads, either of which
      may be missing. */
  datatype PayReply =
    | ClientFault(message: string)
    | CallFault(message: string)
    | PayResponse(requestKey: Option<string>, paymentUtilityResult: Option<string>)

  /** The fields of the status reply that the adapter reads. */
  datatype StatusResult = StatusResult(
    appStatusCode: Option<string>,
    appStatusDescription: string,
    traceNo: string,
    customerCardNumber: string)

  datatype State = State(
    amount: PhpInt,
    refId: string,
    trackingCode: string,
    cardNumber: string,
    callbackUrl: string,
    form: string,
    transactionId: nat,
    status: Status,
    log: seq<LogEntry>)

  /** The outcome of a step and the state it leaves. */
  datatype Step = Step(result: Result, state: State)

  /** The record returned for a code the table does not know. */
  function UnknownResult(catalog: Catalog): Message
  {
    Message(catalog.unknownCode, catalog.unknownMessage, UnknownFa, UnknownEn, false)
  }

  /** `getMessage`: the table's entry for the code and description, or the
      unknown-error record; it never fails. */
  function GetMessage(catalog: Catalog, code: string, description: string): (m: Message)
    ensures (code, description) in catalog.responses ==> m == catalog.responses[(code, description)]
    ensures (code, description) !in catalog.responses ==>
      m.code == catalog.unknownCode && m.message == catalog.unknownMessage
      && m.fa == UnknownFa && m.en == UnknownEn && !m.retry
    ensures m in catalog.responses.Values || m == UnknownResult(catalog)
  {
    if (code, description) in catalog.responses then catalog.responses[(code, description)]
    else UnknownResult(catalog)
  }

  /** `sendPayRequest`: start a new record, clear the form, ask the bank. */
  function PayStep(s: State, id: nat, configured: string, catalog: Catalog, reply: PayReply): (r: Step)
    ensures r.state.transactionId == id
    ensures r.state.amount == s.amount && r.state.trackingCode == s.trackingCode && r.state.cardNumber == s.cardNumber
    ensures r.state.callbackUrl == if reply.ClientFault? then s.callbackUrl else CallbackBase(s.callbackUrl, configured)
    ensures r.result == Returned <==>
      reply.PayResponse? && reply.requestKey.Some? && reply.paymentUtilityResult.Some?
    ensures r.result == Returned ==>
      r.state.form == reply.paymentUtilityResult.value && r.state.refId == reply.requestKey.value
      && r.state.status == RefIdSet && r.state.log == []
    ensures r.result.Threw? ==> r.state.form == "" && r.state.refId == s.refId && |r.state.log| == 1
    ensures (reply.ClientFault? || reply.CallFault?) ==>
      r.result == Threw(SoapFault(reply.message)) && r.state.status == Failed
      && r.state.log == [(SoapFaultCode, reply.message)]
    ensures reply.PayResponse? && r.result.Threw? ==>
      r.result == Threw(SadadException(catalog.invalidResponseMessage, catalog.invalidResponseCode))
      && r.state.status == New
      && r.state.log == [(catalog.invalidResponseCode, catalog.invalidResponseMessage)]
  {
    var started := s.(transactionId := id, status := New, log := [], form := "");
    match reply
    case ClientFault(m) =>
      Step(Threw(SoapFault(m)), started.(status := Failed, log := [(SoapFaultCode, m)]))
    case CallFault(m) =>
      var asked := started.(callbackUrl := CallbackBase(s.callbackUrl, configured));
      Step(Threw(SoapFault(m)), asked.(status := Failed, log := [(SoapFaultCode, m)]))
    case PayResponse(key, formHtml) =>
      var asked := started.(callbackUrl := CallbackBase(s.callbackUrl, configured));
      if key.None? || formHtml.None? then
        Step(Threw(SadadException(catalog.invalidResponseMessage, catalog.invalidResponseCode)),
             asked.(log := [(catalog.invalidResponseCode, catalog.invalidResponseMessage)]))
      else
        Step(Returned, asked.(form := formHtml.value, refId := key.value, status := RefIdSet))
  }

  /** Whether a status reply that carries a code reports a committed payment. */
  predicate Committed(res: StatusResult)
    requires res.appStatusCode.Some?
  {
    res.appStatusCode.value == "0" && StrToLower(res.appStatusDescription) == CommitWord
  }

  /** `verifyPayment`: one status request decides the outcome. */
  function VerifyStep(s: State, catalog: Catalog, reply: Reply<Option<StatusResult>>): (r: Step)
    ensures r.result == Returned <==>
      reply.Ok? && reply.body.Some? && reply.body.value.appStatusCode.Some? && Committed(reply.body.value)
    ensures r.state.refId == s.refId && r.state.form == s.form && r.state.amount == s.amount
    ensures r.state.callbackUrl == s.callbackUrl && r.state.transactionId == s.transactionId
    ensures reply.Fault? ==>
      r == Step(Threw(SoapFault(reply.message)), s.(status := Failed, log := s.log + [(SoapFaultCode, reply.message)]))
    ensures reply.Ok? && (reply.body.None? || reply.body.value.appStatusCode.None?) ==>
      r == Step(Threw(SadadException(NoDataMessage, "0")), s)
    ensures reply.Ok? && reply.body.Some? && reply.body.value.appStatusCode.Some? ==>
      var res := reply.body.value;
      var code := res.appStatusCode.value;
      var fa := GetMessage(catalog, code, StrToLower(res.appStatusDescription)).fa;
      r.state.log == s.log + [(code, fa)]
      && (r.result == Returned ==>
            r.state.status == Succeeded
            && r.state.trackingCode == res.traceNo && r.state.cardNumber == res.customerCardNumber)
      && (r.result.Threw? ==>
            r.result == Threw(SadadException(fa, code)) && r.state.status == Failed
            && r.state.trackingCode == s.trackingCode && r.state.cardNumber == s.cardNumber)
  {
    match reply
    case Fault(m) => Step(Threw(SoapFault(m)), s.(status := Failed, log := s.log + [(SoapFaultCode, m)]))
    case Ok(None) => Step(Threw(SadadException(NoDataMessage, "0")), s)
    case Ok(Some(res)) =>
      match res.appStatusCode
      case None => Step(Threw(SadadException(NoDataMessage, "0")), s)
      case Some(code) =>
        var appStatus := StrToLower(res.appStatusDescription);
        var message := GetMessage(catalog, code, appStatus);
        var logged := s.(log := s.log + [(code, message.fa)]);
        if code != "0" || appStatus != CommitWord then
          Step(Threw(SadadException(message.fa, code)), logged.(status := Failed))
        else
          Step(Returned, logged.(trackingCode := res.traceNo, cardNumber := res.customerCardNumber,
                                  status := Succeeded))
  }

  /** The description is compared without regard to case: the status step succeeds
      exactly for code "0" and any spelling of "commit" in small or capital letters. */
  lemma CommitIgnoresCase(s: State, catalog: Catalog, res: StatusResult)
    ensures VerifyStep(s, catalog, Ok(Some(res))).result == Returned <==>
      res.appStatusCode == Some("0") && IsCaseVariantOf(res.appStatusDescription, CommitWord)
  {
    StrToLowerMatches(res.appStatusDescription, CommitWord);
  }

  /** The base class's `verify($transaction)`: continue with the stored transaction. */
  function Load(s: State, t: Transaction): State
  {
    s.(transactionId := t.id, amount := t.price, refId := t.refId, status := t.status, log := t.log)
  }

  /** `verify`: load, then the single status step; there is no settle step. */
  function VerifyRun(s: State, t: Transaction, catalog: Catalog, reply: Reply<Option<StatusResult>>): (r: Step)
    ensures r.result == Returned ==> r.state.status == Succeeded
    ensures r.result == Returned <==>
      reply.Ok? && reply.body.Some? && reply.body.value.appStatusCode.Some? && Committed(reply.body.value)
    ensures r.state.transactionId == t.id && r.state.amount == t.price && r.state.refId == t.refId
    ensures |t.log| <= |r.state.log| <= |t.log| + 1 && r.state.log[..|t.log|] == t.log
    ensures reply.Ok? && (reply.body.None? || reply.body.value.appStatusCode.None?) ==>
      r.state == Load(s, t) && r.result.Threw?
    ensures reply.Fault? || (reply.body.Some? && reply.body.value.appStatusCode.Some?) ==>
      |r.state.log| == |t.log| + 1 && r.state.status == (if r.result == Returned then Succeeded else Failed)
  {
    VerifyStep(Load(s, t), catalog, reply)
  }

  /** The Sadad port object together with the record it writes. */
  class SadadPort {
    /** `SadadResult`'s table and named constants. */
    const catalog: Catalog
    const record: TransactionRecord

    var amount: PhpInt
    var refId: string
    var trackingCode: string
    var cardNumber: string
    var callbackUrl: string
    var form: string

    ghost function Snapshot(): State
      reads this, record
    {
      State(amount, refId, trackingCode, cardNumber, callbackUrl, form, record.id, record.status, record.log)
    }

    constructor (catalog: Catalog)
      ensures this.catalog == catalog && fresh(record)
      ensures Snapshot() == State(0, "", "", "", "", "", 0, New, [])
    {
      this.catalog := catalog;
      amount := 0;
      refId, trackingCode, cardNumber, callbackUrl, form := "", "", "", "", "";
      record := new TransactionRecord();
    }

    /** `set`: the amount is stored as `intval` of what is given. */
    method Set(amount: Amount)
      modifies this`amount
      ensures Snapshot() == old(Snapshot()).(amount := IntVal(amount))
    {
      this.amount := IntVal(amount);
    }

    /** `ready`: send the pay request. */
    method Ready(id: nat, configured: string, makeCallback: (string, nat) -> string, reply: PayReply)
      returns (r: Result)
      modifies this, record
      ensures Step(r, Snapshot()) == PayStep(old(Snapshot()), id, configured, catalog, reply)
    {
      r := SendPayRequest(id, configured, makeCallback, reply);
    }

    /** `setCallback`. */
    method SetCallback(url: string)
      modifies this`callbackUrl
      ensures Snapshot() == old(Snapshot()).(callbackUrl := url)
    {
      callbackUrl := url;
    }

    /** `getCallback`: store the configured base unless a truthy one is set, then
        build the return URL carrying the transaction id. */
    method GetCallback(configured: string, makeCallback: (string, nat) -> string) returns (url: string)
      modifies this`callbackUrl
      ensures Snapshot() == old(Snapshot()).(callbackUrl := CallbackBase(old(callbackUrl), configured))
      ensures url == makeCallback(callbackUrl, record.id)
    {
      if !Truthy(callbackUrl) {
        callbackUrl := configured;
      }
      url := makeCallback(callbackUrl, record.id);
    }

    /** `sendPayRequest`; `id` is the id the new record receives, `reply` the bank's answer. */
    method SendPayRequest(id: nat, configured: string, makeCallback: (string, nat) -> string, reply: PayReply)
      returns (r: Result)
      modifies this, record
      ensures Step(r, Snapshot()) == PayStep(old(Snapshot()), id, configured, catalog, reply)
    {
      record.Start(id);
      form := "";
      if reply.ClientFault? {
        record.MarkFailed();
        record.Append(SoapFaultCode, reply.message);
        return Threw(SoapFault(reply.message));
      }
      // The URL is the last argument of the request, which the bank's reply stands for here.
      var callBackUrl := GetCallback(configured, makeCallback);
      if reply.CallFault? {
        record.MarkFailed();
        record.Append(SoapFaultCode, reply.message);
        return Threw(SoapFault(reply.message));
      }
      if reply.requestKey.None? || reply.paymentUtilityResult.None? {
        record.Append(catalog.invalidResponseCode, catalog.invalidResponseMessage);
        return Threw(SadadException(catalog.invalidResponseMessage, catalog.invalidResponseCode));
      }
      form := reply.paymentUtilityResult.value;
      refId := reply.requestKey.value;
      record.MarkRefIdSet();
      r := Returned;
    }

    /** `verifyPayment`. */
    method VerifyPayment(reply: Reply<Option<StatusResult>>) returns (r: Result)
      modifies this, record
      ensures Step(r, Snapshot()) == VerifyStep(old(Snapshot()), catalog, reply)
    {
      if reply.Fault? {
        record.MarkFailed();
        record.Append(SoapFaultCode, reply.message);
        return Threw(SoapFault(reply.message));
      }
      if reply.body.None? || reply.body.value.appStatusCode.None? {
        return Threw(SadadException(NoDataMessage, "0"));
      }
      var result := reply.body.value;
      var statusResult := result.appStatusCode.value;
      var appStatus := StrToLower(result.appStatusDescription);
      var message := GetMessage(catalog, statusResult, appStatus);
      record.Append(statusResult, message.fa);
      if statusResult != "0" || appStatus != CommitWord {
        record.MarkFailed();
        return Threw(SadadException(message.fa, statusResult));
      }
      trackingCode := result.traceNo;
      cardNumber := result.customerCardNumber;
      record.MarkSucceeded();
      r := Returned;
    }

    /** The base class part of `verify($transaction)`. */
    method LoadTransaction(t: Transaction)
      modifies this, record
      ensures Snapshot() == Load(old(Snapshot()), t)
    {
      record.Adopt(t);
      amount := t.price;
      refId := t.refId;
    }

    /** `verify`: the stored transaction, then the single status step. */
    method Verify(t: Transaction, reply: Reply<Option<StatusResult>>) returns (r: Result)
      modifies this, record
      ensures Step(r, Snapshot()) == VerifyRun(old(Snapshot()), t, catalog, reply)
    {
      LoadTransaction(t);
      r := VerifyPayment(reply);
    }
  }
}

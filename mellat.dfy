/** The Mellat adapter: a two-phase bank. A pay request obtains a reference id;
    after the customer's browser returns, the callback's result code gates a
    verify request, and a successful verify is followed by a settle request,
    which alone marks the transaction succeeded.

    Each protected step is a method of `MellatPort` whose postcondition ties the
    new state to a step function on `State`; those functions state what the
    step does. */
module Mellat {
  import opened Php
  import opened Port

  /** The parameters the bank posts back through the customer's browser
      (`RefId`, `SaleReferenceId`, `CardHolderPan`, `ResCode`); a missing one reads as "". */
  datatype Callback = Callback(refId: string, saleReferenceId: string, cardHolderPan: string, resCode: string)

  /** Everything the adapter's steps read or write: the port's own fields and the
      record that the base class keeps. */
  datatype State = State(
    amount: Amount,
    refId: string,
    trackingCode: string,
    cardNumber: string,
    callbackUrl: string,
    transactionId: nat,
    status: Status,
    log: seq<LogEntry>)

  /** The outcome of a step and the state it leaves. */
  datatype Step = Step(result: Result, state: State)

  /** The code the settle step accepts as "already settled", besides "0". */
  const AlreadySettled: string := "45"

  /** `MellatException::$errors[code]`; a code missing from the table gives PHP's null, here "". */
  function ErrorText(errors: map<string, string>, code: string): string
  {
    if code in errors then errors[code] else ""
  }

  /** `$response[1]` of the exploded pay reply; "" (PHP's null) when there is no second field. */
  function SecondField(fields: seq<string>): string
  {
    if |fields| >= 2 then fields[1] else ""
  }

  /** Mark the record failed, log one entry and throw. */
  function Failing(s: State, code: string, message: string, e: Exception): Step
  {
    Step(Threw(e), s.(status := Failed, log := s.log + [(code, message)]))
  }

  /** The code of a failing reply: "SoapFault" for a fault, otherwise what the bank returned. */
  function CodeOf(reply: Reply<string>): string
  {
    match reply
    case Fault(_) => SoapFaultCode
    case Ok(code) => code
  }

  /** `sendPayRequest`: start a new record, resolve the callback base, ask the bank. */
  function PayStep(s: State, id: nat, configured: string, errors: map<string, string>, reply: Reply<string>): (r: Step)
    ensures r.state.transactionId == id
    ensures r.state.callbackUrl == CallbackBase(s.callbackUrl, configured)
    ensures r.state.amount == s.amount && r.state.trackingCode == s.trackingCode && r.state.cardNumber == s.cardNumber
    ensures r.result == Returned <==> reply.Ok? && Explode(reply.body)[0] == "0"
    ensures r.result == Returned ==>
      r.state.status == RefIdSet && r.state.refId == SecondField(Explode(reply.body)) && r.state.log == []
    ensures reply.Fault? ==>
      r.result == Threw(SoapFault(reply.message)) && r.state.log == [(SoapFaultCode, reply.message)]
    ensures reply.Ok? && Explode(reply.body)[0] != "0" ==>
      var code := Explode(reply.body)[0];
      r.result == Threw(MellatException(code)) && r.state.log == [(code, ErrorText(errors, code))]
    ensures r.result.Threw? ==> r.state.status == Failed && r.state.refId == s.refId
  {
    var started := s.(transactionId := id, status := New, log := [],
                      callbackUrl := CallbackBase(s.callbackUrl, configured));
    match reply
    case Fault(m) => Failing(started, SoapFaultCode, m, SoapFault(m))
    case Ok(body) =>
      var fields := Explode(body);
      if fields[0] != "0" then
        Failing(started, fields[0], ErrorText(errors, fields[0]), MellatException(fields[0]))
      else
        Step(Returned, started.(refId := SecondField(fields), status := RefIdSet))
  }

  /** `userPayment`: copy the callback's fields, then gate on its result code. */
  function CallbackStep(s: State, errors: map<string, string>, cb: Callback): (r: Step)
    ensures r.state.refId == cb.refId && r.state.trackingCode == cb.saleReferenceId
    ensures r.state.cardNumber == cb.cardHolderPan
    ensures r.state.amount == s.amount && r.state.callbackUrl == s.callbackUrl
    ensures r.state.transactionId == s.transactionId
    ensures r.result == Returned <==> cb.resCode == "0"
    ensures r.result == Returned ==> r.state.status == s.status && r.state.log == s.log
    ensures r.result.Threw? ==>
      r.result == Threw(MellatException(cb.resCode)) && r.state.status == Failed
      && r.state.log == s.log + [(cb.resCode, ErrorText(errors, cb.resCode))]
  {
    var copied := s.(refId := cb.refId, trackingCode := cb.saleReferenceId, cardNumber := cb.cardHolderPan);
    if cb.resCode == "0" then Step(Returned, copied)
    else Failing(copied, cb.resCode, ErrorText(errors, cb.resCode), MellatException(cb.resCode))
  }

  /** `verifyPayment`: the bank must return "0"; success changes nothing. */
  function VerifyStep(s: State, errors: map<string, string>, reply: Reply<string>): (r: Step)
    ensures r.result == Returned <==> reply == Ok("0")
    ensures r.result == Returned ==> r.state == s
    ensures r.result.Threw? ==>
      r.state == s.(status := Failed, log := r.state.log)
      && |r.state.log| == |s.log| + 1 && r.state.log[..|s.log|] == s.log
      && r.state.log[|s.log|].0 == CodeOf(reply)
    ensures reply.Fault? ==>
      r.result == Threw(SoapFault(reply.message)) && r.state.log[|s.log|] == (SoapFaultCode, reply.message)
    ensures reply.Ok? && reply.body != "0" ==>
      r.result == Threw(MellatException(reply.body))
      && r.state.log[|s.log|] == (reply.body, ErrorText(errors, reply.body))
  {
    match reply
    case Fault(m) => Failing(s, SoapFaultCode, m, SoapFault(m))
    case Ok(code) =>
      if code != "0" then Failing(s, code, ErrorText(errors, code), MellatException(code))
      else Step(Returned, s)
  }

  /** `settleRequest`: "0" and "45" count as settled. */
  function SettleStep(s: State, errors: map<string, string>, succeedText: string, reply: Reply<string>): (r: Step)
    ensures r.result == Returned <==> reply.Ok? && (reply.body == "0" || reply.body == AlreadySettled)
    ensures r.result == Returned ==> r.state == s.(status := Succeeded, log := s.log + [(reply.body, succeedText)])
    ensures r.result.Threw? ==>
      r.state == s.(status := Failed, log := r.state.log)
      && |r.state.log| == |s.log| + 1 && r.state.log[..|s.log|] == s.log
      && r.state.log[|s.log|].0 == CodeOf(reply)
    ensures reply.Fault? ==>
      r.result == Threw(SoapFault(reply.message)) && r.state.log[|s.log|] == (SoapFaultCode, reply.message)
    ensures r.result.Threw? && reply.Ok? ==>
      r.result == Threw(MellatException(reply.body))
      && r.state.log[|s.log|] == (reply.body, ErrorText(errors, reply.body))
  {
    match reply
    case Fault(m) => Failing(s, SoapFaultCode, m, SoapFault(m))
    case Ok(code) =>
      if code == "0" || code == AlreadySettled then
        Step(Returned, s.(status := Succeeded, log := s.log + [(code, succeedText)]))
      else
        Failing(s, code, ErrorText(errors, code), MellatException(code))
  }

  /** The base class's `verify($transaction)`: continue with the stored transaction. */
  function Load(s: State, t: Transaction): State
  {
    s.(transactionId := t.id, amount := IntAmount(t.price), refId := t.refId, status := t.status, log := t.log)
  }

  /** `verify`: load, then callback check, verify and settle, each only if the one before returned. */
  function VerifyRun(s: State, t: Transaction, errors: map<string, string>, succeedText: string,
                     cb: Callback, verifyReply: Reply<string>, settleReply: Reply<string>): (r: Step)
    ensures r.result == Returned <==>
      cb.resCode == "0" && verifyReply == Ok("0")
      && settleReply.Ok? && (settleReply.body == "0" || settleReply.body == AlreadySettled)
    ensures r.state.status == (if r.result == Returned then Succeeded else Failed)
    ensures |r.state.log| == |t.log| + 1 && r.state.log[..|t.log|] == t.log
    ensures r.result == Returned ==> r.state.log[|t.log|] == (settleReply.body, succeedText)
    ensures r.state.refId == cb.refId && r.state.trackingCode == cb.saleReferenceId
    ensures r.state.cardNumber == cb.cardHolderPan
    ensures r.state.transactionId == t.id && r.state.amount == IntAmount(t.price)
    ensures r.state.callbackUrl == s.callbackUrl
  {
    var checked := CallbackStep(Load(s, t), errors, cb);
    if checked.result.Threw? then checked
    else
      var verified := VerifyStep(checked.state, errors, verifyReply);
      if verified.result.Threw? then verified
      else SettleStep(verified.state, errors, succeedText, settleReply)
  }

  /** A callback that reports failure ends `verify` before any request to the
      bank: the verify and settle replies make no difference. */
  lemma CallbackFailureSkipsBank(s: State, t: Transaction, errors: map<string, string>, succeedText: string,
                                 cb: Callback, v1: Reply<string>, s1: Reply<string>, v2: Reply<string>, s2: Reply<string>)
    requires cb.resCode != "0"
    ensures VerifyRun(s, t, errors, succeedText, cb, v1, s1) == VerifyRun(s, t, errors, succeedText, cb, v2, s2)
    ensures VerifyRun(s, t, errors, succeedText, cb, v1, s1).result == Threw(MellatException(cb.resCode))
  {
  }

  /** A verify request that does not return "0" ends `verify` before the settle request. */
  lemma VerifyFailureSkipsSettle(s: State, t: Transaction, errors: map<string, string>, succeedText: string,
                                 cb: Callback, v: Reply<string>, s1: Reply<string>, s2: Reply<string>)
    requires cb.resCode == "0" && v != Ok("0")
    ensures VerifyRun(s, t, errors, succeedText, cb, v, s1) == VerifyRun(s, t, errors, succeedText, cb, v, s2)
  {
  }

  /** Only the settle step marks a transaction succeeded: neither the callback
      check nor the verify step ever does. */
  lemma OnlySettleSucceeds(s: State, errors: map<string, string>, cb: Callback, reply: Reply<string>)
    requires s.status != Succeeded
    ensures CallbackStep(s, errors, cb).state.status != Succeeded
    ensures VerifyStep(s, errors, reply).state.status != Succeeded
  {
  }

  /** The Mellat port object together with the record it writes. */
  class MellatPort {
    /** `MellatException::$errors`: message text per bank code. */
    const errors: map<string, string>
    /** `Enum::TRANSACTION_SUCCEED_TEXT`. */
    const succeedText: string
    const record: TransactionRecord

    var amount: Amount
    var refId: string
    var trackingCode: string
    var cardNumber: string
    var callbackUrl: string

    ghost function Snapshot(): State
      reads this, record
    {
      State(amount, refId, trackingCode, cardNumber, callbackUrl, record.id, record.status, record.log)
    }

    constructor (errors: map<string, string>, succeedText: string)
      ensures this.errors == errors && this.succeedText == succeedText && fresh(record)
      ensures Snapshot() == State(IntAmount(0), "", "", "", "", 0, New, [])
    {
      this.errors := errors;
      this.succeedText := succeedText;
      amount := IntAmount(0);
      refId, trackingCode, cardNumber, callbackUrl := "", "", "", "";
      record := new TransactionRecord();
    }

    /** `set`: the amount is stored as given. */
    method Set(amount: Amount)
      modifies this`amount
      ensures Snapshot() == old(Snapshot()).(amount := amount)
    {
      this.amount := amount;
    }

    /** `ready`: send the pay request. */
    method Ready(id: nat, configured: string, makeCallback: (string, nat) -> string, reply: Reply<string>)
      returns (r: Result)
      modifies this, record
      ensures Step(r, Snapshot()) == PayStep(old(Snapshot()), id, configured, errors, reply)
    {
      r := SendPayRequest(id, configured, makeCallback, reply);
    }

    /** `setCallback`. */
    method SetCallback(url: string)
      modifies this`callbackUrl
      ensures Snapshot() == old(Snapshot()).(callbackUrl := url)
    {
      callbackUrl := url;
    }

    /** `getCallback`: store the configured base unless a truthy one is set, then
        build the return URL carrying the transaction id. */
    method GetCallback(configured: string, makeCallback: (string, nat) -> string) returns (url: string)
      modifies this`callbackUrl
      ensures Snapshot() == old(Snapshot()).(callbackUrl := CallbackBase(old(callbackUrl), configured))
      ensures url == makeCallback(callbackUrl, record.id)
    {
      if !Truthy(callbackUrl) {
        callbackUrl := configured;
      }
      url := makeCallback(callbackUrl, record.id);
    }

    /** `sendPayRequest`; `id` is the id the new record receives, `reply` the bank's answer. */
    method SendPayRequest(id: nat, configured: string, makeCallback: (string, nat) -> string, reply: Reply<string>)
      returns (r: Result)
      modifies this, record
      ensures Step(r, Snapshot()) == PayStep(old(Snapshot()), id, configured, errors, reply)
    {
      record.Start(id);
      // The URL goes into the request fields, which the bank's reply stands for here.
      var callBackUrl := GetCallback(configured, makeCallback);
      match reply {
        case Fault(m) =>
          record.MarkFailed();
          record.Append(SoapFaultCode, m);
          return Threw(SoapFault(m));
        case Ok(body) =>
          var response := Explode(body);
          if response[0] != "0" {
            record.MarkFailed();
            record.Append(response[0], ErrorText(errors, response[0]));
            return Threw(MellatException(response[0]));
          }
          refId := SecondField(response);
          record.MarkRefIdSet();
          r := Returned;
      }
    }

    /** `userPayment`. */
    method UserPayment(cb: Callback) returns (r: Result)
      modifies this, record
      ensures Step(r, Snapshot()) == CallbackStep(old(Snapshot()), errors, cb)
    {
      refId := cb.refId;
      trackingCode := cb.saleReferenceId;
      cardNumber := cb.cardHolderPan;
      if cb.resCode == "0" {
        return Returned;
      }
      record.MarkFailed();
      record.Append(cb.resCode, ErrorText(errors, cb.resCode));
      r := Threw(MellatException(cb.resCode));
    }

    /** `verifyPayment`. */
    method VerifyPayment(reply: Reply<string>) returns (r: Result)
      modifies record
      ensures Step(r, Snapshot()) == VerifyStep(old(Snapshot()), errors, reply)
    {
      match reply {
        case Fault(m) =>
          record.MarkFailed();
          record.Append(SoapFaultCode, m);
          return Threw(SoapFault(m));
        case Ok(code) =>
          if code != "0" {
            record.MarkFailed();
            record.Append(code, ErrorText(errors, code));
            return Threw(MellatException(code));
          }
          r := Returned;
      }
    }

    /** `settleRequest`. */
    method SettleRequest(reply: Reply<string>) returns (r: Result)
      modifies record
      ensures Step(r, Snapshot()) == SettleStep(old(Snapshot()), errors, succeedText, reply)
    {
      match reply {
        case Fault(m) =>
          record.MarkFailed();
          record.Append(SoapFaultCode, m);
          return Threw(SoapFault(m));
        case Ok(code) =>
          if code == "0" || code == AlreadySettled {
            record.MarkSucceeded();
            record.Append(code, succeedText);
            return Returned;
          }
          record.MarkFailed();
          record.Append(code, ErrorText(errors, code));
          r := Threw(MellatException(code));
      }
    }

    /** The base class part of `verify($transaction)`. */
    method LoadTransaction(t: Transaction)
      modifies this, record
      ensures Snapshot() == Load(old(Snapshot()), t)
    {
      record.Adopt(t);
      amount := IntAmount(t.price);
      refId := t.refId;
    }

    /** `verify`: an exception from one step stops the steps after it. */
    method Verify(t: Transaction, cb: Callback, verifyReply: Reply<string>, settleReply: Reply<string>)
      returns (r: Result)
      modifies this, record
      ensures Step(r, Snapshot()) == VerifyRun(old(Snapshot()), t, errors, succeedText, cb, verifyReply, settleReply)
    {
      LoadTransaction(t);
      r := UserPayment(cb);
      if r.Threw? {
        return;
      }
      r := VerifyPayment(verifyReply);
      if r.Threw? {
        return;
      }
      r := SettleRequest(settleReply);
    }
  }
}

/** What both bank adapters share: the bank's replies, the exceptions an adapter
    throws, the transaction record that the adapters' base class writes, and the
    choice of callback base URL.

    `PortAbstract`, the base class of both adapters, is not part of this model.
    Its operations `newTransaction`, `transactionFailed`, `transactionSucceed`,
    `transactionSetRefId` and `newLog` are taken to be the simple updates of
    `TransactionRecord` below. `verify($transaction)` is taken to adopt the
    stored record: its id, price, reference id, status and log. */
module Port {
  import opened Php

  datatype Option<+T> = None | Some(value: T)

  /** What a remote call gives the adapter: the SOAP client throws a SoapFault
      carrying a message, or the call returns a body. */
  datatype Reply<+T> = Fault(message: string) | Ok(body: T)

  /** The exceptions the adapters throw. */
  datatype Exception =
    | SoapFault(message: string)
    | MellatException(code: string)
    | SadadException(message: string, code: string)

  /** How one protected step ends: it returns normally, or it throws. */
  datatype Result = Returned | Threw(exception: Exception)

  /** The lifecycle of a stored transaction. */
  datatype Status = New | RefIdSet | Succeeded | Failed

  /** One row of a transaction's log: a result code and a message. */
  type LogEntry = (string, string)

  /** The code logged when the SOAP client faults. */
  const SoapFaultCode: string := "SoapFault"

  /** A stored transaction, as `verify` receives it. */
  datatype Transaction = Transaction(id: nat, price: PhpInt, refId: string, status: Status, log: seq<LogEntry>)

  /** The transaction record the base class writes: its id, status and the
      append-only log of `(code, message)` entries. */
  class TransactionRecord {
    var id: nat
    var status: Status
    var log: seq<LogEntry>

    constructor ()
      ensures id == 0 && status == New && log == []
    {
      id, status, log := 0, New, [];
    }

    /** `newTransaction`: a fresh record with the given id, status New and an empty log. */
    method Start(newId: nat)
      modifies this
      ensures id == newId && status == New && log == []
    {
      id, status, log := newId, New, [];
    }

    /** `transactionFailed`. */
    method MarkFailed()
      modifies this`status
      ensures status == Failed
    {
      status := Failed;
    }

    /** `transactionSucceed`. */
    method MarkSucceeded()
      modifies this`status
      ensures status == Succeeded
    {
      status := Succeeded;
    }

    /** `transactionSetRefId`. */
    method MarkRefIdSet()
      modifies this`status
      ensures status == RefIdSet
    {
      status := RefIdSet;
    }

    /** `newLog(code, message)`: appends one entry and changes nothing before it. */
    method Append(code: string, message: string)
      modifies this`log
      ensures log == old(log) + [(code, message)]
    {
      log := log + [(code, message)];
    }

    /** The record part of `verify($transaction)`: continue with the stored record. */
    method Adopt(t: Transaction)
      modifies this
      ensures id == t.id && status == t.status && log == t.log
    {
      id, status, log := t.id, t.status, t.log;
    }
  }

  /** The callback base that `getCallback` stores: the URL already set when it is
      truthy, otherwise the configured one. */
  function CallbackBase(current: string, configured: string): string
  {
    if Truthy(current) then current else configured
  }

  /** The stored base after `getCallback` has run once for each configured URL in turn
      (the configuration is read again on every call that finds no base). Each
      `GetCallback` method of the two ports ensures that it stores
      `CallbackBase(old(callbackUrl), configured)`, so a run of such calls stores
      `BaseAfterCalls` of the URLs configured at each call. */
  function BaseAfterCalls(current: string, configured: seq<string>): string
    decreases |configured|
  {
    if configured == [] then current
    else BaseAfterCalls(CallbackBase(current, configured[0]), configured[1..])
  }

  /** Once a truthy base is stored, no later call changes it. */
  lemma {:induction false} TruthyBaseIsKept(base: string, configured: seq<string>)
    requires Truthy(base)
    ensures BaseAfterCalls(base, configured) == base
  {
    if configured != [] {
      TruthyBaseIsKept(base, configured[1..]);
    }
  }

  /** The base chosen by the first call is used by every later call, provided it is
      truthy: a URL set by `setCallback` wins over the configuration, and otherwise
      the configured URL is stored. */
  lemma BaseSettlesAtFirstCall(current: string, configured: seq<string>)
    requires configured != []
    requires Truthy(current) || Truthy(configured[0])
    ensures BaseAfterCalls(current, configured) == (if Truthy(current) then current else configured[0])
  {
    TruthyBaseIsKept(CallbackBase(current, configured[0]), configured[1..]);
  }

  /** When neither the stored nor the configured URL is truthy, the next call reads
      the configuration again. */
  lemma FalsyBaseIsReread(current: string, first: string, second: string)
    requires !Truthy(current) && !Truthy(first)
    ensures BaseAfterCalls(current, [first, second]) == second
  {
    assert [first, second][1..] == [second] && [second][1..] == [];
    assert BaseAfterCalls(current, [first, second]) == BaseAfterCalls(first, [second]);
    assert BaseAfterCalls(first, [second]) == BaseAfterCalls(second, []);
  }
}

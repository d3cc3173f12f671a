/**
 * The modellable rules of AsyncLinccer: how the outcome of a share or receive
 * becomes the integer message code sent to the caller's handler, how Wi-Fi scan
 * results become the BSSID list handed on, and the persisted client UUID.
 * The network calls `share` and `receive` themselves belong to Linccer, which is
 * not part of this model: their outcome is an input here.
 */
module Linccer {
  import opened Wrappers
  import opened Preferences

  // MessageType codes
  const SEARCHING: int := 4
  const SHARED: int := 3
  const RECEIVED: int := 2
  const NOTHING_SHARED: int := 1
  const NOTHING_RECEIVED: int := 0
  const BAD_MODE: int := -1
  const BAD_CLIENT_ACTION: int := -2
  const COLLISION: int := -3
  const UNKNOWN_EXCEPTION: int := -4

  /** What a share or receive can throw; `Error` stands for a Throwable that is not an Exception. */
  datatype Throwable =
    | BadModeException
    | ClientActionException
    | CollidingActionsException
    | OtherException(name: string)
    | Error(name: string)

  /** How the call to `share` or `receive` ended: a possibly-null result, or a throw. */
  datatype Outcome<T> = Returned(result: Option<T>) | Threw(thrown: Throwable)

  /** The `obj` field of a handler message. */
  datatype Payload<T> = Null | Value(value: T) | Exception(exception: Throwable)

  /** A handler message: its `what` code and its `obj`. */
  datatype Message<T> = Message(what: int, obj: Payload<T>)

  /** The operation whose outcome is reported. */
  datatype Operation = Share | Receive

  /** What a handler can tell from a final message's code. */
  datatype Kind = Delivered | Nothing | BadMode | BadClientAction | Collision | Unknown

  /** The MessageType codes are pairwise distinct; result codes are non-negative, error codes negative. */
  lemma MessageCodesDistinct()
    ensures |{SEARCHING, SHARED, RECEIVED, NOTHING_SHARED, NOTHING_RECEIVED,
              BAD_MODE, BAD_CLIENT_ACTION, COLLISION, UNKNOWN_EXCEPTION}| == 9
    ensures SEARCHING >= 0 && SHARED >= 0 && RECEIVED >= 0 && NOTHING_SHARED >= 0 && NOTHING_RECEIVED >= 0
    ensures BAD_MODE < 0 && BAD_CLIENT_ACTION < 0 && COLLISION < 0 && UNKNOWN_EXCEPTION < 0
  {
  }

  /** The code for a non-null result of `op`. */
  function DeliveredCode(op: Operation): int
  {
    match op
    case Share => SHARED
    case Receive => RECEIVED
  }

  /** The code for a null result of `op`. */
  function NothingCode(op: Operation): int
  {
    match op
    case Share => NOTHING_SHARED
    case Receive => NOTHING_RECEIVED
  }

  /**
   * The message the worker thread sends once `share` or `receive` has ended, or
   * null when what was thrown is not an Exception and so escapes the thread.
   * The result, or the caught exception, travels as `obj`.
   */
  function FinalMessage<T>(op: Operation, outcome: Outcome<T>): (m: Option<Message<T>>)
    ensures m.None? <==> outcome.Threw? && outcome.thrown.Error?
    ensures outcome == Returned(None) ==> m == Some(Message(NothingCode(op), Null))
    ensures outcome.Returned? && outcome.result.Some? ==> m == Some(Message(DeliveredCode(op), Value(outcome.result.value)))
    ensures outcome == Threw(BadModeException) ==> m == Some(Message(BAD_MODE, Exception(BadModeException)))
    ensures outcome == Threw(ClientActionException) ==> m == Some(Message(BAD_CLIENT_ACTION, Exception(ClientActionException)))
    ensures outcome == Threw(CollidingActionsException) ==> m == Some(Message(COLLISION, Exception(CollidingActionsException)))
    ensures outcome.Threw? && outcome.thrown.OtherException? ==> m == Some(Message(UNKNOWN_EXCEPTION, Exception(outcome.thrown)))
    ensures m.Some? && m.value.what >= 0 <==> outcome.Returned?
  {
    match outcome
    case Returned(r) =>
      if r.Some? then Some(Message(DeliveredCode(op), Value(r.value)))
      else Some(Message(NothingCode(op), Null))
    case Threw(t) =>
      match t
      case BadModeException => Some(Message(BAD_MODE, Exception(t)))
      case ClientActionException => Some(Message(BAD_CLIENT_ACTION, Exception(t)))
      case CollidingActionsException => Some(Message(COLLISION, Exception(t)))
      case OtherException(_) => Some(Message(UNKNOWN_EXCEPTION, Exception(t)))
      case Error(_) => None
  }

  /**
   * Every message `asyncShare` / `asyncReceive` hands to the handler, in order:
   * first SEARCHING, then the one final message, if any.
   */
  function HandlerMessages<T>(op: Operation, outcome: Outcome<T>): (ms: seq<Message<T>>)
    ensures 1 <= |ms| <= 2
    ensures ms[0] == Message(SEARCHING, Null)
    ensures |ms| == 2 <==> FinalMessage(op, outcome).Some?
    ensures |ms| == 2 ==> ms[1].what != SEARCHING && ms[1] == FinalMessage(op, outcome).value
  {
    var searching := Message(SEARCHING, Null);
    match FinalMessage(op, outcome)
    case Some(m) => [searching, m]
    case None => [searching]
  }

  /** The kind of outcome as the handler reads it from a final code of `op`. */
  function KindOfCode(op: Operation, what: int): Option<Kind>
  {
    if what == DeliveredCode(op) then Some(Delivered)
    else if what == NothingCode(op) then Some(Nothing)
    else if what == BAD_MODE then Some(BadMode)
    else if what == BAD_CLIENT_ACTION then Some(BadClientAction)
    else if what == COLLISION then Some(Collision)
    else if what == UNKNOWN_EXCEPTION then Some(Unknown)
    else None
  }

  /** The kind of an outcome that produces a final message. */
  function KindOfOutcome<T>(outcome: Outcome<T>): Kind
    requires !(outcome.Threw? && outcome.thrown.Error?)
  {
    match outcome
    case Returned(r) => if r.Some? then Delivered else Nothing
    case Threw(t) =>
      match t
      case BadModeException => BadMode
      case ClientActionException => BadClientAction
      case CollidingActionsException => Collision
      case OtherException(_) => Unknown
  }

  /** A final message's code tells the handler exactly which kind of outcome occurred. */
  lemma FinalCodeIdentifiesOutcome<T>(op: Operation, outcome: Outcome<T>)
    requires !(outcome.Threw? && outcome.thrown.Error?)
    ensures KindOfCode(op, FinalMessage(op, outcome).value.what) == Some(KindOfOutcome(outcome))
  {
  }

  /** A scan result; only its BSSID is used. */
  datatype ScanResult = ScanResult(bssid: string, ssid: string, level: int)

  /**
   * `onWifiScanResults`: the BSSID list handed to `onWifiChanged`, in scan order,
   * or no call at all when the scan list is null.
   */
  method OnWifiScanResults(scanResults: Option<seq<ScanResult>>) returns (wifiChanged: Option<seq<string>>)
    ensures wifiChanged.None? <==> scanResults.None?
    ensures scanResults.Some? ==>
              && |wifiChanged.value| == |scanResults.value|
              && forall i :: 0 <= i < |scanResults.value| ==> wifiChanged.value[i] == scanResults.value[i].bssid
  {
    if scanResults.None? {
      return None;
    }
    var scans := scanResults.value;
    var bssids: seq<string> := [];
    for k := 0 to |scans|
      invariant |bssids| == k
      invariant forall i :: 0 <= i < k ==> bssids[i] == scans[i].bssid
    {
      bssids := bssids + [scans[k].bssid];
    }
    wifiChanged := Some(bssids);
  }

  const CLIENT_UUID_KEY: string := "client_uuid"

  /**
   * `getClientIdFromSharedPreferences`: the UUID stored under "client_uuid" in the
   * application's store; when there is none, `freshUuid` (a random UUID in the
   * source) is stored and returned.
   */
  method GetClientIdFromSharedPreferences(ctx: Context, appName: string, freshUuid: string) returns (id: string)
    modifies ctx
    ensures var store := old(ctx.Store(appName));
            CLIENT_UUID_KEY in store ==> (id == store[CLIENT_UUID_KEY] && ctx.files == old(ctx.files))
    ensures var store := old(ctx.Store(appName));
            CLIENT_UUID_KEY !in store ==>
              (id == freshUuid && ctx.files == old(ctx.files)[appName := store[CLIENT_UUID_KEY := freshUuid]])
  {
    id := ctx.GetStringOrStoreDefault(appName, CLIENT_UUID_KEY, freshUuid);
  }

  /** Once a client ID has been obtained, every later call returns it, whatever fresh UUID it draws. */
  method ClientIdIsStable(ctx: Context, appName: string, uuid1: string, uuid2: string) returns (id1: string, id2: string)
    modifies ctx
    ensures id1 == id2
  {
    id1 := GetClientIdFromSharedPreferences(ctx, appName, uuid1);
    id2 := GetClientIdFromSharedPreferences(ctx, appName, uuid2);
  }
}

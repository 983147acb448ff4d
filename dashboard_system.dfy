/** The `StadiumManagementSystem` object of dashboard.js: the data lists its
    loaders overwrite, the persisted error log, the pending delete action, and
    the error handling every loader shares. */
module DashboardSystem {
  import opened Base
  import opened Text
  import opened DashboardRoles
  import opened DashboardBookings

  /** The error log keeps at most this many entries. */
  const MaxErrorLogs: nat := 100

  /** One entry of the persisted `errorLogs` list. */
  datatype ErrorEntry = ErrorEntry(context: string, error: string, timestamp: string)

  /** What `logError` leaves in storage: the entry pushed last, then the oldest
      entry shifted out once if the list grew past the limit. */
  function AppendLog(log: seq<ErrorEntry>, e: ErrorEntry): (r: seq<ErrorEntry>)
    ensures |r| > 0 && r[|r| - 1] == e
    ensures |r| == if |log| >= MaxErrorLogs then |log| else |log| + 1
    ensures r == (log + [e])[|log| + 1 - |r|..]
  {
    var l := log + [e];
    if |l| > MaxErrorLogs then l[1..] else l
  }

  /** A log within the limit stays within it. */
  lemma AppendLogBounded(log: seq<ErrorEntry>, e: ErrorEntry)
    requires |log| <= MaxErrorLogs
    ensures |AppendLog(log, e)| <= MaxErrorLogs
  {
  }

  /** Older entries keep their relative order; at most the single oldest one is lost. */
  lemma AppendLogKeepsOrder(log: seq<ErrorEntry>, e: ErrorEntry, i: nat)
    requires 0 < i < |log|
    ensures AppendLog(log, e)[|AppendLog(log, e)| - 1 - (|log| - i)] == log[i]
  {
  }

  /** An error thrown by a backend call: its `name` and `message`. */
  datatype ApiError = ApiError(name: string, message: string)

  /** The connection message, written in phrases so that its letters can be
      checked phrase by phrase. */
  const NetworkMessage: string :=
    "تعذر الاتصال" + " بالخادم." + " يرجى التحقق" + " من اتصال" + " الإنترنت."
  const GenericMessage: string := "حدث خطأ غير متوقع"

  /** The connection message does not mention `fetch`, so it can never be
      mistaken for the raw text of the error it replaces. */
  lemma NetworkMessageOmitsFetch()
    ensures !Contains(NetworkMessage, "fetch")
  {
    ContainsNeedsFirstChar(NetworkMessage, "fetch");
  }

  /** The text `handleApiError` shows for an error: never blank; the raw
      message exactly when there is one and it is not a failed `fetch`; and
      otherwise one of the two fixed messages, the connection message for a
      failed `fetch`. */
  function UserMessage(err: ApiError): (m: string)
    ensures m != ""
    ensures m == err.message <==>
      err.message != "" && !(err.name == "TypeError" && Contains(err.message, "fetch"))
    ensures m != err.message ==> m == NetworkMessage || m == GenericMessage
    ensures err.name == "TypeError" && Contains(err.message, "fetch") ==> m == NetworkMessage
  {
    NetworkMessageOmitsFetch();
    if err.name == "TypeError" && Contains(err.message, "fetch") then NetworkMessage
    else if err.message != "" then err.message
    else GenericMessage
  }

  /** A delete the user has been asked to confirm (`currentAction`). */
  datatype PendingAction = PendingAction(kind: string, id: int, name: string)

  /** The backend call `executeDelete` issues. */
  datatype DeleteCall = DeleteStadium(stadiumId: int) | DeleteUser(userId: int)

  class StadiumManagementSystem {
    /** The page's role: `admin`, `owner`, `employee`, or `player` by default. */
    const role: string
    var stadiums: seq<Stadium>
    var bookings: seq<Booking>
    /** The persisted `errorLogs` list. */
    var errorLogs: seq<ErrorEntry>
    var currentAction: Option<PendingAction>

    /** A fresh system for a role, with the error log found in storage. */
    constructor (role: string, storedLog: seq<ErrorEntry>)
      ensures this.role == role
      ensures stadiums == [] && bookings == [] && currentAction == None
      ensures errorLogs == storedLog
    {
      this.role := role;
      stadiums := [];
      bookings := [];
      errorLogs := storedLog;
      currentAction := None;
    }

    /** `logError(errorData)`: push, then shift once when over the limit. */
    method LogError(entry: ErrorEntry)
      modifies this`errorLogs
      ensures errorLogs == AppendLog(old(errorLogs), entry)
      ensures |old(errorLogs)| <= MaxErrorLogs ==> |errorLogs| <= MaxErrorLogs
    {
      var logs := errorLogs;
      logs := logs + [entry];
      if |logs| > MaxErrorLogs {
        logs := logs[1..];
      }
      errorLogs := logs;
    }

    /** `handleApiError(error, context)`: returns the alert text and logs the
        error with the given timestamp. */
    method HandleApiError(err: ApiError, context: string, timestamp: string) returns (shown: string)
      modifies this`errorLogs
      ensures shown == "❌ " + UserMessage(err)
      ensures errorLogs == AppendLog(old(errorLogs), ErrorEntry(context, err.message, timestamp))
    {
      shown := "❌ " + UserMessage(err);
      LogError(ErrorEntry(context, err.message, timestamp));
    }

    /** `loadStadiums()`: requests the role's endpoint; a reply replaces the
        list (a missing list reads as empty), a failure keeps it and is logged. */
    method LoadStadiums(reply: Result<Option<seq<Stadium>>, ApiError>, timestamp: string)
      returns (endpoint: string, shown: Option<string>)
      modifies this`stadiums, this`errorLogs
      ensures endpoint == StadiumsEndpoint(role)
      ensures reply.Ok? ==> shown == None && errorLogs == old(errorLogs)
      ensures reply.Ok? ==> stadiums == (if reply.value.Some? then reply.value.value else [])
      ensures reply.Err? ==> stadiums == old(stadiums) && shown == Some("❌ " + UserMessage(reply.error))
      ensures reply.Err? ==>
        errorLogs == AppendLog(old(errorLogs), ErrorEntry("loadStadiums", reply.error.message, timestamp))
    {
      endpoint := StadiumsEndpoint(role);
      match reply {
        case Ok(list) =>
          stadiums := if list.Some? then list.value else [];
          shown := None;
        case Err(err) =>
          var text := HandleApiError(err, "loadStadiums", timestamp);
          shown := Some(text);
      }
    }

    /** `loadBookings(filters)`: the role's bookings endpoint with the encoded
        filters as query string. */
    method LoadBookings(query: string, reply: Result<Option<seq<Booking>>, ApiError>, timestamp: string)
      returns (url: string, shown: Option<string>)
      modifies this`bookings, this`errorLogs
      ensures url == BookingsEndpoint(role) + "?" + query
      ensures reply.Ok? ==> shown == None && errorLogs == old(errorLogs)
      ensures reply.Ok? ==> bookings == (if reply.value.Some? then reply.value.value else [])
      ensures reply.Err? ==> bookings == old(bookings) && shown == Some("❌ " + UserMessage(reply.error))
      ensures reply.Err? ==>
        errorLogs == AppendLog(old(errorLogs), ErrorEntry("loadBookings", reply.error.message, timestamp))
    {
      url := BookingsEndpoint(role) + "?" + query;
      match reply {
        case Ok(list) =>
          bookings := if list.Some? then list.value else [];
          shown := None;
        case Err(err) =>
          var text := HandleApiError(err, "loadBookings", timestamp);
          shown := Some(text);
      }
    }

    /** `confirmDelete(type, id, name)`: records the pending action, asks with
        the type's message, and on confirmation issues the delete call
        `executeDelete` makes for that type (none for other types). */
    method ConfirmDelete(kind: string, id: int, name: string, confirmed: bool)
      returns (message: string, call: Option<DeleteCall>)
      modifies this`currentAction
      ensures currentAction == Some(PendingAction(kind, id, name))
      ensures message == DeleteMessage(kind, name)
      ensures !confirmed ==> call == None
      ensures confirmed && kind == "stadium" ==> call == Some(DeleteStadium(id))
      ensures confirmed && kind == "user" ==> call == Some(DeleteUser(id))
      ensures kind != "stadium" && kind != "user" ==> call == None
    {
      currentAction := Some(PendingAction(kind, id, name));
      message := DeleteMessage(kind, name);
      call := None;
      if confirmed {
        var action := currentAction.value;
        if action.kind == "stadium" {
          call := Some(DeleteStadium(action.id));
        } else if action.kind == "user" {
          call := Some(DeleteUser(action.id));
        }
      }
    }
  }
}

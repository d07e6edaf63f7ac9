/** `controllers/commandController.js`: a command for a device is built from the
    request, stored as the device's current command in the document store
    under `commands/<uniqueid>`, and logged under `commandLogs`. The document
    store is a second `Db`; the id it generates for the log document is a
    parameter. */
module Commands {
  import opened JsValue
  import opened Tree
  import opened Channel

  const CommandsRoot: Path := ["commands"]
  const LogsRoot: Path := ["commandLogs"]

  /** The action needs a target and a text. */
  predicate IsSms(action: Json) {
    StrictEq(action, Str("sms"))
  }

  /** The action needs a code. */
  predicate NeedsCode(action: Json) {
    StrictEq(action, Str("call")) || StrictEq(action, Str("ussd"))
  }

  /** The fields of `commandData` in the order they are assigned. */
  function CommandFields(body: Json, now: int): seq<Field> {
    var action := Get(body, "action");
    [Field("action", action), Field("simSlot", Get(body, "simSlot")), Field("timestamp", Num(now))]
    + (if IsSms(action) then [Field("to", Get(body, "to")), Field("body", Get(body, "body"))] else [])
    + (if NeedsCode(action) then [Field("code", Get(body, "code"))] else [])
  }

  /** The request fields `commandData` copies from the body. */
  function CopiedKeys(action: Json): seq<string> {
    ["simSlot"] + (if IsSms(action) then ["to", "body"] else []) + (if NeedsCode(action) then ["code"] else [])
  }

  /** A copied field the body lacks is `undefined`, which the document store
      refuses to save. */
  predicate HasUndefined(body: Json) {
    exists k :: k in CopiedKeys(Get(body, "action")) && !Has(body, k)
  }

  /** A body whose `commandData` the document store refuses: a copied field is
      `undefined`, or the action or a copied field nests an array in an array. */
  predicate Unstorable(body: Json) {
    HasUndefined(body)
    || NestsArray(Get(body, "action"))
    || exists k :: k in CopiedKeys(Get(body, "action")) && NestsArray(Get(body, k))
  }

  /** `commandData` always holds the action, the SIM slot and the time; `to` and
      `body` only for an SMS, `code` only for a call or a USSD request. */
  lemma {:induction false} CommandDataFields(body: Json, now: int)
    ensures var data := Obj(CommandFields(body, now));
      Get(data, "action") == Get(body, "action") && Get(data, "simSlot") == Get(body, "simSlot")
      && Get(data, "timestamp") == Num(now)
      && (Has(data, "to") <==> IsSms(Get(body, "action"))) && (Has(data, "body") <==> IsSms(Get(body, "action")))
      && (Has(data, "code") <==> NeedsCode(Get(body, "action")))
      && (IsSms(Get(body, "action")) ==> Get(data, "to") == Get(body, "to") && Get(data, "body") == Get(body, "body"))
      && (NeedsCode(Get(body, "action")) ==> Get(data, "code") == Get(body, "code"))
  {
    var action := Get(body, "action");
    var a := [Field("action", action), Field("simSlot", Get(body, "simSlot")), Field("timestamp", Num(now))];
    var b := if IsSms(action) then [Field("to", Get(body, "to")), Field("body", Get(body, "body"))] else [];
    var c := if NeedsCode(action) then [Field("code", Get(body, "code"))] else [];
    assert !(IsSms(action) && NeedsCode(action));
    forall k ensures Lookup(a, k) == if k == "timestamp" then Some(Num(now)) else if k == "simSlot" then Some(Get(body, "simSlot"))
                                     else if k == "action" then Some(action) else None {
      Lookup3(a[0], a[1], a[2], k);
    }
    if IsSms(action) {
      forall k ensures Lookup(a + b, k) == if k == "body" then Some(Get(body, "body")) else if k == "to" then Some(Get(body, "to")) else Lookup(a, k) {
        LookupAppend(a, b[0], k);
        assert a + b == (a + [b[0]]) + [b[1]];
        LookupAppend(a + [b[0]], b[1], k);
      }
      assert a + b + c == a + b;
    } else if NeedsCode(action) {
      forall k ensures Lookup(a + c, k) == if k == "code" then Some(Get(body, "code")) else Lookup(a, k) {
        LookupAppend(a, c[0], k);
      }
      assert a + b + c == a + c;
    } else {
      assert a + b + c == a;
    }
  }

  /** `{ uniqueid, ...commandData }`. */
  function LogEntry(uniqueid: Json, data: Json): Json {
    Spread([Field("uniqueid", uniqueid)], data)
  }

  /** The log entry carries the device id next to a copy of every command field. */
  lemma {:induction false} LogEntryFields(uniqueid: Json, body: Json, now: int)
    ensures var data := Obj(CommandFields(body, now));
      Get(LogEntry(uniqueid, data), "uniqueid") == uniqueid
      && forall k | k != "uniqueid" :: Get(LogEntry(uniqueid, data), k) == Get(data, k)
  {
    var data := Obj(CommandFields(body, now));
    SpreadFields([Field("uniqueid", uniqueid)], data);
    Lookup1(Field("uniqueid", uniqueid), "uniqueid");
    forall k | k != "uniqueid" ensures Get(LogEntry(uniqueid, data), k) == Get(data, k) {
      Lookup1(Field("uniqueid", uniqueid), k);
    }
    assert !Has(data, "uniqueid") by {
      var fs := CommandFields(body, now);
      forall i | 0 <= i < |fs| ensures fs[i].key != "uniqueid" {
      }
      LookupKeys(fs, "uniqueid");
    }
  }

  function Failure(status: nat, message: string): Response {
    Response(status, Obj([Field("success", Bool(false)), Field("message", Str(message))]))
  }

  /** The store after a command was accepted: the device's command replaced,
      then the log document added. */
  function AfterCommand(root: Json, id: string, logId: string, data: Json): Json {
    SetPath(SetPath(root, CommandsRoot + [id], data), LogsRoot + [logId], LogEntry(Str(id), data))
  }

  /** `handleDeviceCommand`: a falsy `uniqueid` or `action` is refused (with
      status 200) and nothing is written. A request the store rejects, because
      the id is not a string or `commandData` is `Unstorable`, gets 500 and
      nothing is written. Otherwise the command document is overwritten with
      `commandData` and one log document is added. */
  method HandleDeviceCommand(fs: Db, body: Json, now: int, logId: string) returns (resp: Response)
    modifies fs
    ensures !Truthy(Get(body, "uniqueid")) || !Truthy(Get(body, "action")) ==>
              fs.root == old(fs.root) && resp == Failure(200, "Missing action or uniqueid")
    ensures Truthy(Get(body, "uniqueid")) && Truthy(Get(body, "action"))
            && (!Get(body, "uniqueid").Str? || Unstorable(body)) ==>
              fs.root == old(fs.root) && resp == Failure(500, "Server error")
    ensures Truthy(Get(body, "uniqueid")) && Truthy(Get(body, "action"))
            && Get(body, "uniqueid").Str? && !Unstorable(body) ==>
              var data := Obj(CommandFields(body, now));
              fs.root == AfterCommand(old(fs.root), Get(body, "uniqueid").s, logId, data)
              && resp == Response(200, Obj([Field("success", Bool(true)),
                                            Field("message", Str(JsString(Get(body, "action")) + " command sent")),
                                            Field("data", data)]))
  {
    var uniqueid, action := Get(body, "uniqueid"), Get(body, "action");
    if !Truthy(uniqueid) || !Truthy(action) {
      resp := Failure(200, "Missing action or uniqueid");
      return;
    }
    var fields := [Field("action", action), Field("simSlot", Get(body, "simSlot")), Field("timestamp", Num(now))];
    if IsSms(action) {
      fields := fields + [Field("to", Get(body, "to")), Field("body", Get(body, "body"))];
    }
    if NeedsCode(action) {
      fields := fields + [Field("code", Get(body, "code"))];
    }
    assert fields == CommandFields(body, now);
    var data := Obj(fields);
    if !uniqueid.Str? || Unstorable(body) {
      resp := Failure(500, "Server error");
      return;
    }
    fs.Write(CommandsRoot + [uniqueid.s], data);
    fs.Write(LogsRoot + [logId], LogEntry(uniqueid, data));
    resp := Response(200, Obj([Field("success", Bool(true)), Field("message", Str(JsString(action) + " command sent")),
                               Field("data", data)]));
  }

  /** After an accepted command the device's command document is exactly
      `commandData`, the new log document is its copy with the id, and every
      other device's command is as it was. */
  lemma {:induction false} AcceptedCommandStored(root: Json, id: string, logId: string, body: Json, now: int, other: string)
    requires other != id
    ensures var data := Obj(CommandFields(body, now));
      var after := AfterCommand(root, id, logId, data);
      GetPath(after, CommandsRoot + [id]) == data
      && GetPath(after, LogsRoot + [logId]) == LogEntry(Str(id), data)
      && GetPath(after, CommandsRoot + [other]) == GetPath(root, CommandsRoot + [other])
  {
    var data := Obj(CommandFields(body, now));
    var r1 := SetPath(root, CommandsRoot + [id], data);
    var entry := LogEntry(Str(id), data);
    assert Exists(data);
    assert Exists(entry) by {
      LogEntryFields(Str(id), body, now);
      assert Has(entry, "uniqueid");
    }
    ReadBack(root, CommandsRoot + [id], data);
    ReadBack(r1, LogsRoot + [logId], entry);
    ReadOther(r1, LogsRoot + [logId], entry, CommandsRoot + [id]);
    DivergeSiblings(CommandsRoot, id, other, [], []);
    assert CommandsRoot + [id] + [] == CommandsRoot + [id] && CommandsRoot + [other] + [] == CommandsRoot + [other];
    ReadOther(root, CommandsRoot + [id], data, CommandsRoot + [other]);
    ReadOther(r1, LogsRoot + [logId], entry, CommandsRoot + [other]);
  }
}

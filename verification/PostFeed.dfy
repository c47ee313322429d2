/** The texts behind the transport's steps: what a received message or a lost connection does. */
module PostFeed {
  import opened Types
  import opened JsonValue
  import opened JsonScan
  import L = JsonScanLaws
  import T = PostTransport

  /** The body for a reply, as the message handler picks it. */
  method BodyOf(msg: string) returns (body: string)
    ensures body == ReplyBody(msg)
  {
    body := ErrorBody("ws_post_missing_payload");
    var kind := ExtractJsonValue(msg, TYPE_KEY);
    if kind.Some? {
      var payload := ExtractJsonValue(msg, PAYLOAD_KEY);
      if kind.value == "\"error\"" {
        if payload.Some? {
          body := ErrorBody(payload.value);
        } else {
          body := ErrorBody("ws_post_error");
        }
      } else if payload.Some? {
        body := payload.value;
      }
    }
  }

  /** A message without an id is dropped, and one with an id out of range raises an exception: both
      leave the map alone. */
  function ArrivalOf(h: nat, msg: string): Option<T.Step> {
    var id := PostIdOf(msg);
    if id.Id? then Some(T.Arrive(h, id.id, ReplyBody(msg))) else None
  }

  function DisconnectError(reason: string): string {
    ErrorBody("ws_disconnect_" + reason)
  }

  predicate Answers(msg: string, id: nat, body: string) {
    PostIdOf(msg).Id? && PostIdOf(msg).id == id && body == ReplyBody(msg)
  }

  ghost predicate IsAnswer(id: nat, body: string) {
    exists msg :: Answers(msg, id, body)
  }

  ghost predicate IsDisconnect(error: string) {
    exists reason :: error == DisconnectError(reason)
  }

  /** Replies and disconnects of the run come from the connection. */
  ghost predicate FromConnection(steps: seq<T.Step>) {
    forall i :: 0 <= i < |steps| ==>
      && (steps[i].Arrive? ==> IsAnswer(steps[i].id, steps[i].body))
      && (steps[i].Break? ==> IsDisconnect(steps[i].error))
  }

  lemma ArrivalIsFromConnection(h: nat, msg: string)
    requires ArrivalOf(h, msg).Some?
    ensures FromConnection([ArrivalOf(h, msg).value])
  {
    var s := ArrivalOf(h, msg).value;
    assert Answers(msg, s.id, s.body);
  }

  /** A call returns a timeout, the body of a message whose id field is the call's own id, or the
      error of a disconnect. */
  lemma CallGetsItsOwnMessage(w: T.World, steps: seq<T.Step>, id: nat)
    requires T.Initial(w) && T.IsRun(w, steps) && FromConnection(steps) && id in T.Run(w, steps).results
    ensures var r := T.Run(w, steps).results[id];
            r == T.Timeout || IsAnswer(id, r.body) || IsDisconnect(r.body)
  {
    T.CallGetsItsOwnReply(w, steps, id);
    var r := T.Run(w, steps).results[id];
    if r != T.Timeout && T.Arrived(steps, id, r.body) {
      var i :| 0 <= i < |steps| && steps[i].Arrive? && steps[i].id == id && steps[i].body == r.body;
      assert IsAnswer(steps[i].id, steps[i].body);
    } else if r != T.Timeout {
      var i :| 0 <= i < |steps| && steps[i].Break? && steps[i].error == r.body;
      assert IsDisconnect(steps[i].error);
    }
  }

  /** For a reply that is not an error, the body is exactly the text of its payload. */
  lemma BodyIsThePayload(front: string, separators: string, v: Value, rest: string)
    requires Ok(v) && L.AllSeparators(separators) && (Scalar(v) ==> L.Ended(rest))
    requires var msg := front + "\"payload\"" + (separators + (Text(v) + rest));
             && Find(msg, "\"payload\"", 0) == Some(|front|)
             && Extract(msg, "\"type\"").Some? && Extract(msg, "\"type\"").value != "\"error\""
    ensures ReplyBody(front + "\"payload\"" + (separators + (Text(v) + rest))) == Text(v)
  {
    L.ExtractFindsTheValue(front, "\"payload\"", separators, v, rest);
  }

  /** For an error reply it is an error object around the text of the payload. */
  lemma ErrorBodyIsAroundThePayload(front: string, separators: string, v: Value, rest: string)
    requires Ok(v) && L.AllSeparators(separators) && (Scalar(v) ==> L.Ended(rest))
    requires var msg := front + "\"payload\"" + (separators + (Text(v) + rest));
             && Find(msg, "\"payload\"", 0) == Some(|front|)
             && Extract(msg, "\"type\"") == Some("\"error\"")
    ensures ReplyBody(front + "\"payload\"" + (separators + (Text(v) + rest)))
            == "{\"status\":\"error\",\"error\":\"" + Text(v) + "\"}"
  {
    L.ExtractFindsTheValue(front, "\"payload\"", separators, v, rest);
  }

  /** Without a payload that can be cut out the body says which part is missing, and without a type it
      says so too. */
  lemma BodyWithoutPayload(msg: string)
    requires Extract(msg, "\"payload\"").None? || Extract(msg, "\"type\"").None?
    ensures ReplyBody(msg)
            == "{\"status\":\"error\",\"error\":\""
               + (if Extract(msg, "\"type\"") == Some("\"error\"") then "ws_post_error" else "ws_post_missing_payload")
               + "\"}"
  {
  }

  /** The body that a lost connection gives to every pending call. */
  lemma DisconnectBody(reason: string)
    ensures DisconnectError(reason) == "{\"status\":\"error\",\"error\":\"ws_disconnect_" + reason + "\"}"
  {
    assert "{\"status\":\"error\",\"error\":\"" + ("ws_disconnect_" + reason)
      == "{\"status\":\"error\",\"error\":\"ws_disconnect_" + reason;
  }
}

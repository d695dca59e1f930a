/** The record layer between qt_monkey's driver and the monkey application:
    the two packet builders and the dispatcher that classifies the JSON documents
    found in the monkey application's output (qtmonkey_app_api.cpp).

    json11's `Json::parse_multi` is not modelled: the documents it extracted and
    the offset where it stopped are inputs. The three callbacks become one ordered
    sequence of outcomes. */
module MonkeyAppApi {
  import opened JsonValue

  const EventKey := "event"
  const ScriptKey := "script"
  const AppErrorsKey := "app errors"

  /** One callback invocation: `onNewUserAppEvent`, `onUserAppError` or `onParseError`. */
  datatype Outcome =
    | Event(script: string)
    | AppError(msg: string)
    | ParseError(kind: string)

  /** What the dispatcher does with one document: nothing, one callback and go on,
      or report a malformed record and stop. */
  datatype Verdict =
    | Ignored
    | Deliver(outcome: Outcome)
    | Malformed(kind: string)

  /** `QString::fromUtf8(s.c_str())`: the C string ends at the first NUL character,
      so only the part of `s` before it survives. */
  function UpToNul(s: string): (r: string)
    ensures r <= s
    ensures '\0' !in r
    ensures |r| < |s| ==> s[|r|] == '\0'
  {
    if s == [] then []
    else if s[0] == '\0' then []
    else [s[0]] + UpToNul(s[1..])
  }

  lemma UpToNulOfNulFree(s: string)
    requires '\0' !in s
    ensures UpToNul(s) == s
  {
  }

  // ---------------------------------------------------------------- encoders

  /** `userAppEventToFromMonkeyAppPacket`, before json11 serialises it. */
  function UserAppEventPacket(scriptLines: string): (j: Json)
    ensures IsSingleKeyObject(j, EventKey)
    ensures IsSingleKeyObject(j.fields[EventKey], ScriptKey)
    ensures j.fields[EventKey].fields[ScriptKey] == Str(scriptLines)
  {
    Obj(map[EventKey := Obj(map[ScriptKey := Str(scriptLines)])])
  }

  /** `userAppErrorsToFromMonkeyAppPacket`, before json11 serialises it. */
  function UserAppErrorsPacket(errMsg: string): (j: Json)
    ensures IsSingleKeyObject(j, AppErrorsKey)
    ensures j.fields[AppErrorsKey] == Str(errMsg)
  {
    Obj(map[AppErrorsKey := Str(errMsg)])
  }

  // ---------------------------------------------------------------- dispatch

  /** The body of the loop in `parseOutputFromMonkeyApp`, for one document. */
  function Classify(d: Json): (v: Verdict)
    ensures v.Deliver? ==> !v.outcome.ParseError?
    ensures v.Malformed? ==> v.kind == EventKey || v.kind == AppErrorsKey
  {
    if d.Null? then Ignored
    else if IsSingleKeyObject(d, EventKey) then
      var eventJson := d.fields[EventKey];
      if !IsSingleKeyObject(eventJson, ScriptKey) || !eventJson.fields[ScriptKey].Str? then
        Malformed(EventKey)
      else
        Deliver(Event(UpToNul(eventJson.fields[ScriptKey].s)))
    else if IsSingleKeyObject(d, AppErrorsKey) then
      var value := d.fields[AppErrorsKey];
      if !value.Str? then Malformed(AppErrorsKey)
      else Deliver(AppError(UpToNul(value.s)))
    else Ignored
  }

  /** The callbacks fired for a list of documents, in order: the first malformed
      record ends the list with its `ParseError`. */
  function Dispatch(docs: seq<Json>): (out: seq<Outcome>)
    ensures |out| <= |docs|
    ensures forall i :: 0 <= i < |out| - 1 ==> !out[i].ParseError?
  {
    if docs == [] then []
    else
      match Classify(docs[0])
      case Ignored => Dispatch(docs[1..])
      case Deliver(o) => [o] + Dispatch(docs[1..])
      case Malformed(kind) => [ParseError(kind)]
  }

  /** `parseOutputFromMonkeyApp`, given what `Json::parse_multi` returned for the
      buffer: the documents and the offset where the parser stopped. */
  method ParseOutputFromMonkeyApp(docs: seq<Json>, parserStopPos: nat)
    returns (stopPos: nat, outcomes: seq<Outcome>)
    ensures stopPos == parserStopPos
    ensures outcomes == Dispatch(docs)
  {
    stopPos := 0;
    stopPos := parserStopPos;
    outcomes := [];
    for i := 0 to |docs|
      invariant outcomes + Dispatch(docs[i..]) == Dispatch(docs)
    {
      assert docs[i..][1..] == docs[i + 1..];
      var elm := docs[i];
      if elm.Null? {
        continue;
      }
      if IsSingleKeyObject(elm, EventKey) {
        var eventJson := elm.fields[EventKey];
        if !IsSingleKeyObject(eventJson, ScriptKey) || !eventJson.fields[ScriptKey].Str? {
          outcomes := outcomes + [ParseError(EventKey)];
          return;
        }
        outcomes := outcomes + [Event(UpToNul(eventJson.fields[ScriptKey].s))];
      } else if IsSingleKeyObject(elm, AppErrorsKey) {
        var it := elm.fields[AppErrorsKey];
        if !it.Str? {
          outcomes := outcomes + [ParseError(AppErrorsKey)];
          return;
        }
        outcomes := outcomes + [AppError(UpToNul(it.s))];
      }
    }
  }

  // ---------------------------------------------------------------- documents

  /** The documents dispatched as events are exactly the event packets, and the
      script delivered is the packet's script up to its first NUL. */
  lemma EventDocuments(d: Json)
    ensures (Classify(d).Deliver? && Classify(d).outcome.Event?)
            <==> exists s :: d == UserAppEventPacket(s)
    ensures forall s :: d == UserAppEventPacket(s) ==> Classify(d) == Deliver(Event(UpToNul(s)))
  {
    if Classify(d).Deliver? && Classify(d).outcome.Event? {
      var inner := d.fields[EventKey];
      var s := inner.fields[ScriptKey].s;
      SingleKeyMap(inner.fields, ScriptKey);
      SingleKeyMap(d.fields, EventKey);
      assert d == UserAppEventPacket(s);
    }
  }

  /** The documents dispatched as application errors are exactly the error packets. */
  lemma ErrorDocuments(d: Json)
    ensures (Classify(d).Deliver? && Classify(d).outcome.AppError?)
            <==> exists s :: d == UserAppErrorsPacket(s)
    ensures forall s :: d == UserAppErrorsPacket(s) ==> Classify(d) == Deliver(AppError(UpToNul(s)))
  {
    if Classify(d).Deliver? && Classify(d).outcome.AppError? {
      var s := d.fields[AppErrorsKey].s;
      SingleKeyMap(d.fields, AppErrorsKey);
      assert d == UserAppErrorsPacket(s);
    }
  }

  /** A record with a known key but any other shape is a parse error of that kind. */
  lemma MalformedDocuments(d: Json)
    ensures Classify(d) == Malformed(EventKey)
            <==> IsSingleKeyObject(d, EventKey) && forall s :: d != UserAppEventPacket(s)
    ensures Classify(d) == Malformed(AppErrorsKey)
            <==> IsSingleKeyObject(d, AppErrorsKey) && forall s :: d != UserAppErrorsPacket(s)
  {
    EventDocuments(d);
    ErrorDocuments(d);
    if IsSingleKeyObject(d, AppErrorsKey) {
      SingleKeyMap(d.fields, AppErrorsKey);
      assert EventKey != AppErrorsKey;
      assert !IsSingleKeyObject(d, EventKey);
    }
  }

  /** `null` and every document that is not a single-key "event" or "app errors"
      object fires no callback. */
  lemma IgnoredDocuments(d: Json)
    ensures Classify(d) == Ignored
            <==> !IsSingleKeyObject(d, EventKey) && !IsSingleKeyObject(d, AppErrorsKey)
  {
  }

  // ---------------------------------------------------------------- round trips

  /** Encoding an event and dispatching it gives back the script, cut at its first NUL. */
  lemma EventRoundTrip(s: string)
    ensures Dispatch([UserAppEventPacket(s)]) == [Event(UpToNul(s))]
    ensures '\0' !in s ==> Dispatch([UserAppEventPacket(s)]) == [Event(s)]
  {
    EventDocuments(UserAppEventPacket(s));
    assert [UserAppEventPacket(s)][1..] == [];
    if '\0' !in s {
      UpToNulOfNulFree(s);
    }
  }

  /** Encoding an error and dispatching it gives back the message, cut at its first NUL. */
  lemma ErrorRoundTrip(s: string)
    ensures Dispatch([UserAppErrorsPacket(s)]) == [AppError(UpToNul(s))]
    ensures '\0' !in s ==> Dispatch([UserAppErrorsPacket(s)]) == [AppError(s)]
  {
    ErrorDocuments(UserAppErrorsPacket(s));
    assert [UserAppErrorsPacket(s)][1..] == [];
    if '\0' !in s {
      UpToNulOfNulFree(s);
    }
  }

  /** An event or error record whose text holds no NUL character. */
  predicate IsNulFreeRecord(r: Outcome)
  {
    match r
    case Event(s) => '\0' !in s
    case AppError(m) => '\0' !in m
    case ParseError(_) => false
  }

  /** The packet a sender writes for a record. */
  function Packet(r: Outcome): (j: Json)
    requires !r.ParseError?
  {
    if r.Event? then UserAppEventPacket(r.script) else UserAppErrorsPacket(r.msg)
  }

  /** The documents of a stream of records, one packet per record. */
  function Packets(rs: seq<Outcome>): (docs: seq<Json>)
    requires forall i :: 0 <= i < |rs| ==> IsNulFreeRecord(rs[i])
  {
    if rs == [] then []
    else
      assert IsNulFreeRecord(rs[0]);
      [Packet(rs[0])] + Packets(rs[1..])
  }

  /** A stream of encoded records is dispatched as the same records, in order. */
  lemma {:induction false} StreamRoundTrip(rs: seq<Outcome>)
    requires forall i :: 0 <= i < |rs| ==> IsNulFreeRecord(rs[i])
    ensures Dispatch(Packets(rs)) == rs
  {
    if rs != [] {
      var r := rs[0];
      StreamRoundTrip(rs[1..]);
      if r.Event? {
        EventDocuments(Packet(r));
        UpToNulOfNulFree(r.script);
      } else {
        ErrorDocuments(Packet(r));
        UpToNulOfNulFree(r.msg);
      }
      assert Packets(rs)[1..] == Packets(rs[1..]);
    }
  }

  // ---------------------------------------------------------------- the stream

  predicate NoMalformed(docs: seq<Json>)
  {
    forall i :: 0 <= i < |docs| ==> !Classify(docs[i]).Malformed?
  }

  /** No callback fires exactly when every document is ignored. */
  lemma {:induction false} DispatchNothing(docs: seq<Json>)
    ensures Dispatch(docs) == [] <==> forall i :: 0 <= i < |docs| ==> Classify(docs[i]) == Ignored
  {
    if docs != [] {
      DispatchNothing(docs[1..]);
      assert forall i :: 1 <= i < |docs| ==> docs[1..][i - 1] == docs[i];
    }
  }

  /** Documents before any malformed record are dispatched in order, and the
      dispatch of what follows them is appended unchanged. */
  lemma {:induction false} DispatchConcat(a: seq<Json>, b: seq<Json>)
    requires NoMalformed(a)
    ensures Dispatch(a + b) == Dispatch(a) + Dispatch(b)
  {
    if a != [] {
      assert (a + b)[1..] == a[1..] + b;
      assert (a + b)[0] == a[0];
      DispatchConcat(a[1..], b);
    } else {
      assert a + b == b;
    }
  }

  /** A malformed record fires one `ParseError` of its kind and nothing after it
      is dispatched. */
  lemma DispatchStopsAtMalformed(a: seq<Json>, d: Json, b: seq<Json>)
    requires NoMalformed(a)
    requires Classify(d).Malformed?
    ensures Dispatch(a + [d] + b) == Dispatch(a) + [ParseError(Classify(d).kind)]
  {
    assert a + [d] + b == a + ([d] + b);
    DispatchConcat(a, [d] + b);
  }

  /** A `null` keep-alive anywhere in the stream changes nothing. */
  lemma {:induction false} NullIsKeepAlive(a: seq<Json>, b: seq<Json>)
    ensures Dispatch(a + [Null] + b) == Dispatch(a + b)
  {
    if a == [] {
      assert a + [Null] + b == [Null] + b;
      assert ([Null] + b)[1..] == b;
      assert a + b == b;
    } else {
      assert (a + [Null] + b)[1..] == a[1..] + [Null] + b;
      assert (a + b)[1..] == a[1..] + b;
      assert (a + [Null] + b)[0] == a[0] == (a + b)[0];
      NullIsKeepAlive(a[1..], b);
    }
  }
}

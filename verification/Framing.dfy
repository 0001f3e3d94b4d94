/** Cutting a received buffer into JSON messages and dispatching each of them. */
module Framing {
  import opened OvsTypes
  import opened Codec

  /** What `json_loads` with JSON_DISABLE_EOF_CHECK yields: the first value of the
      text and the position behind it. */
  datatype Loaded = Loaded(msg: Json, length: nat)

  type Loader = string -> Option<Loaded>

  /** The loader consumes a nonempty prefix of the text. */
  ghost predicate Consumes(load: Loader) {
    forall s :: load(s).Some? ==> 0 < load(s).value.length <= |s|
  }

  /** Where a message goes. The id of a reply is None when it is not a text. */
  datatype Handling =
    | Malformed
    | Reply(rid: Option<string>, result: Option<Json>)
    | Update(params: seq<Json>)

  function Classify(msg: Json): Handling {
    match Get(msg, "id")
    case None => Malformed
    case Some(JNull) =>
      (match (Get(msg, "method"), Get(msg, "params"))
       case (Some(JString(_)), Some(JArray(items))) => Update(items)
       case _ => Malformed)
    case Some(JString(rid)) => Reply(Some(rid), Get(msg, "result"))
    case Some(_) => Reply(None, Get(msg, "result"))
  }

  /** A message is malformed exactly when it has no id, or has a null id without the name
      of a method and an array of parameters; one with any other id is a reply, whose id
      is used only if it is a text. */
  lemma MalformedIff(msg: Json)
    ensures Classify(msg).Malformed? <==>
      var id := Get(msg, "id");
      || id == None
      || (id == Some(JNull) && !(exists name :: Get(msg, "method") == Some(JString(name))))
      || (id == Some(JNull) && !(exists items :: Get(msg, "params") == Some(JArray(items))))
    ensures Classify(msg).Reply? <==> Get(msg, "id").Some? && Get(msg, "id") != Some(JNull)
    ensures Classify(msg).Reply? ==>
      && Classify(msg).result == Get(msg, "result")
      && (forall rid :: Classify(msg).rid == Some(rid) <==> Get(msg, "id") == Some(JString(rid)))
    ensures Classify(msg).Update? ==> Get(msg, "params") == Some(JArray(Classify(msg).params))
  {
  }

  /** The dispatches made for a buffer, in order, and the status returned. `outcome`
      is the status of each dispatch. */
  datatype Outcome = Outcome(handled: seq<Handling>, status: Status)

  ghost function Dispatches(load: Loader, s: string, outcome: Handling -> Status): Outcome
    requires Consumes(load)
    decreases |s|
  {
    match load(s)
    case None => Outcome([], Failed)
    case Some(l) =>
      var h := Classify(l.msg);
      if h.Malformed? then Outcome([], Failed)
      else if l.length == |s| then Outcome([h], outcome(h))
      else
        var rest := Dispatches(load, s[l.length..], outcome);
        Outcome([h] + rest.handled, rest.status)
  }

  class Listener {
    var handled: seq<Handling>

    constructor ()
      ensures handled == []
    {
      handled := [];
    }

    /** `ovsdb_parse_msg`: loads messages until exactly `size` bytes are read. */
    method ParseMsg(buffer: Option<string>, load: Loader, outcome: Handling -> Status) returns (status: Status)
      requires Consumes(load)
      modifies this
      ensures buffer.None? ==> status == Failed && handled == old(handled)
      ensures buffer.Some? ==>
        var d := Dispatches(load, buffer.value, outcome);
        status == d.status && handled == old(handled) + d.handled
    {
      if buffer.None? { return Failed; }
      var size := |buffer.value|;
      var rest := buffer.value;
      var bytesRead := 0;
      var more := true;
      status := Failed;
      ghost var all := Dispatches(load, buffer.value, outcome);
      ghost var todo := all;
      while more
        invariant bytesRead + |rest| == size
        invariant more ==> todo == Dispatches(load, rest, outcome)
        invariant handled + todo.handled == old(handled) + all.handled && todo.status == all.status
        invariant !more ==> todo.handled == [] && status == all.status
        decreases more, size - bytesRead
      {
        var loaded := load(rest);
        if loaded.None? { return Failed; }
        var h := Classify(loaded.value.msg);
        if h.Malformed? { return Failed; }
        ghost var next := if loaded.value.length == |rest| then Outcome([], todo.status)
                          else Dispatches(load, rest[loaded.value.length..], outcome);
        assert todo.handled == [h] + next.handled;
        assert handled + ([h] + next.handled) == (handled + [h]) + next.handled;
        todo := next;
        handled := handled + [h];
        status := outcome(h);
        bytesRead := bytesRead + loaded.value.length;
        rest := rest[loaded.value.length..];
        more := bytesRead != size;
      }
    }
  }

  // ----- Concatenated messages -----

  /** `text` prints these messages so that the loader reads each of them back, whatever
      follows it. */
  ghost predicate ReadsBack(load: Loader, text: Json -> string, msgs: seq<Json>) {
    && (forall m :: m in msgs ==> text(m) != [])
    && (forall m, rest: string :: m in msgs ==> load(text(m) + rest) == Some(Loaded(m, |text(m)|)))
  }

  lemma ReadsBackRest(load: Loader, text: Json -> string, msgs: seq<Json>)
    requires ReadsBack(load, text, msgs) && msgs != []
    ensures ReadsBack(load, text, msgs[1..])
  {
    assert forall m :: m in msgs[1..] ==> m in msgs;
  }

  function Printed(text: Json -> string, msgs: seq<Json>): string {
    if msgs == [] then [] else text(msgs[0]) + Printed(text, msgs[1..])
  }

  predicate AllWellFormed(msgs: seq<Json>) {
    forall i :: 0 <= i < |msgs| ==> !Classify(msgs[i]).Malformed?
  }

  /** Messages printed one behind the other are dispatched one by one, in order, and
      the status is that of the last. */
  lemma {:induction false} ConcatenationIsDispatched(load: Loader, text: Json -> string, msgs: seq<Json>,
                                                     outcome: Handling -> Status)
    requires Consumes(load) && ReadsBack(load, text, msgs) && msgs != [] && AllWellFormed(msgs)
    ensures var d := Dispatches(load, Printed(text, msgs), outcome);
      && |d.handled| == |msgs|
      && (forall i :: 0 <= i < |msgs| ==> d.handled[i] == Classify(msgs[i]))
      && d.status == outcome(Classify(msgs[|msgs| - 1]))
    decreases |msgs|
  {
    var first, rest := text(msgs[0]), Printed(text, msgs[1..]);
    assert msgs[0] in msgs;
    ReadsBackRest(load, text, msgs);
    assert load(first + rest) == Some(Loaded(msgs[0], |first|));
    assert (first + rest)[|first|..] == rest;
    if |msgs| == 1 {
      assert first + rest == first;
    } else {
      assert msgs[1] in msgs;
      ConcatenationIsDispatched(load, text, msgs[1..], outcome);
    }
  }

  /** Behind well-formed messages, a tail that does not load, or loads as a malformed
      message, stops the loop: exactly the messages before it have been dispatched. */
  lemma {:induction false} BadTailStops(load: Loader, text: Json -> string, msgs: seq<Json>, tail: string,
                                        outcome: Handling -> Status)
    requires Consumes(load) && ReadsBack(load, text, msgs) && AllWellFormed(msgs)
    requires tail != [] && (load(tail).None? || Classify(load(tail).value.msg).Malformed?)
    ensures var d := Dispatches(load, Printed(text, msgs) + tail, outcome);
      && |d.handled| == |msgs| && d.status == Failed
      && (forall i :: 0 <= i < |msgs| ==> d.handled[i] == Classify(msgs[i]))
    decreases |msgs|
  {
    if msgs == [] {
      assert Printed(text, msgs) + tail == tail;
    } else {
      var first, rest := text(msgs[0]), Printed(text, msgs[1..]) + tail;
      assert msgs[0] in msgs;
      ReadsBackRest(load, text, msgs);
      assert Printed(text, msgs) + tail == first + rest;
      assert load(first + rest) == Some(Loaded(msgs[0], |first|));
      assert (first + rest)[|first|..] == rest;
      BadTailStops(load, text, msgs[1..], tail, outcome);
    }
  }
}

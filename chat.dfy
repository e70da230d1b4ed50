/** The chat relay of main.py: the `Client` record with its guarded nick
    change, the process-wide registry `APP.clients`, and the WebSocket
    handler's open, message and close events. Each socket's `send` is
    modelled as appending the frame to that client's entry of `App.sent`;
    `json.dumps` is the identity on decoded values. */
module Chat {
  import opened Wrappers
  import opened Json
  import opened Lists
  import opened Outbox
  import Codec

  /** The nick every new client starts with. */
  const Anonymous: Value := Str("Anonymous")

  /** The `(oldnick, newnick)` pair of a `changenick` message, or the error
      Python raises looking up `msg['data']['oldnick']` and then
      `msg['data']['newnick']`. */
  function NickPair(msg: Value): (r: Result<(Value, Value), PyError>)
    ensures r.Success? <==>
      Index(msg, "data").Success? &&
      Index(Index(msg, "data").value, "oldnick").Success? &&
      Index(Index(msg, "data").value, "newnick").Success?
    ensures r.Success? ==>
      (r.value == (Index(msg, "data").value.fields["oldnick"], Index(msg, "data").value.fields["newnick"]))
    ensures r.Failure? ==>
      (r.error ==
        (if Index(msg, "data").Failure? then Index(msg, "data").error
         else if Index(Index(msg, "data").value, "oldnick").Failure? then
           Index(Index(msg, "data").value, "oldnick").error
         else Index(Index(msg, "data").value, "newnick").error))
  {
    match Index(msg, "data")
    case Failure(e) => Failure(e)
    case Success(data) =>
      match Index(data, "oldnick")
      case Failure(e) => Failure(e)
      case Success(oldnick) =>
        match Index(data, "newnick")
        case Failure(e) => Failure(e)
        case Success(newnick) => Success((oldnick, newnick))
  }

  /** A connected participant. Its socket is the `Client` object itself: what
      was sent to it is kept in `App.sent` under this object. */
  class Client {
    var nick: Value

    constructor (nick: Value)
      ensures this.nick == nick
    {
      this.nick := nick;
    }

    /** `change_nick`: the nick becomes `newnick` exactly when `oldnick` is the
        current nick. Both entries are read on either branch (the log line of
        the rejecting branch subscripts `newnick` too), so a malformed request
        raises before anything changes. */
    method ChangeNick(changeMessage: Value) returns (r: Result<bool, PyError>)
      modifies this
      ensures NickPair(changeMessage).Failure? ==>
        r == Failure(NickPair(changeMessage).error) && nick == old(nick)
      ensures NickPair(changeMessage).Success? ==>
        var (oldnick, newnick) := NickPair(changeMessage).value;
        r == Success(old(nick) == oldnick) &&
        nick == (if old(nick) == oldnick then newnick else old(nick))
    {
      var data := Index(changeMessage, "data");
      if data.Failure? {
        return Failure(data.error);
      }
      var oldnick := Index(data.value, "oldnick");
      if oldnick.Failure? {
        return Failure(oldnick.error);
      }
      if nick == oldnick.value {
        var newnick := Index(data.value, "newnick");
        if newnick.Failure? {
          return Failure(newnick.error);
        }
        nick := newnick.value;
        r := Success(true);
      } else {
        var newnick := Index(data.value, "newnick");
        if newnick.Failure? {
          return Failure(newnick.error);
        }
        r := Success(false);
      }
    }
  }

  /** The nicks of `cs`, in order. */
  function Nicks(cs: seq<Client>): (r: seq<Value>)
    reads cs
    ensures |r| == |cs|
    ensures forall i :: 0 <= i < |cs| ==> r[i] == cs[i].nick
  {
    if cs == [] then [] else [cs[0].nick] + Nicks(cs[1..])
  }

  /** Appending a client to a registry appends its nick to the roster. */
  lemma NicksAppend(cs: seq<Client>, d: Client)
    ensures Nicks(cs + [d]) == Nicks(cs) + [d.nick]
  {
    var r := Nicks(cs + [d]);
    assert forall i :: 0 <= i < |cs| ==> r[i] == (cs + [d])[i].nick == cs[i].nick;
  }

  /** The roster list a browser reads from an `allnicks` frame, if it is one. */
  function RosterOf(frame: Value): Option<seq<Value>>
  {
    if Index(frame, "action") == Success(Str("allnicks")) then
      match Index(frame, "data")
      case Success(data) =>
        (match Index(data, "allnicks")
         case Success(Array(nicks)) => Some(nicks)
         case _ => None)
      case _ => None
    else None
  }

  /** The `allnicks` frame carrying `nicks`, stamped with `now`. */
  function RosterMessage(nicks: seq<Value>, now: real): (r: Value)
    ensures RosterOf(r) == Some(nicks)
    ensures Index(r, "serverdate") == Success(Number(now))
  {
    Object(map[
      "action" := Str("allnicks"),
      "data" := Object(map["allnicks" := Array(nicks)]),
      "serverdate" := Number(now)])
  }

  /** An inbound message with its `serverdate` set to `now`, whatever the
      client supplied. */
  function Stamp(msg: Value, now: real): (r: Value)
    requires msg.Object?
    ensures Index(r, "serverdate") == Success(Number(now))
    ensures forall k :: k != "serverdate" ==> Index(r, k) == Index(msg, k)
  {
    Assign(msg, "serverdate", Number(now))
  }

  /** The application object: the registry `APP.clients`, in connection
      order, and the frames each client's socket has been sent. */
  class App {
    var clients: seq<Client>
    var sent: map<Client, seq<Value>>

    /** Every client is registered at most once. */
    ghost predicate Valid()
      reads this
    {
      Distinct(clients)
    }

    /** `APP.clients = []` at start-up. */
    constructor ()
      ensures Valid() && clients == [] && sent == map[]
    {
      clients := [];
      sent := map[];
    }

    /** `ChatWebSocket.all_nicks`: the `allnicks` frame listing the registered
        clients' nicks in registry order. Its log line joins the nicks with
        `', '.join`, which raises TypeError once some nick is not a string. */
    method AllNicks(now: real) returns (r: Result<Value, PyError>)
      ensures r.Success? <==> AllStrings(Nicks(clients))
      ensures r.Failure? ==> r.error == TypeError
      ensures r.Success? ==> RosterOf(r.value) == Some(Nicks(clients))
      ensures r.Success? ==> r.value == RosterMessage(Nicks(clients), now)
    {
      var nicks: seq<Value> := [];
      var i := 0;
      while i < |clients|
        invariant 0 <= i <= |clients|
        invariant |nicks| == i
        invariant forall k :: 0 <= k < i ==> nicks[k] == clients[k].nick
      {
        nicks := nicks + [clients[i].nick];
        i := i + 1;
      }
      assert nicks == Nicks(clients);
      var line := Join("', '", nicks);
      if line.Failure? {
        return Failure(line.error);
      }
      r := Success(RosterMessage(nicks, now));
    }

    /** `for client in APP.clients: client.socket.send(json.dumps(msg))`. */
    method Broadcast(msg: Value)
      requires Valid()
      modifies this`sent
      ensures Valid()
      ensures sent == SendAll(old(sent), clients, msg)
      ensures Delivered(old(sent), sent, clients, msg)
    {
      var i := 0;
      while i < |clients|
        invariant 0 <= i <= |clients|
        invariant sent == SendAll(old(sent), clients[..i], msg)
      {
        assert clients[..i + 1][..i] == clients[..i];
        sent := Send(sent, clients[i], msg);
        i := i + 1;
      }
      assert clients[..i] == clients;
      SendAllDelivers(old(sent), clients, msg);
    }

    /** `all_nicks()` followed by a broadcast of its result, as `open` and
        `on_close` do: every registered client is sent the roster, unless
        building it raises, in which case nothing is sent. */
    method AnnounceRoster(now: real) returns (r: Outcome<PyError>)
      requires Valid()
      modifies this`sent
      ensures Valid()
      ensures AllStrings(Nicks(clients)) ==>
        r == Pass && Delivered(old(sent), sent, clients, RosterMessage(Nicks(clients), now))
      ensures !AllStrings(Nicks(clients)) ==> r == Fail(TypeError) && sent == old(sent)
    {
      var msg := AllNicks(now);
      if msg.Failure? {
        return Fail(msg.error);
      }
      Broadcast(msg.value);
      r := Pass;
    }

    /** `ChatWebSocket.open`: register a new client named "Anonymous" at the
        end of the registry and send every registered client, the new one
        included, the new roster. */
    method Open(now: real) returns (c: Client, r: Outcome<PyError>)
      requires Valid()
      modifies this
      ensures Valid() && fresh(c)
      ensures clients == old(clients) + [c]
      ensures c.nick == Anonymous
      ensures Nicks(clients) == old(Nicks(clients)) + [Anonymous]
      ensures AllStrings(Nicks(clients)) ==>
        && r == Pass
        && Delivered(old(sent), sent, clients, RosterMessage(Nicks(clients), now))
        && sent[c] == [RosterMessage(Nicks(clients), now)]
      ensures !AllStrings(Nicks(clients)) ==> r == Fail(TypeError) && sent == old(sent)
    {
      ghost var before, nicksBefore := clients, Nicks(clients);
      c := new Client(Anonymous);
      assert Nicks(before) == nicksBefore;
      clients := clients + [c];
      NicksAppend(before, c);
      r := AnnounceRoster(now);
    }

    /** `ChatWebSocket.on_close`: `APP.clients.remove(self.client)`, then send
        the remaining clients the new roster. A client that is not registered
        makes `list.remove` raise ValueError before anything changes. */
    method OnClose(c: Client, now: real) returns (r: Outcome<PyError>)
      requires Valid()
      modifies this
      ensures Valid()
      ensures c !in old(clients) ==>
        r == Fail(ValueError) && clients == old(clients) && sent == old(sent)
      ensures c in old(clients) ==>
        && Remove(old(clients), c) == Success(clients)
        && c !in clients
        && (forall d :: d in clients <==> d in old(clients) && d != c)
        && Sent(sent, c) == Sent(old(sent), c)
      ensures c in old(clients) && AllStrings(Nicks(clients)) ==>
        r == Pass && Delivered(old(sent), sent, clients, RosterMessage(Nicks(clients), now))
      ensures c in old(clients) && !AllStrings(Nicks(clients)) ==>
        r == Fail(TypeError) && sent == old(sent)
    {
      var removed := Remove(clients, c);
      if removed.Failure? {
        return Fail(removed.error);
      }
      RemoveDistinct(clients, c);
      clients := removed.value;
      r := AnnounceRoster(now);
    }

    /** What `process_message(msg)` does when run by the session of client
        `c` at time `now`, given the state before and after it and what it
        returned. */
    twostate predicate Processed(c: Client, msg: Value, now: real, new r: Outcome<PyError>)
      requires msg.Object? && "action" in msg.fields
      reads this, c
    {
      var action := msg.fields["action"];
      var stamped := Stamp(msg, now);
      && clients == old(clients)
      && (if action == Str("message") then
            && r == Pass
            && c.nick == old(c.nick)
            && Delivered(old(sent), sent, clients, stamped)
          else if action == Str("changenick") then
            match NickPair(msg)
            case Failure(e) =>
              r == Fail(e) && c.nick == old(c.nick) && sent == old(sent)
            case Success((oldnick, newnick)) =>
              && r == Pass
              && if old(c.nick) == oldnick then
                   c.nick == newnick && Delivered(old(sent), sent, clients, stamped)
                 else
                   c.nick == old(c.nick) && sent == old(sent)
          else if action == Str("getallnicks") then
            && c.nick == old(c.nick)
            && if AllStrings(old(Nicks(clients))) then
                 r == Pass && Delivered(old(sent), sent, [c], RosterMessage(old(Nicks(clients)), now))
               else
                 r == Fail(TypeError) && sent == old(sent)
          else
            r == Pass && c.nick == old(c.nick) && sent == old(sent))
    }

    /** `ChatWebSocket.process_message`: stamp `serverdate`, then dispatch on
        `action`. A chat message is broadcast to everyone including the
        sender; a nick change is broadcast only when it was accepted; a roster
        request is answered to the sender alone; other actions do nothing. */
    method ProcessMessage(c: Client, msg: Value, now: real) returns (r: Outcome<PyError>)
      requires Valid()
      requires msg.Object? && "action" in msg.fields
      modifies this`sent, c
      ensures Valid()
      ensures Processed(c, msg, now, r)
      ensures forall d :: d in clients && d != c ==> d.nick == old(d.nick)
    {
      var stamped := Stamp(msg, now);
      var action := msg.fields["action"];
      assert Index(stamped, "data") == Index(msg, "data");
      assert NickPair(stamped) == NickPair(msg);
      if action == Str("message") {
        Broadcast(stamped);
        r := Pass;
      } else if action == Str("changenick") {
        var changed := c.ChangeNick(stamped);
        if changed.Failure? {
          return Fail(changed.error);
        }
        if changed.value {
          Broadcast(stamped);
        }
        r := Pass;
      } else if action == Str("getallnicks") {
        var reply := AllNicks(now);
        if reply.Failure? {
          return Fail(reply.error);
        }
        SendDelivers(sent, c, reply.value);
        sent := Send(sent, c, reply.value);
        r := Pass;
      } else {
        r := Pass;
      }
    }

    /** `ChatWebSocket.on_message`: parse the frame (`decoded` is what
        `json.loads` gave, None when it raised ValueError) and process it when
        it is accepted. A dropped frame changes nothing. */
    method OnMessage(c: Client, decoded: Option<Value>, now: real) returns (r: Outcome<PyError>)
      requires Valid()
      modifies this`sent, c
      ensures Valid()
      ensures match Codec.ParseMessage(decoded)
        case Failure(e) =>
          r == Fail(e) && clients == old(clients) && sent == old(sent) && c.nick == old(c.nick)
        case Success(None) =>
          r == Pass && clients == old(clients) && sent == old(sent) && c.nick == old(c.nick)
        case Success(Some(msg)) =>
          Processed(c, msg, now, r)
    {
      var parsed := Codec.ParseMessage(decoded);
      if parsed.Failure? {
        return Fail(parsed.error);
      }
      if parsed.value.None? {
        return Pass;
      }
      r := ProcessMessage(c, parsed.value.value, now);
    }
  }
}

/** Two browsers walked through the chat relay, step by step: what callers
    can conclude from the contracts of `Chat.App` alone. */
module Scenarios {
  import opened Wrappers
  import opened Json
  import opened Outbox
  import opened Chat

  /** A `changenick` request frame. */
  function ChangeNickFrame(oldnick: string, newnick: string): Value
  {
    Object(map[
      "action" := Str("changenick"),
      "data" := Object(map["oldnick" := Str(oldnick), "newnick" := Str(newnick)])])
  }

  /** The first connection is sent a roster naming only itself. */
  method FirstConnection(t: real)
  {
    var app := new App();
    var c1, r := app.Open(t);
    assert Nicks(app.clients) == [Anonymous];
    assert r == Pass && app.clients == [c1];
    assert app.sent == map[c1 := [RosterMessage([Anonymous], t)]];
  }

  /** A second connection sends both browsers the roster of two. */
  method SecondConnection(app: App, c1: Client, t: real) returns (c2: Client)
    requires app.Valid() && app.clients == [c1] && c1.nick == Anonymous
    modifies app
  {
    var log1 := Sent(app.sent, c1);
    var r;
    c2, r := app.Open(t);
    assert app.clients == [c1, c2];
    assert Nicks(app.clients) == [Anonymous, Anonymous];
    assert r == Pass;
    assert app.sent[c1] == log1 + [RosterMessage([Anonymous, Anonymous], t)];
    assert app.sent[c2] == [RosterMessage([Anonymous, Anonymous], t)];
  }

  /** A nick change naming the current nick is broadcast to both browsers. */
  method RenameAccepted(app: App, c1: Client, c2: Client, t: real)
    requires app.Valid() && app.clients == [c1, c2]
    requires c1.nick == Anonymous && c2.nick == Anonymous
    modifies app, c1
  {
    assert app.clients[0] != app.clients[1];
    var log1, log2 := Sent(app.sent, c1), Sent(app.sent, c2);
    var bob := ChangeNickFrame("Anonymous", "Bob");
    var r := app.OnMessage(c1, Some(bob), t);
    assert r == Pass && c1.nick == Str("Bob") && c2.nick == Anonymous;
    assert app.sent[c1] == log1 + [Stamp(bob, t)];
    assert app.sent[c2] == log2 + [Stamp(bob, t)];
  }

  /** A roster request is answered to the requester alone. */
  method RosterRequest(app: App, c1: Client, c2: Client, t: real)
    requires app.Valid() && app.clients == [c1, c2]
    requires c1.nick == Str("Bob") && c2.nick == Anonymous
    modifies app, c2
  {
    var log1, log2 := Sent(app.sent, c1), Sent(app.sent, c2);
    assert Nicks(app.clients) == [Str("Bob"), Anonymous];
    var r := app.OnMessage(c2, Some(Object(map["action" := Str("getallnicks")])), t);
    assert r == Pass;
    assert app.sent[c2] == log2 + [RosterMessage([Str("Bob"), Anonymous], t)];
    assert Sent(app.sent, c1) == log1;
  }

  /** A stale nick change, an undecodable frame and a falsy action are all
      dropped without a reply. */
  method Dropped(app: App, c1: Client, t: real)
    requires app.Valid() && c1.nick == Str("Bob")
    modifies app, c1
  {
    var before := app.sent;
    var r := app.OnMessage(c1, Some(ChangeNickFrame("WRONG", "Eve")), t);
    assert r == Pass && c1.nick == Str("Bob") && app.sent == before;
    r := app.OnMessage(c1, None, t);
    assert r == Pass && app.sent == before;
    r := app.OnMessage(c1, Some(Object(map["action" := Str("")])), t);
    assert r == Pass && app.sent == before;
  }

  /** The remaining browser gets the roster without the one that left;
      closing the same connection again makes `list.remove` raise. */
  method Disconnect(app: App, c1: Client, c2: Client, t: real)
    requires app.Valid() && app.clients == [c1, c2]
    requires c1.nick == Str("Bob")
    modifies app
  {
    var log1, log2 := Sent(app.sent, c1), Sent(app.sent, c2);
    var r := app.OnClose(c2, t);
    assert r == Pass && app.clients == [c1];
    assert Nicks(app.clients) == [Str("Bob")];
    assert app.sent[c1] == log1 + [RosterMessage([Str("Bob")], t)];
    assert Sent(app.sent, c2) == log2;
    r := app.OnClose(c2, t);
    assert r == Fail(ValueError);
  }

  /** A nick change to a non-string nick is accepted and broadcast; from then
      on building the roster raises TypeError, so a roster request gets no
      reply and a new connection is registered without anyone being sent
      the roster. */
  method NonStringNick(app: App, c1: Client, t: real)
    requires app.Valid() && app.clients == [c1] && c1.nick == Anonymous
    modifies app, c1
  {
    var five := Object(map[
      "action" := Str("changenick"),
      "data" := Object(map["oldnick" := Anonymous, "newnick" := Number(5.0)])]);
    var r := app.OnMessage(c1, Some(five), t);
    assert r == Pass && c1.nick == Number(5.0);
    assert Nicks(app.clients) == [Number(5.0)];
    var before := app.sent;
    r := app.OnMessage(c1, Some(Object(map["action" := Str("getallnicks")])), t);
    assert r == Fail(TypeError) && app.sent == before;
    var c2;
    c2, r := app.Open(t);
    assert app.clients == [c1, c2] && Nicks(app.clients)[0] == Number(5.0);
    assert r == Fail(TypeError) && app.sent == before;
  }
}

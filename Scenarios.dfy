/**
 Client scenarios for the registry handlers: what a caller can conclude from
 the handlers' contracts alone. Connection ids and codes are symbolic, so
 each scenario covers every choice of them.
 */
module Scenarios {
  import opened Wire
  import opened Parties
  import opened App

  /** A payload with a single field. */
  function Obj1(k: string, v: Json): Json { JObj(map[k := v]) }

  /** A follower who joins after the host has reported a state is handed
      exactly that state, not the initial one. */
  method LateJoinerGetsReportedState(a: Sid, b: Sid, c: Sid, code: Code, url: Json, state: Json)
    requires ValidCode(code) && a != b && a != c && b != c
  {
    var reg := new Registry();
    var ev := reg.CreateParty(a, Obj1("movieUrl", url), code);
    assert reg.parties[code].playback == InitialPlayback();

    ev := reg.JoinParty(b, Obj1("partyCode", JStr(code)));
    assert ev[0] == Event("join_success", Joined(code, url, InitialPlayback()), ToSid(b), None);

    FirstMatchHead(reg.order, reg.parties, a, HostedBy);
    ev := reg.StateUpdate(a, state);
    assert ev == [Event("resync", Relay(state), ToParty(code), Some(a))];

    ev := reg.JoinParty(c, Obj1("partyCode", JStr(code)));
    assert ev[0] == Event("join_success", Joined(code, url, state), ToSid(c), None);
  }

  /** The concrete filter used below: removing the middle one of three.
      Dafny derives it by unfolding `Without`. */
  lemma DropMiddle(s: seq<User>, sid: Sid)
    requires |s| == 3 && s[0].id != sid && s[1].id == sid && s[2].id != sid
    ensures Without(s, sid) == [s[0], s[2]]
  {
  }

  /** In a party `[A(host), B, C]`, B leaving leaves `[A, C]`. */
  method FollowerLeaves(reg: Registry, code: Code, b: Sid)
    requires reg.Valid() && reg.order == [code]
    requires var users := reg.parties[code].users;
      |users| == 3 && users[0].id != b && users[1].id == b && users[2].id != b
    modifies reg
  {
    var users := reg.parties[code].users;
    assert users[1] in users;
    FirstMatchHead(reg.order, reg.parties, b, Lists);
    var ev := reg.Disconnect(b);
    DropMiddle(users, b);
    assert reg.parties[code].users == [users[0], users[2]];
    assert ev == [Event("user_list_update", UserList([users[0], users[2]]), ToParty(code), None)];
    assert reg.order == [code];
  }

  /** The host disconnecting ends the party for everyone; nobody is
      promoted in the host's place. */
  method HostLeaves(a: Sid, b: Sid, code: Code)
    requires ValidCode(code) && a != b
  {
    var reg := new Registry();
    var ev := reg.CreateParty(a, Obj1("movieUrl", JNull), code);
    ev := reg.JoinParty(b, Obj1("partyCode", JStr(code)));
    assert reg.parties[code].users[0] in reg.parties[code].users;
    FirstMatchHead(reg.order, reg.parties, a, Lists);
    ev := reg.Disconnect(a);
    assert ev == [Event("party_ended", NoData, ToParty(code), None)];
    assert code !in reg.parties;
  }

  /** One connection hosting two parties: `end_party` ends the older one
      and leaves the newer one in place. */
  method TwoPartiesOneHost(a: Sid, c1: Code, c2: Code, u1: Json, u2: Json)
    requires ValidCode(c1) && ValidCode(c2) && c1 != c2
  {
    var reg := new Registry();
    var ev := reg.CreateParty(a, Obj1("movieUrl", u1), c1);
    ev := reg.CreateParty(a, Obj1("movieUrl", u2), c2);
    assert |reg.order| == 2 && reg.order[0] == c1 && reg.order[1] == c2;

    ghost var before := reg.order;
    FirstMatchHead(reg.order, reg.parties, a, HostedBy);
    ev := reg.EndParty(a);
    assert ev == [Event("party_ended", NoData, ToParty(c1), None)];
    EraseAt(before, 0);
    assert |reg.order| == 1 && reg.order[0] == c2;
    assert c1 !in reg.parties && reg.parties[c2].movieUrl == u2;
  }

  /** Drawing a code that is in use overwrites that party where it stands:
      the iteration order is untouched and the new host owns the record. */
  method CodeCollision(reg: Registry, c: Sid, code: Code, name: Json)
    requires reg.Valid() && |reg.order| == 2 && reg.order[0] == code
    modifies reg
  {
    var ev := reg.CreateParty(c, Obj1("username", name), code);
    assert reg.order == old(reg.order);
    assert reg.parties[code].hostSid == c;
    assert reg.parties[code].users == [User(c, name, true)];
    assert reg.parties[code].movieUrl == JNull;
  }

  /** `disconnect` acts on the first party that lists the sender only: a
      connection that follows in an older party and hosts a newer one is
      removed from the older one, and the newer party stays, its host gone. */
  method HostOfLaterPartyLeaves(reg: Registry, c1: Code, c2: Code, b: Sid)
    requires reg.Valid() && |reg.order| == 2 && reg.order[0] == c1 && reg.order[1] == c2
    requires |reg.parties[c1].users| == 2 && reg.parties[c1].users[1].id == b
    requires reg.parties[c1].hostSid != b
    requires reg.parties[c2].hostSid == b
    modifies reg
  {
    assert reg.parties[c1].users[1] in reg.parties[c1].users;
    FirstMatchHead(reg.order, reg.parties, b, Lists);
    var ev := reg.Disconnect(b);
    assert c2 in reg.parties && reg.parties[c2].hostSid == b;
  }
}

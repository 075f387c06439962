/**
 The `parties` registry of the watch-party server and its socket handlers.

 The Python dictionary is kept as two fields: `order`, the keys in the
 dictionary's insertion order (the order `parties.items()` walks), and
 `parties`, the key-to-record map. Each handler takes the sender's
 connection id and payload and returns, in order, the `sio.emit` calls it
 makes.
 */
module App {
  import opened Wire
  import opened Parties

  class Registry {
    var order: seq<Code>
    var parties: map<Code, Party>

    /** The registry invariant: `order` lists every key exactly once, every
        key is a code `create_party` can generate, and every party is
        well formed (host entry first, followers after it). */
    ghost predicate Valid()
      reads this
    {
      && Distinct(order)
      && (forall c :: c in order <==> c in parties)
      && (forall c :: c in parties ==> ValidCode(c) && WellFormed(parties[c]))
    }

    /** `parties = {}` */
    constructor ()
      ensures Valid() && order == [] && parties == map[]
    {
      order := [];
      parties := map[];
    }

    /** The `for code, party in parties.items(): if <test>: ...; break`
        search that `state_update`, `disconnect` and `end_party` share. */
    method Find(sid: Sid, k: Criterion) returns (r: Option<Code>)
      ensures r == FirstMatch(order, parties, sid, k)
    {
      var i := 0;
      while i < |order|
        invariant 0 <= i <= |order|
        invariant forall j :: 0 <= j < i ==> !Matches(order, parties, j, sid, k)
      {
        var code := order[i];
        if code in parties && Meets(parties[code], sid, k) {
          assert Matches(order, parties, i, sid, k);
          return Some(code);
        }
        i := i + 1;
      }
      return None;
    }

    /** `check_party_code`: read-only; answers the sender whether the code
        in the payload names a stored party. */
    method CheckPartyCode(sid: Sid, data: Json) returns (out: seq<Event>)
      ensures !data.JObj? ==> out == []
      ensures data.JObj? ==>
        match Resolve(Get(data, "partyCode"), parties)
        case Known(_) => out == [Notice("party_code_valid", sid)]
        case Unknown => out == [Notice("invalid_party_code", sid)]
        case Unhashable => out == []
    {
      if !data.JObj? {
        return [];
      }
      match Resolve(Get(data, "partyCode"), parties)
      case Known(_) => out := [Notice("party_code_valid", sid)];
      case Unknown => out := [Notice("invalid_party_code", sid)];
      case Unhashable => out := [];
    }

    /** `create_party` under the freshly drawn `code`; an existing party with
        the same code is overwritten in place (it keeps its position). */
    method CreateParty(sid: Sid, data: Json, code: Code) returns (out: seq<Event>)
      requires Valid() && ValidCode(code)
      modifies this
      ensures Valid()
      ensures !data.JObj? ==> order == old(order) && parties == old(parties) && out == []
      ensures data.JObj? ==>
        var p := NewParty(sid, Get(data, "movieUrl"), Get(data, "username"));
        && parties == old(parties)[code := p]
        && order == (if code in old(parties) then old(order) else old(order) + [code])
        && out == [Event("party_created", Created(code, p.users), ToSid(sid), None)]
    {
      if !data.JObj? {
        return [];
      }
      var p := NewParty(sid, Get(data, "movieUrl"), Get(data, "username"));
      if code !in parties {
        order := order + [code];
      }
      parties := parties[code := p];
      out := [Event("party_created", Created(code, p.users), ToSid(sid), None)];
    }

    /** `state_update`: the first party the sender hosts takes the payload
        as its playback state, which is relayed to the rest of the party. */
    method StateUpdate(sid: Sid, data: Json) returns (out: seq<Event>)
      requires Valid()
      modifies this
      ensures Valid()
      ensures order == old(order)
      ensures
        match FirstMatch(old(order), old(parties), sid, HostedBy)
        case None => parties == old(parties) && out == []
        case Some(c) =>
          && parties == old(parties)[c := old(parties)[c].(playback := data)]
          && out == [Event("resync", Relay(data), ToParty(c), Some(sid))]
    {
      var r := Find(sid, HostedBy);
      match r
      case None => out := [];
      case Some(c) =>
        parties := parties[c := parties[c].(playback := data)];
        out := [Event("resync", Relay(data), ToParty(c), Some(sid))];
    }

    /** `join_party`: a known code gets a follower entry appended and the
        joiner is sent the stored movie and playback state; an unknown code
        is answered with `invalid_party_code`. */
    method JoinParty(sid: Sid, data: Json) returns (out: seq<Event>)
      requires Valid()
      modifies this
      ensures Valid()
      ensures order == old(order)
      ensures !data.JObj? ==> parties == old(parties) && out == []
      ensures data.JObj? ==>
        match Resolve(Get(data, "partyCode"), old(parties))
        case Known(c) =>
          var p := old(parties)[c];
          var users := p.users + [User(sid, Get(data, "username"), false)];
          && parties == old(parties)[c := p.(users := users)]
          && out == [Event("join_success", Joined(c, p.movieUrl, p.playback), ToSid(sid), None),
                     Event("user_list_update", UserList(users), ToParty(c), None)]
        case Unknown => parties == old(parties) && out == [Notice("invalid_party_code", sid)]
        case Unhashable => parties == old(parties) && out == []
    {
      if !data.JObj? {
        return [];
      }
      var username := Get(data, "username");
      match Resolve(Get(data, "partyCode"), parties)
      case Known(c) =>
        var p := AddFollower(parties[c], sid, username);
        parties := parties[c := p];
        out := [Event("join_success", Joined(c, p.movieUrl, p.playback), ToSid(sid), None),
                Event("user_list_update", UserList(p.users), ToParty(c), None)];
      case Unknown => out := [Notice("invalid_party_code", sid)];
      case Unhashable => out := [];
    }

    /** Deletes the party stored under `c` from both fields. */
    method Delete(c: Code)
      requires Valid() && c in parties
      modifies this
      ensures Valid()
      ensures parties == old(parties) - {c}
      ensures order == Erase(old(order), c)
    {
      order := Erase(order, c);
      parties := parties - {c};
    }

    /** `disconnect`: in the first party that lists the sender, a host ends
        the party and a follower is removed from its user list. */
    method Disconnect(sid: Sid) returns (out: seq<Event>)
      requires Valid()
      modifies this
      ensures Valid()
      ensures
        match FirstMatch(old(order), old(parties), sid, Lists)
        case None => order == old(order) && parties == old(parties) && out == []
        case Some(c) =>
          var p := old(parties)[c];
          if p.hostSid == sid then
            && parties == old(parties) - {c}
            && order == Erase(old(order), c)
            && out == [Event("party_ended", NoData, ToParty(c), None)]
          else
            && order == old(order)
            && parties == old(parties)[c := p.(users := Without(p.users, sid))]
            && out == [Event("user_list_update", UserList(Without(p.users, sid)), ToParty(c), None)]
    {
      var r := Find(sid, Lists);
      match r
      case None => out := [];
      case Some(c) =>
        var p := parties[c];
        if p.hostSid == sid {
          out := [Event("party_ended", NoData, ToParty(c), None)];
          Delete(c);
        } else {
          LeaveKeepsWellFormed(p, sid);
          var users := Without(p.users, sid);
          parties := parties[c := p.(users := users)];
          out := [Event("user_list_update", UserList(users), ToParty(c), None)];
        }
    }

    /** `end_party`: deletes the first party the sender hosts. */
    method EndParty(sid: Sid) returns (out: seq<Event>)
      requires Valid()
      modifies this
      ensures Valid()
      ensures
        match FirstMatch(old(order), old(parties), sid, HostedBy)
        case None => order == old(order) && parties == old(parties) && out == []
        case Some(c) =>
          && parties == old(parties) - {c}
          && order == Erase(old(order), c)
          && out == [Event("party_ended", NoData, ToParty(c), None)]
    {
      var r := Find(sid, HostedBy);
      match r
      case None => out := [];
      case Some(c) =>
        out := [Event("party_ended", NoData, ToParty(c), None)];
        Delete(c);
    }
  }
}

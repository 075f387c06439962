/**
 Party records and the pure operations the handlers are built from: the
 user-list filter applied on disconnect, the first-match search over the
 registry in insertion order, and key deletion from that order.
 */
module Parties {
  import opened Wire

  /** A party code: the key of the registry. */
  type Code = string

  /** What `random.choices(string.ascii_uppercase + string.digits, k=6)`
      can produce: six characters, each from A-Z or 0-9. */
  predicate ValidCode(c: Code) {
    |c| == 6 && forall i :: 0 <= i < |c| ==> 'A' <= c[i] <= 'Z' || '0' <= c[i] <= '9'
  }

  /** One value of the registry dictionary. */
  datatype Party = Party(hostSid: Sid, movieUrl: Json, users: seq<User>, playback: Json)

  /** The shape every stored party keeps: the host's own entry first, marked
      as host, and every later entry marked as a follower. */
  predicate WellFormed(p: Party) {
    && |p.users| > 0
    && p.users[0].id == p.hostSid
    && p.users[0].isHost
    && forall j :: 1 <= j < |p.users| ==> !p.users[j].isHost
  }

  /** The party `create_party` stores for sender `sid`. */
  function NewParty(sid: Sid, movieUrl: Json, username: Json): (p: Party)
    ensures WellFormed(p)
  {
    Party(sid, movieUrl, [User(sid, username, true)], InitialPlayback())
  }

  /** `p` after a follower entry for `sid` is appended by `join_party`. */
  function AddFollower(p: Party, sid: Sid, username: Json): (q: Party)
    ensures WellFormed(p) ==> WellFormed(q)
  {
    p.(users := p.users + [User(sid, username, false)])
  }

  // ---------------------------------------------------------------------
  // Removing a user on disconnect

  /** `[user for user in users if user['id'] != sid]`. */
  function Without(users: seq<User>, sid: Sid): (r: seq<User>)
    ensures forall u :: u in r <==> u in users && u.id != sid
    ensures |r| <= |users|
  {
    if users == [] then []
    else (if users[0].id == sid then [] else [users[0]]) + Without(users[1..], sid)
  }

  /** Filtering distributes over concatenation, so the users that stay keep
      their relative order. */
  lemma {:induction false} WithoutConcat(a: seq<User>, b: seq<User>, sid: Sid)
    ensures Without(a + b, sid) == Without(a, sid) + Without(b, sid)
  {
    if a == [] {
      assert a + b == b;
    } else {
      assert (a + b)[0] == a[0];
      assert (a + b)[1..] == a[1..] + b;
      WithoutConcat(a[1..], b, sid);
    }
  }

  /** A user who is not the host leaving: the party keeps its host entry
      first and stays well formed (in particular non-empty). Dafny derives
      it from the contract of `Without`. */
  lemma LeaveKeepsWellFormed(p: Party, sid: Sid)
    requires WellFormed(p) && sid != p.hostSid
    ensures WellFormed(p.(users := Without(p.users, sid)))
    ensures Without(p.users, sid)[0] == p.users[0]
  {
  }

  // ---------------------------------------------------------------------
  // Searching the registry in insertion order

  /** The two tests the handlers search with: `party['host_sid'] == sid`
      (`state_update`, `end_party`) and
      `any(user['id'] == sid for user in party['users'])` (`disconnect`). */
  datatype Criterion = HostedBy | Lists

  predicate Meets(p: Party, sid: Sid, k: Criterion) {
    match k
    case HostedBy => p.hostSid == sid
    case Lists => exists u :: u in p.users && u.id == sid
  }

  /** The party stored under the `j`-th code of `order` passes the test. */
  predicate Matches(order: seq<Code>, parties: map<Code, Party>, j: nat, sid: Sid, k: Criterion)
    requires j < |order|
  {
    order[j] in parties && Meets(parties[order[j]], sid, k)
  }

  /** The least index at or after `from` whose party passes the test. */
  function FirstFrom(order: seq<Code>, parties: map<Code, Party>, sid: Sid, k: Criterion, from: nat): (r: Option<nat>)
    requires from <= |order|
    ensures r.Some? ==> from <= r.value < |order| && Matches(order, parties, r.value, sid, k)
    ensures r.Some? ==> forall j :: from <= j < r.value ==> !Matches(order, parties, j, sid, k)
    ensures r.None? ==> forall j :: from <= j < |order| ==> !Matches(order, parties, j, sid, k)
    decreases |order| - from
  {
    if from == |order| then None
    else if Matches(order, parties, from, sid, k) then Some(from)
    else FirstFrom(order, parties, sid, k, from + 1)
  }

  /** The code a `for code, party in parties.items(): ... break` loop stops
      at, or `None` when it runs to the end. */
  function FirstMatch(order: seq<Code>, parties: map<Code, Party>, sid: Sid, k: Criterion): (r: Option<Code>)
    ensures r.Some? ==> r.value in parties && Meets(parties[r.value], sid, k)
    ensures r.Some? ==> exists i :: 0 <= i < |order| && order[i] == r.value &&
                          forall j :: 0 <= j < i ==> !Matches(order, parties, j, sid, k)
    ensures r.None? <==> forall j :: 0 <= j < |order| ==> !Matches(order, parties, j, sid, k)
  {
    match FirstFrom(order, parties, sid, k, 0)
    case None => None
    case Some(i) => Some(order[i])
  }

  /** The search stops at the first party when that one passes the test. */
  lemma FirstMatchHead(order: seq<Code>, parties: map<Code, Party>, sid: Sid, k: Criterion)
    requires |order| > 0 && Matches(order, parties, 0, sid, k)
    ensures FirstMatch(order, parties, sid, k) == Some(order[0])
  {
  }

  // ---------------------------------------------------------------------
  // Deleting a key

  predicate Distinct(s: seq<Code>) {
    forall i, j :: 0 <= i < j < |s| ==> s[i] != s[j]
  }

  /** The iteration order of the registry after `del parties[c]`. */
  function Erase(s: seq<Code>, c: Code): (r: seq<Code>)
    ensures forall x :: x in r <==> x in s && x != c
    ensures Distinct(s) ==> Distinct(r)
  {
    if s == [] then []
    else
      var rest := Erase(s[1..], c);
      assert Distinct(s) ==> Distinct(s[1..]) && s[0] !in s[1..];
      (if s[0] == c then [] else [s[0]]) + rest
  }

  /** Deleting one key from a duplicate-free order only closes the gap:
      the other codes keep their relative order. */
  lemma {:induction false} EraseAt(s: seq<Code>, i: nat)
    requires Distinct(s) && i < |s|
    ensures Erase(s, s[i]) == s[..i] + s[i + 1..]
  {
    if i == 0 {
      assert s[0] !in s[1..];
      EraseAbsent(s[1..], s[0]);
    } else {
      assert Distinct(s[1..]);
      EraseAt(s[1..], i - 1);
      assert s[1..][i - 1] == s[i];
      assert s[0] != s[i];
      assert s[..i] == [s[0]] + s[1..][..i - 1];
      assert s[i + 1..] == s[1..][i..];
    }
  }

  /** Deleting a key that is not there changes nothing. */
  lemma {:induction false} EraseAbsent(s: seq<Code>, c: Code)
    requires c !in s
    ensures Erase(s, c) == s
  {
    if s != [] {
      EraseAbsent(s[1..], c);
      assert s == [s[0]] + s[1..];
    }
  }

  // ---------------------------------------------------------------------
  // Looking up a client-supplied party code

  /** The outcome of `party_code in parties` for a value taken from a
      payload: a string names a party or not; `None`, a boolean or a number
      is never a key; a list or a dictionary is unhashable and the test
      raises `TypeError`. */
  datatype Lookup = Known(code: Code) | Unknown | Unhashable

  function Resolve(key: Json, parties: map<Code, Party>): (r: Lookup)
    ensures r.Known? <==> key.JStr? && key.s in parties
    ensures r.Known? ==> r.code == key.s
    ensures r.Unhashable? <==> key.JArr? || key.JObj?
  {
    match key
    case JStr(s) => if s in parties then Known(s) else Unknown
    case JArr(_) => Unhashable
    case JObj(_) => Unhashable
    case _ => Unknown
  }
}

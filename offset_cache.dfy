/** The offset index of heka/cmd/get-clients/main.go: for every client
    id, the list of places in S3 where that client's messages lie, kept as
    a map of append-only lists with a running count of all entries. */
module OffsetIndex {
  import opened GoNumbers
  import opened Grouping

  /** `MessageLocation`: an S3 key and a byte span inside that object. */
  datatype MessageLocation = MessageLocation(key: string, offset: Uint32, length: Uint32)

  /** One `Add` call: the client id and the location added for it. */
  type Addition = (string, MessageLocation)

  /** A map lookup that reads a missing key as the empty list, as
      `entries, ok := m[c]; if !ok { entries = ... }` does. */
  function Lookup(m: map<string, seq<MessageLocation>>, c: string): (r: seq<MessageLocation>)
    ensures c !in m ==> r == []
    ensures c in m ==> r == m[c]
  {
    if c in m then m[c] else []
  }

  /** The map that the calls `adds`, made in order on a fresh cache,
      leave behind. */
  function Index(adds: seq<Addition>): map<string, seq<MessageLocation>>
    decreases |adds|
  {
    if adds == [] then map[]
    else
      var m := Index(adds[..|adds| - 1]);
      var a := adds[|adds| - 1];
      m[a.0 := Lookup(m, a.0) + [a.1]]
  }

  /** The locations added for client `c`, in the order they were added:
      the calls read from the first on, keeping those made for `c`. */
  function LocationsFor(adds: seq<Addition>, c: string): seq<MessageLocation>
    decreases |adds|
  {
    if adds == [] then []
    else (if adds[0].0 == c then [adds[0].1] else []) + LocationsFor(adds[1..], c)
  }

  /** The client ids of the calls, one per call. */
  function Clients(adds: seq<Addition>): (cs: seq<string>)
    ensures |cs| == |adds|
    ensures forall i :: 0 <= i < |adds| ==> cs[i] == adds[i].0
  {
    seq(|adds|, i requires 0 <= i < |adds| => adds[i].0)
  }

  /** Each client's list in the index is exactly the locations added for
      it, in call order; a client never added has the empty list. */
  lemma {:induction false} IndexLists(adds: seq<Addition>, c: string)
    ensures Lookup(Index(adds), c) == LocationsFor(adds, c)
    ensures c in Index(adds) <==> c in Clients(adds)
    decreases |adds|
  {
    if adds != [] {
      var front, last := adds[..|adds| - 1], adds[|adds| - 1];
      IndexLists(front, c);
      IndexStep(adds, c);
      LocationsForAdd(front, last.0, last.1, c);
      ClientsStep(adds, c);
    }
  }

  lemma ClientsStep(adds: seq<Addition>, c: string)
    requires adds != []
    ensures adds[..|adds| - 1] + [adds[|adds| - 1]] == adds
    ensures c in Clients(adds) <==> c in Clients(adds[..|adds| - 1]) || c == adds[|adds| - 1].0
  {
    var front := adds[..|adds| - 1];
    assert front + [adds[|adds| - 1]] == adds;
    assert Clients(adds) == Clients(front) + [adds[|adds| - 1].0];
  }

  /** One more call updates the map at its own client only. */
  lemma IndexStep(adds: seq<Addition>, c: string)
    requires adds != []
    ensures var front, last := adds[..|adds| - 1], adds[|adds| - 1];
            Lookup(Index(adds), c) == Lookup(Index(front), c) + (if c == last.0 then [last.1] else []) &&
            (c in Index(adds) <==> c in Index(front) || c == last.0)
  {
  }

  /** Adding for one client appends to that client's list and leaves
      every other client's list alone. */
  lemma {:induction false} LocationsForAdd(adds: seq<Addition>, c: string, o: MessageLocation, d: string)
    ensures LocationsFor(adds + [(c, o)], d) == LocationsFor(adds, d) + (if d == c then [o] else [])
    decreases |adds|
  {
    var t := adds + [(c, o)];
    var added := if d == c then [o] else [];
    if adds == [] {
      assert t[1..] == [];
      assert LocationsFor(t, d) == added + LocationsFor(t[1..], d);
    } else {
      var head := if adds[0].0 == d then [adds[0].1] else [];
      assert t[0] == adds[0] && t[1..] == adds[1..] + [(c, o)];
      LocationsForAdd(adds[1..], c, o, d);
      assert LocationsFor(t, d) == head + (LocationsFor(adds[1..], d) + added);
      assert LocationsFor(adds, d) == head + LocationsFor(adds[1..], d);
    }
  }

  /** A client's list is as long as the number of calls made for it. */
  lemma {:induction false} LocationsForCount(adds: seq<Addition>, c: string)
    ensures |LocationsFor(adds, c)| == multiset(Clients(adds))[c]
    decreases |adds|
  {
    if adds != [] {
      LocationsForCount(adds[1..], c);
      assert Clients(adds) == [adds[0].0] + Clients(adds[1..]);
    }
  }

  /** The lengths of the lists of the clients `ks`. */
  function ListLengths(m: map<string, seq<MessageLocation>>, ks: seq<string>): (r: seq<int>)
    ensures |r| == |ks|
  {
    seq(|ks|, i requires 0 <= i < |ks| => |Lookup(m, ks[i])|)
  }

  /** The running count is the total length of all lists: summed over the
      index's keys, each taken once, the list lengths add up to the number
      of calls. */
  lemma TotalLength(adds: seq<Addition>)
    ensures forall c :: c in Index(adds) <==> c in Distinct(Clients(adds))
    ensures Sum(ListLengths(Index(adds), Distinct(Clients(adds)))) == |adds|
  {
    var cs := Clients(adds);
    var ks := Distinct(cs);
    forall c ensures c in Index(adds) <==> c in ks {
      IndexLists(adds, c);
    }
    var lengths := ListLengths(Index(adds), ks);
    forall i | 0 <= i < |ks| ensures lengths[i] == PerKey(ks, Ones(cs))[i] {
      IndexLists(adds, ks[i]);
      LocationsForCount(adds, ks[i]);
      OnesCount(cs, ks[i]);
    }
    assert lengths == PerKey(ks, Ones(cs));
    Conservation(ks, Ones(cs));
    OnesWeigh(cs);
  }

  /** `OffsetCache`. The ghost `added` records every `Add` call since
      `NewOffsetCache`; `Valid` ties the map and the count to it. */
  class OffsetCache {
    var messages: map<string, seq<MessageLocation>>
    var count: int
    ghost var added: seq<Addition>

    ghost predicate Valid()
      reads this
    {
      count == |added| && messages == Index(added)
    }

    /** `NewOffsetCache`: an empty map and a count of zero. */
    constructor ()
      ensures Valid() && added == []
      ensures messages == map[] && count == 0
    {
      messages := map[];
      count := 0;
      added := [];
    }

    /** `Add`: append the location to the client's list (starting one if
        the client is new) and count it. */
    method Add(clientId: string, offset: MessageLocation)
      requires Valid()
      modifies this
      ensures Valid() && added == old(added) + [(clientId, offset)]
      ensures messages == old(messages)[clientId := Lookup(old(messages), clientId) + [offset]]
      ensures count == old(count) + 1
      ensures forall c :: c != clientId ==> Lookup(messages, c) == Lookup(old(messages), c)
    {
      var entries := [];
      if clientId in messages {
        entries := messages[clientId];
      }
      messages := messages[clientId := entries + [offset]];
      count := count + 1;
      added := added + [(clientId, offset)];
      assert added[..|added| - 1] == old(added);
    }

    /** `Get`: the client's list, or the empty list for an unknown client. */
    method Get(clientId: string) returns (entries: seq<MessageLocation>)
      requires Valid()
      ensures entries == LocationsFor(added, clientId)
      ensures clientId !in messages ==> entries == []
    {
      IndexLists(added, clientId);
      if clientId !in messages {
        return [];
      }
      return messages[clientId];
    }

    /** `Size`: the number of `Add` calls. */
    method Size() returns (n: int)
      requires Valid()
      ensures n == |added|
      ensures n == Sum(ListLengths(messages, Distinct(Clients(added))))
    {
      TotalLength(added);
      return count;
    }
  }
}
